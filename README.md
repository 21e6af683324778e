# Waste-pickup client: a Dafny model of its rules and state machines

This project models the client-side logic of a React application through which
customers book waste pickups, follow them and rate them. The application has no
large algorithm. Its behaviour is a set of small rules and state machines spread
over hooks, services, components and pages. The model covers:

- **Cache keys** (`QueryKeys`, `AdminQueries`): the query-cache key factories, the
  admin hook's own factory, and the rule that enables the pickup-detail query.
- **Error normalisation** (`ErrorHandling`): turning whatever a failed service call
  throws into a `{message, code, status}` record.
- **Tokens** (`AuthServiceModel`): the token store over `localStorage`, and the token
  effects of login, register, logout and refresh.
- **The pickup request form** (`PickupRequestForm`): its schema, the cost estimate and
  the photo list.
- **The customer's requests page** (`Requests`, `RequestUtils`): filtering, statistics,
  the active pickup, the date string, the rating guard, the action buttons, the
  time-slot hours and the relative-time text.
- **Geocoding** (`Mapbox`, `AddressInputModel`): how results are shaped, and the
  address field's autocomplete and validation state machine.
- **Notifications** (`NotificationLists`, `NotificationDropdownModel`,
  `PickupNotificationsModel`): the bell dropdown and the pickup notification panel.
- **Dialogs** (`RatingModalModel`, `ConfirmDialogModel`): the rating dialog and the
  confirmation dialog with its hook.
- **Header and profile** (`DashboardHeader`, `ProfilePage`): the header avatar
  initials, and the profile form with its edit mode.
- **Authentication pages** (`RegisterPageModel`, `LoginPageModel`,
  `ResetPasswordPageModel`, `EmailVerificationPageModel`, `ForgotPasswordPageModel`).

Code that works by expressions is modelled as datatypes, functions and lemmas.
Components and services that update state are modelled as classes whose fields
are that state, with methods that say what each handler changes. The helper
modules stand in for JavaScript built-ins:

- `Wrappers`: optional values, settled promises and truthiness.
- `Text`: trim, case, split, join, substring search and number rendering.
- `Sequences`: counting, filtering and subsequences.

Everything the program gets from outside becomes a parameter of the operation
that awaits it: the current time, HTTP outcomes, geocoding responses, prompt
answers, the form library's email check and the local calendar. Callbacks to
parent components are recorded as event lists.

Where a behaviour of the code looks unintended, the model follows the code:

- `formatRelativeTime` renders an unparsable timestamp as "NaNd ago".
- `getRelativeTime` says "1 hours ago" for an instant under an hour in the past.
- The type label keeps every underscore after the first.
- The rating sent from the requests page is not range-checked.
- The shared admin key factory drops an omitted parameter object, while the
  admin hook's local factory keeps it as `undefined`.

## Model

| member | source | states |
|---|---|---|
| PickupTypes.ParseWasteType | src/types/pickup.ts:3 | exactly the three wire names of a waste type are accepted, each as its own type |
| PickupTypes.ParseStatus | src/types/pickup.ts:4-9 | exactly the five wire names of a pickup status are accepted, each as its own status |
| PickupTypes.ParseTimeSlot | src/types/pickup.ts:16 | exactly "morning", "afternoon" and "evening" are accepted |
| PickupTypes.ParseFrequency | src/types/pickup.ts:21 | exactly "weekly", "biweekly" and "monthly" are accepted |
| QueryKeys.CreateQueryKey | src/API/queryKeys.ts:4-6 | the key is the domain followed by an order-preserving subsequence of the arguments; its length is 1 plus the number of defined arguments, and no element after the domain is `undefined` |
| QueryKeys.CreateQueryKeyAllDefined | src/API/queryKeys.ts:4-6 | when every argument is defined, the key is the domain followed by all of them, unchanged |
| QueryKeys.CreateQueryKeyAppend | src/API/queryKeys.ts:4-6 | dropping `undefined` commutes with splitting the argument list, so the order of the defined arguments is kept |
| QueryKeys.CreateQueryKeyOne | src/API/queryKeys.ts:4-6 | with one argument, the key has that argument exactly when it is defined |
| QueryKeys.CreateQueryKeyTwo | src/API/queryKeys.ts:4-6 | with two arguments, each is kept exactly when it is defined, in order |
| QueryKeys.AuthProfile | src/API/queryKeys.ts:11 | the key is `['auth', 'profile']` |
| QueryKeys.AuthUser | src/API/queryKeys.ts:12 | the key is `['auth', 'user', id]` |
| QueryKeys.PickupMy | src/API/queryKeys.ts:18 | the key is `['pickups', 'my']` |
| QueryKeys.PickupDetail | src/API/queryKeys.ts:19 | the key is `['pickups', 'detail', id]` |
| QueryKeys.PickupByStatus | src/API/queryKeys.ts:20 | the key is `['pickups', 'status', status]` |
| QueryKeys.PickupByUser | src/API/queryKeys.ts:21 | the key is `['pickups', 'user', userId]` |
| QueryKeys.AdminPickups | src/API/queryKeys.ts:27 | an omitted parameter object gives `['admin', 'pickups']`; a given one gives `['admin', 'pickups', params]` |
| QueryKeys.AdminDrivers | src/API/queryKeys.ts:28 | the key is `['admin', 'drivers']` |
| QueryKeys.AdminStats | src/API/queryKeys.ts:29 | the key is `['admin', 'stats']` |
| QueryKeys.AdminUsers | src/API/queryKeys.ts:30 | an omitted parameter object gives `['admin', 'users']`; a given one gives `['admin', 'users', params]` |
| QueryKeys.AdminPickupDetail | src/API/queryKeys.ts:31 | the key is `['admin', 'pickup', id]` |
| QueryKeys.AdminDashboard | src/API/queryKeys.ts:32 | the key is `['admin', 'dashboard']` |
| QueryKeys.FactoriesExtendTheirDomainKey | src/API/queryKeys.ts:9-33 | every key a factory builds has that factory's `all` tuple as a prefix |
| QueryKeys.AuthKeysDistinct | src/API/queryKeys.ts:11-12 | `authKeys.user` is injective, and the profile key is never a user key |
| QueryKeys.PickupKeysDistinct | src/API/queryKeys.ts:18-21 | `detail`, `byStatus` and `byUser` are each injective, and no two pickup operations share a key |
| QueryKeys.AdminKeysInjective | src/API/queryKeys.ts:27-31 | `pickupDetail`, `pickups` and `users` are injective in their argument, the omitted parameter object included |
| QueryKeys.AdminKeysDistinct | src/API/queryKeys.ts:27-32 | different admin operations never share a key |
| QueryKeys.HookKeysAgreeWithSharedKeys | src/hooks/usePickupQueries.ts:5-8 | the pickup hook's `my` and `detail` keys, and the auth hook's `profile` key (src/hooks/useAuthQueries.ts:7), equal the shared factories' keys, so the mutations' invalidations reach the cached queries |
| AdminQueries.Pickups | src/hooks/useAdminQueries.ts:8 | the key always has three elements under `['admin']`, with `'pickups'` and then the parameter argument, `undefined` included |
| AdminQueries.Drivers | src/hooks/useAdminQueries.ts:9 | the key is `['admin', 'drivers']` |
| AdminQueries.Stats | src/hooks/useAdminQueries.ts:10 | the key is `['admin', 'stats']` |
| AdminQueries.Users | src/hooks/useAdminQueries.ts:11 | the key always has three elements under `['admin']`, with `'users'` and then the parameter argument, `undefined` included |
| AdminQueries.PickupDetail | src/hooks/useAdminQueries.ts:12 | the key is `['admin', 'pickup', id]` |
| AdminQueries.PickupDetailInjective | src/hooks/useAdminQueries.ts:12 | the local pickup-detail key is injective in the id |
| AdminQueries.PickupDetailsQuery | src/hooks/useAdminQueries.ts:38-45 | the query is enabled exactly for a non-empty id; it uses the pickup-detail key and a two-minute stale time |
| AdminQueries.LocalAndSharedAdminKeys | src/hooks/useAdminQueries.ts:6-13 | with a parameter object the local and shared admin keys agree; without one, the shared key is a proper prefix of the local key and the two never coincide; the fixed keys and the pickup-detail key agree |
| ErrorHandling.HandleServiceError | src/lib/utils/errorHandler.ts:16-109 | the chain of reassignments computes exactly the reference normalisation `ServiceErrorOf`, whose properties the lemmas below state |
| ErrorHandling.HandleAndShowError | src/lib/utils/errorHandler.ts:138-145 | the result is the same as `handleServiceError` on the same inputs, and the toast shows its message |
| ErrorHandling.FixedStatusIgnoresBody | src/lib/utils/errorHandler.ts:57-78 | for 401, 403, 404, 500 and 502-504, the message is the status's fixed text, whatever the body, transport message or default |
| ErrorHandling.BadRequestMessage | src/lib/utils/errorHandler.ts:52-56 | status 400 prefixes "Bad Request: " unless the extracted message already contains "400"; the result contains "400" or starts with the prefix |
| ErrorHandling.ValidationMessage | src/lib/utils/errorHandler.ts:67-69 | status 422 always gives "Validation Error: " followed by the extracted message |
| ErrorHandling.UnlistedStatusKeepsMessage | src/lib/utils/errorHandler.ts:50-80 | a missing, zero or unlisted status leaves the extracted message unchanged |
| ErrorHandling.HttpStatusAndCode | src/lib/utils/errorHandler.ts:25-42 | an HTTP error reports the response's status; a code appears only when the body has no truthy `message` but has an `error` member, and it is that member's code |
| ErrorHandling.BodyPrecedence | src/lib/utils/errorHandler.ts:29-42 | the body's truthy `message` wins; otherwise an `error` member supplies its truthy message (else the current one) and its code; otherwise a truthy `detail`; otherwise the current message stands |
| ErrorHandling.TransportFallback | src/lib/utils/errorHandler.ts:44-47 | the transport message replaces the extracted message exactly when the body left the default in place and the transport message is non-empty |
| ErrorHandling.ExtractedMessageProvenance | src/lib/utils/errorHandler.ts:29-47 | the extracted message is always the body's `message`, `error.message` or `detail`, the transport message, or the default |
| ErrorHandling.NonHttpErrors | src/lib/utils/errorHandler.ts:81-97 | an `Error` gives its message and a string gives itself; an object gives `message`, else `error.message`, else the default, with status from `status` or else `response.status`, and its own truthy code or else `error.code`; anything else gives the default |
| ErrorHandling.OmittedDefaultMessage | src/lib/utils/errorHandler.ts:16-20 | when no default message is passed, a throw that carries nothing usable, or an HTTP error with neither response nor transport message, reports "An error occurred" |
| AuthServiceModel.TokenManager.Token | src/services/authService.ts:15-17 | the access token is present exactly when its key is stored, and is the stored value |
| AuthServiceModel.TokenManager.RefreshToken | src/services/authService.ts:27-29 | the refresh token is present exactly when its key is stored, and is the stored value |
| AuthServiceModel.TokenManager.IsAuthenticated | src/services/authService.ts:44-46 | authenticated exactly when a non-empty access token is stored |
| AuthServiceModel.TokenManager.SetToken | src/services/authService.ts:19-21 | only the access-token entry changes; the refresh token is unchanged |
| AuthServiceModel.TokenManager.RemoveToken | src/services/authService.ts:23-25 | only the access-token entry is removed; the refresh token is unchanged |
| AuthServiceModel.TokenManager.SetRefreshToken | src/services/authService.ts:31-33 | only the refresh-token entry changes; the access token is unchanged |
| AuthServiceModel.TokenManager.RemoveRefreshToken | src/services/authService.ts:35-37 | only the refresh-token entry is removed; the access token is unchanged |
| AuthServiceModel.TokenManager.ClearTokens | src/services/authService.ts:39-42 | both keys are removed and no other entry changes; afterwards the user is not authenticated |
| AuthServiceModel.AuthService.SaveTokens | src/services/authService.ts:63-69 | each returned token is stored only when it is truthy, keeping the previous value otherwise; other entries are untouched |
| AuthServiceModel.AuthService.Login | src/services/authService.ts:56-72 | the request carries the credentials; a failure writes nothing and is passed on; a success stores each truthy token and then authenticates when the access token is truthy; every other storage key keeps its value |
| AuthServiceModel.AuthService.Register | src/services/authService.ts:77-93 | the request carries the registration data; the token effect is the same as for login, and every other storage key keeps its value |
| AuthServiceModel.AuthService.Logout | src/services/authService.ts:98-111 | both tokens are cleared whether the request succeeds or fails, and the failure is not passed on |
| AuthServiceModel.AuthService.Refresh | src/services/authService.ts:128-146 | without a truthy refresh token it fails with "No refresh token available", sending nothing; otherwise it sends that token, replaces only the access token, and only with a truthy one: the storage changes in that one key or not at all |
| AuthServiceModel.AuthService.GetProfile | src/services/authService.ts:116-123 | a profile request with no body, whose outcome is passed on; the token store is outside its frame |
| AuthServiceModel.AuthService.VerifyEmail | src/services/authService.ts:151-157 | the verification request carries the token; the token store is outside its frame |
| AuthServiceModel.AuthService.ResendEmailVerification | src/services/authService.ts:162-167 | a resend request with no body; the token store is outside its frame |
| AuthServiceModel.AuthService.ResetPassword | src/services/authService.ts:172-178 | the reset request carries the email; the token store is outside its frame |
| AuthServiceModel.AuthService.ConfirmPasswordReset | src/services/authService.ts:183-189 | the confirmation carries the token and the new password; the token store is outside its frame |
| AuthServiceModel.AuthService.ChangePassword | src/services/authService.ts:194-200 | the request carries the current and the new password; the token store is outside its frame |
| PickupRequestForm.BaseRate | src/components/forms/PickupRequestForm.tsx:149-153 | the per-kilogram rate is one of 800, 1000 and 2000 FCFA |
| PickupRequestForm.RoundHalfUp | src/components/forms/PickupRequestForm.tsx:158 | the result is the integer nearest to x, with halves rounded up |
| PickupRequestForm.RoundHalfUpMonotone | src/components/forms/PickupRequestForm.tsx:158 | rounding never reverses the order of two amounts |
| PickupRequestForm.CalculateCost | src/components/forms/PickupRequestForm.tsx:148-159 | the cost is rate × weight, times 1.5 when urgent, rounded half up after the surcharge |
| PickupRequestForm.CostMonotoneInWeight | src/components/forms/PickupRequestForm.tsx:155-158 | the cost never decreases as the weight grows |
| PickupRequestForm.UrgentNeverCheaper | src/components/forms/PickupRequestForm.tsx:155-158 | for a non-negative weight, the urgent cost is at least the regular cost |
| PickupRequestForm.TypeOrdering | src/components/forms/PickupRequestForm.tsx:149-153 | for a non-negative weight, hazardous costs at least as much as general, and general at least as much as recyclable |
| PickupRequestForm.WholeWeightCost | src/components/forms/PickupRequestForm.tsx:155-158 | a whole number of kilograms without surcharge costs exactly rate × weight |
| PickupRequestForm.CostExamples | src/components/forms/PickupRequestForm.tsx:148-159 | 10 kg general costs 10000, or 15000 when urgent; 2.5 kg recyclable urgent costs 3000; 0.0025 kg general, an exact half (2.5 FCFA), rounds up to 3 |
| PickupRequestForm.WhereWhenIssues | src/components/forms/PickupRequestForm.tsx:34-38 | no issue exactly when the address has at least 10 characters, the waste type and time slot are in their enums and a date is given; an address issue exactly for a short address |
| PickupRequestForm.AmountIssues | src/components/forms/PickupRequestForm.tsx:39-51 | no issue exactly when the weight is a number in [1, 1000], the notes (if any) have at most 500 characters and the frequency (if any) is in its enum; a weight or notes issue exactly when that rule fails |
| PickupRequestForm.Issues | src/components/forms/PickupRequestForm.tsx:33-52 | the schema accepts exactly when every field rule holds; the address, weight and notes fields are reported exactly when their own rule fails |
| PickupRequestForm.Parse | src/components/forms/PickupRequestForm.tsx:33-52 | the parsed form exists exactly when the schema accepts; it keeps the address, coordinates, type, date, slot, weight, notes and frequency (the frequency named as typed), and defaults the two flags to false |
| PickupRequestForm.RequestForm.UpdateEstimate | src/components/forms/PickupRequestForm.tsx:162-167 | the estimate is recomputed only when the waste type and the weight are both truthy; otherwise the previous value stays |
| PickupRequestForm.RequestForm.HandlePhotoUpload | src/components/forms/PickupRequestForm.tsx:183-192 | only images of at most 5 MiB are taken; they are appended in order after the existing photos, which are never displaced, and the list is cut to five |
| PickupRequestForm.RequestForm.RemovePhoto | src/components/forms/PickupRequestForm.tsx:194-196 | exactly the given position is removed and the rest keep their order; an index out of range changes nothing |
| PickupRequestForm.RequestForm.Submit | src/components/forms/PickupRequestForm.tsx:199-201 | the parent receives the parsed data with the current photo list exactly when the schema accepts |
| PickupRequestForm.SubmitEnabled | src/components/forms/PickupRequestForm.tsx:575 | the submit button is enabled exactly when no request is in flight, the schema accepts the input and the address is valid |
| Requests.FilteredPickups | src/pages/dashboard/Requests.tsx:153-201 | the list is an order-preserving subsequence of the data in which every pickup passes the filters, and it holds as many pickups as pass |
| Requests.FilteredMembership | src/pages/dashboard/Requests.tsx:156-200 | a pickup is listed exactly when it is in the data and passes every filter |
| Requests.NoFiltersKeepsAll | src/pages/dashboard/Requests.tsx:153-201 | with status and type `'all'`, an empty search and the `'all'` date range, the list is the data itself |
| Requests.StatusAndTypeFilters | src/pages/dashboard/Requests.tsx:158-168 | a pickup whose status or waste type differs from a selected one is never listed |
| Requests.SearchFilter | src/pages/dashboard/Requests.tsx:171-185 | with a non-empty search, a pickup is kept exactly when the lowercased query occurs in the lowercased text of address, notes, driver and type label joined by spaces |
| Requests.FuturePickupsKept | src/pages/dashboard/Requests.tsx:188-197 | a pickup dated now or later is never dropped by a date range |
| Requests.WeekRange | src/pages/dashboard/Requests.tsx:188-197 | the week range drops a pickup exactly when it lies 8 or more whole days back, and the month range exactly when it lies 31 or more |
| Requests.FallbackStats | src/pages/dashboard/Requests.tsx:215-232 | total is the list length; pending, scheduled and this-month count their pickups; completed ≤ this month ≤ total and pending + scheduled ≤ total |
| Requests.FallbackCompletedThisMonth | src/pages/dashboard/Requests.tsx:217-230 | the completed figure counts the completed pickups of the current month and year |
| Requests.PageStats | src/pages/dashboard/Requests.tsx:204-233 | server statistics are used when present, with this month copied from the completed count; otherwise the statistics are exactly the fallback computed from the loaded list (an empty list without data) |
| Requests.FirstActive | src/pages/dashboard/Requests.tsx:145-147 | the result is absent exactly when no pickup is assigned or in progress; otherwise it is the first such pickup |
| Requests.ActivePickup | src/pages/dashboard/Requests.tsx:144-148 | there is no active pickup without data; otherwise it is the first active pickup |
| Requests.PickupDateString | src/pages/dashboard/Requests.tsx:241 | the date string is the chosen day, 'T', the slot's two-digit hour and ":00:00" |
| Requests.RatingToSend | src/pages/dashboard/Requests.tsx:300-315 | a rating goes out exactly when the answer is non-empty and numeric, with that number; feedback is sent exactly when it is non-empty |
| Requests.RatingNotRangeChecked | src/pages/dashboard/Requests.tsx:304-310 | an answer of 7, outside one to five stars, is still sent |
| Requests.AvailableActions | src/pages/dashboard/Requests.tsx:763-805 | edit only for pending pickups; cancel for pending or assigned ones; contact for assigned ones with a driver name; rate only for completed ones |
| Requests.ActionsConsistent | src/pages/dashboard/Requests.tsx:763-805 | an editable or contactable pickup can be cancelled; a rateable pickup offers nothing else; in-progress and cancelled pickups offer no action |
| RequestUtils.TimeSlotHour | src/pages/dashboard/components/requestUtils.ts:2-13 | always two digits: "14" for afternoon, "17" for evening and "09" for anything else |
| RequestUtils.TimeSlotHoursDistinct | src/pages/dashboard/components/requestUtils.ts:2-13 | the three slots start at three different hours |
| RequestUtils.RelativeTimeOf | src/pages/dashboard/components/requestUtils.ts:33-48 | the floored whole-hour difference decides the form: hours ago (at least 1) for the past, hours under a day, then whole days (at least 1); an unparsable date gives the NaN form |
| RequestUtils.PastIsHoursAgo | src/pages/dashboard/components/requestUtils.ts:40-41 | any instant strictly in the past reads "hours ago", and one under an hour back reads "1 hours ago" |
| RequestUtils.RelativeTimeText | src/pages/dashboard/components/requestUtils.ts:40-47 | the text is "N hours ago", "In N hours", "In N days" or "In NaN days" |
| RequestUtils.RelativeTimeTextInjective | src/pages/dashboard/components/requestUtils.ts:40-47 | different relative times never give the same text |
| Mapbox.GetConfidence | src/lib/utils/mapbox.ts:294-298 | high exactly from 0.8, medium exactly from 0.5 below 0.8, low exactly below 0.5 |
| Mapbox.ConfidenceMonotone | src/lib/utils/mapbox.ts:294-298 | a higher relevance never gives a lower confidence |
| Mapbox.WithinCameroonReadsLngLat | src/lib/utils/mapbox.ts:324-340 | the pair is read as longitude then latitude, with inclusive bounds: Douala's position is inside, its swap is outside, and the corners are inside |
| Mapbox.CameroonCities | src/lib/utils/mapbox.ts:345-358 | ten cities with distinct names, each inside the bounding box |
| Mapbox.FieldOf | src/lib/utils/mapbox.ts:278-288 | prefixes are tried in the order region, district, place, neighborhood, address: an id fills a field exactly when it starts with that field's prefix and with none tried before it, "place" filling the locality; it fills none exactly when it starts with none of the five |
| Mapbox.FieldOfExamples | src/lib/utils/mapbox.ts:282-283 | "place.9876" fills the locality and "country.4" fills nothing |
| Mapbox.ParseContext | src/lib/utils/mapbox.ts:266-292 | the loop builds the record that `ParsedFrom` defines item by item; an empty context gives an empty record |
| Mapbox.ParsedFieldsAreMentioned | src/lib/utils/mapbox.ts:277-289 | a field is set exactly when some item's id maps to it |
| Mapbox.LastMatchWins | src/lib/utils/mapbox.ts:277-289 | a set field holds the text of the last item that maps to it |
| Mapbox.SuggestionOf | src/lib/utils/mapbox.ts:121-128 | a suggestion copies the feature's id, text, place name, centre and relevance, and parses its context, an absent one as empty |
| Mapbox.SearchAddresses | src/lib/utils/mapbox.ts:79-133 | a blank query sends nothing and gives no suggestions; otherwise it searches in Cameroon with the given limit (5 when missing or zero) and gives one suggestion per feature, in order, or "Failed to search addresses" on any failure |
| Mapbox.ValidateAddress | src/lib/utils/mapbox.ts:188-213 | valid exactly when the search yields a suggestion, reporting the first one's position, place name and confidence; otherwise `{isValid: false}` alone |
| Mapbox.ReverseGeocode | src/lib/utils/mapbox.ts:138-183 | null exactly when no feature comes back; otherwise built from the first feature: its place name, centre and confidence, its text as the street, the neighbourhood, locality, district and region parsed from its context, and the country fixed to Cameroon; any failure gives "Failed to reverse geocode coordinates" |
| AddressInputModel.AddressInput.constructor | src/components/forms/AddressInput.tsx:46-58 | the field starts with the given text, no list, no position and the unvalidated state |
| AddressInputModel.AddressInput.HandleInputChange | src/components/forms/AddressInput.tsx:70-94 | every edit takes the text, forgets the position and the validation, and reports the text but never the validation; a trimmed text under 3 characters empties and hides the list with no search pending; otherwise the single pending search is for the latest text |
| AddressInputModel.AddressInput.SearchSuggestions | src/components/forms/AddressInput.tsx:97-116 | skipped for a blank or short query; otherwise the list becomes the results, shown exactly when non-empty, and a failure empties and hides it |
| AddressInputModel.AddressInput.FirePendingSearch | src/components/forms/AddressInput.tsx:89-91 | the timer searches the pending text and empties the slot, leaving the list as the search sets it and loading off; with nothing pending the list and the loading flag stay; the validation flag never changes |
| AddressInputModel.AddressInput.HandleSuggestionSelect | src/components/forms/AddressInput.tsx:119-141 | takes the place name and position, empties and hides the list, and marks the address valid with the 0.8 / 0.5 confidence, reporting both to the parent |
| AddressInputModel.AddressInput.HandleBlur | src/components/forms/AddressInput.tsx:144-177 | nothing changes when blur validation is off, the text is blank or a position is selected; otherwise the validation of the text is recorded and reported, a valid answer selects its position, and the list is hidden |
| AddressInputModel.AddressInput.ApplyValidation | src/components/forms/AddressInput.tsx:151-164 | a valid answer selects its position and reports its place name (the typed text when that is empty) and the confidence; an invalid one reports "could not be verified" and invalid |
| AddressInputModel.AddressInput.HandleClear | src/components/forms/AddressInput.tsx:210-219 | empties the text, position, validation and list, and reports `''` and invalid to the parent; the pending search and the loading and validating flags are left as they were |
| NotificationLists.UnreadCount | src/components/NotificationDropdown.tsx:111 | the count is the length of the list of unread entries, so it is zero exactly when every entry is read and never exceeds the list length |
| NotificationLists.MarkRead | src/components/NotificationDropdown.tsx:113-121 | the entries with that id become read; length, order and every other field are unchanged |
| NotificationLists.MarkReadIdempotent | src/components/NotificationDropdown.tsx:113-121 | marking the same id read twice is marking it once |
| NotificationLists.MarkReadUnreadCount | src/components/NotificationDropdown.tsx:113-121 | the unread count drops by exactly the number of unread entries with that id, so it never rises |
| NotificationLists.MarkAllRead | src/components/NotificationDropdown.tsx:123-127 | every entry becomes read; length, order and the other fields are unchanged |
| NotificationLists.MarkAllReadClearsUnread | src/components/NotificationDropdown.tsx:123-127 | afterwards nothing is unread |
| NotificationLists.Dismiss | src/components/notifications/PickupNotifications.tsx:116-118 | the result is exactly the list filtered to entries whose id differs, duplicates included: no entry with that id remains and every other entry stays, in order |
| NotificationLists.DismissMembership | src/components/notifications/PickupNotifications.tsx:116-118 | an entry survives exactly when it was there and has another id |
| NotificationLists.DismissAbsent | src/components/notifications/PickupNotifications.tsx:116-118 | dismissing an id that no entry has leaves the list as it is |
| NotificationLists.SliceTo | src/components/notifications/PickupNotifications.tsx:141 | `slice(0, end)` is a prefix of length min(end, n), or max(0, n + end) for a negative end |
| NotificationLists.Visible | src/components/notifications/PickupNotifications.tsx:139-141 | expanded shows the whole list; collapsed shows a prefix, of min(maxVisible, n) entries for a non-negative maxVisible |
| NotificationLists.NothingHiddenWithoutToggle | src/components/notifications/PickupNotifications.tsx:157-165 | entries are hidden only when the list is longer than `maxVisible` (so the show-all toggle is offered) and the panel is collapsed |
| NotificationLists.UnreadCountCoversVisible | src/components/notifications/PickupNotifications.tsx:138-141 | the badge counts the whole list, never fewer than the unread entries on screen |
| NotificationDropdownModel.BadgeText | src/components/NotificationDropdown.tsx:143-149 | a badge appears exactly when something is unread; it reads "9+" exactly above nine, and otherwise the count's single digit |
| NotificationDropdownModel.BadgeDistinguishesSmallCounts | src/components/NotificationDropdown.tsx:148 | counts up to nine each get a badge text of their own |
| NotificationDropdownModel.TypeLabel | src/components/NotificationDropdown.tsx:238 | the label is the type name with its first underscore turned into a space and every other character kept |
| NotificationDropdownModel.TypeLabelKeepsSecondUnderscore | src/components/NotificationDropdown.tsx:238 | only the first underscore becomes a space: "pickup_in_progress" reads "pickup in_progress" |
| NotificationDropdownModel.FormatTime | src/components/NotificationDropdown.tsx:129-131 | the timestamp text is shown unchanged |
| NotificationDropdownModel.NotificationDropdown.MarkAsRead | src/components/NotificationDropdown.tsx:113-121 | the list becomes `MarkRead` of the old list, the unread count does not rise, and the open flag stays |
| NotificationDropdownModel.NotificationDropdown.MarkAllAsRead | src/components/NotificationDropdown.tsx:123-127 | every entry becomes read and the badge disappears |
| NotificationDropdownModel.NotificationDropdown.Toggle | src/components/NotificationDropdown.tsx:139 | the bell flips the open flag and leaves the list |
| NotificationDropdownModel.NotificationDropdown.Close | src/components/NotificationDropdown.tsx:159 | the backdrop and the close button close the dropdown and leave the list |
| PickupNotificationsModel.AgeOf | src/components/notifications/PickupNotifications.tsx:121-136 | with floored minutes: under one minute (the future included) is "just now", then 1-59 minutes, 1-23 hours, or at least one day, each bracketing the elapsed time; an unparsable timestamp takes the days branch with NaN |
| PickupNotificationsModel.AgeText | src/components/notifications/PickupNotifications.tsx:128-135 | "Just now" exactly for the first case; otherwise a number, the unit letter and " ago", where the number is "NaN" exactly for an unparsable timestamp |
| PickupNotificationsModel.AgeTextInjective | src/components/notifications/PickupNotifications.tsx:128-135 | different ages never render to the same text |
| PickupNotificationsModel.OlderIsNeverMoreRecent | src/components/notifications/PickupNotifications.tsx:121-136 | an older timestamp never reads as more recent: its unit is at least as coarse, and in the same unit its number is at least as large |
| PickupNotificationsModel.PickupNotifications.MarkAsRead | src/components/notifications/PickupNotifications.tsx:107-113 | the list becomes `MarkRead` of the old list; expansion and recorded actions stay |
| PickupNotificationsModel.PickupNotifications.DismissNotification | src/components/notifications/PickupNotifications.tsx:116-118 | the list becomes `Dismiss` of the old list; expansion and recorded actions stay |
| PickupNotificationsModel.PickupNotifications.ToggleExpanded | src/components/notifications/PickupNotifications.tsx:157-165 | the button, present only for a list longer than `maxVisible`, flips the expanded flag |
| PickupNotificationsModel.PickupNotifications.HandleAction | src/components/notifications/PickupNotifications.tsx:216-224 | the entry's callback runs first, if it has one, and then the entry is marked read |
| RatingModalModel.FeedbackToSend | src/components/modals/RatingModal.tsx:41 | nothing is sent exactly for blank feedback; otherwise the trimmed feedback, non-empty and no longer than the typed text |
| RatingModalModel.FeedbackToSendStable | src/components/modals/RatingModal.tsx:41 | the feedback sent is already trimmed: processing it again gives the same text |
| RatingModalModel.DisplayRating | src/components/modals/RatingModal.tsx:56 | the hovered star while there is one, else the rating; it stays within the five stars and is zero only when both are |
| RatingModalModel.FilledStarsMatchDisplay | src/components/modals/RatingModal.tsx:110-126 | exactly the first d stars are filled, where d is the displayed rating |
| RatingModalModel.RatingModal.constructor | src/components/modals/RatingModal.tsx:35-37 | the dialog starts with no rating, no hover and empty feedback |
| RatingModalModel.RatingModal.ClickStar | src/components/modals/RatingModal.tsx:114 | clicking star i makes the rating i, which stays within 0..5 |
| RatingModalModel.RatingModal.HoverStar | src/components/modals/RatingModal.tsx:115 | the hovered star becomes i |
| RatingModalModel.RatingModal.LeaveStar | src/components/modals/RatingModal.tsx:116 | the hover is dropped, so the display falls back to the rating |
| RatingModalModel.RatingModal.TypeFeedback | src/components/modals/RatingModal.tsx:147 | the feedback takes the typed text |
| RatingModalModel.SubmitEnabledOnceRated | src/components/modals/RatingModal.tsx:161 | within the five stars, the submit button is enabled exactly once a star is picked and no request is under way |
| RatingModalModel.RatingModal.Submit | src/components/modals/RatingModal.tsx:39-47 | with rating 0 nothing changes and nothing is sent; otherwise the parent receives the rating and the trimmed feedback, and the three fields reset to 0, 0 and ''; nothing is sent exactly when the submit button, outside loading, would be disabled |
| RatingModalModel.RatingModal.Close | src/components/modals/RatingModal.tsx:49-54 | the three fields reset, then the parent is told |
| ConfirmDialogModel.Shown | src/components/ConfirmDialog.tsx:125-128 | the state is open and built from the options alone, so nothing of an earlier state is carried over |
| ConfirmDialogModel.Hidden | src/components/ConfirmDialog.tsx:131-137 | the dialog closes and forgets its callback; the title, description, variant and texts are kept |
| ConfirmDialogModel.HiddenIdempotent | src/components/ConfirmDialog.tsx:131-137 | hiding twice is hiding once, and hiding the initial state changes nothing |
| ConfirmDialogModel.PropsOf | src/components/ConfirmDialog.tsx:139-150 | the dialog gets the state's title, description, texts, variant and loading flag, with "Confirm", "Cancel", variant "default" and not loading standing in for absent ones |
| ConfirmDialogModel.ConfirmButtonText | src/components/ConfirmDialog.tsx:90 | the button reads "Processing..." while loading, else the confirm text |
| ConfirmDialogModel.ConfirmDialogHook.constructor | src/components/ConfirmDialog.tsx:109-114 | the dialog starts closed, with empty title and description and no callback |
| ConfirmDialogModel.ConfirmDialogHook.ShowConfirm | src/components/ConfirmDialog.tsx:116-129 | the whole state is replaced by the open state built from the options |
| ConfirmDialogModel.ConfirmDialogHook.HideConfirm | src/components/ConfirmDialog.tsx:131-137 | the state is hidden as `Hidden` says; no callback runs |
| ConfirmDialogModel.ConfirmDialogHook.HandleConfirm | src/components/ConfirmDialog.tsx:58-61 | the stored callback runs exactly once (a no-op when none is stored), then the dialog closes |
| DashboardHeader.CharAt0 | src/components/layouts/CustomerDashboardHeader.tsx:14 | the first character of a word, or the empty string for an empty word |
| DashboardHeader.FirstChars | src/components/layouts/CustomerDashboardHeader.tsx:14 | one first-character string per word, in order |
| DashboardHeader.JoinedFirstCharsLength | src/components/layouts/CustomerDashboardHeader.tsx:12-15 | the joined first characters are as many as the non-empty words: empty words contribute nothing |
| DashboardHeader.JoinedFirstCharsOfWords | src/components/layouts/CustomerDashboardHeader.tsx:12-15 | for non-empty words, the joined text holds each word's first character, in order |
| DashboardHeader.UserInitials | src/components/layouts/CustomerDashboardHeader.tsx:11-18 | at most two characters: the first two of the uppercased, joined first characters of the space-separated words |
| DashboardHeader.InitialsOfTwoWords | src/components/layouts/CustomerDashboardHeader.tsx:11-18 | a first and a last name give their two first letters, uppercased |
| DashboardHeader.AvatarText | src/components/layouts/CustomerDashboardHeader.tsx:33 | "U" while no profile is loaded, else the name's initials; never more than two characters |
| ProfilePage.FirstNameOf | src/pages/dashboard/Profile.tsx:26 | the text before the first space (the whole name without one), or '' with no name |
| ProfilePage.LastNameOf | src/pages/dashboard/Profile.tsx:27 | everything after the first space, inner spaces kept; '' with no space or no name |
| ProfilePage.NameRoundTrip | src/pages/dashboard/Profile.tsx:26-27 | with a space, first name + ' ' + last name is the name; without one, the first name is the name and the last name is empty |
| ProfilePage.Derived | src/pages/dashboard/Profile.tsx:25-31 | the initial form values: the two name parts, and '' for every missing field |
| ProfilePage.ProfileForm.constructor | src/pages/dashboard/Profile.tsx:20-31 | the page opens in view mode with the derived values |
| ProfilePage.ProfileForm.StartEditing | src/pages/dashboard/Profile.tsx:135 | edit mode starts and the values stay |
| ProfilePage.ProfileForm.Edit | src/pages/dashboard/Profile.tsx:157-209 | in edit mode, a typed value replaces exactly its own field |
| ProfilePage.ProfileForm.Save | src/pages/dashboard/Profile.tsx:33-36 | only edit mode ends; the edited values stay and nothing is sent |
| ProfilePage.ProfileForm.Cancel | src/pages/dashboard/Profile.tsx:38-48 | exactly the derived values come back, and edit mode ends |
| RegisterPageModel.IdentityIssues | src/pages/auth/RegisterPage.tsx:25-26 | a name issue exactly for a name under 2 characters, and an email issue exactly for a malformed email |
| RegisterPageModel.CredentialIssues | src/pages/auth/RegisterPage.tsx:27-31 | a password issue exactly for a password under 6 characters, and a terms issue exactly when the terms are not accepted |
| RegisterPageModel.FieldIssues | src/pages/auth/RegisterPage.tsx:24-32 | each field rule is reported exactly when it fails, never on `confirmPassword` |
| RegisterPageModel.RegisterIssues | src/pages/auth/RegisterPage.tsx:23-36 | each field issue appears exactly when its rule fails, and "Passwords don't match" on `confirmPassword` exactly when the two differ, field failures or not; no issue exactly for an acceptable form |
| RegisterPageModel.DefaultValuesRejected | src/pages/auth/RegisterPage.tsx:47-56 | the untouched form fails the name, password and terms rules, but not the comparison |
| RegisterPageModel.Submit | src/pages/auth/RegisterPage.tsx:58-69 | a request goes out exactly for an acceptable form, with name, email and password only; the page moves to /auth/verify-email exactly when that request succeeds |
| LoginPageModel.LoginIssues | src/pages/auth/LoginPage.tsx:23-27 | an email issue exactly for a malformed email and a password issue exactly for a password under 6 characters; no issue exactly when both hold |
| LoginPageModel.RememberMeIrrelevant | src/pages/auth/LoginPage.tsx:26 | the optional remember-me flag, present or absent, never affects acceptance |
| LoginPageModel.DefaultValuesRejected | src/pages/auth/LoginPage.tsx:37-44 | the untouched form fails the password rule, and its checkbox starts unticked |
| LoginPageModel.Submit | src/pages/auth/LoginPage.tsx:46-56 | a request goes out exactly for an acceptable form, with email and password but never the remember-me flag; the page moves to /dashboard exactly when that request succeeds |
| ResetPasswordPageModel.ResetPasswordPage.constructor | src/pages/auth/ResetPasswordPage.tsx:13-21 | the page starts pending, with two empty fields and nothing sent |
| ResetPasswordPageModel.ResetPasswordPage.TokenEffect | src/pages/auth/ResetPasswordPage.tsx:25-29 | a missing or empty token is an error at once; with a token the status stays |
| ResetPasswordPageModel.ResetPasswordPage.HandleInputChange | src/pages/auth/ResetPasswordPage.tsx:31-33 | exactly the chosen field takes the typed value |
| ResetPasswordPageModel.ResetPasswordPage.HandleSubmit | src/pages/auth/ResetPasswordPage.tsx:35-57 | differing entries send nothing and change nothing; no token gives an error with nothing sent; otherwise the token and the new password are sent, and the status is success or, on any failure, error |
| ResetPasswordPageModel.ResetPasswordPage.SubmitForm | src/pages/auth/ResetPasswordPage.tsx:130-171 | the browser runs the submit handler only when both `required` inputs hold at least 8 characters (`minLength`), else nothing changes; so every new password sent has at least 8 characters |
| EmailVerificationPageModel.EmailVerificationPage.constructor | src/pages/auth/EmailVerificationPage.tsx:11-14 | the page starts pending, with nothing sent |
| EmailVerificationPageModel.EmailVerificationPage.HandleEmailVerification | src/pages/auth/EmailVerificationPage.tsx:18-28 | the token is sent, and the status becomes success or, on failure, error |
| EmailVerificationPageModel.EmailVerificationPage.TokenEffect | src/pages/auth/EmailVerificationPage.tsx:30-34 | with a token the page verifies exactly that token; without one nothing is sent and the status stays |
| EmailVerificationPageModel.EmailVerificationPage.HandleResendVerification | src/pages/auth/EmailVerificationPage.tsx:36-42 | one more resend request; the status never changes and a failure is swallowed |
| ForgotPasswordPageModel.ForgotPasswordPage.constructor | src/pages/auth/ForgotPasswordPage.tsx:11-12 | the page starts with an empty email and the form shown |
| ForgotPasswordPageModel.ForgotPasswordPage.HandleEmailChange | src/pages/auth/ForgotPasswordPage.tsx:111 | the email takes the typed value |
| ForgotPasswordPageModel.ForgotPasswordPage.HandleSubmit | src/pages/auth/ForgotPasswordPage.tsx:16-25 | the typed email is sent unchanged; success shows the confirmation screen and a failure leaves the page as it was |
| ForgotPasswordPageModel.ForgotPasswordPage.SubmitForm | src/pages/auth/ForgotPasswordPage.tsx:99-113 | the browser runs the submit handler only for a non-empty, well-formed address (`type="email"`, `required`), else nothing changes; so every email sent is non-empty and well-formed |
| ForgotPasswordPageModel.ForgotPasswordPage.BackToForm | src/pages/auth/ForgotPasswordPage.tsx:58-68 | both "Try Different Email" and "Resend Reset Link" only return to the form, keeping the email and sending nothing |

## Left out

- HTTP plumbing: the axios client, the endpoint table and the pickup and admin services are not part of this model. Each awaited request is a parameter (`Outcome`) of the operation that awaits it.
- React Query wiring is not modelled: caching, prefix invalidation, polling, deduplication and the mutation hooks. The hooks also call a Google-callback method that the authentication service does not define.
- The other `useQuery` options of the admin hook (stale times and refetch intervals other than the pickup-detail query's) are configuration only.
- Browser geolocation and the address field's current-location button are left out: they are device I/O. Reverse geocoding, which that button uses, is modelled.
- The rest of the geocoding service is left out: `calculateDistance` (trigonometry on floats), `formatCoordinates` (`toFixed`), the fetch URL and the `types`, `proximity` and `bbox` search options. Relevance and coordinates are reals used only for comparisons.
- Mapbox.SearchAddresses: the request records the query, limit and country only, not the URL encoding or the language list.
- PickupRequestForm.CalculateCost: the product of rate, weight and surcharge is exact, where the code multiplies IEEE doubles before `Math.round`. The two can differ right below a half: for 2.0035 kg of general waste the double product is 2003.4999999999998, which the code rounds to 2003, while the model rounds the exact 2003.5 to 2004. The products in `CostExamples` are exact in double arithmetic as well.
- Locale formatting and dates: `formatDate`, `formatTime`, currency formatting and the minimum and maximum pickup dates. "Now" and every parsed timestamp are integer milliseconds, with `None` for a date JavaScript cannot parse (NaN).
- The 300 ms debounce timer is the single pending-search slot of the address field. Its firing is the separate method `FirePendingSearch`.
- The effect that copies the `value` prop into the address field, and closing the list on a click outside it, are left out.
- AddressInputModel.AddressInput.HandleBlur: the handler's own catch branch ("Failed to validate address") is not modelled. The validation it awaits catches every failure itself, so that branch is never reached.
- AddressInputModel.AddressInput.SearchSuggestions, AddressInputModel.AddressInput.FirePendingSearch, AddressInputModel.AddressInput.HandleBlur and AddressInputModel.AddressInput.HandleSuggestionSelect: each awaited handler runs start to finish in one step, so two interleavings of the component are not captured. A debounced search (src/components/forms/AddressInput.tsx:89-116) can resolve after a newer edit has cut the text below three characters and hidden the list, and then show stale results again. With blur validation on by default (line 44), clicking a suggestion (line 365) first fires the input's blur (line 253) while no position is selected; if that validation resolves after the selection (lines 119-141), lines 151-160 overwrite the validity, the position and the reported address with the first search hit instead of the clicked one.
- AddressInputModel.AddressInput.HandleClear: moving the focus back to the input is not modelled.
- The email-format checks of the form library and of the browser's `type="email"` input are the parameter `isEmail`. Text length counts characters, where JavaScript counts UTF-16 code units. Trimming and case conversion cover ASCII whitespace and letters only.
- Logging (`console.error`, `console.warn`) is left out. Of the toasts, only the error toast's text is modelled.
- Password-visibility toggles, navigation buttons that only change the route, and the other purely visual state are left out.
- Buttons disabled while a request is pending are left out, except the submit rules of the pickup form, the rating dialog and the reset-password page.
- The cancel confirmation, the driver-contact prompt and the photo upload after creating a request on the requests page are left out: they only forward prompt answers to mutations. So is the pagination caption, which only displays text.
- Copies of helpers are modelled once: the requests page's own `getTimeSlotHour` (src/pages/dashboard/Requests.tsx:318-329) and `getRelativeTime` are the same as those in `requestUtils.ts`.
- The pickup form's `handleAddressChange` and `handleAddressValidation` only copy the address field's callbacks into the form and are left out.
- The profile page's user data is fixed for the page's life. A profile that loads after the page opens does not refresh the form, in the code as in the model. The code's Cancel (src/pages/dashboard/Profile.tsx:38-47) rebuilds the form from the profile loaded at that moment, so a form that opened empty while the profile was loading is filled by Cancel; the model's ProfileForm.Cancel rebuilds it from the data fixed when the page opened and does not capture that case.
- ResetPasswordPageModel.ResetPasswordPage.SubmitDisabled states the button rule as a predicate, without a contract of its own.
- The rendering conditions of the authentication pages are not modelled. The reset form is shown only while the status is pending, and the forgot-password form only while no email was sent. As a result, the no-token branch of the reset page's submit cannot be reached from the screen.
- RatingModalModel.RatingModal.ClickStar: the star buttons' disabled state while loading is not modelled.
- NotificationLists.SliceTo: the end index is an integer. A non-integer `maxVisible` is not modelled.
