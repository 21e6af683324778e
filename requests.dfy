/**
 * The customer's requests page (src/pages/dashboard/Requests.tsx): the
 * filtered list, the summary statistics, the active pickup, the date string
 * of a new request, the rating guard and the actions offered per pickup.
 * "Now" is a parameter in milliseconds, and the local calendar (month and
 * year of an instant) is a parameter too.
 */
module Requests {
  import opened Wrappers
  import opened PickupTypes
  import Sequences
  import Text
  import RequestUtils

  const DayMs := 1000 * 60 * 60 * 24

  datatype DateRange = AllDates | Week | Month

  /** The page's filters; `None` stands for `'all'`. */
  datatype Filters = Filters(status: Option<PickupStatus>, wasteType: Option<WasteType>, dateRange: DateRange, searchQuery: string)

  const NoFilters := Filters(None, None, AllDates, "")

  /** The label shown for each waste type, also searched. */
  function WasteLabel(t: WasteType): string {
    match t
    case General => "General Waste"
    case Recyclable => "Recyclable"
    case Hazardous => "Hazardous"
  }

  /** The searched text: address, notes, driver and label joined by spaces, lowercased. */
  function SearchableText(p: Pickup): string {
    Text.Lower(Text.Join([p.address, p.notes.GetOr(""), p.driverName.GetOr(""), WasteLabel(p.wasteType)], ' '))
  }

  predicate MatchesSearch(p: Pickup, query: string) {
    query == "" || Text.Contains(SearchableText(p), Text.Lower(query))
  }

  /** Whole days since the pickup date, floored; `None` when the date does not parse (NaN). */
  function DaysSince(p: Pickup, now: int): Option<int> {
    if p.pickupInstant.None? then None else Some((now - p.pickupInstant.value) / DayMs)
  }

  /** A NaN day count fails both comparisons, so an unparseable date is never dropped. */
  predicate InDateRange(p: Pickup, range: DateRange, now: int) {
    match range
    case AllDates => true
    case Week => DaysSince(p, now).None? || DaysSince(p, now).value <= 7
    case Month => DaysSince(p, now).None? || DaysSince(p, now).value <= 30
  }

  /** The per-pickup test of the filter. */
  predicate Keep(p: Pickup, f: Filters, now: int) {
    (f.status.None? || p.status == f.status.value) &&
    (f.wasteType.None? || p.wasteType == f.wasteType.value) &&
    MatchesSearch(p, f.searchQuery) &&
    InDateRange(p, f.dateRange, now)
  }

  /** `filteredPickups`: no data gives no rows; otherwise the kept pickups in their order. */
  function FilteredPickups(data: Option<seq<Pickup>>, f: Filters, now: int): (r: seq<Pickup>)
    ensures Sequences.IsSubsequence(r, data.GetOr([]))
    ensures forall i :: 0 <= i < |r| ==> Keep(r[i], f, now)
    ensures |r| == Sequences.Count(data.GetOr([]), p => Keep(p, f, now))
  {
    if data.None? then []
    else
      Sequences.FilterIsSubsequence(data.value, p => Keep(p, f, now));
      Sequences.Filter(data.value, p => Keep(p, f, now))
  }

  /** A pickup is listed exactly when it is in the data and passes every filter. */
  lemma FilteredMembership(data: seq<Pickup>, f: Filters, now: int, p: Pickup)
    ensures p in FilteredPickups(Some(data), f, now) <==> p in data && Keep(p, f, now)
  {
    Sequences.FilterMembership(data, q => Keep(q, f, now), p);
  }

  /** With every filter at its neutral value the list is the data itself. */
  lemma NoFiltersKeepsAll(data: seq<Pickup>, now: int)
    ensures FilteredPickups(Some(data), NoFilters, now) == data
  {
    Sequences.FilterAll(data, q => Keep(q, NoFilters, now));
  }

  /**
   * The status and type filters: a pickup with another status or type than
   * the selected one is never listed.
   */
  lemma StatusAndTypeFilters(p: Pickup, f: Filters, now: int)
    ensures f.status.Some? && p.status != f.status.value ==> !Keep(p, f, now)
    ensures f.wasteType.Some? && p.wasteType != f.wasteType.value ==> !Keep(p, f, now)
  {
  }

  /** A non-empty search keeps a pickup iff the lowercased query occurs in its searchable text. */
  lemma SearchFilter(p: Pickup, query: string, now: int)
    requires query != ""
    ensures Keep(p, Filters(None, None, AllDates, query), now) <==> Text.Contains(SearchableText(p), Text.Lower(query))
  {
  }

  /** Pickups dated now or later are never dropped by a date range. */
  lemma FuturePickupsKept(p: Pickup, range: DateRange, now: int)
    requires p.pickupInstant.Some? && p.pickupInstant.value >= now
    ensures InDateRange(p, range, now)
  {
    assert (now - p.pickupInstant.value) / DayMs <= 0;
  }

  /** The week range drops a pickup exactly when it lies more than seven whole days back. */
  lemma WeekRange(p: Pickup, now: int)
    requires p.pickupInstant.Some?
    ensures !InDateRange(p, Week, now) <==> now - p.pickupInstant.value >= 8 * DayMs
    ensures !InDateRange(p, Month, now) <==> now - p.pickupInstant.value >= 31 * DayMs
  {
  }

  datatype ServerStats = ServerStats(totalRequests: int, pendingRequests: int, scheduledRequests: int, completedRequests: int)

  datatype Stats = Stats(total: int, pending: int, scheduled: int, completed: int, thisMonth: int)

  predicate IsPendingPickup(p: Pickup) { p.status == Pending }
  predicate IsAssignedPickup(p: Pickup) { p.status == Assigned }
  predicate IsCompletedPickup(p: Pickup) { p.status == Completed }

  /** The pickup's date falls in the current month of the current year (never for an unparseable date). */
  predicate SameMonth(p: Pickup, now: int, calendar: int -> (int, int)) {
    p.pickupInstant.Some? && calendar(p.pickupInstant.value) == calendar(now)
  }

  /** The statistics computed from the list when the server sends none. */
  function FallbackStats(pickups: seq<Pickup>, now: int, calendar: int -> (int, int)): (s: Stats)
    ensures s.total == |pickups|
    ensures 0 <= s.completed <= s.thisMonth <= s.total
    ensures 0 <= s.pending && 0 <= s.scheduled && s.pending + s.scheduled <= s.total
    ensures s.thisMonth == Sequences.Count(pickups, p => SameMonth(p, now, calendar))
    ensures s.pending == Sequences.Count(pickups, IsPendingPickup)
    ensures s.scheduled == Sequences.Count(pickups, IsAssignedPickup)
  {
    var thisMonth := Sequences.Filter(pickups, p => SameMonth(p, now, calendar));
    Sequences.CountDisjoint(pickups, IsPendingPickup, IsAssignedPickup);
    Stats(|pickups|,
          Sequences.Count(pickups, IsPendingPickup),
          Sequences.Count(pickups, IsAssignedPickup),
          Sequences.Count(thisMonth, IsCompletedPickup),
          |thisMonth|)
  }

  /** The completed count of the fallback is the number of completed pickups of this month. */
  lemma FallbackCompletedThisMonth(pickups: seq<Pickup>, now: int, calendar: int -> (int, int))
    ensures FallbackStats(pickups, now, calendar).completed ==
      Sequences.Count(pickups, p => SameMonth(p, now, calendar) && IsCompletedPickup(p))
  {
    CountOfFilter(pickups, p => SameMonth(p, now, calendar), IsCompletedPickup,
                  p => SameMonth(p, now, calendar) && IsCompletedPickup(p));
  }

  /** Counting within a filtered list is counting both conditions in the whole list. */
  lemma {:induction false} CountOfFilter(s: seq<Pickup>, p: Pickup -> bool, q: Pickup -> bool, both: Pickup -> bool)
    requires forall x :: both(x) == (p(x) && q(x))
    ensures Sequences.Count(Sequences.Filter(s, p), q) == Sequences.Count(s, both)
  {
    if s != [] {
      CountOfFilter(s[1..], p, q, both);
      var rest := Sequences.Filter(s[1..], p);
      if p(s[0]) {
        assert Sequences.Filter(s, p) == [s[0]] + rest;
        assert ([s[0]] + rest)[1..] == rest;
      } else {
        assert Sequences.Filter(s, p) == rest;
      }
    }
  }

  /** `stats`: the server's numbers when present (this month copied from completed), else the fallback. */
  function PageStats(server: Option<ServerStats>, data: Option<seq<Pickup>>, now: int, calendar: int -> (int, int)): (s: Stats)
    ensures server.Some? ==> s.thisMonth == server.value.completedRequests && s.completed == server.value.completedRequests
    ensures server.Some? ==>
      s.total == server.value.totalRequests && s.pending == server.value.pendingRequests &&
      s.scheduled == server.value.scheduledRequests
    ensures server.None? ==> s == FallbackStats(data.GetOr([]), now, calendar)
    ensures server.None? ==> s.total == |data.GetOr([])| && s.completed <= s.thisMonth <= s.total
  {
    match server
    case Some(st) => Stats(st.totalRequests, st.pendingRequests, st.scheduledRequests, st.completedRequests, st.completedRequests)
    case None => FallbackStats(data.GetOr([]), now, calendar)
  }

  predicate IsActive(p: Pickup) {
    p.status == Assigned || p.status == InProgress
  }

  /** `find`: the first active pickup, if any. */
  function FirstActive(pickups: seq<Pickup>): (r: Option<Pickup>)
    ensures r.None? <==> forall i :: 0 <= i < |pickups| ==> !IsActive(pickups[i])
    ensures r.Some? ==>
      exists i :: 0 <= i < |pickups| && pickups[i] == r.value && IsActive(pickups[i]) &&
                  forall j :: 0 <= j < i ==> !IsActive(pickups[j])
  {
    if pickups == [] then None
    else if IsActive(pickups[0]) then Some(pickups[0])
    else
      var r := FirstActive(pickups[1..]);
      assert forall i :: 1 <= i < |pickups| ==> pickups[i] == pickups[1..][i - 1];
      r
  }

  /** `activePickup`: none without data. */
  function ActivePickup(data: Option<seq<Pickup>>): (r: Option<Pickup>)
    ensures data.None? ==> r.None?
    ensures data.Some? ==> r == FirstActive(data.value)
  {
    if data.None? then None else FirstActive(data.value)
  }

  /** The `pickup_date` of a new request: the chosen day, 'T', the slot's hour, ":00:00". */
  function PickupDateString(date: string, timeSlot: string): (r: string)
    ensures |r| == |date| + 9
    ensures r[..|date|] == date && r[|date|] == 'T' && r[|date| + 3..] == ":00:00"
    ensures r[|date| + 1..|date| + 3] == RequestUtils.TimeSlotHour(timeSlot)
  {
    date + "T" + RequestUtils.TimeSlotHour(timeSlot) + ":00:00"
  }

  /** A rating as it is sent to the server. */
  datatype RatingRequest = RatingRequest(pickupId: string, rating: real, feedback: Option<string>)

  /**
   * `handleRatePickup`: the prompt answers are parsed with `Number`, a
   * parameter here (`None` for NaN). A rating is sent only for a non-empty
   * numeric answer; empty feedback is sent as undefined.
   */
  function RatingToSend(pickupId: string, ratingAnswer: Option<string>, feedbackAnswer: Option<string>,
                        toNumber: string -> Option<real>): (r: Option<RatingRequest>)
    ensures r.Some? <==> TruthyString(ratingAnswer) && toNumber(ratingAnswer.value).Some?
    ensures r.Some? ==> r.value.pickupId == pickupId && Some(r.value.rating) == toNumber(ratingAnswer.value)
    ensures r.Some? ==> (r.value.feedback.Some? <==> TruthyString(feedbackAnswer))
    ensures r.Some? && r.value.feedback.Some? ==> r.value.feedback == feedbackAnswer
  {
    if TruthyString(ratingAnswer) && toNumber(ratingAnswer.value).Some? then
      Some(RatingRequest(pickupId, toNumber(ratingAnswer.value).value,
                         if TruthyString(feedbackAnswer) then feedbackAnswer else None))
    else None
  }

  /** Nothing bounds the rating: any number the prompt yields, such as 7, is sent as is. */
  lemma RatingNotRangeChecked(toNumber: string -> Option<real>)
    requires toNumber("7") == Some(7.0)
    ensures RatingToSend("p", Some("7"), None, toNumber) == Some(RatingRequest("p", 7.0, None))
  {
  }

  /** The action buttons shown next to a pickup. */
  datatype Actions = Actions(edit: bool, cancel: bool, contact: bool, rate: bool)

  function AvailableActions(p: Pickup): (a: Actions)
    ensures a.edit <==> p.status == Pending
    ensures a.cancel <==> p.status == Pending || p.status == Assigned
    ensures a.contact <==> TruthyString(p.driverName) && p.status == Assigned
    ensures a.rate <==> p.status == Completed
  {
    Actions(p.status == Pending, p.status == Pending || p.status == Assigned,
            TruthyString(p.driverName) && p.status == Assigned, p.status == Completed)
  }

  /**
   * Editable pickups can be cancelled, so can those whose driver can be
   * contacted; a rateable pickup offers no other action, and in-progress or
   * cancelled pickups offer none.
   */
  lemma ActionsConsistent(p: Pickup)
    ensures AvailableActions(p).edit ==> AvailableActions(p).cancel
    ensures AvailableActions(p).contact ==> AvailableActions(p).cancel && !AvailableActions(p).edit
    ensures AvailableActions(p).rate ==> AvailableActions(p) == Actions(false, false, false, true)
    ensures p.status == InProgress || p.status == Cancelled ==> AvailableActions(p) == Actions(false, false, false, false)
  {
  }
}
