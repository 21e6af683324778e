/**
 * The address field with autocomplete (src/components/forms/AddressInput.tsx).
 * The component's state variables are the fields of an `AddressInput` object.
 * The debounce timer is a single pending-search slot holding the text the
 * timer will search for. The parent's `onChange` and `onValidationChange`
 * callbacks are recorded, in order, as events. The geocoding responses a
 * handler awaits are parameters.
 */
module AddressInputModel {
  import opened Wrappers
  import Text
  import opened Mapbox

  datatype ValidationState = ValidationState(isValid: bool, confidence: Option<Confidence>, message: Option<string>)

  const Unvalidated := ValidationState(false, None, None)

  /** A call of one of the parent's callbacks. */
  datatype Event =
    | OnChange(address: string, coordinates: Option<LngLat>)
    | OnValidationChange(valid: bool, confidence: Option<Confidence>)

  function VerifiedMessage(c: Confidence): string {
    "Address verified with " + ConfidenceName(c) + " confidence"
  }

  class AddressInput {
    var inputValue: string
    var suggestions: seq<Suggestion>
    var isLoading: bool
    var showSuggestions: bool
    var isValidating: bool
    var validation: ValidationState
    var selectedCoordinates: Option<LngLat>
    var pendingSearch: Option<string>
    var events: seq<Event>
    const validateOnBlur: bool

    /**
     * The list is shown only when it has entries, a selected position always
     * comes with a valid state, and a pending search is for a text of at
     * least three characters once trimmed.
     */
    ghost predicate Valid()
      reads this
    {
      (showSuggestions ==> |suggestions| > 0) &&
      (selectedCoordinates.Some? ==> validation.isValid) &&
      (pendingSearch.Some? ==> |Text.Trim(pendingSearch.value)| >= 3)
    }

    constructor (value: string, validateOnBlur: bool)
      ensures Valid()
      ensures inputValue == value && suggestions == [] && !showSuggestions && !isLoading && !isValidating
      ensures validation == Unvalidated && selectedCoordinates.None? && pendingSearch.None? && events == []
      ensures this.validateOnBlur == validateOnBlur
    {
      inputValue := value;
      suggestions := [];
      isLoading := false;
      showSuggestions := false;
      isValidating := false;
      validation := Unvalidated;
      selectedCoordinates := None;
      pendingSearch := None;
      events := [];
      this.validateOnBlur := validateOnBlur;
    }

    /**
     * `handleInputChange`: takes the text, forgets the position and the
     * validation, cancels the pending search and reports the text. A trimmed
     * text under three characters empties and hides the list; a longer one
     * schedules a search for itself. The validation callback is not called.
     */
    method HandleInputChange(newValue: string)
      requires Valid()
      modifies this
      ensures Valid()
      ensures inputValue == newValue && selectedCoordinates.None? && validation == Unvalidated
      ensures |Text.Trim(newValue)| < 3 ==> suggestions == [] && !showSuggestions && pendingSearch.None?
      ensures |Text.Trim(newValue)| >= 3 ==>
        pendingSearch == Some(newValue) && suggestions == old(suggestions) && showSuggestions == old(showSuggestions)
      ensures events == old(events) + [OnChange(newValue, None)]
      ensures isLoading == old(isLoading) && isValidating == old(isValidating)
    {
      inputValue := newValue;
      selectedCoordinates := None;
      validation := Unvalidated;
      pendingSearch := None;
      if |Text.Trim(newValue)| < 3 {
        suggestions := [];
        showSuggestions := false;
        events := events + [OnChange(newValue, None)];
        return;
      }
      pendingSearch := Some(newValue);
      events := events + [OnChange(newValue, None)];
    }

    /**
     * The component's `searchAddresses`: skipped for a blank or short text;
     * otherwise the list becomes the results, shown iff non-empty, and a
     * failure empties and hides it.
     */
    method SearchSuggestions(query: string, response: Outcome<seq<Feature>>)
      requires Valid()
      modifies this
      ensures Valid()
      ensures Text.IsBlank(query) || |query| < 3 ==>
        suggestions == old(suggestions) && showSuggestions == old(showSuggestions) && isLoading == old(isLoading)
      ensures !(Text.IsBlank(query) || |query| < 3) ==>
        var result := SearchAddresses(query, Some(5), response).1;
        !isLoading &&
        (result.Resolved? ==> suggestions == result.value && showSuggestions == (|result.value| > 0)) &&
        (result.Rejected? ==> suggestions == [] && !showSuggestions)
      ensures inputValue == old(inputValue) && validation == old(validation) && events == old(events)
      ensures selectedCoordinates == old(selectedCoordinates) && pendingSearch == old(pendingSearch)
      ensures isValidating == old(isValidating)
    {
      if Text.IsBlank(query) || |query| < 3 {
        return;
      }
      isLoading := true;
      var (_, result) := SearchAddresses(query, Some(5), response);
      match result {
        case Resolved(results) =>
          suggestions := results;
          showSuggestions := |results| > 0;
        case Rejected(_) =>
          suggestions := [];
          showSuggestions := false;
      }
      isLoading := false;
    }

    /** The debounce timer fires: the pending text is searched and the slot is emptied. */
    method FirePendingSearch(response: Outcome<seq<Feature>>)
      requires Valid()
      modifies this
      ensures Valid()
      ensures pendingSearch.None?
      ensures old(pendingSearch).Some? ==>
        var result := SearchAddresses(old(pendingSearch).value, Some(5), response).1;
        (result.Resolved? ==> suggestions == result.value && showSuggestions == (|result.value| > 0)) &&
        (result.Rejected? ==> suggestions == [] && !showSuggestions) && !isLoading
      ensures old(pendingSearch).None? ==>
        suggestions == old(suggestions) && showSuggestions == old(showSuggestions) && isLoading == old(isLoading)
      ensures inputValue == old(inputValue) && validation == old(validation) && events == old(events)
      ensures selectedCoordinates == old(selectedCoordinates) && isValidating == old(isValidating)
    {
      if pendingSearch.Some? {
        var query := pendingSearch.value;
        pendingSearch := None;
        assert !Text.IsBlank(query) && |query| >= 3;
        SearchSuggestions(query, response);
      }
    }

    /**
     * `handleSuggestionSelect`: takes the suggestion's place name and
     * position, closes the list, and marks the address valid with the
     * confidence the 0.8 / 0.5 thresholds give, reporting both to the parent.
     */
    method HandleSuggestionSelect(s: Suggestion)
      requires Valid()
      modifies this
      ensures Valid()
      ensures inputValue == s.placeName && selectedCoordinates == Some(s.coordinates)
      ensures suggestions == [] && !showSuggestions
      ensures validation.isValid && validation.confidence == Some(GetConfidence(s.relevance))
      ensures validation.message == Some(VerifiedMessage(GetConfidence(s.relevance)))
      ensures events == old(events) + [OnChange(s.placeName, Some(s.coordinates)), OnValidationChange(true, Some(GetConfidence(s.relevance)))]
      ensures pendingSearch == old(pendingSearch) && isLoading == old(isLoading) && isValidating == old(isValidating)
    {
      inputValue := s.placeName;
      selectedCoordinates := Some(s.coordinates);
      showSuggestions := false;
      suggestions := [];
      var confidence := if s.relevance >= 0.8 then High else if s.relevance >= 0.5 then Medium else Low;
      validation := ValidationState(true, Some(confidence), Some(VerifiedMessage(confidence)));
      events := events + [OnChange(s.placeName, Some(s.coordinates)), OnValidationChange(true, Some(confidence))];
    }

    /** Whether leaving the field validates `value`, given the position already selected. */
    predicate BlurValidates(value: string, selected: Option<LngLat>) {
      validateOnBlur && !Text.IsBlank(value) && selected.None?
    }

    /**
     * `handleBlur`: does nothing at all when blur validation is off, the text
     * is blank or a position is already selected. Otherwise it validates the
     * text and hides the list. A valid answer with a position selects it and
     * reports the suggested place name (the typed text when that name is
     * empty) with it; the outcome always goes to the parent.
     */
    method HandleBlur(response: Outcome<seq<Feature>>)
      requires Valid()
      modifies this
      ensures Valid()
      ensures !BlurValidates(old(inputValue), old(selectedCoordinates)) ==>
        validation == old(validation) && events == old(events) && showSuggestions == old(showSuggestions) &&
        selectedCoordinates == old(selectedCoordinates) && isValidating == old(isValidating)
      ensures BlurValidates(old(inputValue), old(selectedCoordinates)) ==>
        var v := ValidateAddress(old(inputValue), response);
        validation.isValid == v.isValid && validation.confidence == v.confidence &&
        !showSuggestions && !isValidating && selectedCoordinates == v.coordinates &&
        (v.isValid ==>
          var text := if v.suggestion.value != "" then v.suggestion.value else old(inputValue);
          validation.message == Some(VerifiedMessage(v.confidence.value)) &&
          events == old(events) + [OnChange(text, v.coordinates), OnValidationChange(true, v.confidence)]) &&
        (!v.isValid ==>
          validation.message == Some("Address could not be verified") &&
          events == old(events) + [OnValidationChange(false, None)])
      ensures inputValue == old(inputValue) && suggestions == old(suggestions) && pendingSearch == old(pendingSearch)
      ensures isLoading == old(isLoading)
    {
      if !validateOnBlur || Text.IsBlank(inputValue) || selectedCoordinates.Some? {
        return;
      }
      isValidating := true;
      // The service's validation catches every failure itself, so the handler's own catch is never reached.
      var v := ValidateAddress(inputValue, response);
      ApplyValidation(v);
      isValidating := false;
      showSuggestions := false;
    }

    /**
     * The part of `handleBlur` that runs once the validation has settled:
     * records the outcome and, for a valid answer, selects its position and
     * reports its place name (the typed text when that name is empty).
     */
    method ApplyValidation(v: Validation)
      requires Valid() && selectedCoordinates.None?
      requires v.isValid ==> v.coordinates.Some? && v.suggestion.Some? && v.confidence.Some?
      requires !v.isValid ==> v == Invalid
      modifies this
      ensures Valid()
      ensures validation.isValid == v.isValid && validation.confidence == v.confidence && selectedCoordinates == v.coordinates
      ensures v.isValid ==>
          var text := if v.suggestion.value != "" then v.suggestion.value else old(inputValue);
          validation.message == Some(VerifiedMessage(v.confidence.value)) &&
          events == old(events) + [OnChange(text, v.coordinates), OnValidationChange(true, v.confidence)]
      ensures !v.isValid ==>
          validation.message == Some("Address could not be verified") &&
          events == old(events) + [OnValidationChange(false, None)]
      ensures inputValue == old(inputValue) && suggestions == old(suggestions) && pendingSearch == old(pendingSearch)
      ensures isLoading == old(isLoading) && showSuggestions == old(showSuggestions)
    {
      if v.isValid {
        var text := if v.suggestion.value != "" then v.suggestion.value else inputValue;
        validation := ValidationState(true, v.confidence, Some(VerifiedMessage(v.confidence.value)));
        selectedCoordinates := v.coordinates;
        events := events + [OnChange(text, v.coordinates), OnValidationChange(true, v.confidence)];
      } else {
        validation := ValidationState(false, None, Some("Address could not be verified"));
        events := events + [OnValidationChange(false, None)];
      }
    }

    /**
     * `handleClear`: empties the text, the position, the validation and the
     * list and reports `''` and invalid. The pending search, if any, is left
     * in place.
     */
    method HandleClear()
      requires Valid()
      modifies this
      ensures Valid()
      ensures inputValue == "" && selectedCoordinates.None? && validation == Unvalidated
      ensures suggestions == [] && !showSuggestions
      ensures events == old(events) + [OnChange("", None), OnValidationChange(false, None)]
      ensures pendingSearch == old(pendingSearch) && isLoading == old(isLoading) && isValidating == old(isValidating)
    {
      inputValue := "";
      selectedCoordinates := None;
      validation := Unvalidated;
      suggestions := [];
      showSuggestions := false;
      events := events + [OnChange("", None), OnValidationChange(false, None)];
    }
  }
}
