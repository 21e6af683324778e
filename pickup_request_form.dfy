/**
 * The pickup request form (src/components/forms/PickupRequestForm.tsx): the
 * validation schema, the cost estimate, and the photo list the form keeps
 * in its state.
 */
module PickupRequestForm {
  import opened Wrappers
  import opened PickupTypes
  import Sequences
  import Text

  const MaxPhotos := 5
  const MaxPhotoBytes := 5 * 1024 * 1024

  /** Price per kilogram, in FCFA. */
  function BaseRate(t: WasteType): (r: nat)
    ensures r in {800, 1000, 2000}
  {
    match t
    case General => 1000
    case Recyclable => 800
    case Hazardous => 2000
  }

  /** `Math.round`: the nearest integer, halves rounded up. */
  function RoundHalfUp(x: real): (n: int)
    ensures x - 1.0 / 2.0 < n as real <= x + 1.0 / 2.0
  {
    (x + 1.0 / 2.0).Floor
  }

  lemma RoundHalfUpMonotone(x: real, y: real)
    requires x <= y
    ensures RoundHalfUp(x) <= RoundHalfUp(y)
  {
  }

  /** The amount before rounding: rate times weight, times 1.5 when urgent. */
  function RawCost(t: WasteType, weight: real, urgent: bool): real {
    if urgent then BaseRate(t) as real * weight * (3.0 / 2.0) else BaseRate(t) as real * weight
  }

  /** `calculateCost`: the surcharge is applied before rounding. */
  function CalculateCost(t: WasteType, weight: real, urgent: bool): (c: int)
    ensures RawCost(t, weight, urgent) - 1.0 / 2.0 < c as real <= RawCost(t, weight, urgent) + 1.0 / 2.0
  {
    RoundHalfUp(RawCost(t, weight, urgent))
  }

  /** The cost never decreases as the weight grows. */
  lemma CostMonotoneInWeight(t: WasteType, w1: real, w2: real, urgent: bool)
    requires w1 <= w2
    ensures CalculateCost(t, w1, urgent) <= CalculateCost(t, w2, urgent)
  {
    RoundHalfUpMonotone(RawCost(t, w1, urgent), RawCost(t, w2, urgent));
  }

  /** For a non-negative weight the urgent price is never below the regular one. */
  lemma UrgentNeverCheaper(t: WasteType, weight: real)
    requires weight >= 0.0
    ensures CalculateCost(t, weight, true) >= CalculateCost(t, weight, false)
  {
    RoundHalfUpMonotone(RawCost(t, weight, false), RawCost(t, weight, true));
  }

  /** For a non-negative weight: hazardous costs at least general, general at least recyclable. */
  lemma TypeOrdering(weight: real, urgent: bool)
    requires weight >= 0.0
    ensures CalculateCost(Hazardous, weight, urgent) >= CalculateCost(General, weight, urgent)
    ensures CalculateCost(General, weight, urgent) >= CalculateCost(Recyclable, weight, urgent)
  {
    RoundHalfUpMonotone(RawCost(General, weight, urgent), RawCost(Hazardous, weight, urgent));
    RoundHalfUpMonotone(RawCost(Recyclable, weight, urgent), RawCost(General, weight, urgent));
  }

  /** A whole number of kilograms without surcharge costs exactly rate times weight. */
  lemma WholeWeightCost(t: WasteType, weight: int)
    ensures CalculateCost(t, weight as real, false) == BaseRate(t) * weight
  {
    assert RawCost(t, weight as real, false) == (BaseRate(t) * weight) as real;
  }

  lemma CostExamples()
    ensures CalculateCost(General, 10.0, false) == 10000
    ensures CalculateCost(General, 10.0, true) == 15000
    ensures CalculateCost(Recyclable, 2.5, true) == 3000
    ensures CalculateCost(General, 0.0025, false) == 3
  {
    assert RawCost(General, 10.0, true) == 15000.0;
    assert RawCost(Recyclable, 2.5, true) == 3000.0;
    assert RawCost(General, 0.0025, false) == 2.5;
  }

  /** The raw form values as the schema receives them (`None`: absent, or NaN for the weight). */
  datatype FormInput = FormInput(
    address: string,
    coordinates: Option<(real, real)>,
    wasteType: string,
    pickupDate: string,
    pickupTime: string,
    estimatedWeight: Option<real>,
    notes: Option<string>,
    urgentPickup: Option<bool>,
    recurringPickup: Option<bool>,
    recurringFrequency: Option<string>
  )

  /** The validated request the schema produces. */
  datatype PickupRequestData = PickupRequestData(
    address: string,
    coordinates: Option<(real, real)>,
    wasteType: WasteType,
    pickupDate: string,
    pickupTime: TimeSlot,
    estimatedWeight: real,
    notes: Option<string>,
    urgentPickup: bool,
    recurringPickup: bool,
    recurringFrequency: Option<Frequency>
  )

  datatype Field =
    | AddressField | WasteTypeField | PickupDateField | PickupTimeField
    | WeightField | NotesField | FrequencyField

  predicate WeightOk(w: Option<real>) {
    w.Some? && 1.0 <= w.value <= 1000.0
  }

  predicate NotesOk(notes: Option<string>) {
    notes.None? || |notes.value| <= 500
  }

  predicate FrequencyOk(f: Option<string>) {
    f.None? || ParseFrequency(f.value).Some?
  }

  /** The failing fields among address, waste type, date and time slot, in schema order. */
  function WhereWhenIssues(input: FormInput): (r: seq<Field>)
    ensures r == [] <==>
      |input.address| >= 10 && ParseWasteType(input.wasteType).Some? && |input.pickupDate| >= 1 &&
      ParseTimeSlot(input.pickupTime).Some?
    ensures AddressField in r <==> |input.address| < 10
    ensures WeightField !in r && NotesField !in r
  {
    (if |input.address| < 10 then [AddressField] else []) +
    (if ParseWasteType(input.wasteType).None? then [WasteTypeField] else []) +
    (if |input.pickupDate| < 1 then [PickupDateField] else []) +
    (if ParseTimeSlot(input.pickupTime).None? then [PickupTimeField] else [])
  }

  /** The failing fields among weight, notes and frequency, in schema order. */
  function AmountIssues(input: FormInput): (r: seq<Field>)
    ensures r == [] <==>
      WeightOk(input.estimatedWeight) && NotesOk(input.notes) && FrequencyOk(input.recurringFrequency)
    ensures WeightField in r <==> !WeightOk(input.estimatedWeight)
    ensures NotesField in r <==> !NotesOk(input.notes)
    ensures AddressField !in r
  {
    (if !WeightOk(input.estimatedWeight) then [WeightField] else []) +
    (if !NotesOk(input.notes) then [NotesField] else []) +
    (if !FrequencyOk(input.recurringFrequency) then [FrequencyField] else [])
  }

  /** `pickupRequestSchema`: the fields that fail their rule, in schema order. */
  function Issues(input: FormInput): (r: seq<Field>)
    ensures r == [] <==>
      |input.address| >= 10 && ParseWasteType(input.wasteType).Some? && |input.pickupDate| >= 1 &&
      ParseTimeSlot(input.pickupTime).Some? && WeightOk(input.estimatedWeight) &&
      NotesOk(input.notes) && FrequencyOk(input.recurringFrequency)
    ensures AddressField in r <==> |input.address| < 10
    ensures WeightField in r <==> !WeightOk(input.estimatedWeight)
    ensures NotesField in r <==> !NotesOk(input.notes)
  {
    WhereWhenIssues(input) + AmountIssues(input)
  }

  /** The parsed form: present exactly when there are no issues; the flags default to false. */
  function Parse(input: FormInput): (r: Option<PickupRequestData>)
    ensures r.Some? <==> Issues(input) == []
    ensures r.Some? ==>
      r.value.address == input.address && WasteTypeName(r.value.wasteType) == input.wasteType &&
      TimeSlotName(r.value.pickupTime) == input.pickupTime && Some(r.value.estimatedWeight) == input.estimatedWeight &&
      r.value.urgentPickup == input.urgentPickup.GetOr(false) &&
      r.value.recurringPickup == input.recurringPickup.GetOr(false) &&
      (input.recurringFrequency.None? <==> r.value.recurringFrequency.None?)
    ensures r.Some? ==>
      r.value.pickupDate == input.pickupDate && r.value.notes == input.notes &&
      r.value.coordinates == input.coordinates
    ensures r.Some? && input.recurringFrequency.Some? ==>
      FrequencyName(r.value.recurringFrequency.value) == input.recurringFrequency.value
  {
    if Issues(input) != [] then None
    else
      Some(PickupRequestData(
        input.address, input.coordinates,
        ParseWasteType(input.wasteType).value, input.pickupDate,
        ParseTimeSlot(input.pickupTime).value, input.estimatedWeight.value,
        input.notes, input.urgentPickup.GetOr(false), input.recurringPickup.GetOr(false),
        if input.recurringFrequency.Some? then ParseFrequency(input.recurringFrequency.value) else None))
  }

  /** An uploaded file: its MIME type and its size in bytes. */
  datatype Photo = Photo(name: string, mimeType: string, size: nat)

  predicate AcceptedPhoto(f: Photo) {
    Text.StartsWith(f.mimeType, "image/") && f.size <= MaxPhotoBytes
  }

  function Min(a: int, b: int): int {
    if a <= b then a else b
  }

  /** What the form hands to its `onSubmit` callback. */
  datatype Submission = Submission(data: PickupRequestData, photos: seq<Photo>)

  /** The state of the form component besides the field values kept by the form library. */
  class RequestForm {
    var photos: seq<Photo>
    var estimatedCost: int

    ghost predicate Valid()
      reads this
    {
      |photos| <= MaxPhotos
    }

    constructor ()
      ensures Valid() && photos == [] && estimatedCost == 0
    {
      photos := [];
      estimatedCost := 0;
    }

    /**
     * The cost effect: recomputes the estimate only when the waste type and
     * the weight are both truthy, and keeps the previous value otherwise.
     */
    method UpdateEstimate(wasteType: Option<WasteType>, weight: Option<real>, urgent: bool)
      modifies this
      ensures wasteType.Some? && weight.Some? && weight.value != 0.0 ==>
        estimatedCost == CalculateCost(wasteType.value, weight.value, urgent)
      ensures !(wasteType.Some? && weight.Some? && weight.value != 0.0) ==> estimatedCost == old(estimatedCost)
      ensures photos == old(photos)
    {
      if wasteType.Some? && weight.Some? && weight.value != 0.0 {
        estimatedCost := CalculateCost(wasteType.value, weight.value, urgent);
      }
    }

    /**
     * `handlePhotoUpload`: accepted files are appended after the existing
     * photos, in their order, and the list is cut to five; the existing photos
     * are never displaced.
     */
    method HandlePhotoUpload(files: seq<Photo>)
      requires Valid()
      modifies this
      ensures Valid()
      ensures |photos| == Min(MaxPhotos, |old(photos)| + Sequences.Count(files, AcceptedPhoto))
      ensures photos[..|old(photos)|] == old(photos)
      ensures photos[|old(photos)|..] == Sequences.Filter(files, AcceptedPhoto)[..|photos| - |old(photos)|]
      ensures forall i :: |old(photos)| <= i < |photos| ==> AcceptedPhoto(photos[i])
      ensures estimatedCost == old(estimatedCost)
    {
      var valid := Sequences.Filter(files, AcceptedPhoto);
      var all := photos + valid;
      photos := all[..Min(MaxPhotos, |all|)];
    }

    /** `removePhoto(index)`: drops exactly that position; an index out of range changes nothing. */
    method RemovePhoto(index: int)
      modifies this
      ensures 0 <= index < |old(photos)| ==> |photos| == |old(photos)| - 1
      ensures !(0 <= index < |old(photos)|) ==> photos == old(photos)
      ensures forall i :: 0 <= i < |photos| && i < index ==> photos[i] == old(photos)[i]
      ensures forall i :: 0 <= index <= i < |photos| ==> photos[i] == old(photos)[i + 1]
      ensures estimatedCost == old(estimatedCost)
    {
      if 0 <= index < |photos| {
        photos := photos[..index] + photos[index + 1..];
      }
    }

    /**
     * `handleFormSubmit` behind the form library's validation: valid input is
     * forwarded together with the current photo list; invalid input is not.
     */
    method Submit(input: FormInput) returns (r: Option<Submission>)
      ensures r.Some? <==> Issues(input) == []
      ensures r.Some? ==> r.value.photos == photos && Some(r.value.data) == Parse(input)
    {
      var parsed := Parse(input);
      if parsed.Some? {
        r := Some(Submission(parsed.value, photos));
      } else {
        r := None;
      }
    }
  }

  /** The submit button is enabled only for valid input, a valid address and no request in flight. */
  function SubmitEnabled(isLoading: bool, input: FormInput, addressValid: bool): (b: bool)
    ensures b <==> !isLoading && Parse(input).Some? && addressValid
  {
    !(isLoading || Issues(input) != [] || !addressValid)
  }
}
