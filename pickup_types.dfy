/**
 * The pickup entities exchanged with the backend (src/types/pickup.ts), with
 * the wire names of the enumerations and their parsers.
 */
module PickupTypes {
  import opened Wrappers

  datatype WasteType = General | Recyclable | Hazardous

  datatype PickupStatus = Pending | Assigned | InProgress | Completed | Cancelled

  datatype TimeSlot = Morning | Afternoon | Evening

  datatype Frequency = Weekly | Biweekly | Monthly

  /**
   * A pickup as the customer's list receives it. `pickupInstant` is what
   * `new Date(pickupDate)` denotes, in milliseconds since the epoch, or `None`
   * when the date string does not parse (JavaScript's invalid date, whose
   * time value is NaN).
   */
  datatype Pickup = Pickup(
    id: string,
    userId: string,
    address: string,
    notes: Option<string>,
    status: PickupStatus,
    wasteType: WasteType,
    pickupDate: string,
    pickupInstant: Option<int>,
    driverName: Option<string>,
    rating: Option<int>
  )

  function WasteTypeName(t: WasteType): string {
    match t
    case General => "general"
    case Recyclable => "recyclable"
    case Hazardous => "hazardous"
  }

  function StatusName(s: PickupStatus): string {
    match s
    case Pending => "pending"
    case Assigned => "assigned"
    case InProgress => "in_progress"
    case Completed => "completed"
    case Cancelled => "cancelled"
  }

  function TimeSlotName(t: TimeSlot): string {
    match t
    case Morning => "morning"
    case Afternoon => "afternoon"
    case Evening => "evening"
  }

  function FrequencyName(f: Frequency): string {
    match f
    case Weekly => "weekly"
    case Biweekly => "biweekly"
    case Monthly => "monthly"
  }

  /** Accepts exactly the wire names of the waste types. */
  function ParseWasteType(s: string): (r: Option<WasteType>)
    ensures r.Some? ==> WasteTypeName(r.value) == s
    ensures forall t :: WasteTypeName(t) == s ==> r == Some(t)
  {
    if s == "general" then Some(General)
    else if s == "recyclable" then Some(Recyclable)
    else if s == "hazardous" then Some(Hazardous)
    else None
  }

  /** Accepts exactly the wire names of the statuses. */
  function ParseStatus(s: string): (r: Option<PickupStatus>)
    ensures r.Some? ==> StatusName(r.value) == s
    ensures forall t :: StatusName(t) == s ==> r == Some(t)
  {
    if s == "pending" then Some(Pending)
    else if s == "assigned" then Some(Assigned)
    else if s == "in_progress" then Some(InProgress)
    else if s == "completed" then Some(Completed)
    else if s == "cancelled" then Some(Cancelled)
    else None
  }

  /** Accepts exactly the wire names of the time slots. */
  function ParseTimeSlot(s: string): (r: Option<TimeSlot>)
    ensures r.Some? ==> TimeSlotName(r.value) == s
    ensures forall t :: TimeSlotName(t) == s ==> r == Some(t)
  {
    if s == "morning" then Some(Morning)
    else if s == "afternoon" then Some(Afternoon)
    else if s == "evening" then Some(Evening)
    else None
  }

  /** Accepts exactly the wire names of the recurrence frequencies. */
  function ParseFrequency(s: string): (r: Option<Frequency>)
    ensures r.Some? ==> FrequencyName(r.value) == s
    ensures forall f :: FrequencyName(f) == s ==> r == Some(f)
  {
    if s == "weekly" then Some(Weekly)
    else if s == "biweekly" then Some(Biweekly)
    else if s == "monthly" then Some(Monthly)
    else None
  }
}
