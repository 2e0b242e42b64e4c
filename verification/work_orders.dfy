/**
  The structured work order both parser variants produce and both job mappers
  consume, the task records inside it, and the partner's fixed constants.
*/
module WorkOrders {
  import opened Wrappers
  import opened JsText

  /** A latitude or longitude in the printed form JavaScript gives the number. */
  type Coordinate = string

  /** `siteLocation`: coordinates and whether a lookup produced them. */
  datatype Location = Location(latitude: Coordinate, longitude: Coordinate, geocoded: bool)

  /** One numbered line of the scope of works. */
  datatype WorkTask = WorkTask(taskNumber: string, description: string, isConditional: bool)

  /**
    The parsed work order. `siteLocation` is absent for the variant that does not
    geocode; `estimatedValue` and `costLimit` are JavaScript's optional fields.
    `urgency` is a string because the mappers accept any string there.
  */
  datatype WorkOrder = WorkOrder(
    orderNumber: string,
    date: string,
    contractor: string,
    siteContactName: string,
    siteAddress: string,
    siteContactPhone: string,
    siteLocation: Option<Location>,
    customerName: string,
    workType: string,
    jobDescription: string,
    estimatedValue: Option<real>,
    costLimit: Option<string>,
    tasks: seq<WorkTask>,
    requiresJSA: bool,
    requiresSWMS: bool,
    urgency: string,
    etsPhone: string,
    etsEmail: string)

  /** The partner's legal name: always the billed customer. */
  const CustomerLegalName: string := "EMERGENCY TRADE SERVICES Pty Ltd ATF The Emergency Trade Services Trust"
  const PartnerPhone: string := "1300 755 455"
  const PartnerEmail: string := "admin@etsaus.com.au"

  const Emergency: string := "emergency"
  const Urgent: string := "urgent"
  const Standard: string := "standard"

  /** The location recorded when no lookup produced coordinates: `(0, 0, false)`. */
  const Ungeocoded: Location := Location("0", "0", false)

  /** The phrase that marks a task as conditional. */
  const ConditionalPhrase: string := "if you cannot"

  /** A task regex match: the number, the trimmed text, and whether it is conditional. */
  function ToTask(raw: (string, string)): WorkTask {
    WorkTask(raw.0, Trim(raw.1), Contains(Lower(raw.1), ConditionalPhrase))
  }

  /** The task list: one task per regex match, in document order. */
  function ToTasks(raws: seq<(string, string)>): (r: seq<WorkTask>)
    ensures |r| == |raws|
    ensures forall i :: 0 <= i < |raws| ==> r[i].taskNumber == raws[i].0
    ensures forall i :: 0 <= i < |raws| ==> r[i].description == Trim(raws[i].1)
    ensures forall i :: 0 <= i < |raws| ==> (r[i].isConditional <==> Contains(Lower(raws[i].1), ConditionalPhrase))
  {
    if |raws| == 0 then [] else [ToTask(raws[0])] + ToTasks(raws[1..])
  }
}
