/**
 * The funnel event record (`FunnelEvent` collection): the five funnel stages,
 * the required fields and the defaults of `timestamp` and `userId`.
 */
module FunnelEventModel {
  import opened Wrappers

  /** The values the `eventType` enum admits. */
  datatype EventType = Entered | OtpSent | OtpVerified | DiceRolled | DiscountUsed

  /** The stored spelling of a stage. */
  function EventTypeName(e: EventType): string {
    match e
    case Entered => "entered"
    case OtpSent => "otp_sent"
    case OtpVerified => "otp_verified"
    case DiceRolled => "dice_rolled"
    case DiscountUsed => "discount_used"
  }

  /** The enum validator: a string is accepted exactly when it names a stage. */
  function ParseEventType(s: string): (r: Option<EventType>)
    ensures r.Some? ==> EventTypeName(r.value) == s
  {
    if s == "entered" then Some(Entered)
    else if s == "otp_sent" then Some(OtpSent)
    else if s == "otp_verified" then Some(OtpVerified)
    else if s == "dice_rolled" then Some(DiceRolled)
    else if s == "discount_used" then Some(DiscountUsed)
    else None
  }

  /** Every stage is accepted under its own name, and no other string is. */
  lemma ParseEventTypeExact(s: string, e: EventType)
    ensures ParseEventType(s) == Some(e) <==> s == EventTypeName(e)
  {
    if s == EventTypeName(e) {
      match e
      case Entered =>
      case OtpSent =>
      case OtpVerified =>
      case DiceRolled =>
      case DiscountUsed =>
    }
  }

  /** A stored event; `userId` is the position of the player record it was
      back-filled with (standing for its ObjectId). Times are milliseconds. */
  datatype FunnelEvent = FunnelEvent(
    mobile: string,
    name: Option<string>,
    eventType: EventType,
    discountCode: Option<string>,
    timestamp: int,
    userId: Option<nat>)

  /** The paths handed to `FunnelEvent.create({...})`. */
  datatype EventFields = EventFields(
    mobile: Option<string>,
    name: Option<string>,
    eventType: Option<string>,
    discountCode: Option<string>,
    userId: Option<nat>)

  /** `FunnelEvent.create(fields)` at time `now`: `mobile` is required, `eventType`
      is required and must be one of the five stages, `timestamp` defaults to
      the creation time and `userId` to `null`. */
  function NewFunnelEvent(f: EventFields, now: int): (r: Result<FunnelEvent, seq<string>>)
    ensures r.Success? <==>
      f.mobile.Some? && f.mobile.value != "" && f.eventType.Some? && ParseEventType(f.eventType.value).Some?
    ensures r.Success? ==>
      && r.value.mobile == f.mobile.value
      && EventTypeName(r.value.eventType) == f.eventType.value
      && r.value.timestamp == now
      && r.value.userId == f.userId
      && r.value.name == f.name
      && r.value.discountCode == f.discountCode
    ensures r.Failure? ==> r.error != []
  {
    var failed :=
      (if f.mobile.Some? && f.mobile.value != "" then [] else ["mobile"])
      + (if f.eventType.Some? && ParseEventType(f.eventType.value).Some? then [] else ["eventType"]);
    if failed != [] then Failure(failed)
    else Success(FunnelEvent(f.mobile.value, f.name, ParseEventType(f.eventType.value).value,
                             f.discountCode, now, f.userId))
  }
}
