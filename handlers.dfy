/**
 * The five request handlers of the backend as functions from the state before
 * a request to the state after it and the reply. The state is the three
 * collections plus a log of every request sent to an outside service
 * (Shopify customer creation, the SMS gateway, the Shopify tag update, the
 * Flits wallet credit). What those services answer, the random numbers, the
 * bcrypt hash, SHA-256 and the clock are parameters.
 */
module Handlers {
  import opened Wrappers
  import opened Text
  import opened UserModel
  import opened FunnelEventModel
  import opened CustomerTagModel
  import opened CustomerTags
  import SessionStore
  import opened Otp
  import opened PhoneFormat
  import opened WeightedDice
  import opened PlayerLookup
  import opened RollRules
  import opened DiscountWebhook

  // ---------------------------------------------------------------------------
  // State, outside requests and replies

  /** The body of the Shopify customer creation. */
  datatype NewCustomer = NewCustomer(phone: string, email: string, firstName: string)

  /** One request to the SMS gateway. */
  datatype Sms = Sms(number: string, otp: string)

  /** One tag update (`PUT customers/<id>.json`). */
  datatype TagWrite = TagWrite(customerId: string, tags: string)

  datatype World = World(
    users: seq<User>,
    events: seq<FunnelEvent>,
    customerTags: seq<CustomerTag>,
    customersCreated: seq<NewCustomer>,
    smsSent: seq<Sms>,
    tagWrites: seq<TagWrite>,
    credits: seq<CreditRequest>)

  const EmptyWorld := World([], [], [], [], [], [], [])

  /** Every event has a mobile and points, if at all, at an existing player. */
  predicate ValidEvents(events: seq<FunnelEvent>, players: nat) {
    forall i :: 0 <= i < |events| ==>
      events[i].mobile != "" && (events[i].userId.Some? ==> events[i].userId.value < players)
  }

  /** At most one mirror per customer, none without a customer id. */
  predicate ValidMirrors(records: seq<CustomerTag>) {
    UniqueCustomers(records) && forall i :: 0 <= i < |records| ==> records[i].customerId != ""
  }

  /** The schema constraints and unique indexes of the three collections. */
  predicate ValidWorld(w: World) {
    ValidCollection(w.users) && ValidEvents(w.events, |w.users|) && ValidMirrors(w.customerTags)
  }

  /** What the Shopify search by phone yields. */
  datatype CustomerSearch = Found(id: string, tags: Option<string>) | NotFound | SearchFailed

  datatype Reply =
    | Fail(status: nat, error: string)
    | OtpSentReply
    | OtpVerifiedReply
    | Rolled(diceResult: int, discountCode: string, discount: string, shopifyUrl: Option<string>,
             isShopifyCode: bool, message: string)
    | UpdatedReply(updated: nat)
    | Received

  /** An event created with just a mobile, a name and its stage. */
  function Logged(mobile: string, name: string, t: EventType, now: int): FunnelEvent {
    FunnelEvent(mobile, Some(name), t, None, now, None)
  }

  /** JavaScript truthiness of an optional string. */
  predicate Given(v: Option<string>) {
    v.Some? && v.value != ""
  }

  // ---------------------------------------------------------------------------
  // send-otp

  const FieldsRequired := "Name, email and mobile number required"
  const InvalidEmail := "Invalid email format"
  const SendFailed := "Failed to send OTP"

  /** `/api/send-otp`. `u` is `Math.random()`; `createdId` is the id Shopify
      gives the created customer, `None` when the creation fails. */
  function SendOtp(w: World, s: SessionStore.SessionState, name: Option<string>, mobile: Option<string>,
                   email: Option<string>, search: CustomerSearch, createdId: Option<string>, u: real, now: int)
    : (World, SessionStore.SessionState, Reply)
    requires 0.0 <= u < 1.0
  {
    if !Given(name) || !Given(mobile) || !Given(email) then (w, s, Fail(400, FieldsRequired))
    else if !ValidEmail(email.value) then (w, s, Fail(400, InvalidEmail))
    else
      var info := SessionStore.UserInfo(name.value, mobile.value, email.value);
      match search
      case SearchFailed => (w, s, Fail(500, SendFailed))
      case Found(id, tags) => Issued(w, s.(shopifyCustomerId := Some(id)), info, NextTag(tags), u, now)
      case NotFound =>
        var w1 := w.(customersCreated := w.customersCreated
                       + [NewCustomer(FormatPhone(info.mobile), info.email, info.name)]);
        match createdId
        case None => (w1, s, Fail(500, SendFailed))
        case Some(id) =>
          Issued(w1, s.(shopifyCustomerId := Some(id), marketPlace := true), info,
                 Eligibility(None, false), u, now)
  }

  /** The end of send-otp: OTP drawn and stored, SMS requested (its failure is
      ignored), `entered` and `otp_sent` logged. */
  function Issued(w: World, s: SessionStore.SessionState, info: SessionStore.UserInfo, e: Eligibility, u: real, now: int)
    : (World, SessionStore.SessionState, Reply)
    requires 0.0 <= u < 1.0
  {
    var otp := GenerateOtp(u);
    (w.(smsSent := w.smsSent + [Sms(info.mobile, otp)],
        events := w.events + [Logged(info.mobile, info.name, Entered, now), Logged(info.mobile, info.name, OtpSent, now)]),
     SessionStore.Issue(s, info, otp, now, e),
     OtpSentReply)
  }

  // ---------------------------------------------------------------------------
  // verify-otp

  const SessionExpiredMessage := "Session expired. Please start again."
  const OtpExpiredMessage := "OTP expired. Please request a new OTP."
  const InvalidOtpMessage := "Invalid OTP"

  /** `/api/verify-otp`: the session's checks, and an `otp_verified` event on
      success. */
  function VerifyOtp(w: World, s: SessionStore.SessionState, candidate: Option<string>, now: int)
    : (World, SessionStore.SessionState, Reply)
  {
    var (s', outcome) := SessionStore.VerifyStep(s, candidate, now);
    match outcome
    case SessionExpired => (w, s', Fail(400, SessionExpiredMessage))
    case OtpExpired => (w, s', Fail(400, OtpExpiredMessage))
    case InvalidOtp => (w, s', Fail(400, InvalidOtpMessage))
    case OtpVerified =>
      var info := s.userInfo.value;
      (w.(events := w.events + [Logged(info.mobile, info.name, EventType.OtpVerified, now)]), s', OtpVerifiedReply)
  }

  // ---------------------------------------------------------------------------
  // roll-dice

  const Unauthorized := "Unauthorized. Please verify OTP first."
  const RollFailed := "Failed to process dice roll"

  /** What the roll writes into the player's record. */
  function RollFor(s: SessionStore.SessionState, mobileHash: string, identifier: string, d: LocalDiscount, face: int, now: int)
    : RollRecord
    requires s.verified && SessionStore.Consistent(s)
  {
    RollRecord(mobileHash, identifier, s.userInfo.value.name, d.code, face, s.marketPlace, None, None, false,
               s.generateOTPAt.value, s.enteredOTPAt.value, now, s.playedAt.value)
  }

  /** `/api/roll-dice`. `mobileHash` is the fresh bcrypt hash of the mobile,
      `sha256` and `matches` the hash functions, `u` is `Math.random()`,
      `tagRead` what the tag GET yields (`None` when it fails, `Some(None)`
      for a customer without tags), `tagPutOk` and `creditPostOk` whether
      the tag PUT and the Flits POST succeed. The Shopify discount service is
      not constructed, so the local discount is always used. */
  function RollDice(w: World, s: SessionStore.SessionState, mobileHash: string, sha256: string -> string,
                    matches: HashMatch, u: real, tagRead: Option<Option<string>>, tagPutOk: bool,
                    creditPostOk: bool, now: int)
    : (World, SessionStore.SessionState, Reply)
    requires 0.0 <= u < 1.0 && SessionStore.Consistent(s)
  {
    if !s.verified || s.userInfo.None? then (w, s, Fail(401, Unauthorized))
    else match Record(w, s, mobileHash, sha256, matches, u, now)
      case None => (w, s, Fail(500, RollFailed))
      case Some(r) =>
        (CreditStage(r.world, s, sha256(s.userInfo.value.mobile), tagRead, tagPutOk, creditPostOk, now),
         SessionStore.EmptySession,
         Rolled(Draw(Probabilities, u), r.discount.code, DiscountLabel(r.discount.percentage), None, false,
                WinMessage(r.discount.percentage)))
  }

  /** A roll that reached the save: the collections after the save and the
      `dice_rolled` event with its back-fill, the discount, and the position
      of the player's record. */
  datatype Recorded = Recorded(world: World, discount: LocalDiscount, at: nat)

  /** The part of the roll up to the back-fill; `None` when the handler fails
      with a 500. */
  function Record(w: World, s: SessionStore.SessionState, mobileHash: string, sha256: string -> string,
                  matches: HashMatch, u: real, now: int): Option<Recorded>
    requires 0.0 <= u < 1.0 && SessionStore.Consistent(s) && s.verified
  {
    var info := s.userInfo.value;
    var face := Draw(Probabilities, u);
    match FallbackDiscount(face, info.mobile)
    case None => None
    case Some(d) =>
      var identifier := sha256(info.mobile);
      var lookup := LookupPlayer(w.users, identifier, info.name, info.mobile, matches);
      match Upsert(w.users, lookup, RollFor(s, mobileHash, identifier, d, face, now), now)
      case Failure(_) => None
      case Success((saved, at)) =>
        var rolled := FunnelEvent(info.mobile, Some(info.name), DiceRolled, Some(d.code), now, Some(at));
        Some(Recorded(w.(users := saved, events := Backfill(w.events + [rolled], info.mobile, at, info.name)), d, at))
  }

  /** The Shopify part of the roll, only for a session linked to a customer:
      the tag merge, then, if the PUT went through, the credit gate, the
      Flits POST and the stamp. Any failure just ends the stage. */
  function CreditStage(w: World, s: SessionStore.SessionState, identifier: string, tagRead: Option<Option<string>>,
                       tagPutOk: bool, creditPostOk: bool, now: int): World
    requires s.userInfo.Some?
  {
    if !Given(s.shopifyCustomerId) || tagRead.None? then w
    else
      var w1 := w.(tagWrites := w.tagWrites
                     + [TagWrite(s.shopifyCustomerId.value, RenderTags(MergeTags(tagRead.value, [s.tag])))]);
      if !tagPutOk || !CreditDue(s.hasRedeemedBefore, LastCredit(w1.users, identifier), now) then w1
      else
        var w2 := w1.(credits := w1.credits + [FlitsCredit(s.userInfo.value.email)]);
        if creditPostOk then w2.(users := StampCredit(w2.users, identifier, now)) else w2
  }

  // ---------------------------------------------------------------------------
  // The two webhooks

  const NoCodes := "No discount codes found in webhook payload"
  const NoMatch := "No matching users for discount codes"

  /** `/api/shopify/webhook/discount-used`; `None` is a missing
      `discount_codes` or one that is not an array. */
  function DiscountUsedWebhook(w: World, codes: Option<seq<CodeItem>>, now: int): (World, Reply) {
    if codes.None? || codes.value == [] then (w, Fail(400, NoCodes))
    else
      var p := UseCodes(w.users, codes.value, now);
      var w1 := w.(users := p.users, events := w.events + p.events);
      if p.updated == 0 then (w1, Fail(404, NoMatch)) else (w1, UpdatedReply(p.updated))
  }

  const MissingPayload := "Missing customerId or tags array in payload"

  /** `/api/shopify/webhook/customer-tag-added`; `phone` is what the customer
      lookup yields (`None` when it fails or the customer has no phone). */
  function CustomerTagWebhook(w: World, customerId: Option<string>, tags: Option<seq<string>>, phone: Option<string>)
    : (World, Reply)
  {
    if !Given(customerId) || tags.None? then (w, Fail(400, MissingPayload))
    else
      var id := ExtractCustomerId(customerId.value);
      var phoneNumber := if Given(phone) then phone else None;
      match FindCustomer(w.customerTags, id)
      case Some(k) =>
        var r := w.customerTags[k];
        var r' := r.(tags := AppendNewTags(r.tags, tags.value),
                     phoneNumber := if phoneNumber.Some? then phoneNumber else r.phoneNumber);
        (w.(customerTags := w.customerTags[k := r']), Received)
      case None =>
        (w.(customerTags := w.customerTags + [CustomerTag(id, tags.value, phoneNumber)]), Received)
  }
}
