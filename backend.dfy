/**
 * The Express backend as an object: the collections it writes and the log of
 * requests it sends out are fields, each handler is a method that changes
 * them step by step as the route does, and each method is proved to do
 * exactly what the handler function of the same name describes.
 */
module Backend {
  import opened Wrappers
  import opened UserModel
  import opened FunnelEventModel
  import opened CustomerTagModel
  import opened CustomerTags
  import SessionStore
  import opened Otp
  import opened PhoneFormat
  import opened WeightedDice
  import opened PlayerLookup
  import opened RollRules
  import opened DiscountWebhook
  import opened Handlers
  import opened HandlerProperties

  class Server {
    var users: seq<User>
    var events: seq<FunnelEvent>
    var customerTags: seq<CustomerTag>
    var customersCreated: seq<NewCustomer>
    var smsSent: seq<Sms>
    var tagWrites: seq<TagWrite>
    var credits: seq<CreditRequest>

    function State(): World
      reads this
    {
      World(users, events, customerTags, customersCreated, smsSent, tagWrites, credits)
    }

    /** The schema constraints and unique indexes hold between requests. */
    predicate Valid()
      reads this
    {
      ValidWorld(State())
    }

    /** Empty collections, nothing sent yet. */
    constructor ()
      ensures State() == EmptyWorld && Valid()
    {
      users := [];
      events := [];
      customerTags := [];
      customersCreated := [];
      smsSent := [];
      tagWrites := [];
      credits := [];
    }

    /** `/api/send-otp`. */
    method SendOtp(session: SessionStore.Session, name: Option<string>, mobile: Option<string>,
                   email: Option<string>, search: CustomerSearch, createdId: Option<string>, u: real, now: int)
      returns (reply: Reply)
      requires Valid() && session.Valid() && 0.0 <= u < 1.0
      modifies this, session
      ensures Valid() && session.Valid()
      ensures State() == Handlers.SendOtp(old(State()), old(session.State()), name, mobile, email, search, createdId, u, now).0
      ensures session.State() == Handlers.SendOtp(old(State()), old(session.State()), name, mobile, email, search, createdId, u, now).1
      ensures reply == Handlers.SendOtp(old(State()), old(session.State()), name, mobile, email, search, createdId, u, now).2
    {
      SendOtpKeepsValid(State(), session.State(), name, mobile, email, search, createdId, u, now);
      if !Given(name) || !Given(mobile) || !Given(email) {
        return Fail(400, FieldsRequired);
      }
      if !ValidEmail(email.value) {
        return Fail(400, InvalidEmail);
      }
      var info := SessionStore.UserInfo(name.value, mobile.value, email.value);
      match search {
        case SearchFailed =>
          return Fail(500, SendFailed);
        case Found(id, tags) =>
          session.LinkCustomer(id, false);
          reply := Issue(session, info, NextTag(tags), u, now);
        case NotFound =>
          customersCreated := customersCreated + [NewCustomer(FormatPhone(info.mobile), info.email, info.name)];
          if createdId.None? {
            return Fail(500, SendFailed);
          }
          session.LinkCustomer(createdId.value, true);
          reply := Issue(session, info, Eligibility(None, false), u, now);
      }
    }

    /** The end of send-otp: draw the OTP, store it in the session, request
        the SMS, log `entered` and `otp_sent`. */
    method Issue(session: SessionStore.Session, info: SessionStore.UserInfo, e: Eligibility, u: real, now: int)
      returns (reply: Reply)
      requires session.Valid() && info.name != "" && info.mobile != "" && 0.0 <= u < 1.0
      modifies this, session
      ensures session.Valid()
      ensures State() == Issued(old(State()), old(session.State()), info, e, u, now).0
      ensures session.State() == Issued(old(State()), old(session.State()), info, e, u, now).1
      ensures reply == Issued(old(State()), old(session.State()), info, e, u, now).2
    {
      var otp := GenerateOtp(u);
      session.IssueOtp(info, otp, now, e);
      smsSent := smsSent + [Sms(info.mobile, otp)];
      events := events + [Logged(info.mobile, info.name, Entered, now)];
      events := events + [Logged(info.mobile, info.name, OtpSent, now)];
      reply := OtpSentReply;
    }

    /** `/api/verify-otp`. */
    method VerifyOtp(session: SessionStore.Session, candidate: Option<string>, now: int) returns (reply: Reply)
      requires Valid() && session.Valid()
      modifies this, session
      ensures Valid() && session.Valid()
      ensures State() == Handlers.VerifyOtp(old(State()), old(session.State()), candidate, now).0
      ensures session.State() == Handlers.VerifyOtp(old(State()), old(session.State()), candidate, now).1
      ensures reply == Handlers.VerifyOtp(old(State()), old(session.State()), candidate, now).2
    {
      VerifyOtpKeepsValid(State(), session.State(), candidate, now);
      var info := session.userInfo;
      var outcome := session.Verify(candidate, now);
      match outcome {
        case SessionExpired =>
          reply := Fail(400, SessionExpiredMessage);
        case OtpExpired =>
          reply := Fail(400, OtpExpiredMessage);
        case InvalidOtp =>
          reply := Fail(400, InvalidOtpMessage);
        case OtpVerified =>
          events := events + [Logged(info.value.mobile, info.value.name, EventType.OtpVerified, now)];
          reply := OtpVerifiedReply;
      }
    }

    /** `/api/roll-dice`: the draw and the save, then the Shopify stage and
        the end of the session. */
    method RollDice(session: SessionStore.Session, mobileHash: string, sha256: string -> string,
                    matches: HashMatch, u: real, tagRead: Option<Option<string>>, tagPutOk: bool,
                    creditPostOk: bool, now: int)
      returns (reply: Reply)
      requires Valid() && session.Valid() && 0.0 <= u < 1.0
      modifies this, session
      ensures Valid() && session.Valid()
      ensures State() == Handlers.RollDice(old(State()), old(session.State()), mobileHash, sha256, matches, u,
                                           tagRead, tagPutOk, creditPostOk, now).0
      ensures session.State() == Handlers.RollDice(old(State()), old(session.State()), mobileHash, sha256, matches, u,
                                                   tagRead, tagPutOk, creditPostOk, now).1
      ensures reply == Handlers.RollDice(old(State()), old(session.State()), mobileHash, sha256, matches, u,
                                         tagRead, tagPutOk, creditPostOk, now).2
    {
      RollKeepsValid(State(), session.State(), mobileHash, sha256, matches, u, tagRead, tagPutOk, creditPostOk, now);
      if !session.verified || session.userInfo.None? {
        return Fail(401, Unauthorized);
      }
      var s := session.State();
      var face, d, saved := SaveRoll(s, mobileHash, sha256, matches, u, now);
      if !saved {
        return Fail(500, RollFailed);
      }
      CreditStep(s, sha256(s.userInfo.value.mobile), tagRead, tagPutOk, creditPostOk, now);
      session.Destroy();
      reply := Rolled(face, d.code, DiscountLabel(d.percentage), None, false, WinMessage(d.percentage));
    }

    /** The roll up to the back-fill: the draw, the local discount, the lookup
        (fast identifier, then the legacy scan), the save and the
        `dice_rolled` event. */
    method SaveRoll(s: SessionStore.SessionState, mobileHash: string, sha256: string -> string,
                    matches: HashMatch, u: real, now: int)
      returns (face: int, d: LocalDiscount, saved: bool)
      requires 0.0 <= u < 1.0 && SessionStore.Consistent(s) && s.verified
      modifies this
      ensures face == Draw(Probabilities, u)
      ensures saved <==> Record(old(State()), s, mobileHash, sha256, matches, u, now).Some?
      ensures saved ==> State() == Record(old(State()), s, mobileHash, sha256, matches, u, now).value.world
                        && d == Record(old(State()), s, mobileHash, sha256, matches, u, now).value.discount
      ensures !saved ==> State() == old(State())
    {
      var info := s.userInfo.value;
      var identifier := sha256(info.mobile);
      face := GetWeightedDiceResult(u);
      ShippedTableAlwaysSix(u);
      d := FallbackDiscount(face, info.mobile).value;

      var lookup: Lookup;
      var fast := FirstWithIdentifier(users, identifier);
      if fast.Some? {
        lookup := FastHit(fast.value);
      } else {
        var legacy := LegacyScan(users, info.name, info.mobile, matches);
        lookup := if legacy.Some? then LegacyHit(legacy.value) else Miss;
      }
      assert lookup == LookupPlayer(users, identifier, info.name, info.mobile, matches);

      var upserted := Upsert(users, lookup, RollFor(s, mobileHash, identifier, d, face, now), now);
      if upserted.Failure? {
        return face, d, false;
      }
      var at := upserted.value.1;
      users := upserted.value.0;
      events := events + [FunnelEvent(info.mobile, Some(info.name), DiceRolled, Some(d.code), now, Some(at))];
      events := Backfill(events, info.mobile, at, info.name);
      saved := true;
    }

    /** The Shopify stage: merge the tags, then the credit gate, the Flits
        request and the stamp. */
    method CreditStep(s: SessionStore.SessionState, identifier: string, tagRead: Option<Option<string>>,
                      tagPutOk: bool, creditPostOk: bool, now: int)
      requires s.userInfo.Some?
      modifies this
      ensures State() == CreditStage(old(State()), s, identifier, tagRead, tagPutOk, creditPostOk, now)
    {
      if !Given(s.shopifyCustomerId) || tagRead.None? {
        return;
      }
      tagWrites := tagWrites + [TagWrite(s.shopifyCustomerId.value, RenderTags(MergeTags(tagRead.value, [s.tag])))];
      if !tagPutOk {
        return;
      }
      var redeemedWithinHour := RedeemedWithin(LastCredit(users, identifier), now, OneHourMs);
      if s.hasRedeemedBefore || redeemedWithinHour {
        return;
      }
      credits := credits + [FlitsCredit(s.userInfo.value.email)];
      if creditPostOk {
        users := StampCredit(users, identifier, now);
      }
    }

    /** `/api/shopify/webhook/discount-used`: the loop over the order's codes
        with its `updated` counter. */
    method DiscountUsedWebhook(codes: Option<seq<CodeItem>>, now: int) returns (reply: Reply)
      requires Valid()
      modifies this
      ensures Valid()
      ensures (State(), reply) == Handlers.DiscountUsedWebhook(old(State()), codes, now)
    {
      if codes.None? || codes.value == [] {
        return Fail(400, NoCodes);
      }
      var discountCodes := codes.value;
      var updated := 0;
      for i := 0 to |discountCodes|
        invariant users == UseCodes(old(users), discountCodes[..i], now).users
        invariant events == old(events) + UseCodes(old(users), discountCodes[..i], now).events
        invariant updated == UseCodes(old(users), discountCodes[..i], now).updated
        invariant customerTags == old(customerTags) && customersCreated == old(customersCreated)
        invariant smsSent == old(smsSent) && tagWrites == old(tagWrites) && credits == old(credits)
      {
        assert discountCodes[..i + 1][..i] == discountCodes[..i];
        var code := discountCodes[i];
        if code.None? || code.value == "" {
          continue;
        }
        var found := FirstWithCode(users, code.value);
        if found.None? {
          continue;
        }
        var k := found.value;
        var user := users[k];
        users := users[k := user.(discountUsedAt := Some(now))];
        events := events + [FunnelEvent(user.mobileHash, Some(user.name), DiscountUsed, Some(user.discountCode), now, Some(k))];
        updated := updated + 1;
      }
      assert discountCodes[..|discountCodes|] == discountCodes;
      DiscountUsedReplies(old(State()), codes, now);
      if updated == 0 {
        return Fail(404, NoMatch);
      }
      reply := UpdatedReply(updated);
    }

    /** `/api/shopify/webhook/customer-tag-added`. */
    method CustomerTagWebhook(customerId: Option<string>, tags: Option<seq<string>>, phone: Option<string>)
      returns (reply: Reply)
      requires Valid()
      modifies this
      ensures Valid()
      ensures (State(), reply) == Handlers.CustomerTagWebhook(old(State()), customerId, tags, phone)
    {
      if !Given(customerId) || tags.None? {
        return Fail(400, MissingPayload);
      }
      var id := ExtractCustomerId(customerId.value);
      var phoneNumber: Option<string> := None;
      if Given(phone) {
        phoneNumber := phone;
      }
      var found := FindCustomer(customerTags, id);
      if found.Some? {
        var k := found.value;
        var record := customerTags[k];
        var newTags := NotRecorded(tags.value, record.tags);
        if |newTags| > 0 {
          record := record.(tags := record.tags + newTags);
        } else {
          assert record.tags + newTags == record.tags;
        }
        if phoneNumber.Some? {
          record := record.(phoneNumber := phoneNumber);
        }
        customerTags := customerTags[k := record];
      } else {
        customerTags := customerTags + [CustomerTag(id, tags.value, phoneNumber)];
      }
      CustomerTagAddedMirrors(old(State()), customerId, tags, phone);
      reply := Received;
    }
  }
}
