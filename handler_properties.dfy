/**
 * What the handlers promise, request by request and across requests: the
 * schema constraints survive every request, send-otp followed by verify-otp
 * with the code sent verifies the session, every roll wins the 100% code,
 * the player's record is found by the fast identifier after any roll, and no
 * two wallet credits reach the same player within an hour.
 */
module HandlerProperties {
  import opened Wrappers
  import opened Text
  import opened UserModel
  import opened FunnelEventModel
  import opened CustomerTagModel
  import opened CustomerTags
  import SessionStore
  import opened Otp
  import opened PhoneFormat
  import opened WeightedDice
  import opened PlayerLookup
  import opened RollRules
  import opened DiscountWebhook
  import opened Handlers

  // ---------------------------------------------------------------------------
  // send-otp

  /** The two 400 replies and when each is given; neither changes anything. */
  lemma SendOtpRejects(w: World, s: SessionStore.SessionState, name: Option<string>, mobile: Option<string>,
                       email: Option<string>, search: CustomerSearch, createdId: Option<string>, u: real, now: int)
    requires 0.0 <= u < 1.0
    ensures var (w', s', reply) := SendOtp(w, s, name, mobile, email, search, createdId, u, now);
      && (reply == Fail(400, FieldsRequired) <==> !Given(name) || !Given(mobile) || !Given(email))
      && (reply == Fail(400, InvalidEmail) <==>
            Given(name) && Given(mobile) && Given(email) && !MatchesEmailPattern(email.value))
      && (reply.Fail? && reply.status == 400 ==> w' == w && s' == s)
  {
    if Given(email) {
      ValidEmailMatchesPattern(email.value);
    }
  }

  /** A code is sent exactly when the request is complete and well-formed and
      the customer is found in Shopify or created there; the session then
      holds the player and a four-digit code, which is the code texted to the
      mobile, and `entered` and `otp_sent` are logged. A failure at Shopify
      answers 500 and leaves the session as it was. */
  lemma SendOtpIssues(w: World, s: SessionStore.SessionState, name: Option<string>, mobile: Option<string>,
                      email: Option<string>, search: CustomerSearch, createdId: Option<string>, u: real, now: int)
    requires 0.0 <= u < 1.0
    ensures var (w', s', reply) := SendOtp(w, s, name, mobile, email, search, createdId, u, now);
      && (reply == OtpSentReply <==>
            Given(name) && Given(mobile) && Given(email) && MatchesEmailPattern(email.value)
            && (search.Found? || (search.NotFound? && createdId.Some?)))
      && (reply == OtpSentReply ==>
            && s'.userInfo == Some(SessionStore.UserInfo(name.value, mobile.value, email.value))
            && s'.otp.Some? && |s'.otp.value| == 4 && AllDigits(s'.otp.value)
            && w'.smsSent == w.smsSent + [Sms(mobile.value, s'.otp.value)]
            && w'.events == w.events + [Logged(mobile.value, name.value, Entered, now),
                                        Logged(mobile.value, name.value, OtpSent, now)]
            && s'.generateOTPAt == Some(now) && s'.shopifyCustomerId.Some?
            && s'.verified == s.verified)
      && (Given(name) && Given(mobile) && Given(email) && MatchesEmailPattern(email.value) && search.NotFound? ==>
            w'.customersCreated == w.customersCreated + [NewCustomer(FormatPhone(mobile.value), email.value, name.value)])
      && (!search.NotFound? ==> w'.customersCreated == w.customersCreated)
      && (search.Found? && reply == OtpSentReply ==>
            && s'.tag == NextTag(search.tags).tag
            && s'.hasRedeemedBefore == NextTag(search.tags).hasRedeemedBefore
            && s'.shopifyCustomerId == Some(search.id) && s'.marketPlace == s.marketPlace)
      && (search.NotFound? && reply == OtpSentReply ==>
            && s'.tag.None? && !s'.hasRedeemedBefore
            && s'.shopifyCustomerId == createdId && s'.marketPlace)
      && (reply == Fail(500, SendFailed) ==> s' == s && w'.users == w.users && w'.events == w.events)
  {
    if Given(email) {
      ValidEmailMatchesPattern(email.value);
    }
  }

  /** The phone formatting is used as written: a new customer whose national
      number begins with 91 is created in Shopify without those two digits. */
  lemma SendOtpCreatesShortenedPhone(w: World, s: SessionStore.SessionState, name: string, email: string,
                                     createdId: Option<string>, u: real, now: int)
    requires 0.0 <= u < 1.0 && name != "" && MatchesEmailPattern(email)
    ensures var (w', _, _) := SendOtp(w, s, Some(name), Some("9123456789"), Some(email), NotFound, createdId, u, now);
      w'.customersCreated == w.customersCreated + [NewCustomer("+9123456789", email, name)]
  {
    ValidEmailMatchesPattern(email);
    FormatPhoneCounterexample();
  }

  /** send-otp keeps the collections and the session consistent. */
  lemma SendOtpKeepsValid(w: World, s: SessionStore.SessionState, name: Option<string>, mobile: Option<string>,
                          email: Option<string>, search: CustomerSearch, createdId: Option<string>, u: real, now: int)
    requires 0.0 <= u < 1.0 && ValidWorld(w) && SessionStore.Consistent(s)
    ensures var (w', s', reply) := SendOtp(w, s, name, mobile, email, search, createdId, u, now);
      ValidWorld(w') && SessionStore.Consistent(s')
  {
  }

  /** The code texted by send-otp, entered within ten minutes, verifies the
      session and logs `otp_verified` after `entered` and `otp_sent`; a
      different code is refused and can be retried. */
  lemma SendThenVerify(w: World, s: SessionStore.SessionState, name: Option<string>, mobile: Option<string>,
                       email: Option<string>, search: CustomerSearch, createdId: Option<string>, u: real,
                       now: int, later: int, wrong: string)
    requires 0.0 <= u < 1.0 && now <= later <= now + SessionStore.OtpLifetimeMs
    requires SendOtp(w, s, name, mobile, email, search, createdId, u, now).2 == OtpSentReply
    ensures var (w1, s1, _) := SendOtp(w, s, name, mobile, email, search, createdId, u, now);
      var (w2, s2, reply) := VerifyOtp(w1, s1, Some(GenerateOtp(u)), later);
      && reply == OtpVerifiedReply && s2.verified && s2.otp.None? && s2.enteredOTPAt == Some(later)
      && w2.events == w.events + [Logged(mobile.value, name.value, Entered, now),
                                  Logged(mobile.value, name.value, OtpSent, now),
                                  Logged(mobile.value, name.value, EventType.OtpVerified, later)]
    ensures var (w1, s1, _) := SendOtp(w, s, name, mobile, email, search, createdId, u, now);
      wrong != GenerateOtp(u) ==>
        var (w2, s2, reply) := VerifyOtp(w1, s1, Some(wrong), later);
        reply == Fail(400, InvalidOtpMessage) && s2 == s1 && w2 == w1
  {
    SendOtpIssues(w, s, name, mobile, email, search, createdId, u, now);
  }

  // ---------------------------------------------------------------------------
  // verify-otp

  /** verify-otp keeps the collections and the session consistent, and
      changes the collections only by the `otp_verified` event of a success. */
  lemma VerifyOtpKeepsValid(w: World, s: SessionStore.SessionState, candidate: Option<string>, now: int)
    requires ValidWorld(w) && SessionStore.Consistent(s)
    ensures var (w', s', reply) := VerifyOtp(w, s, candidate, now);
      && ValidWorld(w') && SessionStore.Consistent(s')
      && (reply == OtpVerifiedReply <==> |w'.events| == |w.events| + 1)
      && w'.users == w.users && w'.customerTags == w.customerTags
  {
    SessionStore.VerifyStepOutcomes(s, candidate, now);
  }

  // ---------------------------------------------------------------------------
  // roll-dice

  /** Without a verified session the roll is refused and nothing changes. */
  lemma RollNeedsVerification(w: World, s: SessionStore.SessionState, mobileHash: string,
                              sha256: string -> string, matches: HashMatch, u: real,
                              tagRead: Option<Option<string>>, tagPutOk: bool, creditPostOk: bool, now: int)
    requires 0.0 <= u < 1.0 && SessionStore.Consistent(s)
    ensures var (w', s', reply) := RollDice(w, s, mobileHash, sha256, matches, u, tagRead, tagPutOk, creditPostOk, now);
      && (reply == Fail(401, Unauthorized) <==> !s.verified)
      && (reply.Fail? ==> w' == w && s' == s)
  {
  }

  /** The stamp on the player's record before the roll: none for a new
      player, the found record's otherwise (found either way). */
  function PlayerStamp(users: seq<User>, lookup: Lookup): Option<int>
    requires lookup.Miss? || lookup.index < |users|
  {
    if lookup.Miss? then None else users[lookup.index].lastCreditAt
  }

  /** What `Record` is made of. */
  lemma RecordFacts(w: World, s: SessionStore.SessionState, mobileHash: string,
                    sha256: string -> string, matches: HashMatch, u: real, now: int)
    requires 0.0 <= u < 1.0 && SessionStore.Consistent(s) && s.verified
    requires Record(w, s, mobileHash, sha256, matches, u, now).Some?
    ensures var rec := Record(w, s, mobileHash, sha256, matches, u, now).value;
      var info := s.userInfo.value;
      var identifier := sha256(info.mobile);
      var lookup := LookupPlayer(w.users, identifier, info.name, info.mobile, matches);
      && Draw(Probabilities, u) == 6
      && rec.discount == FallbackDiscount(6, info.mobile).value
      && (lookup.Miss? || lookup.index < |w.users|)
      && Upsert(w.users, lookup, RollFor(s, mobileHash, identifier, rec.discount, 6, now), now)
         == Success((rec.world.users, rec.at))
      && rec.world.events == Backfill(w.events + [FunnelEvent(info.mobile, Some(info.name), DiceRolled,
                                                               Some(rec.discount.code), now, Some(rec.at))],
                                      info.mobile, rec.at, info.name)
      && rec.world == w.(users := rec.world.users, events := rec.world.events)
  {
    ShippedTableAlwaysSix(u);
  }

  /** A recorded roll adds one record (a new player) or none, makes the
      player's record the first with the fast identifier, writes the code and
      the face into it and leaves every other record as it was; it logs the
      `dice_rolled` event pointing at that record, and keeps the collections
      valid. */
  lemma RecordedPlayer(w: World, s: SessionStore.SessionState, mobileHash: string,
                       sha256: string -> string, matches: HashMatch, u: real, now: int)
    requires 0.0 <= u < 1.0 && SessionStore.Consistent(s) && s.verified
    requires Record(w, s, mobileHash, sha256, matches, u, now).Some?
    ensures var rec := Record(w, s, mobileHash, sha256, matches, u, now).value;
      var info := s.userInfo.value;
      var identifier := sha256(info.mobile);
      var lookup := LookupPlayer(w.users, identifier, info.name, info.mobile, matches);
      var users' := rec.world.users;
      && (|users'| == |w.users| || |users'| == |w.users| + 1)
      && FirstWithIdentifier(users', identifier) == Some(rec.at)
      && users'[rec.at].discountCode == rec.discount.code && users'[rec.at].diceResult == 6
      && users'[rec.at].rollDiceAt == Some(now)
      && users'[rec.at].lastCreditAt == PlayerStamp(w.users, lookup)
      && (forall k :: 0 <= k < |w.users| && k != rec.at ==> users'[k] == w.users[k])
      && |rec.world.events| == |w.events| + 1
      && rec.world.events[|w.events|].eventType == DiceRolled
      && rec.world.events[|w.events|].userId == Some(rec.at)
      && (ValidWorld(w) ==> ValidWorld(rec.world))
  {
    var rec := Record(w, s, mobileHash, sha256, matches, u, now).value;
    var info := s.userInfo.value;
    var identifier := sha256(info.mobile);
    var lookup := LookupPlayer(w.users, identifier, info.name, info.mobile, matches);
    RecordFacts(w, s, mobileHash, sha256, matches, u, now);
    var r := RollFor(s, mobileHash, identifier, rec.discount, 6, now);
    UpsertEffect(w.users, lookup, r, now);
    UpsertThenFastLookup(w.users, info.name, info.mobile, matches, r, now);
    var rolled := FunnelEvent(info.mobile, Some(info.name), DiceRolled, Some(rec.discount.code), now, Some(rec.at));
    BackfillEffect(w.events + [rolled], info.mobile, rec.at, info.name);
    if ValidWorld(w) {
      UpsertKeepsCollection(w.users, lookup, r, now);
      assert ValidEvents(rec.world.events, |rec.world.users|);
    }
  }

  lemma UpsertKeepsCollection(users: seq<User>, lookup: Lookup, r: RollRecord, now: int)
    requires lookup.Miss? || lookup.index < |users|
    requires ValidCollection(users) && Upsert(users, lookup, r, now).Success?
    ensures ValidCollection(Upsert(users, lookup, r, now).value.0)
  {
  }

  /** The Shopify stage of a roll: the tag update is sent exactly when the
      session is linked to a customer and the tags could be read; the credit
      is sent at most once, exactly when moreover the update went through
      and the gate lets it pass; the stamp is written only when the credit
      request succeeded; nothing else changes. */
  lemma CreditStageEffect(w: World, s: SessionStore.SessionState, identifier: string,
                          tagRead: Option<Option<string>>, tagPutOk: bool, creditPostOk: bool, now: int)
    requires s.userInfo.Some?
    ensures var w' := CreditStage(w, s, identifier, tagRead, tagPutOk, creditPostOk, now);
      var due := Given(s.shopifyCustomerId) && tagRead.Some? && tagPutOk
                 && CreditDue(s.hasRedeemedBefore, LastCredit(w.users, identifier), now);
      && (|w'.tagWrites| > |w.tagWrites| <==> Given(s.shopifyCustomerId) && tagRead.Some?)
      && (due ==> w'.credits == w.credits + [FlitsCredit(s.userInfo.value.email)])
      && (!due ==> w'.credits == w.credits)
      && w'.users == (if due && creditPostOk then StampCredit(w.users, identifier, now) else w.users)
      && w'.events == w.events && w'.customerTags == w.customerTags
      && w'.smsSent == w.smsSent && w'.customersCreated == w.customersCreated
  {
  }

  /** The reply of a successful roll depends on the face and the local
      discount only. */
  lemma RollReply(w: World, s: SessionStore.SessionState, mobileHash: string,
                  sha256: string -> string, matches: HashMatch, u: real,
                  tagRead: Option<Option<string>>, tagPutOk: bool, creditPostOk: bool, now: int)
    requires 0.0 <= u < 1.0 && SessionStore.Consistent(s) && s.verified
    ensures var (w', s', reply) := RollDice(w, s, mobileHash, sha256, matches, u, tagRead, tagPutOk, creditPostOk, now);
      var d := FallbackDiscount(6, s.userInfo.value.mobile).value;
      reply.Rolled? ==>
        reply == Rolled(6, d.code, DiscountLabel(d.percentage), None, false, WinMessage(d.percentage))
        && s' == SessionStore.EmptySession
  {
    if Record(w, s, mobileHash, sha256, matches, u, now).Some? {
      RecordFacts(w, s, mobileHash, sha256, matches, u, now);
    }
  }

  /** Every roll that succeeds is a 6 and wins the local 100% code made of
      "DICE100_" and the mobile number, not a Shopify code; the session is
      then destroyed. */
  lemma RollWinsHundred(w: World, s: SessionStore.SessionState, mobileHash: string,
                        sha256: string -> string, matches: HashMatch, u: real,
                        tagRead: Option<Option<string>>, tagPutOk: bool, creditPostOk: bool, now: int)
    requires 0.0 <= u < 1.0 && SessionStore.Consistent(s)
    ensures var (w', s', reply) := RollDice(w, s, mobileHash, sha256, matches, u, tagRead, tagPutOk, creditPostOk, now);
      reply.Rolled? ==>
        && reply.diceResult == 6
        && reply.discountCode == "DICE100_" + s.userInfo.value.mobile
        && reply.discount == "100%"
        && reply.message == "Congratulations! You won 100% off!"
        && !reply.isShopifyCode && reply.shopifyUrl.None?
        && s' == SessionStore.EmptySession
  {
    if s.verified {
      RollReply(w, s, mobileHash, sha256, matches, u, tagRead, tagPutOk, creditPostOk, now);
      HundredPercentCode(s.userInfo.value.mobile);
    }
  }

  /** Face 6 gives the code "DICE100_" and the mobile, and "100%". */
  lemma HundredPercentCode(mobile: string)
    ensures var d := FallbackDiscount(6, mobile).value;
      && d.code == "DICE100_" + mobile
      && DiscountLabel(d.percentage) == "100%"
      && WinMessage(d.percentage) == "Congratulations! You won 100% off!"
  {
    FallbackDiscountShape(6, mobile);
    HundredPercent();
    assert "DICE" + "100" + "_" + mobile == "DICE100_" + mobile;
  }

  lemma HundredPercent()
    ensures NatToString(100) == "100"
    ensures DiscountLabel(Some(100)) == "100%"
  {
    assert NatToString(10) == NatToString(1) + [DigitChar(0)];
  }

  /** A verified roll answers with the win or with a 500 that changes
      nothing. On valid collections a returning player's roll is always
      saved, and a new player's roll is saved exactly when its mobile hash is
      not already taken. */
  lemma RollSavedUnlessHashTaken(w: World, s: SessionStore.SessionState, mobileHash: string,
                                 sha256: string -> string, matches: HashMatch, u: real,
                                 tagRead: Option<Option<string>>, tagPutOk: bool, creditPostOk: bool, now: int)
    requires 0.0 <= u < 1.0 && SessionStore.Consistent(s) && s.verified
    ensures var (w', s', reply) := RollDice(w, s, mobileHash, sha256, matches, u, tagRead, tagPutOk, creditPostOk, now);
      var info := s.userInfo.value;
      var lookup := LookupPlayer(w.users, sha256(info.mobile), info.name, info.mobile, matches);
      && (reply.Rolled? || (reply == Fail(500, RollFailed) && w' == w && s' == s))
      && (ValidWorld(w) && !lookup.Miss? ==> reply.Rolled?)
      && (lookup.Miss? ==>
            (reply.Rolled? <==> mobileHash != "" && forall k :: 0 <= k < |w.users| ==> w.users[k].mobileHash != mobileHash))
  {
    var info := s.userInfo.value;
    var identifier := sha256(info.mobile);
    var lookup := LookupPlayer(w.users, identifier, info.name, info.mobile, matches);
    ShippedTableAlwaysSix(u);
    var d := FallbackDiscount(6, info.mobile).value;
    HundredPercentCode(info.mobile);
    if ValidWorld(w) && !lookup.Miss? {
      UpsertOfFoundSucceeds(w.users, lookup, RollFor(s, mobileHash, identifier, d, 6, now), now);
    }
  }

  /** A successful roll records the player (see `RecordedPlayer`), and the
      Shopify stage touches the records only by stamping the player's own. */
  lemma RollRecordsPlayer(w: World, s: SessionStore.SessionState, mobileHash: string,
                          sha256: string -> string, matches: HashMatch, u: real,
                          tagRead: Option<Option<string>>, tagPutOk: bool, creditPostOk: bool, now: int)
    requires 0.0 <= u < 1.0 && SessionStore.Consistent(s)
    requires RollDice(w, s, mobileHash, sha256, matches, u, tagRead, tagPutOk, creditPostOk, now).2.Rolled?
    ensures var (w', s', reply) := RollDice(w, s, mobileHash, sha256, matches, u, tagRead, tagPutOk, creditPostOk, now);
      var identifier := sha256(s.userInfo.value.mobile);
      && (|w'.users| == |w.users| || |w'.users| == |w.users| + 1)
      && FirstWithIdentifier(w'.users, identifier).Some?
      && var at := FirstWithIdentifier(w'.users, identifier).value;
      && w'.users[at].discountCode == reply.discountCode && w'.users[at].diceResult == 6
      && w'.users[at].rollDiceAt == Some(now)
      && (forall k :: 0 <= k < |w.users| && k != at ==> w'.users[k] == w.users[k])
      && |w'.events| == |w.events| + 1
      && w'.events[|w.events|].eventType == DiceRolled && w'.events[|w.events|].userId == Some(at)
  {
    var rec := Record(w, s, mobileHash, sha256, matches, u, now).value;
    var identifier := sha256(s.userInfo.value.mobile);
    RecordedPlayer(w, s, mobileHash, sha256, matches, u, now);
    RollReply(w, s, mobileHash, sha256, matches, u, tagRead, tagPutOk, creditPostOk, now);
    CreditStageEffect(rec.world, s, identifier, tagRead, tagPutOk, creditPostOk, now);
    FirstWithIdentifierAt(StampCredit(rec.world.users, identifier, now), identifier, rec.at);
  }

  /** A roll keeps the collections valid and the session consistent. */
  lemma RollKeepsValid(w: World, s: SessionStore.SessionState, mobileHash: string,
                       sha256: string -> string, matches: HashMatch, u: real,
                       tagRead: Option<Option<string>>, tagPutOk: bool, creditPostOk: bool, now: int)
    requires 0.0 <= u < 1.0 && SessionStore.Consistent(s) && ValidWorld(w)
    ensures var (w', s', reply) := RollDice(w, s, mobileHash, sha256, matches, u, tagRead, tagPutOk, creditPostOk, now);
      ValidWorld(w') && SessionStore.Consistent(s')
  {
    if s.verified && Record(w, s, mobileHash, sha256, matches, u, now).Some? {
      var rec := Record(w, s, mobileHash, sha256, matches, u, now).value;
      var identifier := sha256(s.userInfo.value.mobile);
      RecordedPlayer(w, s, mobileHash, sha256, matches, u, now);
      CreditStageEffect(rec.world, s, identifier, tagRead, tagPutOk, creditPostOk, now);
      StampCreditKeepsCollection(rec.world.users, identifier, now);
    }
  }

  /** The credit of a successful roll goes out at most once, exactly when the
      session is linked to a customer, the tags could be read and updated,
      the player is not at the top of the tag ladder and the player's own
      record (found by either lookup) holds no credit less than an hour old. */
  lemma RollCreditRule(w: World, s: SessionStore.SessionState, mobileHash: string,
                       sha256: string -> string, matches: HashMatch, u: real,
                       tagRead: Option<Option<string>>, tagPutOk: bool, creditPostOk: bool, now: int)
    requires 0.0 <= u < 1.0 && SessionStore.Consistent(s)
    requires RollDice(w, s, mobileHash, sha256, matches, u, tagRead, tagPutOk, creditPostOk, now).2.Rolled?
    ensures var (w', s', reply) := RollDice(w, s, mobileHash, sha256, matches, u, tagRead, tagPutOk, creditPostOk, now);
      var info := s.userInfo.value;
      var lookup := LookupPlayer(w.users, sha256(info.mobile), info.name, info.mobile, matches);
      var due := Given(s.shopifyCustomerId) && tagRead.Some? && tagPutOk
                 && CreditDue(s.hasRedeemedBefore, PlayerStamp(w.users, lookup), now);
      && (due ==> w'.credits == w.credits + [FlitsCredit(info.email)])
      && (!due ==> w'.credits == w.credits)
      && (s.hasRedeemedBefore ==> w'.credits == w.credits)
  {
    var rec := Record(w, s, mobileHash, sha256, matches, u, now).value;
    var identifier := sha256(s.userInfo.value.mobile);
    RecordedPlayer(w, s, mobileHash, sha256, matches, u, now);
    CreditStageEffect(rec.world, s, identifier, tagRead, tagPutOk, creditPostOk, now);
  }

  /** After a roll whose credit request succeeded, the player's record
      carries the credit's time. */
  lemma RollStampsCredit(w: World, s: SessionStore.SessionState, mobileHash: string,
                         sha256: string -> string, matches: HashMatch, u: real,
                         tagRead: Option<Option<string>>, tagPutOk: bool, now: int)
    requires 0.0 <= u < 1.0 && SessionStore.Consistent(s)
    requires var (w', _, reply) := RollDice(w, s, mobileHash, sha256, matches, u, tagRead, tagPutOk, true, now);
      reply.Rolled? && |w'.credits| > |w.credits|
    ensures var (w', _, _) := RollDice(w, s, mobileHash, sha256, matches, u, tagRead, tagPutOk, true, now);
      LastCredit(w'.users, sha256(s.userInfo.value.mobile)) == Some(now)
  {
    var rec := Record(w, s, mobileHash, sha256, matches, u, now).value;
    var identifier := sha256(s.userInfo.value.mobile);
    RecordedPlayer(w, s, mobileHash, sha256, matches, u, now);
    CreditStageEffect(rec.world, s, identifier, tagRead, tagPutOk, true, now);
    FirstWithIdentifierAt(StampCredit(rec.world.users, identifier, now), identifier, rec.at);
  }

  /** The cool-down holds across rolls: once a roll has paid the credit, a
      roll for the same mobile number less than an hour later, in any new
      session, pays none. */
  lemma CooldownAcrossRolls(w: World, s: SessionStore.SessionState, mobileHash: string,
                            sha256: string -> string, matches: HashMatch, u: real,
                            tagRead: Option<Option<string>>, tagPutOk: bool, now: int,
                            s2: SessionStore.SessionState, mobileHash2: string, matches2: HashMatch, u2: real,
                            tagRead2: Option<Option<string>>, tagPutOk2: bool, creditPostOk2: bool, later: int)
    requires 0.0 <= u < 1.0 && SessionStore.Consistent(s)
    requires 0.0 <= u2 < 1.0 && SessionStore.Consistent(s2)
    requires var (w1, _, reply) := RollDice(w, s, mobileHash, sha256, matches, u, tagRead, tagPutOk, true, now);
      reply.Rolled? && |w1.credits| > |w.credits|
    requires s2.userInfo.Some? && s.userInfo.Some? && s2.userInfo.value.mobile == s.userInfo.value.mobile
    requires now <= later < now + OneHourMs
    ensures var (w1, _, _) := RollDice(w, s, mobileHash, sha256, matches, u, tagRead, tagPutOk, true, now);
      var (w2, _, _) := RollDice(w1, s2, mobileHash2, sha256, matches2, u2, tagRead2, tagPutOk2, creditPostOk2, later);
      w2.credits == w1.credits
  {
    var (w1, _, _) := RollDice(w, s, mobileHash, sha256, matches, u, tagRead, tagPutOk, true, now);
    RollStampsCredit(w, s, mobileHash, sha256, matches, u, tagRead, tagPutOk, now);
    var identifier := sha256(s.userInfo.value.mobile);
    var (w2, _, reply2) := RollDice(w1, s2, mobileHash2, sha256, matches2, u2, tagRead2, tagPutOk2, creditPostOk2, later);
    if reply2.Rolled? {
      var info := s2.userInfo.value;
      var lookup := LookupPlayer(w1.users, identifier, info.name, info.mobile, matches2);
      assert lookup.FastHit?;
      assert PlayerStamp(w1.users, lookup) == Some(now);
      RollCreditRule(w1, s2, mobileHash2, sha256, matches2, u2, tagRead2, tagPutOk2, creditPostOk2, later);
    }
  }

  // ---------------------------------------------------------------------------
  // The webhooks

  /** The discount-used replies: 400 for a missing or empty list, 404 when no
      code of the list is held by a player, otherwise the number of codes
      held; the collections stay valid. */
  lemma DiscountUsedReplies(w: World, codes: Option<seq<CodeItem>>, now: int)
    requires ValidWorld(w)
    ensures var (w', reply) := DiscountUsedWebhook(w, codes, now);
      && ValidWorld(w')
      && (reply == Fail(400, NoCodes) <==> codes.None? || codes.value == [])
      && (reply == Fail(404, NoMatch) <==>
            codes.Some? && codes.value != [] && forall j :: 0 <= j < |codes.value| ==> !Redeems(w.users, codes.value[j]))
      && (reply.UpdatedReply? ==> reply.updated == CountRedeeming(w.users, codes.value) > 0)
  {
    if codes.Some? && codes.value != [] {
      UseCodesCounts(w.users, codes.value, now);
      UseCodesKeepsCollection(w.users, codes.value, now);
      NothingUpdatedIffNoHolder(w.users, codes.value, now);
    }
  }

  /** The customer-tag webhook keeps one mirror per customer: afterwards the
      customer has exactly one, holding every tag of the payload after the
      tags it held before. */
  lemma CustomerTagAddedMirrors(w: World, customerId: Option<string>, tags: Option<seq<string>>, phone: Option<string>)
    requires ValidWorld(w)
    ensures var (w', reply) := CustomerTagWebhook(w, customerId, tags, phone);
      && ValidWorld(w')
      && (reply == Fail(400, MissingPayload) <==> !Given(customerId) || tags.None?)
      && (reply == Received ==>
            var id := ExtractCustomerId(customerId.value);
            var before := FindCustomer(w.customerTags, id);
            var k := FindCustomer(w'.customerTags, id);
            && k.Some?
            && (forall t :: t in tags.value ==> t in w'.customerTags[k.value].tags)
            && (before.Some? ==> k == before && w.customerTags[before.value].tags <= w'.customerTags[k.value].tags)
            && (before.None? ==> |w'.customerTags| == |w.customerTags| + 1))
  {
    if Given(customerId) && tags.Some? {
      var id := ExtractCustomerId(customerId.value);
      match FindCustomer(w.customerTags, id)
      case Some(k) =>
        AppendKeepsRecorded(w.customerTags[k].tags, tags.value);
        var (w', _) := CustomerTagWebhook(w, customerId, tags, phone);
        FindCustomerAt(w'.customerTags, id, k);
      case None =>
        var (w', _) := CustomerTagWebhook(w, customerId, tags, phone);
        FindCustomerAt(w'.customerTags, id, |w.customerTags|);
    }
  }

  lemma FindCustomerAt(records: seq<CustomerTag>, customerId: string, k: nat)
    requires k < |records| && records[k].customerId == customerId
    requires forall j :: 0 <= j < k ==> records[j].customerId != customerId
    ensures FindCustomer(records, customerId) == Some(k)
  {
    var r := FindCustomer(records, customerId);
    assert r.Some?;
  }
}
