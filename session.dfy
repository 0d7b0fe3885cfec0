/**
 * The per-visitor session (`req.session`) that carries a player from
 * `/api/send-otp` through `/api/verify-otp` to `/api/roll-dice`, and the
 * ordered checks of verify-otp. Times are milliseconds; `now` is the clock.
 */
module SessionStore {
  import opened Wrappers
  import CustomerTags

  datatype UserInfo = UserInfo(name: string, mobile: string, email: string)

  /** The session's fields; an undefined field is `None` (or `false` for the
      flags the handlers read with `|| false`). */
  datatype SessionState = SessionState(
    userInfo: Option<UserInfo>,
    otp: Option<string>,
    generateOTPAt: Option<int>,
    playedAt: Option<int>,
    hasRedeemedBefore: bool,
    tag: Option<string>,
    verified: bool,
    enteredOTPAt: Option<int>,
    shopifyCustomerId: Option<string>,
    marketPlace: bool)

  const EmptySession := SessionState(None, None, None, None, false, None, false, None, None, false)

  /** Ten minutes. */
  const OtpLifetimeMs := 10 * 60 * 1000

  /** What a session can hold: an OTP only together with the player and the
      stamps of send-otp, and a verified flag only once those were set and the
      OTP was entered; the player's name and mobile are never empty. */
  predicate Consistent(s: SessionState) {
    && (s.userInfo.Some? ==> s.userInfo.value.name != "" && s.userInfo.value.mobile != "")
    && (s.otp.Some? ==> s.userInfo.Some? && s.generateOTPAt.Some? && s.playedAt.Some?)
    && (s.verified ==> s.userInfo.Some? && s.generateOTPAt.Some? && s.playedAt.Some? && s.enteredOTPAt.Some?)
  }

  /** JavaScript's `!req.session.otp`. */
  predicate NoOtp(s: SessionState) {
    s.otp.None? || s.otp.value == ""
  }

  /** `new Date() - new Date(req.session.generateOTPAt) > tenMinutes`; a missing
      stamp gives `NaN`, which is never greater. */
  predicate OtpTooOld(s: SessionState, now: int) {
    s.generateOTPAt.Some? && now - s.generateOTPAt.value > OtpLifetimeMs
  }

  datatype VerifyOutcome = SessionExpired | OtpExpired | InvalidOtp | OtpVerified

  /** The checks of verify-otp in their order, and the session they leave. The
      candidate is the `otp` of the request body (`None` when absent); it must
      equal the stored one exactly. */
  function VerifyStep(s: SessionState, candidate: Option<string>, now: int): (SessionState, VerifyOutcome) {
    if s.userInfo.None? then (s, SessionExpired)
    else if NoOtp(s) then (s, OtpExpired)
    else if OtpTooOld(s, now) then (s.(otp := None), OtpExpired)
    else if candidate != s.otp then (s, InvalidOtp)
    else (s.(verified := true, enteredOTPAt := Some(now), otp := None), OtpVerified)
  }

  /** The outcome of each check, and the only fields each one changes: an
      expired OTP is deleted, a wrong one is kept for another try, the right
      one verifies the session, stamps the entry time and is deleted. */
  lemma VerifyStepOutcomes(s: SessionState, candidate: Option<string>, now: int)
    ensures var (s', outcome) := VerifyStep(s, candidate, now);
      && (outcome == SessionExpired <==> s.userInfo.None?)
      && (outcome == OtpExpired <==> s.userInfo.Some? && (NoOtp(s) || OtpTooOld(s, now)))
      && (outcome == InvalidOtp <==> s.userInfo.Some? && !NoOtp(s) && !OtpTooOld(s, now) && candidate != s.otp)
      && (outcome == OtpVerified <==> s.userInfo.Some? && !NoOtp(s) && !OtpTooOld(s, now) && candidate == s.otp)
      && (outcome == OtpVerified ==> s' == s.(verified := true, enteredOTPAt := Some(now), otp := None))
      && (outcome == OtpExpired && !NoOtp(s) ==> s' == s.(otp := None))
      && (outcome != OtpVerified && (outcome != OtpExpired || NoOtp(s)) ==> s' == s)
  {
  }

  /** An OTP is single-use: once it verified a session, presenting it again
      (or any other code) is answered "OTP expired", whatever the time. */
  lemma OtpIsSingleUse(s: SessionState, candidate: Option<string>, now: int, candidate2: Option<string>, later: int)
    requires VerifyStep(s, candidate, now).1 == OtpVerified
    ensures VerifyStep(VerifyStep(s, candidate, now).0, candidate2, later).1 == OtpExpired
  {
  }

  /** The lifetime is strict: a code entered exactly ten minutes after it was
      issued is still accepted, one millisecond later it is not. */
  lemma OtpLifetimeBoundary(s: SessionState, issuedAt: int)
    requires s.userInfo.Some? && s.otp.Some? && s.otp.value != "" && s.generateOTPAt == Some(issuedAt)
    ensures VerifyStep(s, s.otp, issuedAt + OtpLifetimeMs).1 == OtpVerified
    ensures VerifyStep(s, s.otp, issuedAt + OtpLifetimeMs + 1).1 == OtpExpired
  {
  }

  /** Every step of verify-otp keeps a session consistent. */
  lemma VerifyStepKeepsConsistent(s: SessionState, candidate: Option<string>, now: int)
    requires Consistent(s)
    ensures Consistent(VerifyStep(s, candidate, now).0)
  {
  }

  /** The session after the stamping of send-otp: the player, the OTP, both
      time stamps and the ladder's verdict; nothing else is touched, the
      `verified` flag included. */
  function Issue(s: SessionState, info: UserInfo, otp: string, now: int, e: CustomerTags.Eligibility): SessionState {
    s.(userInfo := Some(info), otp := Some(otp), generateOTPAt := Some(now), playedAt := Some(now),
       hasRedeemedBefore := e.hasRedeemedBefore, tag := e.tag)
  }

  /** Issuing an OTP keeps a session consistent. */
  lemma IssueKeepsConsistent(s: SessionState, info: UserInfo, otp: string, now: int, e: CustomerTags.Eligibility)
    requires Consistent(s) && info.name != "" && info.mobile != ""
    ensures Consistent(Issue(s, info, otp, now, e))
  {
  }

  /** send-otp does not clear `verified`: a session verified for one mobile
      number, asked for an OTP for another, is still verified, now for the
      other number, without that OTP having been entered. */
  lemma ReissueKeepsVerified(s: SessionState, info: UserInfo, otp: string, now: int, e: CustomerTags.Eligibility)
    requires s.verified
    ensures Issue(s, info, otp, now, e).verified
    ensures Issue(s, info, otp, now, e).userInfo == Some(info)
  {
  }

  /** `req.session`: the fields the three handlers read and write. */
  class Session {
    var userInfo: Option<UserInfo>
    var otp: Option<string>
    var generateOTPAt: Option<int>
    var playedAt: Option<int>
    var hasRedeemedBefore: bool
    var tag: Option<string>
    var verified: bool
    var enteredOTPAt: Option<int>
    var shopifyCustomerId: Option<string>
    var marketPlace: bool

    function State(): SessionState
      reads this
    {
      SessionState(userInfo, otp, generateOTPAt, playedAt, hasRedeemedBefore, tag, verified,
                   enteredOTPAt, shopifyCustomerId, marketPlace)
    }

    predicate Valid()
      reads this
    {
      Consistent(State())
    }

    /** A fresh session holds nothing. */
    constructor ()
      ensures State() == EmptySession && Valid()
    {
      userInfo := None;
      otp := None;
      generateOTPAt := None;
      playedAt := None;
      hasRedeemedBefore := false;
      tag := None;
      verified := false;
      enteredOTPAt := None;
      shopifyCustomerId := None;
      marketPlace := false;
    }

    /** `req.session.shopifyCustomerId = …`, and for a customer just created
        in Shopify `req.session.marketPlace = true`. */
    method LinkCustomer(customerId: string, created: bool)
      requires Valid()
      modifies this
      ensures Valid()
      ensures State() == old(State()).(shopifyCustomerId := Some(customerId),
                                        marketPlace := if created then true else old(marketPlace))
    {
      shopifyCustomerId := Some(customerId);
      if created {
        marketPlace := true;
      }
    }

    /** The stamping at the end of send-otp. */
    method IssueOtp(info: UserInfo, code: string, now: int, e: CustomerTags.Eligibility)
      requires Valid() && info.name != "" && info.mobile != ""
      modifies this
      ensures Valid()
      ensures State() == Issue(old(State()), info, code, now, e)
    {
      userInfo := Some(info);
      otp := Some(code);
      generateOTPAt := Some(now);
      playedAt := Some(now);
      hasRedeemedBefore := e.hasRedeemedBefore;
      tag := e.tag;
    }

    /** verify-otp's checks, each returning as soon as it fails. */
    method Verify(candidate: Option<string>, now: int) returns (outcome: VerifyOutcome)
      requires Valid()
      modifies this
      ensures Valid()
      ensures (State(), outcome) == VerifyStep(old(State()), candidate, now)
    {
      if userInfo.None? {
        return SessionExpired;
      }
      if otp.None? || otp.value == "" {
        return OtpExpired;
      }
      if generateOTPAt.Some? && now - generateOTPAt.value > OtpLifetimeMs {
        otp := None;
        return OtpExpired;
      }
      if candidate != otp {
        return InvalidOtp;
      }
      verified := true;
      enteredOTPAt := Some(now);
      otp := None;
      outcome := OtpVerified;
    }

    /** `req.session.destroy()`: the next request starts from an empty
        session. */
    method Destroy()
      modifies this
      ensures State() == EmptySession && Valid()
    {
      userInfo := None;
      otp := None;
      generateOTPAt := None;
      playedAt := None;
      hasRedeemedBefore := false;
      tag := None;
      verified := false;
      enteredOTPAt := None;
      shopifyCustomerId := None;
      marketPlace := false;
    }
  }
}
