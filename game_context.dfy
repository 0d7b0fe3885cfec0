/**
 * The client prototype's game state and its reducer: a pure state machine
 * over seven actions, each returning a copy of the state with some fields
 * replaced. `Unknown` stands for any other action object reaching the
 * reducer, which falls through to its `default` case.
 */
module GameContext {
  import opened Wrappers

  datatype GameStep = Landing | PhoneNumber | OtpVerification | RollDice | CouponReveal | MyCoupons

  datatype Coupon = Coupon(
    id: string,
    discount: int,
    minOrder: int,
    validFrom: string,
    validTo: string,
    code: string,
    isUsed: bool)

  datatype GameState = GameState(
    currentStep: GameStep,
    phoneNumber: string,
    userName: string,
    otp: string,
    isVerified: bool,
    wonCoupon: Option<Coupon>,
    allCoupons: seq<Coupon>)

  datatype GameAction =
    | SetCurrentStep(step: GameStep)
    | SetPhoneNumber(phone: string)
    | SetUserName(name: string)
    | SetOtp(otp: string)
    | SetVerified(verified: bool)
    | AddCoupon(coupon: Coupon)
    | ResetGame
    | Unknown

  /** `initialState`. */
  const InitialState := GameState(Landing, "", "", "", false, None, [])

  /** `gameReducer`. */
  function GameReducer(state: GameState, action: GameAction): GameState {
    match action
    case SetCurrentStep(step) => state.(currentStep := step)
    case SetPhoneNumber(phone) => state.(phoneNumber := phone)
    case SetUserName(name) => state.(userName := name)
    case SetOtp(otp) => state.(otp := otp)
    case SetVerified(verified) => state.(isVerified := verified)
    case AddCoupon(coupon) => state.(wonCoupon := Some(coupon), allCoupons := [coupon] + state.allCoupons)
    case ResetGame => InitialState.(allCoupons := state.allCoupons)
    case Unknown => state
  }

  /** The state after dispatching the actions in order. */
  function Run(state: GameState, actions: seq<GameAction>): GameState
    decreases |actions|
  {
    if actions == [] then state
    else GameReducer(Run(state, actions[..|actions| - 1]), actions[|actions| - 1])
  }

  /** The number of `ADD_COUPON` actions in a run. */
  function CouponsAdded(actions: seq<GameAction>): nat
    decreases |actions|
  {
    if actions == [] then 0
    else CouponsAdded(actions[..|actions| - 1]) + (if actions[|actions| - 1].AddCoupon? then 1 else 0)
  }

  /** The game starts on the landing step, unverified, with nothing entered,
      no coupon won and no coupon collected; a reset from there changes
      nothing. */
  lemma InitialStateShape()
    ensures InitialState.currentStep == Landing && !InitialState.isVerified
    ensures InitialState.phoneNumber == InitialState.userName == InitialState.otp == ""
    ensures InitialState.wonCoupon.None? && |InitialState.allCoupons| == 0
    ensures GameReducer(InitialState, ResetGame) == InitialState
  {
  }

  /** Which actions can change which field: each field is changed only by
      its own setter or by a reset (and, for the two coupon fields, by
      `ADD_COUPON`); a setter changes no field but its own. */
  lemma SettersChangeOnlyTheirField(state: GameState, action: GameAction)
    ensures var s' := GameReducer(state, action);
      && (s'.currentStep != state.currentStep ==> action.SetCurrentStep? || action.ResetGame?)
      && (s'.phoneNumber != state.phoneNumber ==> action.SetPhoneNumber? || action.ResetGame?)
      && (s'.userName != state.userName ==> action.SetUserName? || action.ResetGame?)
      && (s'.otp != state.otp ==> action.SetOtp? || action.ResetGame?)
      && (s'.isVerified != state.isVerified ==> action.SetVerified? || action.ResetGame?)
      && (s'.wonCoupon != state.wonCoupon ==> action.AddCoupon? || action.ResetGame?)
      && (s'.allCoupons != state.allCoupons ==> action.AddCoupon?)
      && (action.SetCurrentStep? ==> s'.currentStep == action.step)
      && (action.SetPhoneNumber? ==> s'.phoneNumber == action.phone)
      && (action.SetUserName? ==> s'.userName == action.name)
      && (action.SetOtp? ==> s'.otp == action.otp)
      && (action.SetVerified? ==> s'.isVerified == action.verified)
  {
  }

  /** `ADD_COUPON` makes the coupon the won one and puts it in front of the
      collection, whose old contents become the tail. */
  lemma AddCouponPrepends(state: GameState, coupon: Coupon)
    ensures var s' := GameReducer(state, AddCoupon(coupon));
      && s'.wonCoupon == Some(coupon)
      && |s'.allCoupons| == |state.allCoupons| + 1
      && s'.allCoupons[0] == coupon && s'.allCoupons[1..] == state.allCoupons
  {
  }

  /** `RESET_GAME` returns to the initial state except for the collected
      coupons, which it keeps; resetting twice is resetting once. */
  lemma ResetKeepsCoupons(state: GameState)
    ensures var s' := GameReducer(state, ResetGame);
      && s'.allCoupons == state.allCoupons
      && s'.(allCoupons := []) == InitialState
      && GameReducer(s', ResetGame) == s'
  {
  }

  /** An action the reducer does not know leaves the state as it was. */
  lemma UnknownIsIgnored(state: GameState)
    ensures GameReducer(state, Unknown) == state
  {
  }

  /** No run of actions removes a coupon: the coupons collected before the
      run are the tail of the collection after it, in front of exactly one
      coupon per `ADD_COUPON` dispatched. */
  lemma {:induction false} CouponsNeverRemoved(state: GameState, actions: seq<GameAction>)
    ensures var s' := Run(state, actions);
      && |s'.allCoupons| == |state.allCoupons| + CouponsAdded(actions)
      && s'.allCoupons[CouponsAdded(actions)..] == state.allCoupons
    decreases |actions|
  {
    if actions != [] {
      var init := actions[..|actions| - 1];
      CouponsNeverRemoved(state, init);
      var before := Run(state, init).allCoupons;
      var a := actions[|actions| - 1];
      if a.AddCoupon? {
        var after := [a.coupon] + before;
        assert after[CouponsAdded(actions)..] == before[CouponsAdded(init)..];
      }
    }
  }
}
