/**
 * The player record (`User` collection): its paths, defaults, required fields,
 * the range of `diceResult` and the unique index on `mobileHash`.
 *
 * The schema declares no `email` path, so in Mongoose's strict mode an `email`
 * given to `new User(...)` or assigned to a loaded document is not stored; the
 * record below has no email for that reason.
 */
module UserModel {
  import opened Wrappers

  /** A stored player document, defaults applied. Dates are milliseconds. */
  datatype User = User(
    mobileHash: string,
    mobileIdentifier: Option<string>,
    name: string,
    discountCode: string,
    marketPlace: bool,
    diceResult: int,
    shopifyPriceRuleId: Option<string>,
    shopifyDiscountCodeId: Option<string>,
    isShopifyCode: bool,
    playedAt: int,
    generateOTPAt: Option<int>,
    enteredOTPAt: Option<int>,
    rollDiceAt: Option<int>,
    discountUsedAt: Option<int>,
    alreadyRedeemed: bool,
    lastCreditAt: Option<int>)

  /** The paths handed to `new User({...})`; `None` is a path left undefined
      (or set to `null`). */
  datatype UserFields = UserFields(
    mobileHash: Option<string>,
    mobileIdentifier: Option<string>,
    name: Option<string>,
    discountCode: Option<string>,
    marketPlace: Option<bool>,
    diceResult: Option<int>,
    shopifyPriceRuleId: Option<string>,
    shopifyDiscountCodeId: Option<string>,
    isShopifyCode: Option<bool>,
    playedAt: Option<int>,
    generateOTPAt: Option<int>,
    enteredOTPAt: Option<int>,
    rollDiceAt: Option<int>)

  /** Mongoose's `required` on a String path: present and not the empty string. */
  predicate RequiredString(v: Option<string>) {
    v.Some? && v.value != ""
  }

  /** The constraints every stored player satisfies. */
  predicate ValidUser(u: User) {
    && u.mobileHash != ""
    && u.name != ""
    && u.discountCode != ""
    && 1 <= u.diceResult <= 6
  }

  /** The paths whose validator fails, in schema order. */
  function FailedPaths(f: UserFields): seq<string> {
    (if RequiredString(f.mobileHash) then [] else ["mobileHash"])
    + (if RequiredString(f.name) then [] else ["name"])
    + (if RequiredString(f.discountCode) then [] else ["discountCode"])
    + (if f.diceResult.Some? && 1 <= f.diceResult.value <= 6 then [] else ["diceResult"])
  }

  /** `new User(fields)` followed by validation; `now` is the default `playedAt`. */
  function NewUser(f: UserFields, now: int): (r: Result<User, seq<string>>)
    ensures r.Success? <==>
      && RequiredString(f.mobileHash) && RequiredString(f.name)
      && RequiredString(f.discountCode)
      && f.diceResult.Some? && 1 <= f.diceResult.value <= 6
    ensures r.Failure? ==> r.error != []
    ensures r.Failure? ==>
      && ("mobileHash" in r.error <==> !RequiredString(f.mobileHash))
      && ("name" in r.error <==> !RequiredString(f.name))
      && ("discountCode" in r.error <==> !RequiredString(f.discountCode))
      && ("diceResult" in r.error <==> !(f.diceResult.Some? && 1 <= f.diceResult.value <= 6))
    ensures r.Success? ==> ValidUser(r.value)
    ensures r.Success? ==>
      && r.value.mobileHash == f.mobileHash.value
      && r.value.mobileIdentifier == f.mobileIdentifier
      && r.value.name == f.name.value
      && r.value.discountCode == f.discountCode.value
      && r.value.diceResult == f.diceResult.value
      && r.value.generateOTPAt == f.generateOTPAt
      && r.value.enteredOTPAt == f.enteredOTPAt
      && r.value.rollDiceAt == f.rollDiceAt
    ensures r.Success? ==>
      && r.value.marketPlace == f.marketPlace.GetOr(false)
      && r.value.isShopifyCode == f.isShopifyCode.GetOr(false)
      && r.value.shopifyPriceRuleId == f.shopifyPriceRuleId
      && r.value.shopifyDiscountCodeId == f.shopifyDiscountCodeId
      && r.value.playedAt == f.playedAt.GetOr(now)
      && !r.value.alreadyRedeemed
      && r.value.lastCreditAt == None
      && r.value.discountUsedAt == None
  {
    var failed := FailedPaths(f);
    if failed != [] then Failure(failed)
    else Success(User(
      f.mobileHash.value, f.mobileIdentifier, f.name.value, f.discountCode.value,
      f.marketPlace.GetOr(false), f.diceResult.value,
      f.shopifyPriceRuleId, f.shopifyDiscountCodeId, f.isShopifyCode.GetOr(false),
      f.playedAt.GetOr(now), f.generateOTPAt, f.enteredOTPAt, f.rollDiceAt,
      None, false, None))
  }

  /** The unique index on `mobileHash`. */
  predicate UniqueHashes(users: seq<User>) {
    forall i, j :: 0 <= i < j < |users| ==> users[i].mobileHash != users[j].mobileHash
  }

  /** The collection's invariant: every record valid, hashes unique. */
  predicate ValidCollection(users: seq<User>) {
    UniqueHashes(users) && forall i :: 0 <= i < |users| ==> ValidUser(users[i])
  }

  /** `save()` of a new document: refused on a duplicate key (E11000). */
  function Insert(users: seq<User>, u: User): (r: Result<seq<User>, string>)
    ensures r.Success? <==> forall i :: 0 <= i < |users| ==> users[i].mobileHash != u.mobileHash
    ensures r.Success? ==> r.value == users + [u]
    ensures r.Success? && ValidCollection(users) && ValidUser(u) ==> ValidCollection(r.value)
  {
    if exists i :: 0 <= i < |users| && users[i].mobileHash == u.mobileHash
    then Failure("E11000 duplicate key error: mobileHash")
    else Success(users + [u])
  }

  /** `save()` of a loaded document after its paths were reassigned: the
      validators run again and the unique index is checked against the others. */
  function SaveExisting(users: seq<User>, i: nat, u: User): (r: Result<seq<User>, string>)
    requires i < |users|
    ensures r.Success? <==>
      ValidUser(u) && forall k :: 0 <= k < |users| && k != i ==> users[k].mobileHash != u.mobileHash
    ensures r.Success? ==> r.value == users[i := u]
    ensures r.Success? && ValidCollection(users) ==> ValidCollection(r.value)
  {
    if !ValidUser(u) then Failure("ValidationError")
    else if exists k :: 0 <= k < |users| && k != i && users[k].mobileHash == u.mobileHash
    then Failure("E11000 duplicate key error: mobileHash")
    else Success(users[i := u])
  }
}
