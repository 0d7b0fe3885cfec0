/**
 * How `/api/roll-dice` finds the player's record and writes the roll into it:
 * first by the fast identifier (the SHA-256 of the mobile number), then by
 * scanning the records with the same name and testing the mobile against
 * each one's bcrypt hash, upgrading the record found that way; a player found
 * neither way gets a new record. A record's `_id` is its position in the
 * collection.
 */
module PlayerLookup {
  import opened Wrappers
  import opened UserModel

  /** `bcrypt.compare(mobile, hash)`, as an opaque predicate. */
  type HashMatch = (string, string) -> bool

  /** `User.findOne({ mobileIdentifier })`: the first record carrying the
      identifier. */
  function FirstWithIdentifier(users: seq<User>, identifier: string): (r: Option<nat>)
    ensures r.Some? ==> r.value < |users| && users[r.value].mobileIdentifier == Some(identifier)
    ensures r.Some? ==> forall k :: 0 <= k < r.value ==> users[k].mobileIdentifier != Some(identifier)
    ensures r.None? ==> forall k :: 0 <= k < |users| ==> users[k].mobileIdentifier != Some(identifier)
  {
    if users == [] then None
    else if users[0].mobileIdentifier == Some(identifier) then Some(0)
    else match FirstWithIdentifier(users[1..], identifier)
      case None => None
      case Some(k) => Some(k + 1)
  }

  /** `User.find({ name })`: the positions of the records with that name, in
      collection order, from position `from` on. */
  function SameName(users: seq<User>, name: string, from: nat): (ids: seq<nat>)
    requires from <= |users|
    ensures forall k :: k in ids <==> from <= k < |users| && users[k].name == name
    ensures forall i, j :: 0 <= i < j < |ids| ==> ids[i] < ids[j]
    ensures forall i :: 0 <= i < |ids| ==> from <= ids[i] < |users|
    decreases |users| - from
  {
    if from == |users| then []
    else if users[from].name == name then [from] + SameName(users, name, from + 1)
    else SameName(users, name, from + 1)
  }

  /** The record the legacy scan settles on: the first record with the name
      whose hash the mobile matches. */
  predicate IsFirstLegacyMatch(users: seq<User>, name: string, mobile: string, matches: HashMatch, k: nat) {
    && k < |users| && users[k].name == name && matches(mobile, users[k].mobileHash)
    && forall j :: 0 <= j < k && users[j].name == name ==> !matches(mobile, users[j].mobileHash)
  }

  predicate NoLegacyMatch(users: seq<User>, name: string, mobile: string, matches: HashMatch) {
    forall j :: 0 <= j < |users| && users[j].name == name ==> !matches(mobile, users[j].mobileHash)
  }

  function FirstLegacyMatch(users: seq<User>, name: string, mobile: string, matches: HashMatch): (r: Option<nat>)
    ensures r.Some? ==> IsFirstLegacyMatch(users, name, mobile, matches, r.value)
    ensures r.None? ==> NoLegacyMatch(users, name, mobile, matches)
  {
    if users == [] then None
    else if users[0].name == name && matches(mobile, users[0].mobileHash) then Some(0)
    else match FirstLegacyMatch(users[1..], name, mobile, matches)
      case None => None
      case Some(k) => Some(k + 1)
  }

  /** The first match is the only record that is a first match. */
  lemma FirstLegacyMatchUnique(users: seq<User>, name: string, mobile: string, matches: HashMatch, k: nat)
    requires IsFirstLegacyMatch(users, name, mobile, matches, k)
    ensures FirstLegacyMatch(users, name, mobile, matches) == Some(k)
  {
  }

  /** The `for … of potentialUsers` loop with its `break`. */
  method LegacyScan(users: seq<User>, name: string, mobile: string, matches: HashMatch) returns (found: Option<nat>)
    ensures found == FirstLegacyMatch(users, name, mobile, matches)
  {
    var potentialUsers := SameName(users, name, 0);
    var i := 0;
    while i < |potentialUsers|
      invariant 0 <= i <= |potentialUsers|
      invariant forall j :: 0 <= j < i ==> !matches(mobile, users[potentialUsers[j]].mobileHash)
    {
      var candidate := potentialUsers[i];
      if matches(mobile, users[candidate].mobileHash) {
        forall j | 0 <= j < candidate && users[j].name == name
          ensures !matches(mobile, users[j].mobileHash)
        {
          var m :| 0 <= m < |potentialUsers| && potentialUsers[m] == j;
          assert m < i;
        }
        FirstLegacyMatchUnique(users, name, mobile, matches, candidate);
        return Some(candidate);
      }
      i := i + 1;
    }
    forall j | 0 <= j < |users| && users[j].name == name
      ensures !matches(mobile, users[j].mobileHash)
    {
      var m :| 0 <= m < |potentialUsers| && potentialUsers[m] == j;
    }
    found := None;
  }

  /** Where the player's record is. */
  datatype Lookup = FastHit(index: nat) | LegacyHit(index: nat) | Miss

  /** Fast identifier first; the legacy scan only on a miss. */
  function LookupPlayer(users: seq<User>, identifier: string, name: string, mobile: string, matches: HashMatch)
    : (r: Lookup)
    ensures !r.Miss? ==> r.index < |users|
    ensures r.FastHit? <==> FirstWithIdentifier(users, identifier).Some?
    ensures r.FastHit? ==> r.index == FirstWithIdentifier(users, identifier).value
    ensures r.LegacyHit? ==> IsFirstLegacyMatch(users, name, mobile, matches, r.index)
    ensures r.Miss? <==> FirstWithIdentifier(users, identifier).None? && NoLegacyMatch(users, name, mobile, matches)
  {
    match FirstWithIdentifier(users, identifier)
    case Some(i) => FastHit(i)
    case None =>
      match FirstLegacyMatch(users, name, mobile, matches)
      case Some(i) => LegacyHit(i)
      case None => Miss
  }

  /** What the roll writes. */
  datatype RollRecord = RollRecord(
    mobileHash: string,
    mobileIdentifier: string,
    name: string,
    discountCode: string,
    diceResult: int,
    marketPlace: bool,
    shopifyPriceRuleId: Option<string>,
    shopifyDiscountCodeId: Option<string>,
    isShopifyCode: bool,
    generateOTPAt: int,
    enteredOTPAt: int,
    rollDiceAt: int,
    playedAt: int)

  /** The paths given to `new User({...})` (the `email` path is not in the
      schema and is not stored). */
  function NewPlayerFields(r: RollRecord): UserFields {
    UserFields(Some(r.mobileHash), Some(r.mobileIdentifier), Some(r.name), Some(r.discountCode),
               Some(r.marketPlace), Some(r.diceResult), r.shopifyPriceRuleId, r.shopifyDiscountCodeId,
               Some(r.isShopifyCode), Some(r.playedAt), Some(r.generateOTPAt), Some(r.enteredOTPAt),
               Some(r.rollDiceAt))
  }

  /** The assignments to a found record before `user.save()`. */
  function Overwrite(u: User, r: RollRecord): User {
    u.(discountCode := r.discountCode, diceResult := r.diceResult,
       shopifyPriceRuleId := r.shopifyPriceRuleId, shopifyDiscountCodeId := r.shopifyDiscountCodeId,
       isShopifyCode := r.isShopifyCode, generateOTPAt := Some(r.generateOTPAt),
       enteredOTPAt := Some(r.enteredOTPAt), rollDiceAt := Some(r.rollDiceAt), playedAt := r.playedAt)
  }

  /** Create or update, then save; `Success` carries the collection and the
      position of the player's record. */
  function Upsert(users: seq<User>, lookup: Lookup, r: RollRecord, now: int): Result<(seq<User>, nat), string>
    requires lookup.Miss? || lookup.index < |users|
  {
    match lookup
    case Miss =>
      (match NewUser(NewPlayerFields(r), now)
       case Failure(_) => Failure("ValidationError")
       case Success(u) =>
         match Insert(users, u)
         case Failure(e) => Failure(e)
         case Success(saved) => Success((saved, |users|)))
    case FastHit(i) =>
      (match SaveExisting(users, i, Overwrite(users[i], r))
       case Failure(e) => Failure(e)
       case Success(saved) => Success((saved, i)))
    case LegacyHit(i) =>
      (match SaveExisting(users, i, Overwrite(users[i], r).(mobileIdentifier := Some(r.mobileIdentifier)))
       case Failure(e) => Failure(e)
       case Success(saved) => Success((saved, i)))
  }

  /** A player found neither way gets exactly one new record, appended; a
      found record keeps its hash, name, market-place flag and credit history,
      takes the roll's code, face and time stamps, and gains the fast
      identifier when the legacy scan found it; no other record changes. */
  lemma UpsertEffect(users: seq<User>, lookup: Lookup, r: RollRecord, now: int)
    requires lookup.Miss? || lookup.index < |users|
    requires Upsert(users, lookup, r, now).Success?
    ensures var (saved, at) := Upsert(users, lookup, r, now).value;
      && at < |saved| && saved[at].discountCode == r.discountCode && saved[at].diceResult == r.diceResult
      && saved[at].rollDiceAt == Some(r.rollDiceAt) && saved[at].playedAt == r.playedAt
      && saved[at].enteredOTPAt == Some(r.enteredOTPAt)
      && (lookup.Miss? ==>
            && saved == users + [saved[at]] && at == |users|
            && saved[at].mobileHash == r.mobileHash && saved[at].mobileIdentifier == Some(r.mobileIdentifier)
            && saved[at].name == r.name && saved[at].marketPlace == r.marketPlace
            && saved[at].lastCreditAt == None && !saved[at].alreadyRedeemed)
      && (!lookup.Miss? ==>
            && at == lookup.index && |saved| == |users|
            && (forall k :: 0 <= k < |users| && k != at ==> saved[k] == users[k])
            && saved[at].mobileHash == users[at].mobileHash && saved[at].name == users[at].name
            && saved[at].marketPlace == users[at].marketPlace
            && saved[at].lastCreditAt == users[at].lastCreditAt
            && saved[at].alreadyRedeemed == users[at].alreadyRedeemed
            && saved[at].discountUsedAt == users[at].discountUsedAt)
      && (lookup.LegacyHit? ==> saved[at].mobileIdentifier == Some(r.mobileIdentifier))
      && (lookup.FastHit? ==> saved[at].mobileIdentifier == users[at].mobileIdentifier)
  {
  }

  /** On a valid collection a found record is always saved: the roll keeps the
      record valid and its hash unchanged. */
  lemma UpsertOfFoundSucceeds(users: seq<User>, lookup: Lookup, r: RollRecord, now: int)
    requires ValidCollection(users) && !lookup.Miss? && lookup.index < |users|
    requires r.discountCode != "" && 1 <= r.diceResult <= 6
    ensures Upsert(users, lookup, r, now).Success?
  {
    var i := lookup.index;
    assert ValidUser(users[i]);
  }

  /** After a successful roll the player's record is the first carrying the
      fast identifier, so the next roll finds it without the legacy scan. */
  lemma UpsertThenFastLookup(users: seq<User>, name: string, mobile: string, matches: HashMatch, r: RollRecord, now: int)
    requires var lookup := LookupPlayer(users, r.mobileIdentifier, name, mobile, matches);
      Upsert(users, lookup, r, now).Success?
    ensures var lookup := LookupPlayer(users, r.mobileIdentifier, name, mobile, matches);
      var (saved, at) := Upsert(users, lookup, r, now).value;
      FirstWithIdentifier(saved, r.mobileIdentifier) == Some(at)
  {
    var lookup := LookupPlayer(users, r.mobileIdentifier, name, mobile, matches);
    var (saved, at) := Upsert(users, lookup, r, now).value;
    UpsertEffect(users, lookup, r, now);
    FirstWithIdentifierAt(saved, r.mobileIdentifier, at);
  }

  lemma FirstWithIdentifierAt(users: seq<User>, identifier: string, at: nat)
    requires at < |users| && users[at].mobileIdentifier == Some(identifier)
    requires forall k :: 0 <= k < at ==> users[k].mobileIdentifier != Some(identifier)
    ensures FirstWithIdentifier(users, identifier) == Some(at)
  {
    var r := FirstWithIdentifier(users, identifier);
    assert r.Some?;
  }
}
