/**
 * The decision rules of `/api/roll-dice` around the player lookup: the local
 * discount table used when no Shopify discount is created, the funnel
 * back-fill, and the one-hour gate on the wallet credit. Times are
 * milliseconds.
 */
module RollRules {
  import opened Wrappers
  import opened Text
  import opened UserModel
  import opened FunnelEventModel
  import opened PlayerLookup

  // ---------------------------------------------------------------------------
  // The local discount table

  datatype CodeEntry = CodeEntry(code: string, discount: string)

  /** `DISCOUNT_CODES`; a face outside 1..6 has no entry. */
  function DiscountCodes(face: int): Option<CodeEntry> {
    if face == 1 then Some(CodeEntry("DICE10", "10%"))
    else if face == 2 then Some(CodeEntry("DICE15", "15%"))
    else if face == 3 then Some(CodeEntry("DICE20", "20%"))
    else if face == 4 then Some(CodeEntry("DICE25", "25%"))
    else if face == 5 then Some(CodeEntry("DICE30", "30%"))
    else if face == 6 then Some(CodeEntry("DICE100", "100%"))
    else None
  }

  /** The percentage each face is meant to win. */
  function FacePercentage(face: int): nat
    requires 1 <= face <= 6
  {
    [10, 15, 20, 25, 30, 100][face - 1]
  }

  /** The discount of a roll made without Shopify: no Shopify ids, no URL. */
  datatype LocalDiscount = LocalDiscount(
    code: string,
    percentage: Option<int>,
    priceRuleId: Option<string>,
    discountCodeId: Option<string>,
    shopifyUrl: Option<string>)

  /** The `catch` branch: `${code}_${mobile}` and `parseInt(discount)`; a face
      with no entry makes the handler fail. */
  function FallbackDiscount(face: int, mobile: string): (d: Option<LocalDiscount>)
    ensures d.Some? <==> 1 <= face <= 6
    ensures d.Some? ==> d.value.priceRuleId.None? && d.value.discountCodeId.None? && d.value.shopifyUrl.None?
  {
    match DiscountCodes(face)
    case None => None
    case Some(entry) => Some(LocalDiscount(entry.code + "_" + mobile, ParseInt(entry.discount), None, None, None))
  }

  /** The fallback code is "DICE", the face's percentage and "_" followed by
      the mobile number, and its percentage is the table's number. */
  lemma FallbackDiscountShape(face: int, mobile: string)
    requires 1 <= face <= 6
    ensures var d := FallbackDiscount(face, mobile).value;
      && d.code == "DICE" + NatToString(FacePercentage(face)) + "_" + mobile
      && d.percentage == Some(FacePercentage(face) as int)
  {
    var p := FacePercentage(face);
    var entry := DiscountCodes(face).value;
    var digits := NatToString(p);
    if face == 1 { TwoDigits(p, digits); }
    else if face == 2 { TwoDigits(p, digits); }
    else if face == 3 { TwoDigits(p, digits); }
    else if face == 4 { TwoDigits(p, digits); }
    else if face == 5 { TwoDigits(p, digits); }
    else {
      assert NatToString(10) == NatToString(1) + [DigitChar(0)];
      assert digits == NatToString(10) + [DigitChar(0)];
    }
    assert entry.code == "DICE" + digits;
    assert entry.discount == digits + "%";
    ParseIntOfRendering(p, "%");
  }

  lemma TwoDigits(p: nat, digits: string)
    requires 10 <= p < 100 && digits == NatToString(p)
    ensures digits == [DigitChar(p / 10), DigitChar(p % 10)]
  {
  }

  /** The rendering of the discount in the reply: `${percentage}%`. */
  function DiscountLabel(percentage: Option<int>): string {
    match percentage
    case Some(p) => (if p < 0 then "-" + NatToString(-p) else NatToString(p)) + "%"
    case None => "NaN%"
  }

  /** The reply's message. */
  function WinMessage(percentage: Option<int>): string {
    "Congratulations! You won " + DiscountLabel(percentage) + " off!"
  }

  // ---------------------------------------------------------------------------
  // The funnel back-fill

  /** `FunnelEvent.updateMany({ mobile }, { userId, name })`. */
  function Backfill(events: seq<FunnelEvent>, mobile: string, id: nat, name: string): (r: seq<FunnelEvent>) {
    seq(|events|, i requires 0 <= i < |events| =>
      if events[i].mobile == mobile then events[i].(userId := Some(id), name := Some(name)) else events[i])
  }

  /** After the back-fill every event of that mobile number points at the
      player's record and carries its name; every other event is untouched,
      and no event changes its stage, time or code. */
  lemma BackfillEffect(events: seq<FunnelEvent>, mobile: string, id: nat, name: string)
    ensures var r := Backfill(events, mobile, id, name);
      && |r| == |events|
      && (forall i :: 0 <= i < |r| && r[i].mobile == mobile ==> r[i].userId == Some(id) && r[i].name == Some(name))
      && (forall i :: 0 <= i < |r| && r[i].mobile != mobile ==> r[i] == events[i])
      && (forall i :: 0 <= i < |r| ==>
            r[i].mobile == events[i].mobile && r[i].eventType == events[i].eventType
            && r[i].timestamp == events[i].timestamp && r[i].discountCode == events[i].discountCode)
  {
  }

  /** Back-filling twice with the same player is back-filling once. */
  lemma BackfillIdempotent(events: seq<FunnelEvent>, mobile: string, id: nat, name: string)
    ensures Backfill(Backfill(events, mobile, id, name), mobile, id, name) == Backfill(events, mobile, id, name)
  {
  }

  // ---------------------------------------------------------------------------
  // The wallet credit

  const OneHourMs := 60 * 60 * 1000

  /** The body of the Flits POST. */
  datatype CreditRequest = CreditRequest(customerEmail: string, creditValue: nat, commentText: string)

  function FlitsCredit(email: string): CreditRequest {
    CreditRequest(email, 399, "Rewarding the user 399 in his wallet")
  }

  /** `redeemedWithin`: a stamp less than `windowMs` old; no stamp is never
      within. */
  predicate RedeemedWithin(lastCreditAt: Option<int>, now: int, windowMs: int) {
    lastCreditAt.Some? && now - lastCreditAt.value < windowMs
  }

  /** The stamp of the first record carrying the identifier. */
  function LastCredit(users: seq<User>, identifier: string): Option<int> {
    match FirstWithIdentifier(users, identifier)
    case None => None
    case Some(i) => users[i].lastCreditAt
  }

  /** The credit is due unless the player has climbed the whole tag ladder or
      was credited less than an hour ago. */
  predicate CreditDue(hasRedeemedBefore: bool, lastCreditAt: Option<int>, now: int) {
    !hasRedeemedBefore && !RedeemedWithin(lastCreditAt, now, OneHourMs)
  }

  /** `User.updateOne({ mobileIdentifier }, { $set: { lastCreditAt: now } })`:
      the first record with the identifier is stamped, no other record
      changes, and with no such record nothing changes. */
  function StampCredit(users: seq<User>, identifier: string, now: int): (r: seq<User>)
    ensures |r| == |users|
    ensures FirstWithIdentifier(users, identifier).None? ==> r == users
    ensures FirstWithIdentifier(users, identifier).Some? ==>
      var i := FirstWithIdentifier(users, identifier).value;
      r == users[i := users[i].(lastCreditAt := Some(now))]
  {
    match FirstWithIdentifier(users, identifier)
    case None => users
    case Some(i) => users[i := users[i].(lastCreditAt := Some(now))]
  }

  /** The cool-down is strict: one millisecond short of an hour after a
      credit, the next is refused; a full hour after, it is due again. */
  lemma CreditCooldownBoundary(stamp: int)
    ensures !CreditDue(false, Some(stamp), stamp + OneHourMs - 1)
    ensures CreditDue(false, Some(stamp), stamp + OneHourMs)
  {
  }

  /** A player who was never credited, and who has not reached the top of the
      ladder, is due; a player at the top of the ladder never is. */
  lemma CreditDueCases(lastCreditAt: Option<int>, now: int)
    ensures CreditDue(false, None, now)
    ensures !CreditDue(true, lastCreditAt, now)
  {
  }

  /** Stamping keeps the collection valid, and keeps the identifier on the same
      record. */
  lemma StampCreditKeepsCollection(users: seq<User>, identifier: string, now: int)
    requires ValidCollection(users)
    ensures ValidCollection(StampCredit(users, identifier, now))
    ensures FirstWithIdentifier(StampCredit(users, identifier, now), identifier) == FirstWithIdentifier(users, identifier)
  {
    var r := StampCredit(users, identifier, now);
    if FirstWithIdentifier(users, identifier).Some? {
      var i := FirstWithIdentifier(users, identifier).value;
      FirstWithIdentifierAt(r, identifier, i);
    }
    assert forall k :: 0 <= k < |r| ==> r[k].mobileHash == users[k].mobileHash;
  }

  /** Once a credit is stamped on the player's record, no second credit is
      due for that identifier within the hour. */
  lemma NoSecondCreditWithinHour(users: seq<User>, identifier: string, hasRedeemedBefore: bool, now: int, later: int)
    requires FirstWithIdentifier(users, identifier).Some?
    requires now <= later < now + OneHourMs
    ensures !CreditDue(hasRedeemedBefore, LastCredit(StampCredit(users, identifier, now), identifier), later)
  {
    var i := FirstWithIdentifier(users, identifier).value;
    var r := StampCredit(users, identifier, now);
    FirstWithIdentifierAt(r, identifier, i);
  }
}
