/**
 * The `discount-used` webhook: each discount code of an order marks the
 * first player holding that code as having used it, logs a `discount_used`
 * event and counts one. Written as a fold over the payload's prefixes, so
 * that the handler's loop can be checked against it step by step.
 */
module DiscountWebhook {
  import opened Wrappers
  import opened UserModel
  import opened FunnelEventModel

  /** `User.findOne({ discountCode })`. */
  function FirstWithCode(users: seq<User>, code: string): (r: Option<nat>)
    ensures r.Some? ==> r.value < |users| && users[r.value].discountCode == code
    ensures r.Some? ==> forall k :: 0 <= k < r.value ==> users[k].discountCode != code
    ensures r.None? ==> forall k :: 0 <= k < |users| ==> users[k].discountCode != code
  {
    if users == [] then None
    else if users[0].discountCode == code then Some(0)
    else match FirstWithCode(users[1..], code)
      case None => None
      case Some(k) => Some(k + 1)
  }

  /** The collection, the events logged and the `updated` counter. */
  datatype Progress = Progress(users: seq<User>, events: seq<FunnelEvent>, updated: nat)

  /** One `codeObj.code`: `None` is a missing code. */
  type CodeItem = Option<string>

  /** The effect of one code on the progress so far: a missing or empty code,
      or one no player holds, is skipped; otherwise the holder's
      `discountUsedAt` is stamped and an event naming the holder is logged
      (with the holder's mobile hash in its `mobile` field). */
  function UseCode(p: Progress, c: CodeItem, now: int): Progress {
    if c.None? || c.value == "" then p
    else match FirstWithCode(p.users, c.value)
      case None => p
      case Some(i) =>
        var u := p.users[i];
        Progress(p.users[i := u.(discountUsedAt := Some(now))],
                 p.events + [FunnelEvent(u.mobileHash, Some(u.name), DiscountUsed, Some(u.discountCode), now, Some(i))],
                 p.updated + 1)
  }

  /** The loop over `discount_codes`. */
  function UseCodes(users: seq<User>, codes: seq<CodeItem>, now: int): Progress
    decreases |codes|
  {
    if codes == [] then Progress(users, [], 0)
    else UseCode(UseCodes(users, codes[..|codes| - 1], now), codes[|codes| - 1], now)
  }

  /** A code of the payload some player holds. */
  predicate Redeems(users: seq<User>, c: CodeItem) {
    c.Some? && c.value != "" && exists k :: 0 <= k < |users| && users[k].discountCode == c.value
  }

  /** The number of codes in the payload that some player holds, counting a
      code as often as it occurs. */
  function CountRedeeming(users: seq<User>, codes: seq<CodeItem>): nat {
    if codes == [] then 0
    else CountRedeeming(users, codes[..|codes| - 1]) + (if Redeems(users, codes[|codes| - 1]) then 1 else 0)
  }

  /** Only `discountUsedAt` changes: the players, their codes and hashes stay
      as they were. */
  predicate SameButUsage(users: seq<User>, users': seq<User>) {
    |users'| == |users| && forall k :: 0 <= k < |users| ==> users'[k] == users[k].(discountUsedAt := users'[k].discountUsedAt)
  }

  /** The counter is the number of codes some player holds, one event is
      logged per count, every event names the record it stamped, and the
      records change in `discountUsedAt` only. */
  lemma {:induction false} UseCodesCounts(users: seq<User>, codes: seq<CodeItem>, now: int)
    ensures var p := UseCodes(users, codes, now);
      && SameButUsage(users, p.users)
      && p.updated == CountRedeeming(users, codes) == |p.events|
      && (forall e :: 0 <= e < |p.events| ==>
            var i := p.events[e].userId;
            && i.Some? && i.value < |users| && p.events[e].eventType == DiscountUsed
            && p.events[e].mobile == users[i.value].mobileHash
            && p.events[e].discountCode == Some(users[i.value].discountCode)
            && p.users[i.value].discountUsedAt == Some(now))
    decreases |codes|
  {
    if codes != [] {
      var init := codes[..|codes| - 1];
      var c := codes[|codes| - 1];
      UseCodesCounts(users, init, now);
      var prev := UseCodes(users, init, now);
      if c.Some? && c.value != "" {
        var found := FirstWithCode(prev.users, c.value);
        if found.Some? {
          assert Redeems(users, c) by {
            assert users[found.value].discountCode == c.value;
          }
        } else {
          assert !Redeems(users, c) by {
            forall k | 0 <= k < |users|
              ensures users[k].discountCode != c.value
            {
              assert prev.users[k].discountCode == users[k].discountCode;
            }
          }
        }
      }
    }
  }

  /** The reply is 404 exactly when no code of the payload is held by any
      player. */
  lemma NothingUpdatedIffNoHolder(users: seq<User>, codes: seq<CodeItem>, now: int)
    ensures UseCodes(users, codes, now).updated == 0 <==> forall j :: 0 <= j < |codes| ==> !Redeems(users, codes[j])
  {
    UseCodesCounts(users, codes, now);
    CountZeroIffNone(users, codes);
  }

  lemma {:induction false} CountZeroIffNone(users: seq<User>, codes: seq<CodeItem>)
    ensures CountRedeeming(users, codes) == 0 <==> forall j :: 0 <= j < |codes| ==> !Redeems(users, codes[j])
    decreases |codes|
  {
    if codes != [] {
      var init := codes[..|codes| - 1];
      CountZeroIffNone(users, init);
      assert forall j :: 0 <= j < |init| ==> init[j] == codes[j];
    }
  }

  /** Stamping the usage keeps the collection valid. */
  lemma UseCodesKeepsCollection(users: seq<User>, codes: seq<CodeItem>, now: int)
    requires ValidCollection(users)
    ensures ValidCollection(UseCodes(users, codes, now).users)
  {
    UseCodesCounts(users, codes, now);
    var users' := UseCodes(users, codes, now).users;
    assert forall k :: 0 <= k < |users| ==> users'[k].mobileHash == users[k].mobileHash && ValidUser(users'[k]);
  }
}
