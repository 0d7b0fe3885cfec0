/**
 * How the server reads and writes a Shopify customer's tags: the tag list
 * parsed from the comma-separated string, the "credited" ladder that picks the
 * next tag at `/api/send-otp`, the merge that `addTagToShopifyCustomer` writes
 * back, and the id and tag handling of the customer-tag webhook.
 */
module CustomerTags {
  import opened Wrappers
  import opened Text

  // ---------------------------------------------------------------------------
  // Parsing a tag string

  /** `.map(t => t.trim())`. */
  function TrimAll(xs: seq<string>): (ys: seq<string>)
    ensures |ys| == |xs| && forall i :: 0 <= i < |xs| ==> ys[i] == Trim(xs[i])
  {
    seq(|xs|, i requires 0 <= i < |xs| => Trim(xs[i]))
  }

  /** `.filter(Boolean)` on strings: drop the empty ones, keep the order. */
  function NonEmpty(xs: seq<string>): (ys: seq<string>)
    ensures forall y :: y in ys <==> y in xs && y != ""
  {
    if xs == [] then []
    else if xs[0] == "" then NonEmpty(xs[1..])
    else [xs[0]] + NonEmpty(xs[1..])
  }

  /** `tags.split(',').map(t => t.trim()).filter(Boolean)`. */
  function ParseTags(tags: string): seq<string> {
    NonEmpty(TrimAll(Split(tags, ',')))
  }

  /** A tag that survives a write and a re-read unchanged: no comma, no white
      space at its ends. */
  predicate CleanTag(t: string) {
    ',' !in t && Trimmed(t)
  }

  /** Every parsed tag is clean and non-empty. */
  lemma ParsedTagsAreClean(tags: string)
    ensures forall t :: t in ParseTags(tags) ==> t != "" && CleanTag(t)
  {
    var parts := Split(tags, ',');
    SplitPartsLackSeparator(tags, ',');
    forall t | t in ParseTags(tags)
      ensures CleanTag(t)
    {
      var k :| 0 <= k < |parts| && TrimAll(parts)[k] == t;
      TrimIsTrimmed(parts[k]);
    }
  }

  /** Writing clean tags joined by ", " and parsing the string back yields the
      same tags, less the empty ones. */
  lemma JoinedTagsReadBack(xs: seq<string>)
    requires forall k :: 0 <= k < |xs| ==> CleanTag(xs[k])
    ensures ParseTags(Join(xs, ", ")) == NonEmpty(xs)
  {
    if xs == [] {
      assert TrimAll(Split("", ',')) == [""];
    } else {
      PaddedJoinSplits("", xs);
      assert "" + Join(xs, ", ") == Join(xs, ", ");
    }
  }

  lemma {:induction false} PaddedJoinSplits(pad: string, xs: seq<string>)
    requires pad == "" || pad == " "
    requires xs != [] && forall k :: 0 <= k < |xs| ==> CleanTag(xs[k])
    ensures TrimAll(Split(pad + Join(xs, ", "), ',')) == xs
    decreases xs
  {
    var head := pad + xs[0];
    assert ',' !in head by {
      assert forall c :: c in head ==> c in pad || c in xs[0];
    }
    TrimOfPadded(pad, xs[0]);
    if |xs| == 1 {
      SplitWithout(head, ',');
    } else {
      var rest := " " + Join(xs[1..], ", ");
      assert pad + Join(xs, ", ") == head + [','] + rest;
      SplitAtFirst(head, ',', rest);
      PaddedJoinSplits(" ", xs[1..]);
      var parts := Split(pad + Join(xs, ", "), ',');
      assert parts == [head] + Split(rest, ',');
      assert TrimAll(parts) == [xs[0]] + TrimAll(Split(rest, ','));
    }
  }

  // ---------------------------------------------------------------------------
  // The "credited" ladder of /api/send-otp

  const CreditedOnce := "credited-once"
  const CreditedTwice := "credited-twice"
  const CreditedThrice := "credited-thrice"

  /** `getTagSet(raw)`: the parsed tags in lower case. `None` is a missing
      `tags` field, read as `''`. */
  function TagSet(raw: Option<string>): set<string> {
    set t | t in ParseTags(raw.GetOr("")) :: Lower(t)
  }

  /** What send-otp stores in the session for an existing customer: the tag
      the roll will add (`None` leaves `tag` undefined) and whether the wallet
      credit is withheld. */
  datatype Eligibility = Eligibility(tag: Option<string>, hasRedeemedBefore: bool)

  /** The four flags and the guarded `if` chain, as the handler computes them;
      later branches overwrite earlier ones. */
  function NextTag(raw: Option<string>): Eligibility {
    var tags := TagSet(raw);
    var once := CreditedOnce in tags;
    var twice := CreditedTwice in tags;
    var thrice := CreditedThrice in tags;
    var hasNoTag := !once && !twice && !thrice;
    var hasExactlyOnce := once && !twice && !thrice;
    var hasExactlyTwice := twice && !thrice;
    var hasExactlyThrice := thrice;
    if raw.Some? && raw.value != ""
       && (Contains(raw.value, "wallet-order-created")
           || hasExactlyOnce || hasExactlyTwice || hasExactlyThrice || hasNoTag)
    then
      var e0 := Eligibility(None, false);
      var e1 := if hasNoTag then Eligibility(Some(CreditedOnce), false) else e0;
      var e2 := if hasExactlyOnce then Eligibility(Some(CreditedTwice), false) else e1;
      var e3 := if hasExactlyTwice then Eligibility(Some(CreditedThrice), false) else e2;
      if hasExactlyThrice then e3.(hasRedeemedBefore := true) else e3
    else Eligibility(None, false)
  }

  /** The rung a tag set stands on: the highest "credited" tag present
      decides, and a customer credited three times is marked as having
      redeemed and gets no tag. */
  function Rung(tags: set<string>): Eligibility {
    if CreditedThrice in tags then Eligibility(None, true)
    else if CreditedTwice in tags then Eligibility(Some(CreditedThrice), false)
    else if CreditedOnce in tags then Eligibility(Some(CreditedTwice), false)
    else Eligibility(Some(CreditedOnce), false)
  }

  /** The flags and the guard reduce to the rung: the four flags cover every
      tag set, so the guard only asks for a non-empty tag string, and an empty
      or missing one gets nothing. */
  lemma NextTagLadder(raw: Option<string>)
    ensures NextTag(raw) ==
      if raw.None? || raw.value == "" then Eligibility(None, false) else Rung(TagSet(raw))
  {
  }

  /** The tag chosen is never one the customer already has, and a customer
      with a tag to add is never marked as having redeemed. */
  lemma NextTagIsNew(raw: Option<string>)
    ensures NextTag(raw).tag.Some? ==> NextTag(raw).tag.value !in TagSet(raw)
    ensures NextTag(raw).tag.Some? ==> !NextTag(raw).hasRedeemedBefore
    ensures NextTag(raw).hasRedeemedBefore <==> raw.Some? && raw.value != "" && CreditedThrice in TagSet(raw)
  {
    NextTagLadder(raw);
  }

  // ---------------------------------------------------------------------------
  // The read-modify-write of addTagToShopifyCustomer

  predicate NoDuplicates<T(==)>(xs: seq<T>) {
    forall i, j :: 0 <= i < j < |xs| ==> xs[i] != xs[j]
  }

  /** `Array.from(new Set(xs))`: the first occurrence of each value, in order. */
  function Dedup<T(==, !new)>(xs: seq<T>): (ys: seq<T>)
    ensures NoDuplicates(ys)
    ensures forall x :: x in ys <==> x in xs
  {
    if xs == [] then []
    else
      var init := Dedup(xs[..|xs| - 1]);
      assert forall x :: x in xs <==> x in xs[..|xs| - 1] || x == xs[|xs| - 1];
      if xs[|xs| - 1] in init then init else init + [xs[|xs| - 1]]
  }

  /** Appending values never disturbs the values already collected: the
      deduplicated prefix is a prefix of the deduplicated whole. */
  lemma {:induction false} DedupKeepsPrefix<T(!new)>(a: seq<T>, b: seq<T>)
    ensures Dedup(a) <= Dedup(a + b)
  {
    if b == [] {
      assert a + b == a;
    } else {
      var b' := b[..|b| - 1];
      DedupKeepsPrefix(a, b');
      assert (a + b)[..|a + b| - 1] == a + b';
    }
  }

  /** A list with no repeated value is its own deduplication. */
  lemma {:induction false} DedupOfDistinct<T(!new)>(xs: seq<T>)
    requires NoDuplicates(xs)
    ensures Dedup(xs) == xs
  {
    if xs != [] {
      var init := xs[..|xs| - 1];
      DedupOfDistinct(init);
      assert xs[|xs| - 1] !in init;
      assert init + [xs[|xs| - 1]] == xs;
    }
  }

  /** A tag value as the handler holds it: `None` is `undefined`, which is
      what `[req.session.tag]` holds when send-otp chose no tag. */
  type TagValue = Option<string>

  function Wrap(xs: seq<string>): (ys: seq<TagValue>)
    ensures |ys| == |xs| && forall i :: 0 <= i < |xs| ==> ys[i] == Some(xs[i])
  {
    seq(|xs|, i requires 0 <= i < |xs| => Some(xs[i]))
  }

  /** `new Set([...existingTagsArray, ...newTagsToAdd])` as a list; the
      current tags are `customer.tags || ""`. */
  function MergeTags(current: Option<string>, newTags: seq<TagValue>): seq<TagValue> {
    Dedup(Wrap(ParseTags(current.GetOr(""))) + newTags)
  }

  /** `.join(', ')`, where `undefined` renders as the empty string. */
  function RenderTags(xs: seq<TagValue>): string {
    Join(seq(|xs|, i requires 0 <= i < |xs| => xs[i].GetOr("")), ", ")
  }

  /** The merge keeps every tag the customer had, in its order and ahead of
      the new ones, adds every new tag, holds nothing else and repeats
      nothing. */
  lemma MergeKeepsEveryTag(current: Option<string>, newTags: seq<TagValue>)
    ensures var merged := MergeTags(current, newTags);
      var existing := ParseTags(current.GetOr(""));
      && NoDuplicates(merged)
      && Dedup(Wrap(existing)) <= merged
      && (forall t :: t in existing ==> Some(t) in merged)
      && (forall v :: v in newTags ==> v in merged)
      && (forall v :: v in merged ==> v in newTags || (v.Some? && v.value in existing))
  {
    var existing := ParseTags(current.GetOr(""));
    DedupKeepsPrefix(Wrap(existing), newTags);
    forall t | t in existing
      ensures Some(t) in Wrap(existing) + newTags
    {
      var k :| 0 <= k < |existing| && existing[k] == t;
      assert Wrap(existing)[k] == Some(t);
    }
    forall v | v in Wrap(existing)
      ensures v.Some? && v.value in existing
    {
      var k :| 0 <= k < |existing| && Wrap(existing)[k] == v;
    }
  }

  /** Adding one clean tag and reading the written string back yields the
      customer's tags followed by the new tag, each once. */
  lemma MergedTagsReadBack(current: Option<string>, t: string)
    requires t != "" && CleanTag(t)
    ensures ParseTags(RenderTags(MergeTags(current, [Some(t)])))
         == Dedup(ParseTags(current.GetOr("")) + [t])
  {
    var existing := ParseTags(current.GetOr(""));
    ParsedTagsAreClean(current.GetOr(""));
    var merged := MergeTags(current, [Some(t)]);
    var plain := Dedup(existing + [t]);
    assert Wrap(existing) + [Some(t)] == Wrap(existing + [t]);
    WrapDedup(existing + [t]);
    assert merged == Wrap(plain);
    var rendered := seq(|merged|, i requires 0 <= i < |merged| => merged[i].GetOr(""));
    assert rendered == plain;
    JoinedTagsReadBack(plain);
    NonEmptyOfNonEmpty(plain);
  }

  lemma {:induction false} WrapDedup(xs: seq<string>)
    ensures Dedup(Wrap(xs)) == Wrap(Dedup(xs))
  {
    if xs != [] {
      var init := xs[..|xs| - 1];
      WrapDedup(init);
      assert Wrap(xs)[..|xs| - 1] == Wrap(init);
      assert Some(xs[|xs| - 1]) in Wrap(Dedup(init)) <==> xs[|xs| - 1] in Dedup(init);
      assert Wrap(Dedup(init)) + [Some(xs[|xs| - 1])] == Wrap(Dedup(init) + [xs[|xs| - 1]]);
    }
  }

  lemma {:induction false} NonEmptyOfNonEmpty(xs: seq<string>)
    requires forall k :: 0 <= k < |xs| ==> xs[k] != ""
    ensures NonEmpty(xs) == xs
  {
    if xs != [] {
      NonEmptyOfNonEmpty(xs[1..]);
    }
  }

  // ---------------------------------------------------------------------------
  // The ladder across visits

  lemma LowerOfLowercase(s: string)
    requires forall i :: 0 <= i < |s| ==> !('A' <= s[i] <= 'Z')
    ensures Lower(s) == s
  {
  }

  /** Adding the tag a rung asks for moves the set one rung up: once, then
      twice, then thrice, after which no tag is added. */
  lemma RungAdvances(tags: set<string>)
    requires Rung(tags).tag.Some?
    ensures var t := Rung(tags).tag.value;
      Rung(tags + {t}) ==
        if t == CreditedOnce then Eligibility(Some(CreditedTwice), false)
        else if t == CreditedTwice then Eligibility(Some(CreditedThrice), false)
        else Eligibility(None, true)
  {
  }

  /** Writing the chosen tag and reading the customer back at the next visit
      adds exactly that tag to the tag set, so the ladder moves one rung up:
      once, then twice, then thrice, after which the customer counts as having
      redeemed and gets no further tag. */
  lemma LadderAdvances(raw: Option<string>)
    requires NextTag(raw).tag.Some?
    ensures var t := NextTag(raw).tag.value;
      var written := Some(RenderTags(MergeTags(raw, [Some(t)])));
      && TagSet(written) == TagSet(raw) + {t}
      && NextTag(written) ==
           if t == CreditedOnce then Eligibility(Some(CreditedTwice), false)
           else if t == CreditedTwice then Eligibility(Some(CreditedThrice), false)
           else Eligibility(None, true)
  {
    NextTagLadder(raw);
    var tags := TagSet(raw);
    assert NextTag(raw) == Rung(tags);
    var t := Rung(tags).tag.value;
    LadderTagIsClean(t);
    var written := RenderTags(MergeTags(raw, [Some(t)]));
    TagSetAfterWrite(raw, t);
    NextTagLadder(Some(written));
    RungAdvances(tags);
  }

  /** A tag of lower-case letters and dashes is clean and lower-case. */
  lemma PlainTag(t: string)
    requires t != [] && forall i :: 0 <= i < |t| ==> 'a' <= t[i] <= 'z' || t[i] == '-'
    ensures CleanTag(t) && Lower(t) == t
  {
    LowerOfLowercase(t);
  }

  lemma LadderTagIsClean(t: string)
    requires t == CreditedOnce || t == CreditedTwice || t == CreditedThrice
    ensures t != "" && CleanTag(t) && Lower(t) == t
  {
    PlainTag(t);
  }

  /** Adding a clean lower-case tag adds exactly that tag to the tag set, and
      the written string is not empty. */
  lemma TagSetAfterWrite(raw: Option<string>, t: string)
    requires t != "" && CleanTag(t) && Lower(t) == t
    ensures var written := RenderTags(MergeTags(raw, [Some(t)]));
      written != "" && TagSet(Some(written)) == TagSet(raw) + {t}
  {
    var written := RenderTags(MergeTags(raw, [Some(t)]));
    MergedTagsReadBack(raw, t);
    var before := ParseTags(raw.GetOr(""));
    var parsed := Dedup(before + [t]);
    assert ParseTags(written) == parsed;
    forall x
      ensures x in TagSet(Some(written)) <==> x in TagSet(raw) + {t}
    {
      if x in TagSet(Some(written)) {
        var y :| y in parsed && Lower(y) == x;
        assert y in before + [t];
      }
      if x in TagSet(raw) {
        var y :| y in before && Lower(y) == x;
        assert y in before + [t];
      }
      if x == t {
        assert t in before + [t];
      }
    }
  }

  // ---------------------------------------------------------------------------
  // The customer-tag webhook

  /** The longest run of decimal digits at the end of `s`. */
  function TrailingDigits(s: string): (d: string)
    ensures |d| <= |s| && AllDigits(d) && d == s[|s| - |d|..]
  {
    if s == [] || !IsDigit(s[|s| - 1]) then []
    else
      var init := TrailingDigits(s[..|s| - 1]);
      assert init == s[..|s| - 1][|s| - 1 - |init|..];
      init + [s[|s| - 1]]
  }

  /** `customerId.match(/Customer\/(\d+)$/)`, replacing the id by the capture
      when there is one. The capture is the whole run of digits ending the
      string, and it must come right after "Customer/"; otherwise the id is
      kept as it is. */
  function ExtractCustomerId(id: string): (r: string)
    ensures r == id || (
      && r != [] && AllDigits(r) && |r| < |id| && id[|id| - |r|..] == r
      && |id| - |r| >= 9 && id[|id| - |r| - 9..|id| - |r|] == "Customer/")
  {
    var d := TrailingDigits(id);
    var before := id[..|id| - |d|];
    if d != [] && |before| >= 9 && before[|before| - 9..] == "Customer/" then d else id
  }

  /** A global id `…Customer/<digits>` yields the bare number. */
  lemma ExtractFromGlobalId(prefix: string, digits: string)
    requires digits != [] && AllDigits(digits)
    ensures ExtractCustomerId(prefix + "Customer/" + digits) == digits
  {
    var id := prefix + "Customer/" + digits;
    TrailingDigitsAfter(prefix + "Customer/", digits);
    assert id[..|id| - |digits|] == prefix + "Customer/";
  }

  lemma {:induction false} TrailingDigitsAfter(head: string, digits: string)
    requires head != [] && !IsDigit(head[|head| - 1]) && AllDigits(digits)
    ensures TrailingDigits(head + digits) == digits
  {
    if digits == [] {
      assert head + digits == head;
    } else {
      var init := digits[..|digits| - 1];
      TrailingDigitsAfter(head, init);
      assert (head + digits)[..|head + digits| - 1] == head + init;
      assert init + [digits[|digits| - 1]] == digits;
    }
  }

  /** The tags of the payload not already recorded, in payload order. */
  function NotRecorded(tags: seq<string>, recorded: seq<string>): (r: seq<string>)
    ensures forall t :: t in r <==> t in tags && t !in recorded
  {
    if tags == [] then []
    else if tags[0] in recorded then NotRecorded(tags[1..], recorded)
    else [tags[0]] + NotRecorded(tags[1..], recorded)
  }

  /** `customerTag.tags.push(...newTags)` with
      `newTags = tags.filter(tag => !customerTag.tags.includes(tag))`. */
  function AppendNewTags(recorded: seq<string>, tags: seq<string>): seq<string> {
    recorded + NotRecorded(tags, recorded)
  }

  /** The recorded tags stay in place and in order; every payload tag ends up
      recorded; nothing else is added; a tag already recorded is not added
      again. */
  lemma AppendKeepsRecorded(recorded: seq<string>, tags: seq<string>)
    ensures var r := AppendNewTags(recorded, tags);
      && recorded <= r
      && (forall t :: t in tags ==> t in r)
      && (forall t :: t in r ==> t in recorded || t in tags)
      && |r| - |recorded| <= |tags|
      && (NoDuplicates(recorded) && NoDuplicates(tags) ==> NoDuplicates(r))
  {
    var r := AppendNewTags(recorded, tags);
    NotRecordedShape(tags, recorded);
  }

  lemma {:induction false} NotRecordedShape(tags: seq<string>, recorded: seq<string>)
    ensures |NotRecorded(tags, recorded)| <= |tags|
    ensures NoDuplicates(recorded) && NoDuplicates(tags) ==> NoDuplicates(recorded + NotRecorded(tags, recorded))
  {
    if tags != [] {
      NotRecordedShape(tags[1..], recorded);
      if NoDuplicates(recorded) && NoDuplicates(tags) {
        var rest := NotRecorded(tags[1..], recorded);
        assert NoDuplicates(recorded + rest);
        assert tags[0] !in rest;
        if tags[0] !in recorded {
          var r := recorded + ([tags[0]] + rest);
          forall i, j | 0 <= i < j < |r|
            ensures r[i] != r[j]
          {
            var n := |recorded|;
            if j < n {
              assert r[i] == recorded[i] && r[j] == recorded[j];
            } else if j == n {
              assert r[i] == recorded[i] && r[j] == tags[0];
            } else if i == n {
              assert r[i] == tags[0] && r[j] == rest[j - n - 1];
            } else if i < n {
              assert r[i] == recorded[i] && r[j] == rest[j - n - 1];
              assert (recorded + rest)[i] == r[i] && (recorded + rest)[j - 1] == r[j];
            } else {
              assert (recorded + rest)[i - 1] == r[i] && (recorded + rest)[j - 1] == r[j];
            }
          }
          assert recorded + NotRecorded(tags, recorded) == r;
        }
      }
    }
  }

  /** Duplicates are only checked against the recorded tags: the same new tag
      twice in one payload is recorded twice. */
  lemma RepeatedPayloadTagKept()
    ensures AppendNewTags([], ["vip", "vip"]) == ["vip", "vip"]
  {
  }
}
