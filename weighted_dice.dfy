/**
 * The server's weighted dice draw (`getWeightedDiceResult`): running sums of
 * the face weights, then the first bucket whose running weight reaches the
 * random value. `Math.random()` is the parameter `u`, a real in [0, 1); the
 * product `u * totalWeight` is taken exactly (floating-point rounding is not
 * modelled).
 */
module WeightedDice {

  datatype FaceWeight = FaceWeight(face: int, weight: nat)

  /** One entry of `cumulativeWeights`. */
  datatype Bucket = Bucket(face: int, cumWeight: nat)

  /** The table the server ships: face 6 with weight 100. */
  const Probabilities: seq<FaceWeight> := [FaceWeight(6, 100)]

  /** The face returned when no bucket reaches the random value. */
  const FallbackFace := 6

  /** The sum of the first `n` weights. */
  function RunningTotal(probs: seq<FaceWeight>, n: nat): nat
    requires n <= |probs|
  {
    if n == 0 then 0 else RunningTotal(probs, n - 1) + probs[n - 1].weight
  }

  function TotalWeight(probs: seq<FaceWeight>): nat {
    RunningTotal(probs, |probs|)
  }

  /** `cumulativeWeights`: bucket `i` holds face `i` and the sum of the weights
      up to and including `i`. */
  function CumulativeWeights(probs: seq<FaceWeight>): seq<Bucket> {
    seq(|probs|, i requires 0 <= i < |probs| => Bucket(probs[i].face, RunningTotal(probs, i + 1)))
  }

  /** The search loop: the face of the first bucket with `random <= cumWeight`,
      the fallback face when there is none. */
  function Select(cum: seq<Bucket>, random: real): int {
    if cum == [] then FallbackFace
    else if random <= cum[0].cumWeight as real then cum[0].face
    else Select(cum[1..], random)
  }

  /** The draw as a whole, for a random value `u` in [0, 1). */
  function Draw(probs: seq<FaceWeight>, u: real): int {
    Select(CumulativeWeights(probs), Scaled(u, TotalWeight(probs)))
  }

  /** `Math.random() * totalWeight`. */
  function Scaled(u: real, total: nat): real {
    u * (total as real)
  }

  /** `getWeightedDiceResult` over a given table: one loop builds the running
      sums, a second one returns the first bucket that reaches the random
      value. */
  method WeightedDiceResult(probs: seq<FaceWeight>, u: real) returns (face: int)
    requires 0.0 <= u < 1.0
    ensures face == Draw(probs, u)
    ensures probs != [] ==> exists k :: 0 <= k < |probs| && face == probs[k].face
  {
    var cumulative: seq<Bucket> := [];
    var totalWeight: nat := 0;
    var i := 0;
    while i < |probs|
      invariant 0 <= i <= |probs|
      invariant totalWeight == RunningTotal(probs, i)
      invariant cumulative == CumulativeWeights(probs)[..i]
    {
      totalWeight := totalWeight + probs[i].weight;
      cumulative := cumulative + [Bucket(probs[i].face, totalWeight)];
      i := i + 1;
    }
    assert cumulative == CumulativeWeights(probs);
    var random := Scaled(u, totalWeight);
    DrawHitsConfiguredFace(probs, u);

    var j := 0;
    while j < |cumulative|
      invariant 0 <= j <= |cumulative|
      invariant Select(cumulative, random) == Select(cumulative[j..], random)
    {
      if random <= cumulative[j].cumWeight as real {
        assert cumulative[j..][0] == cumulative[j];
        assert Select(cumulative[j..], random) == cumulative[j].face;
        return cumulative[j].face;
      }
      assert cumulative[j..][1..] == cumulative[j + 1..];
      j := j + 1;
    }
    return FallbackFace;
  }

  /** `getWeightedDiceResult()` itself: the draw over the shipped table. */
  method GetWeightedDiceResult(u: real) returns (face: int)
    requires 0.0 <= u < 1.0
    ensures face == 6
  {
    face := WeightedDiceResult(Probabilities, u);
    ShippedTableAlwaysSix(u);
  }

  /** The search returns the face of the FIRST bucket that reaches the random
      value, so a value equal to a bucket's running weight goes to that bucket
      and not to the next; with no such bucket it returns the fallback face. */
  lemma {:induction false} SelectIsFirstBucket(cum: seq<Bucket>, random: real, k: nat)
    requires k < |cum| && random <= cum[k].cumWeight as real
    requires forall j :: 0 <= j < k ==> random > cum[j].cumWeight as real
    ensures Select(cum, random) == cum[k].face
  {
    if k > 0 {
      SelectIsFirstBucket(cum[1..], random, k - 1);
    }
  }

  lemma {:induction false} SelectFallback(cum: seq<Bucket>, random: real)
    requires forall j :: 0 <= j < |cum| ==> random > cum[j].cumWeight as real
    ensures Select(cum, random) == FallbackFace
  {
    if cum != [] {
      SelectFallback(cum[1..], random);
    }
  }

  /** Whatever bucket is selected, its face is one of the buckets' faces. */
  lemma {:induction false} SelectedFaceIsABucket(cum: seq<Bucket>, random: real, last: nat)
    requires last < |cum| && random <= cum[last].cumWeight as real
    ensures exists k :: 0 <= k < |cum| && Select(cum, random) == cum[k].face
  {
    if random <= cum[0].cumWeight as real {
      assert Select(cum, random) == cum[0].face;
    } else {
      SelectedFaceIsABucket(cum[1..], random, last - 1);
      var k :| 0 <= k < |cum| - 1 && Select(cum[1..], random) == cum[1..][k].face;
      assert Select(cum, random) == cum[k + 1].face;
    }
  }

  /** With a non-empty table the random value never exceeds the total, which
      is the last bucket's running weight: the fallback is unreachable and the
      draw is always a configured face. */
  lemma DrawHitsConfiguredFace(probs: seq<FaceWeight>, u: real)
    requires 0.0 <= u < 1.0
    ensures probs != [] ==> exists k :: 0 <= k < |probs| && Draw(probs, u) == probs[k].face
  {
    if probs != [] {
      var cum := CumulativeWeights(probs);
      var random := Scaled(u, TotalWeight(probs));
      ScaledBelow(u, TotalWeight(probs));
      assert cum[|probs| - 1].cumWeight == TotalWeight(probs);
      SelectedFaceIsABucket(cum, random, |probs| - 1);
      var k :| 0 <= k < |cum| && Select(cum, random) == cum[k].face;
      assert cum[k].face == probs[k].face;
    }
  }

  /** The random value never exceeds the total weight. */
  lemma ScaledBelow(u: real, total: nat)
    requires 0.0 <= u < 1.0
    ensures Scaled(u, total) <= total as real
  {
    var t := total as real;
    var d := 1.0 - u;
    assert t - u * t == d * t;
    if t > 0.0 {
      assert d * t > 0.0;
    }
  }

  /** With the shipped table every draw is a 6. */
  lemma ShippedTableAlwaysSix(u: real)
    requires 0.0 <= u < 1.0
    ensures Draw(Probabilities, u) == 6
  {
    DrawHitsConfiguredFace(Probabilities, u);
  }
}
