/**
 * `normalize_distances` (worker/src/lib.rs): a second pass over a completed
 * batch of distances that finds the largest one and maps every distance `d`
 * to `1 - d / max`, in place.
 */
module Normalize {
  import opened Metrics

  /** Every entry is a finite value. */
  predicate AllNum(s: seq<Float>)
  {
    forall k :: 0 <= k < |s| ==> s[k].Num?
  }

  /**
   * The value `max_by(partial_cmp)` picks: scanning left to right, a later
   * entry replaces the running maximum when it is not smaller. It is one of
   * the entries and no entry exceeds it.
   */
  function MaxNum(s: seq<Float>): (r: real)
    requires |s| > 0 && AllNum(s)
    ensures exists k :: 0 <= k < |s| && s[k].value == r
    ensures forall k :: 0 <= k < |s| ==> s[k].value <= r
  {
    if |s| == 1 then s[0].value
    else
      var front := s[..|s| - 1];
      assert forall k :: 0 <= k < |front| ==> front[k] == s[k];
      var r := MaxNum(front);
      if r <= s[|s| - 1].value then s[|s| - 1].value else r
  }

  /** `1.0 - (d / max)` in f32: non-finite when `max` is zero (0/0 is NaN, d/0 infinite). */
  function Rescale(d: real, max: real): Float
  {
    if max == 0.0 then NonFinite else Num(1.0 - d / max)
  }

  /** The batch after normalisation: same length, each entry rescaled by the batch maximum. */
  function Normalized(s: seq<Float>): (r: seq<Float>)
    requires |s| > 0 && AllNum(s)
  {
    seq(|s|, k requires 0 <= k < |s| => Rescale(s[k].value, MaxNum(s)))
  }

  /** Entry k of a normalised batch. */
  lemma NormalizedAt(s: seq<Float>, k: nat)
    requires |s| > 0 && AllNum(s) && k < |s|
    ensures Normalized(s)[k] == Rescale(s[k].value, MaxNum(s))
  {
  }

  /**
   * The in-place pass. The maximum of an empty batch is `None`, and its
   * `unwrap` panics: `panicked` reports that, and the array is then untouched.
   */
  method NormalizeDistances(distances: array<Float>) returns (panicked: bool)
    requires AllNum(distances[..])
    modifies distances
    ensures panicked <==> distances.Length == 0
    ensures !panicked ==> distances[..] == Normalized(old(distances[..]))
    ensures panicked ==> distances[..] == old(distances[..])
  {
    if distances.Length == 0 {
      return true;
    }
    var max := distances[0].value;
    var i := 1;
    while i < distances.Length
      invariant 1 <= i <= distances.Length
      invariant max == MaxNum(distances[..i])
    {
      assert distances[..i + 1][..i] == distances[..i];
      if max <= distances[i].value {
        max := distances[i].value;
      }
      i := i + 1;
    }
    assert distances[..i] == distances[..];
    ghost var before := distances[..];
    var k := 0;
    while k < distances.Length
      invariant 0 <= k <= distances.Length
      invariant forall t :: 0 <= t < k ==> distances[t] == Rescale(before[t].value, max)
      invariant forall t :: k <= t < distances.Length ==> distances[t] == before[t]
    {
      distances[k] := Rescale(distances[k].value, max);
      k := k + 1;
    }
    return false;
  }

  lemma DivSelf(m: real)
    requires m != 0.0
    ensures m / m == 1.0
  {
  }

  lemma DivZero(m: real)
    requires m != 0.0
    ensures 0.0 / m == 0.0
  {
  }

  /** Dividing by a positive number keeps the order. */
  lemma DivMonotone(a: real, b: real, m: real)
    requires 0.0 < m && a <= b
    ensures a / m <= b / m
  {
  }

  lemma DivNonneg(a: real, m: real)
    requires 0.0 < m && 0.0 <= a
    ensures 0.0 <= a / m
  {
  }

  // ---------------------------------------------------------------------------
  // What normalisation does to a batch
  // ---------------------------------------------------------------------------

  /** Normalisation keeps the length and gives non-finite entries only when the maximum is zero. */
  lemma NormalizedShape(s: seq<Float>)
    requires |s| > 0 && AllNum(s)
    ensures |Normalized(s)| == |s|
    ensures AllNum(Normalized(s)) <==> MaxNum(s) != 0.0
  {
    if MaxNum(s) == 0.0 {
      assert Normalized(s)[0] == NonFinite;
    }
  }

  /** With a nonzero maximum, the largest distances become 0 and zero distances become 1. */
  lemma NormalizedEnds(s: seq<Float>, k: nat)
    requires |s| > 0 && AllNum(s) && k < |s|
    requires MaxNum(s) != 0.0
    ensures s[k].value == MaxNum(s) ==> Normalized(s)[k] == Num(0.0)
    ensures s[k].value == 0.0 ==> Normalized(s)[k] == Num(1.0)
  {
    var max := MaxNum(s);
    assert Normalized(s)[k] == Num(1.0 - s[k].value / max);
    DivSelf(max);
    DivZero(max);
  }

  /** Nonnegative distances with a positive maximum land in [0, 1]. */
  lemma NormalizedInUnitInterval(s: seq<Float>, k: nat)
    requires |s| > 0 && AllNum(s) && k < |s|
    requires forall t :: 0 <= t < |s| ==> 0.0 <= s[t].value
    requires 0.0 < MaxNum(s)
    ensures Normalized(s)[k].Num?
    ensures 0.0 <= Normalized(s)[k].value <= 1.0
  {
    var d, max := s[k].value, MaxNum(s);
    assert Normalized(s)[k] == Num(1.0 - d / max);
    DivMonotone(d, max, max);
    DivSelf(max);
    DivNonneg(d, max);
  }

  /** A zero maximum (every nonnegative distance is zero) turns every entry non-finite. */
  lemma NormalizedZeroMax(s: seq<Float>)
    requires |s| > 0 && AllNum(s)
    requires forall t :: 0 <= t < |s| ==> 0.0 <= s[t].value
    ensures MaxNum(s) == 0.0 <==> forall t :: 0 <= t < |s| ==> s[t].value == 0.0
    ensures MaxNum(s) == 0.0 ==> forall t :: 0 <= t < |s| ==> Normalized(s)[t] == NonFinite
  {
  }

  /** Nonnegative distances normalise to an all non-finite batch exactly when every distance is zero. */
  lemma NormalizedNonFiniteIffAllZero(s: seq<Float>)
    requires |s| > 0 && AllNum(s)
    requires forall t :: 0 <= t < |s| ==> 0.0 <= s[t].value
    ensures (forall t :: 0 <= t < |s| ==> Normalized(s)[t] == NonFinite) <==>
            (forall t :: 0 <= t < |s| ==> s[t] == Num(0.0))
  {
    NormalizedZeroMax(s);
    if forall t :: 0 <= t < |s| ==> Normalized(s)[t] == NonFinite {
      assert Normalized(s)[0] == NonFinite;
    }
  }

  /** A zero distance among nonnegative ones normalises to 1, unless the whole batch turns non-finite. */
  lemma NormalizedAtZero(s: seq<Float>, k: nat)
    requires |s| > 0 && AllNum(s) && k < |s|
    requires forall t :: 0 <= t < |s| ==> 0.0 <= s[t].value
    requires s[k].value == 0.0
    ensures Normalized(s)[k] == Num(1.0) || forall t :: 0 <= t < |s| ==> Normalized(s)[t] == NonFinite
  {
    NormalizedZeroMax(s);
    if MaxNum(s) != 0.0 {
      NormalizedEnds(s, k);
    }
  }

  /** Normalisation preserves the order of distances: a smaller distance gets a larger score. */
  lemma NormalizedReversesOrder(s: seq<Float>, i: nat, j: nat)
    requires |s| > 0 && AllNum(s) && i < |s| && j < |s|
    requires 0.0 < MaxNum(s)
    requires s[i].value <= s[j].value
    ensures Normalized(s)[j].value <= Normalized(s)[i].value
  {
    DivMonotone(s[i].value, s[j].value, MaxNum(s));
  }

  /** The literal case: raw distances [0, 2, 4] normalise to [1, 0.5, 0]. */
  lemma NormalizedExample()
    ensures Normalized([Num(0.0), Num(2.0), Num(4.0)]) == [Num(1.0), Num(0.5), Num(0.0)]
  {
    var s := [Num(0.0), Num(2.0), Num(4.0)];
    assert s[..2][..1] == [Num(0.0)];
    assert s[..2] == [Num(0.0), Num(2.0)];
    assert MaxNum(s[..2]) == 2.0;
    assert MaxNum(s) == 4.0;
  }
}
