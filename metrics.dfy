/**
 * The four per-cell scores of worker/src/lib.rs: `cosine_similarity`,
 * `euclidean_distance`, `manhattan_distance` and `chebyshev_distance`.
 *
 * Arithmetic is exact arithmetic on `real`; f32 rounding is not modelled. The
 * platform's square root is the parameter `sqrt`; the lemmas that need it to
 * be a square root say so with `IsSqrt`.
 */
module Metrics {

  /** An f32 result: a finite value, or the NaN/infinity an f32 division by zero gives. */
  datatype Float = Num(value: real) | NonFinite

  /** `sqrt` is the nonnegative square root on the nonnegative reals. */
  ghost predicate IsSqrt(sqrt: real -> real)
  {
    forall x :: 0.0 <= x ==> 0.0 <= sqrt(x) && sqrt(x) * sqrt(x) == x
  }

  function Abs(x: real): (r: real)
    ensures 0.0 <= r && (r == x || r == -x)
  {
    if x < 0.0 then -x else x
  }

  /** `a - b` on two vectors of the same length. */
  function Diff(a: seq<real>, b: seq<real>): (d: seq<real>)
    requires |a| == |b|
    ensures |d| == |a| && forall k :: 0 <= k < |d| ==> d[k] == a[k] - b[k]
  {
    seq(|a|, k requires 0 <= k < |a| => a[k] - b[k])
  }

  /** `(a * b).sum()`. */
  function Dot(a: seq<real>, b: seq<real>): real
    requires |a| == |b|
  {
    if a == [] then 0.0 else a[0] * b[0] + Dot(a[1..], b[1..])
  }

  /** `v.mapv(|x| x.powi(2)).sum()`: never negative, whatever the entries. */
  function SumSquares(v: seq<real>): (r: real)
    ensures 0.0 <= r
  {
    if v == [] then 0.0 else v[0] * v[0] + SumSquares(v[1..])
  }

  /** `v.mapv(|x| x.abs()).sum()`: never negative, whatever the entries. */
  function SumAbs(v: seq<real>): (r: real)
    ensures 0.0 <= r
  {
    if v == [] then 0.0 else Abs(v[0]) + SumAbs(v[1..])
  }

  /**
   * `v.mapv(|x| x.abs()).fold(acc, |max, val| val.max(max))`: the largest of
   * `acc` and the absolute entries, and one of them.
   */
  function FoldMaxAbs(acc: real, v: seq<real>): (r: real)
    ensures acc <= r
    ensures forall k :: 0 <= k < |v| ==> Abs(v[k]) <= r
    ensures r == acc || exists k :: 0 <= k < |v| && r == Abs(v[k])
    decreases |v|
  {
    if v == [] then acc
    else
      var next := if Abs(v[0]) < acc then acc else Abs(v[0]);
      var r := FoldMaxAbs(next, v[1..]);
      assert forall k :: 1 <= k < |v| ==> v[1..][k - 1] == v[k];
      r
  }

  /** `cosine_similarity`: the dot product over the product of the norms; non-finite when a norm is zero. */
  function Cosine(sqrt: real -> real, a: seq<real>, b: seq<real>): Float
    requires |a| == |b|
  {
    var denominator := sqrt(SumSquares(a)) * sqrt(SumSquares(b));
    if denominator == 0.0 then NonFinite else Num(Dot(a, b) / denominator)
  }

  /** `euclidean_distance`. */
  function Euclidean(sqrt: real -> real, a: seq<real>, b: seq<real>): real
    requires |a| == |b|
  {
    sqrt(SumSquares(Diff(a, b)))
  }

  /** `manhattan_distance`. */
  function Manhattan(a: seq<real>, b: seq<real>): real
    requires |a| == |b|
  {
    SumAbs(Diff(a, b))
  }

  /** `chebyshev_distance`: the fold starts at 0.0. */
  function Chebyshev(a: seq<real>, b: seq<real>): real
    requires |a| == |b|
  {
    FoldMaxAbs(0.0, Diff(a, b))
  }

  // ---------------------------------------------------------------------------
  // Sums of vectors whose entries are all zero, and the converse
  // ---------------------------------------------------------------------------

  ghost predicate IsZero(v: seq<real>)
  {
    forall k :: 0 <= k < |v| ==> v[k] == 0.0
  }

  /** A sum of squares is zero exactly when every entry is zero. */
  lemma {:induction false} SumSquaresZero(v: seq<real>)
    ensures SumSquares(v) == 0.0 <==> IsZero(v)
  {
    if v != [] {
      var head, tail := v[0] * v[0], SumSquares(v[1..]);
      assert SumSquares(v) == head + tail;
      SumSquaresZero(v[1..]);
      SquareSign(v[0]);
      assert IsZero(v) <==> v[0] == 0.0 && IsZero(v[1..]) by {
        assert forall k :: 1 <= k < |v| ==> v[1..][k - 1] == v[k];
      }
      if IsZero(v) {
        assert head == 0.0 * 0.0;
      }
      if SumSquares(v) == 0.0 {
        assert head == 0.0 && tail == 0.0;
        SquareZero(v[0]);
      }
    }
  }

  /** A sum of absolute values is zero exactly when every entry is zero. */
  lemma {:induction false} SumAbsZero(v: seq<real>)
    ensures SumAbs(v) == 0.0 <==> IsZero(v)
  {
    if v != [] {
      SumAbsZero(v[1..]);
      assert IsZero(v) <==> v[0] == 0.0 && IsZero(v[1..]) by {
        assert forall k :: 1 <= k < |v| ==> v[1..][k - 1] == v[k];
      }
    }
  }

  /** The Chebyshev fold from 0.0 is zero exactly when every entry is zero. */
  lemma FoldMaxAbsZero(v: seq<real>)
    ensures FoldMaxAbs(0.0, v) == 0.0 <==> IsZero(v)
  {
    if FoldMaxAbs(0.0, v) == 0.0 {
      forall k | 0 <= k < |v| ensures v[k] == 0.0 {
        assert Abs(v[k]) <= 0.0;
      }
    }
  }

  lemma DiffZero(a: seq<real>, b: seq<real>)
    requires |a| == |b|
    ensures IsZero(Diff(a, b)) <==> a == b
  {
    if IsZero(Diff(a, b)) {
      forall k | 0 <= k < |a| ensures a[k] == b[k] {
        assert Diff(a, b)[k] == 0.0;
      }
    }
  }

  lemma ProductPositive(x: real, y: real)
    requires 0.0 < x && 0.0 < y
    ensures 0.0 < x * y
  {
  }

  lemma SquareOfNegation(x: real)
    ensures (-x) * (-x) == x * x
  {
  }

  /** A square is never negative, and is positive away from zero. */
  lemma SquareSign(x: real)
    ensures 0.0 <= x * x
    ensures x == 0.0 || 0.0 < x * x
  {
    if x < 0.0 {
      ProductPositive(-x, -x);
      SquareOfNegation(x);
    } else if 0.0 < x {
      ProductPositive(x, x);
    }
  }

  /** Squaring is strictly increasing on the nonnegative reals. */
  lemma SquareLess(s: real, r: real)
    requires 0.0 <= s < r
    ensures s * s < r * r
  {
    ProductPositive(r - s, r + s);
    assert (r - s) * (r + s) == r * r - s * s;
  }

  /** Two nonnegative numbers with the same square are equal. */
  lemma SquaresEqual(s: real, r: real)
    requires 0.0 <= s && 0.0 <= r && s * s == r * r
    ensures s == r
  {
    if s < r {
      SquareLess(s, r);
    } else if r < s {
      SquareLess(r, s);
    }
  }

  /** Only zero squares to zero. */
  lemma SquareZero(x: real)
    requires x * x == 0.0
    ensures x == 0.0
  {
    assert 0.0 * 0.0 == 0.0;
    if x < 0.0 {
      SquareOfNegation(x);
      SquaresEqual(-x, 0.0);
    } else {
      SquaresEqual(x, 0.0);
    }
  }

  /** A square root is zero exactly at zero. */
  lemma SqrtZero(sqrt: real -> real, x: real)
    requires IsSqrt(sqrt) && 0.0 <= x
    ensures sqrt(x) == 0.0 <==> x == 0.0
  {
    var r := sqrt(x);
    assert 0.0 <= r && r * r == x;
    if x == 0.0 {
      assert 0.0 * 0.0 == 0.0;
      SquaresEqual(r, 0.0);
    }
  }

  /** The square root of the square of a nonnegative number is that number. */
  lemma SqrtOfSquare(sqrt: real -> real, r: real)
    requires IsSqrt(sqrt) && 0.0 <= r
    ensures sqrt(r * r) == r
  {
    SquareSign(r);
    var s := sqrt(r * r);
    assert 0.0 <= s && s * s == r * r;
    SquaresEqual(s, r);
  }

  /** The three distances are never negative. */
  lemma DistancesNonnegative(sqrt: real -> real, a: seq<real>, b: seq<real>)
    requires IsSqrt(sqrt) && |a| == |b|
    ensures 0.0 <= Euclidean(sqrt, a, b)
    ensures 0.0 <= Manhattan(a, b)
    ensures 0.0 <= Chebyshev(a, b)
  {
    assert 0.0 <= SumSquares(Diff(a, b));
  }

  /** Each of the three distances is zero exactly when the two vectors are equal; in particular a vector is at distance 0 from itself. */
  lemma DistanceZeroIffEqual(sqrt: real -> real, a: seq<real>, b: seq<real>)
    requires IsSqrt(sqrt) && |a| == |b|
    ensures Euclidean(sqrt, a, b) == 0.0 <==> a == b
    ensures Manhattan(a, b) == 0.0 <==> a == b
    ensures Chebyshev(a, b) == 0.0 <==> a == b
  {
    var d := Diff(a, b);
    DiffZero(a, b);
    SqrtZero(sqrt, SumSquares(d));
    SumSquaresZero(d);
    SumAbsZero(d);
    FoldMaxAbsZero(d);
  }

  /** Negating every entry changes neither the sum of squares nor the sum of absolute values. */
  lemma {:induction false} SumsOfNegation(v: seq<real>, w: seq<real>)
    requires |v| == |w| && forall k :: 0 <= k < |v| ==> w[k] == -v[k]
    ensures SumSquares(v) == SumSquares(w) && SumAbs(v) == SumAbs(w)
  {
    if v != [] {
      SumsOfNegation(v[1..], w[1..]);
    }
  }

  /** Negating every entry does not change the Chebyshev fold. */
  lemma {:induction false} FoldOfNegation(acc: real, v: seq<real>, w: seq<real>)
    requires |v| == |w| && forall k :: 0 <= k < |v| ==> w[k] == -v[k]
    ensures FoldMaxAbs(acc, v) == FoldMaxAbs(acc, w)
    decreases |v|
  {
    if v != [] {
      var next := if Abs(v[0]) < acc then acc else Abs(v[0]);
      FoldOfNegation(next, v[1..], w[1..]);
    }
  }

  /** The three distances are symmetric. */
  lemma DistancesSymmetric(sqrt: real -> real, a: seq<real>, b: seq<real>)
    requires |a| == |b|
    ensures Euclidean(sqrt, a, b) == Euclidean(sqrt, b, a)
    ensures Manhattan(a, b) == Manhattan(b, a)
    ensures Chebyshev(a, b) == Chebyshev(b, a)
  {
    SumsOfNegation(Diff(a, b), Diff(b, a));
    FoldOfNegation(0.0, Diff(a, b), Diff(b, a));
  }

  /** The Chebyshev distance bounds every coordinate difference and is one of them (or 0). */
  lemma ChebyshevIsLargestDifference(a: seq<real>, b: seq<real>)
    requires |a| == |b|
    ensures forall k :: 0 <= k < |a| ==> Abs(a[k] - b[k]) <= Chebyshev(a, b)
    ensures Chebyshev(a, b) == 0.0 || exists k :: 0 <= k < |a| && Chebyshev(a, b) == Abs(a[k] - b[k])
  {
    var d := Diff(a, b);
    assert forall k :: 0 <= k < |a| ==> d[k] == a[k] - b[k];
  }

  /** The Chebyshev fold never exceeds `acc` plus the sum of absolute values. */
  lemma {:induction false} FoldAtMostSum(acc: real, v: seq<real>)
    requires 0.0 <= acc
    ensures FoldMaxAbs(acc, v) <= acc + SumAbs(v)
    decreases |v|
  {
    if v != [] {
      var next := if Abs(v[0]) < acc then acc else Abs(v[0]);
      FoldAtMostSum(next, v[1..]);
    }
  }

  /** The Chebyshev distance never exceeds the Manhattan distance. */
  lemma ChebyshevAtMostManhattan(a: seq<real>, b: seq<real>)
    requires |a| == |b|
    ensures Chebyshev(a, b) <= Manhattan(a, b)
  {
    FoldAtMostSum(0.0, Diff(a, b));
  }

  // ---------------------------------------------------------------------------
  // Properties of the cosine score
  // ---------------------------------------------------------------------------

  lemma {:induction false} DotSelf(v: seq<real>)
    ensures Dot(v, v) == SumSquares(v)
  {
    if v != [] {
      DotSelf(v[1..]);
    }
  }

  lemma {:induction false} DotSymmetric(a: seq<real>, b: seq<real>)
    requires |a| == |b|
    ensures Dot(a, b) == Dot(b, a)
  {
    if a != [] {
      DotSymmetric(a[1..], b[1..]);
    }
  }

  /** A nonzero vector has cosine 1 with itself; the zero vector has a non-finite cosine. */
  lemma CosineOfSelf(sqrt: real -> real, a: seq<real>)
    requires IsSqrt(sqrt)
    ensures IsZero(a) ==> Cosine(sqrt, a, a) == NonFinite
    ensures !IsZero(a) ==> Cosine(sqrt, a, a) == Num(1.0)
  {
    var s := SumSquares(a);
    SumSquaresZero(a);
    SqrtZero(sqrt, s);
    assert sqrt(s) * sqrt(s) == s;
    DotSelf(a);
    if !IsZero(a) {
      var denominator := sqrt(s) * sqrt(s);
      assert denominator == s && s != 0.0;
      assert Dot(a, a) / denominator == 1.0;
    }
  }

  /** The cosine score is symmetric. */
  lemma CosineSymmetric(sqrt: real -> real, a: seq<real>, b: seq<real>)
    requires |a| == |b|
    ensures Cosine(sqrt, a, b) == Cosine(sqrt, b, a)
  {
    DotSymmetric(a, b);
    var na, nb := sqrt(SumSquares(a)), sqrt(SumSquares(b));
    assert na * nb == nb * na;
  }

  /** The literal cosine cases: cos([1,0],[0,1]) = 0 and cos([1,1],[1,1]) = 1. */
  lemma CosineExamples(sqrt: real -> real)
    requires IsSqrt(sqrt)
    ensures Cosine(sqrt, [1.0, 0.0], [0.0, 1.0]) == Num(0.0)
    ensures Cosine(sqrt, [1.0, 1.0], [1.0, 1.0]) == Num(1.0)
  {
    assert [1.0, 0.0][1..] == [0.0] && [0.0, 1.0][1..] == [1.0];
    assert SumSquares([1.0, 0.0]) == 1.0;
    assert SumSquares([0.0, 1.0]) == 1.0;
    SqrtOfSquare(sqrt, 1.0);
    assert Dot([1.0, 0.0], [0.0, 1.0]) == 0.0;
    CosineOfSelf(sqrt, [1.0, 1.0]);
  }

  /** The literal distance cases: euclidean([0,0,0],[3,4,0]) = 5, manhattan([0,0],[1,1]) = 2, chebyshev([0,0],[1,1]) = 1. */
  lemma DistanceExamples(sqrt: real -> real)
    requires IsSqrt(sqrt)
    ensures Euclidean(sqrt, [0.0, 0.0, 0.0], [3.0, 4.0, 0.0]) == 5.0
    ensures Manhattan([0.0, 0.0], [1.0, 1.0]) == 2.0
    ensures Chebyshev([0.0, 0.0], [1.0, 1.0]) == 1.0
  {
    var d := Diff([0.0, 0.0, 0.0], [3.0, 4.0, 0.0]);
    assert d == [-3.0, -4.0, 0.0];
    assert d[1..] == [-4.0, 0.0] && d[2..] == [0.0];
    assert SumSquares(d) == 25.0;
    SqrtOfSquare(sqrt, 5.0);
    var e := Diff([0.0, 0.0], [1.0, 1.0]);
    assert e == [-1.0, -1.0];
    assert e[1..] == [-1.0];
    assert SumAbs(e) == 2.0;
    assert FoldMaxAbs(0.0, e) == 1.0;
  }
}
