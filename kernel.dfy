/**
 * The pure specification of `calc_similarities` (worker/src/lib.rs): the
 * layout of a cached vector viewed as shape (4, n, n, m), the metric named by
 * a string, the grid of scores and the errors and panics of a query.
 */
module Kernel {
  import opened Wrappers
  import opened Metrics
  import opened Normalize

  /** The step count hard-coded in the shape (4, n, n, m). */
  const Steps: nat := 4

  datatype Metric = CosineSimilarity | EuclideanDistance | ManhattanDistance | ChebyshevDistance

  /** Why a query aborts the worker instead of returning. */
  datatype Panic =
    | ShapeMismatch     // `ArrayView4::from_shape(..).unwrap()`: the vector is too short for (4, n, n, m)
    | IndexOutOfBounds  // `slice(s![..])` with a step, row or column outside the view
    | UnknownFunction   // `panic!("Unknown similarity function")`

  /** What `calc_similarities` gives back: the scores, an `Err`, or a panic. */
  datatype Reply = Scores(scores: seq<Float>) | Error(message: string) | Panicked(cause: Panic)

  /** The name the query uses for each metric. */
  function MetricName(metric: Metric): string
  {
    match metric
    case CosineSimilarity => "cosine"
    case EuclideanDistance => "euclidean"
    case ManhattanDistance => "manhattan"
    case ChebyshevDistance => "chebyshev"
  }

  /** The `match func.as_str()` of the inner loop; any other name is unknown. */
  function ParseMetric(name: string): Option<Metric>
  {
    if name == "cosine" then Some(CosineSimilarity)
    else if name == "euclidean" then Some(EuclideanDistance)
    else if name == "manhattan" then Some(ManhattanDistance)
    else if name == "chebyshev" then Some(ChebyshevDistance)
    else None
  }

  /** The names whose scores are normalised afterwards. */
  predicate IsDistanceName(name: string)
  {
    name == "euclidean" || name == "manhattan" || name == "chebyshev"
  }

  /** A metric is recognised exactly under its own name. */
  lemma ParseMetricName(name: string, metric: Metric)
    ensures ParseMetric(name) == Some(metric) <==> name == MetricName(metric)
  {
  }

  /** The names normalised afterwards are exactly the recognised names of the three distances. */
  lemma DistanceNames(name: string)
    ensures IsDistanceName(name) <==> ParseMetric(name).Some? && ParseMetric(name).value != CosineSimilarity
  {
  }

  /** One cell's score. The three distances are always finite. */
  function Score(metric: Metric, sqrt: real -> real, a: seq<real>, b: seq<real>): (r: Float)
    requires |a| == |b|
    ensures metric != CosineSimilarity ==> r.Num?
  {
    match metric
    case CosineSimilarity => Cosine(sqrt, a, b)
    case EuclideanDistance => Num(Euclidean(sqrt, a, b))
    case ManhattanDistance => Num(Manhattan(a, b))
    case ChebyshevDistance => Num(Chebyshev(a, b))
  }

  /** A cell is at distance 0 from itself under each of the three distances. */
  lemma SelfDistanceZero(metric: Metric, sqrt: real -> real, a: seq<real>)
    requires IsSqrt(sqrt) && metric != CosineSimilarity
    ensures Score(metric, sqrt, a, a) == Num(0.0)
  {
    DistanceZeroIffEqual(sqrt, a, a);
  }

  /** The three distances never score below zero. */
  lemma ScoreNonnegative(metric: Metric, sqrt: real -> real, a: seq<real>, b: seq<real>)
    requires IsSqrt(sqrt) && |a| == |b| && metric != CosineSimilarity
    ensures 0.0 <= Score(metric, sqrt, a, b).value
  {
    DistancesNonnegative(sqrt, a, b);
  }

  // ---------------------------------------------------------------------------
  // Layout of a cached vector viewed as (Steps, n, n, m), row-major
  // ---------------------------------------------------------------------------

  /** Where the channel vector of (step, row, col) starts in the flat vector. */
  function CellOffset(n: nat, m: nat, step: nat, row: nat, col: nat): nat
  {
    ((step * n + row) * n + col) * m
  }

  lemma MulLeft(a: nat, b: nat, c: nat)
    requires a <= b
    ensures a * c <= b * c
  {
  }

  /** The channel vector of an in-range cell lies inside the view. */
  lemma CellInBounds(n: nat, m: nat, step: nat, row: nat, col: nat)
    requires step < Steps && row < n && col < n
    ensures CellOffset(n, m, step, row, col) + m <= Steps * n * n * m
  {
    var plane := step * n + row;
    assert plane + 1 <= Steps * n by {
      MulLeft(step + 1, Steps, n);
    }
    var cell := plane * n + col;
    assert cell + 1 <= Steps * n * n by {
      MulLeft(plane + 1, Steps * n, n);
    }
    MulLeft(cell + 1, Steps * n * n, m);
  }

  /** The channel vector of cell (row, col) at `step`: `repr.slice(s![step, row, col, ..])`. */
  function CellVector(v: seq<real>, n: nat, m: nat, step: nat, row: nat, col: nat): (cell: seq<real>)
    requires Steps * n * n * m <= |v|
    requires step < Steps && row < n && col < n
    ensures |cell| == m
  {
    CellInBounds(n, m, step, row, col);
    v[CellOffset(n, m, step, row, col)..CellOffset(n, m, step, row, col) + m]
  }

  /** A grid position (row i, column j) has flat index j * n + i, and that index gives it back. */
  lemma GridIndex(n: nat, i: nat, j: nat)
    requires i < n && j < n
    ensures j * n + i < n * n
    ensures (j * n + i) % n == i && (j * n + i) / n == j
  {
    MulLeft(j + 1, n, n);
    DivModUnique(j * n + i, n, j, i);
  }

  /** Euclidean division has a single quotient and remainder. */
  lemma DivModUnique(k: nat, n: nat, q: nat, r: nat)
    requires r < n && k == q * n + r
    ensures k / n == q && k % n == r
  {
    var q', r' := k / n, k % n;
    assert k == q' * n + r';
    if q' < q {
      MulLeft(q' + 1, q, n);
    } else if q < q' {
      MulLeft(q + 1, q', n);
    }
  }

  /** Every flat index of the grid is j * n + i for an in-range row i and column j. */
  lemma GridPosition(n: nat, k: nat)
    requires k < n * n
    ensures k % n < n && k / n < n && k == (k / n) * n + k % n
  {
    if n <= k / n {
      MulLeft(n, k / n, n);
    }
  }

  /**
   * The raw scores: entry j * n + i compares `base` with the cell (row i,
   * column j) of `step2`, so the grid is filled column by column.
   */
  function RawScores(metric: Metric, sqrt: real -> real, base: seq<real>, v: seq<real>,
                     n: nat, m: nat, step2: nat): (r: seq<Float>)
    requires |base| == m && Steps * n * n * m <= |v| && step2 < Steps
    ensures |r| == n * n
  {
    seq(n * n, k requires 0 <= k < n * n =>
      GridPosition(n, k);
      Score(metric, sqrt, base, CellVector(v, n, m, step2, k % n, k / n)))
  }

  /** The raw score at row i, column j. */
  lemma RawScoreAt(metric: Metric, sqrt: real -> real, base: seq<real>, v: seq<real>,
                   n: nat, m: nat, step2: nat, i: nat, j: nat)
    requires |base| == m && Steps * n * n * m <= |v| && step2 < Steps
    requires i < n && j < n
    ensures j * n + i < n * n
    ensures RawScores(metric, sqrt, base, v, n, m, step2)[j * n + i]
         == Score(metric, sqrt, base, CellVector(v, n, m, step2, i, j))
  {
    GridIndex(n, i, j);
  }

  /** Distance scores are all finite. */
  lemma RawDistancesFinite(metric: Metric, sqrt: real -> real, base: seq<real>, v: seq<real>,
                           n: nat, m: nat, step2: nat)
    requires |base| == m && Steps * n * n * m <= |v| && step2 < Steps
    requires metric != CosineSimilarity
    ensures AllNum(RawScores(metric, sqrt, base, v, n, m, step2))
  {
  }

  // ---------------------------------------------------------------------------
  // A whole query
  // ---------------------------------------------------------------------------

  /** The vector compared against every cell: `repr1.slice(s![step1, row, col, ..])`. */
  function BaseVector(v: seq<real>, n: nat, m: nat, step1: nat, row: nat, col: nat): (base: seq<real>)
    requires Steps * n * n * m <= |v| && step1 < Steps && row < n && col < n
    ensures |base| == m
  {
    CellVector(v, n, m, step1, row, col)
  }

  /**
   * The reply of `calc_similarities` on the cache `reprs`, in the order the
   * source meets each failure: the two lookups, the two reshapes, the base
   * slice, then (the loop body runs, since n > 0 here) the target slice and
   * the metric name; the scores are normalised for the three distance names.
   */
  function Similarities(reprs: map<string, seq<real>>, sqrt: real -> real, func: string,
                        url1: string, url2: string, step1: nat, step2: nat,
                        row: nat, col: nat, n: nat, m: nat): Reply
  {
    if url1 !in reprs then Error("Failed to get representation 1, url: " + url1)
    else if url2 !in reprs then Error("Failed to get representation 2, url: " + url2)
    else if |reprs[url1]| < Steps * n * n * m || |reprs[url2]| < Steps * n * n * m then
      Panicked(ShapeMismatch)
    else if !(step1 < Steps && row < n && col < n) then Panicked(IndexOutOfBounds)
    else if !(step2 < Steps) then Panicked(IndexOutOfBounds)
    else if ParseMetric(func).None? then Panicked(UnknownFunction)
    else
      var base := BaseVector(reprs[url1], n, m, step1, row, col);
      var raw := RawScores(ParseMetric(func).value, sqrt, base, reprs[url2], n, m, step2);
      if IsDistanceName(func) then
        DistanceNames(func);
        Scores(Normalized(raw))
      else Scores(raw)
  }

  // ---------------------------------------------------------------------------
  // Properties of a query
  // ---------------------------------------------------------------------------

  /** The query can read both vectors, view them as (Steps, n, n, m) and slice the base and target cells. */
  ghost predicate WellFormedQuery(reprs: map<string, seq<real>>, url1: string, url2: string,
                                  step1: nat, step2: nat, row: nat, col: nat, n: nat, m: nat)
  {
    && url1 in reprs && url2 in reprs
    && Steps * n * n * m <= |reprs[url1]| && Steps * n * n * m <= |reprs[url2]|
    && step1 < Steps && step2 < Steps && row < n && col < n
  }

  /**
   * A well-formed query with a recognised name returns its raw scores, or
   * their normalisation for a distance name.
   */
  lemma QueryScores(reprs: map<string, seq<real>>, sqrt: real -> real, func: string,
                    url1: string, url2: string, step1: nat, step2: nat,
                    row: nat, col: nat, n: nat, m: nat)
    requires WellFormedQuery(reprs, url1, url2, step1, step2, row, col, n, m) && ParseMetric(func).Some?
    ensures var raw := RawScores(ParseMetric(func).value, sqrt, BaseVector(reprs[url1], n, m, step1, row, col),
                                 reprs[url2], n, m, step2);
      && (IsDistanceName(func) ==> AllNum(raw))
      && (IsDistanceName(func) ==>
            Similarities(reprs, sqrt, func, url1, url2, step1, step2, row, col, n, m) == Scores(Normalized(raw)))
      && (!IsDistanceName(func) ==>
            Similarities(reprs, sqrt, func, url1, url2, step1, step2, row, col, n, m) == Scores(raw))
  {
    DistanceNames(func);
    if IsDistanceName(func) {
      RawDistancesFinite(ParseMetric(func).value, sqrt, BaseVector(reprs[url1], n, m, step1, row, col),
                         reprs[url2], n, m, step2);
    }
  }

  /**
   * A query returns `Err` exactly when one of its URLs is not cached, and the
   * message names the first missing one; nothing is computed then.
   */
  lemma MissingRepresentation(reprs: map<string, seq<real>>, sqrt: real -> real, func: string,
                              url1: string, url2: string, step1: nat, step2: nat,
                              row: nat, col: nat, n: nat, m: nat)
    ensures var reply := Similarities(reprs, sqrt, func, url1, url2, step1, step2, row, col, n, m);
      && (reply.Error? <==> url1 !in reprs || url2 !in reprs)
      && (url1 !in reprs ==> reply == Error("Failed to get representation 1, url: " + url1))
      && (url1 in reprs && url2 !in reprs ==> reply == Error("Failed to get representation 2, url: " + url2))
  {
  }

  /**
   * A query returns scores exactly when it is well formed and the name is
   * recognised; there are then n * n of them and n is positive. A well-formed
   * query with an unrecognised name panics rather than returning `Err`, and
   * with n = 0 no query on cached vectors returns scores.
   */
  lemma QueryOutcome(reprs: map<string, seq<real>>, sqrt: real -> real, func: string,
                     url1: string, url2: string, step1: nat, step2: nat,
                     row: nat, col: nat, n: nat, m: nat)
    ensures var reply := Similarities(reprs, sqrt, func, url1, url2, step1, step2, row, col, n, m);
      && (reply.Scores? <==> WellFormedQuery(reprs, url1, url2, step1, step2, row, col, n, m) && ParseMetric(func).Some?)
      && (reply.Scores? ==> 0 < n && |reply.scores| == n * n)
      && (WellFormedQuery(reprs, url1, url2, step1, step2, row, col, n, m) && ParseMetric(func).None? ==>
            reply == Panicked(UnknownFunction))
      && (n == 0 && url1 in reprs && url2 in reprs ==> reply.Panicked?)
  {
  }

  /**
   * The cosine score at flat index j * n + i is the cosine of the base cell
   * and the cell (row i, column j) of the target step.
   */
  lemma CosineScoreLayout(reprs: map<string, seq<real>>, sqrt: real -> real,
                          url1: string, url2: string, step1: nat, step2: nat,
                          row: nat, col: nat, n: nat, m: nat, i: nat, j: nat)
    requires WellFormedQuery(reprs, url1, url2, step1, step2, row, col, n, m)
    requires i < n && j < n
    ensures Similarities(reprs, sqrt, "cosine", url1, url2, step1, step2, row, col, n, m).Scores?
    ensures j * n + i < |Similarities(reprs, sqrt, "cosine", url1, url2, step1, step2, row, col, n, m).scores|
    ensures Similarities(reprs, sqrt, "cosine", url1, url2, step1, step2, row, col, n, m).scores[j * n + i]
         == Cosine(sqrt, BaseVector(reprs[url1], n, m, step1, row, col), CellVector(reprs[url2], n, m, step2, i, j))
  {
    var base := BaseVector(reprs[url1], n, m, step1, row, col);
    var raw := RawScores(CosineSimilarity, sqrt, base, reprs[url2], n, m, step2);
    assert Similarities(reprs, sqrt, "cosine", url1, url2, step1, step2, row, col, n, m).scores == raw;
    RawScoreAt(CosineSimilarity, sqrt, base, reprs[url2], n, m, step2, i, j);
  }

  /**
   * The score of a distance query at flat index j * n + i is the distance of
   * the base cell and the cell (row i, column j) of the target step, rescaled
   * by the largest distance of the grid.
   */
  lemma DistanceScoreLayout(reprs: map<string, seq<real>>, sqrt: real -> real, func: string,
                            url1: string, url2: string, step1: nat, step2: nat,
                            row: nat, col: nat, n: nat, m: nat, i: nat, j: nat)
    requires WellFormedQuery(reprs, url1, url2, step1, step2, row, col, n, m) && IsDistanceName(func)
    requires i < n && j < n
    ensures ParseMetric(func).Some? && ParseMetric(func).value != CosineSimilarity
    ensures Similarities(reprs, sqrt, func, url1, url2, step1, step2, row, col, n, m).Scores?
    ensures j * n + i < |Similarities(reprs, sqrt, func, url1, url2, step1, step2, row, col, n, m).scores|
    ensures var raw := RawScores(ParseMetric(func).value, sqrt, BaseVector(reprs[url1], n, m, step1, row, col),
                                 reprs[url2], n, m, step2);
      0 < |raw| && AllNum(raw)
    ensures var metric := ParseMetric(func).value;
      var base := BaseVector(reprs[url1], n, m, step1, row, col);
      Similarities(reprs, sqrt, func, url1, url2, step1, step2, row, col, n, m).scores[j * n + i]
      == Rescale(Score(metric, sqrt, base, CellVector(reprs[url2], n, m, step2, i, j)).value,
                 MaxNum(RawScores(metric, sqrt, base, reprs[url2], n, m, step2)))
  {
    DistanceNames(func);
    var metric := ParseMetric(func).value;
    var base := BaseVector(reprs[url1], n, m, step1, row, col);
    var raw := RawScores(metric, sqrt, base, reprs[url2], n, m, step2);
    var s := Similarities(reprs, sqrt, func, url1, url2, step1, step2, row, col, n, m).scores;
    assert s == Normalized(raw);
    RawScoreAt(metric, sqrt, base, reprs[url2], n, m, step2, i, j);
    RawDistancesFinite(metric, sqrt, base, reprs[url2], n, m, step2);
    MulLeft(0, j, n);
    NormalizedAt(raw, j * n + i);
  }

  /** Every raw distance of a grid is nonnegative. */
  lemma RawDistancesNonnegative(metric: Metric, sqrt: real -> real, base: seq<real>, v: seq<real>,
                                n: nat, m: nat, step2: nat)
    requires IsSqrt(sqrt)
    requires |base| == m && Steps * n * n * m <= |v| && step2 < Steps
    requires metric != CosineSimilarity
    ensures var raw := RawScores(metric, sqrt, base, v, n, m, step2);
      forall k :: 0 <= k < |raw| ==> 0.0 <= raw[k].value
  {
    var raw := RawScores(metric, sqrt, base, v, n, m, step2);
    forall k | 0 <= k < |raw| ensures 0.0 <= raw[k].value {
      RawScoreNonnegative(metric, sqrt, base, v, n, m, step2, k);
    }
  }

  /** One raw distance of a grid is nonnegative. */
  lemma RawScoreNonnegative(metric: Metric, sqrt: real -> real, base: seq<real>, v: seq<real>,
                            n: nat, m: nat, step2: nat, k: nat)
    requires IsSqrt(sqrt)
    requires |base| == m && Steps * n * n * m <= |v| && step2 < Steps
    requires metric != CosineSimilarity && k < n * n
    ensures 0.0 <= RawScores(metric, sqrt, base, v, n, m, step2)[k].value
  {
    GridPosition(n, k);
    ScoreNonnegative(metric, sqrt, base, CellVector(v, n, m, step2, k % n, k / n));
  }

  /**
   * The normalised grid of a distance metric: either every score lies in
   * [0, 1], or every score is non-finite, and the latter happens exactly when
   * every raw distance is zero.
   */
  lemma NormalizedDistanceGrid(metric: Metric, sqrt: real -> real, base: seq<real>, v: seq<real>,
                               n: nat, m: nat, step2: nat)
    requires IsSqrt(sqrt) && metric != CosineSimilarity && 0 < n
    requires |base| == m && Steps * n * n * m <= |v| && step2 < Steps
    ensures var raw := RawScores(metric, sqrt, base, v, n, m, step2);
      && 0 < |raw| && AllNum(raw)
      && ((forall k :: 0 <= k < |raw| ==> Normalized(raw)[k].Num? && 0.0 <= Normalized(raw)[k].value <= 1.0)
          || (forall k :: 0 <= k < |raw| ==> Normalized(raw)[k] == NonFinite))
      && ((forall k :: 0 <= k < |raw| ==> Normalized(raw)[k] == NonFinite) <==>
          (forall k :: 0 <= k < |raw| ==> raw[k] == Num(0.0)))
  {
    var raw := RawScores(metric, sqrt, base, v, n, m, step2);
    MulLeft(1, n, n);
    RawDistancesFinite(metric, sqrt, base, v, n, m, step2);
    RawDistancesNonnegative(metric, sqrt, base, v, n, m, step2);
    NormalizedZeroMax(raw);
    NormalizedNonFiniteIffAllZero(raw);
    if MaxNum(raw) != 0.0 {
      forall k | 0 <= k < |raw| ensures Normalized(raw)[k].Num? && 0.0 <= Normalized(raw)[k].value <= 1.0 {
        NormalizedInUnitInterval(raw, k);
      }
    }
  }

  /**
   * The scores of a distance query either all lie in [0, 1] or are all
   * non-finite, and they are all non-finite exactly when every distance of
   * the grid is zero.
   */
  lemma DistanceScoresBounded(reprs: map<string, seq<real>>, sqrt: real -> real, func: string,
                              url1: string, url2: string, step1: nat, step2: nat,
                              row: nat, col: nat, n: nat, m: nat)
    requires IsSqrt(sqrt) && IsDistanceName(func)
    requires WellFormedQuery(reprs, url1, url2, step1, step2, row, col, n, m)
    ensures ParseMetric(func).Some?
    ensures Similarities(reprs, sqrt, func, url1, url2, step1, step2, row, col, n, m).Scores?
    ensures var s := Similarities(reprs, sqrt, func, url1, url2, step1, step2, row, col, n, m).scores;
      || (forall k :: 0 <= k < |s| ==> s[k].Num? && 0.0 <= s[k].value <= 1.0)
      || (forall k :: 0 <= k < |s| ==> s[k] == NonFinite)
    ensures var s := Similarities(reprs, sqrt, func, url1, url2, step1, step2, row, col, n, m).scores;
      var raw := RawScores(ParseMetric(func).value, sqrt, BaseVector(reprs[url1], n, m, step1, row, col),
                           reprs[url2], n, m, step2);
      (forall k :: 0 <= k < |s| ==> s[k] == NonFinite) <==> (forall k :: 0 <= k < |raw| ==> raw[k] == Num(0.0))
  {
    DistanceNames(func);
    QueryScores(reprs, sqrt, func, url1, url2, step1, step2, row, col, n, m);
    NormalizedDistanceGrid(ParseMetric(func).value, sqrt, BaseVector(reprs[url1], n, m, step1, row, col),
                           reprs[url2], n, m, step2);
  }

  /**
   * Comparing a cell with the same cell of the same vector and step under
   * cosine: the score at flat index col * n + row is exactly 1, or non-finite
   * when the cell is the zero vector.
   */
  lemma CosineSelfComparison(reprs: map<string, seq<real>>, sqrt: real -> real,
                             url: string, step: nat, row: nat, col: nat, n: nat, m: nat)
    requires IsSqrt(sqrt)
    requires Similarities(reprs, sqrt, "cosine", url, url, step, step, row, col, n, m).Scores?
    ensures var s := Similarities(reprs, sqrt, "cosine", url, url, step, step, row, col, n, m).scores;
      && col * n + row < |s|
      && s[col * n + row] == if IsZero(BaseVector(reprs[url], n, m, step, row, col)) then NonFinite else Num(1.0)
  {
    QueryOutcome(reprs, sqrt, "cosine", url, url, step, step, row, col, n, m);
    var base := BaseVector(reprs[url], n, m, step, row, col);
    var raw := RawScores(CosineSimilarity, sqrt, base, reprs[url], n, m, step);
    assert Similarities(reprs, sqrt, "cosine", url, url, step, step, row, col, n, m).scores == raw;
    RawScoreAt(CosineSimilarity, sqrt, base, reprs[url], n, m, step, row, col);
    assert CellVector(reprs[url], n, m, step, row, col) == base;
    CosineOfSelf(sqrt, base);
  }

  /**
   * The raw distances of a grid against one of its own cells: the cell itself
   * sits at flat index col * n + row with distance zero, so after normalisation
   * it scores exactly 1 unless the whole grid turns non-finite.
   */
  lemma NormalizedSelfCell(metric: Metric, sqrt: real -> real, v: seq<real>,
                           n: nat, m: nat, step: nat, row: nat, col: nat)
    requires IsSqrt(sqrt) && metric != CosineSimilarity
    requires Steps * n * n * m <= |v| && step < Steps && row < n && col < n
    ensures var raw := RawScores(metric, sqrt, BaseVector(v, n, m, step, row, col), v, n, m, step);
      && col * n + row < |raw| && 0 < |raw| && AllNum(raw)
      && (Normalized(raw)[col * n + row] == Num(1.0)
          || forall k :: 0 <= k < |raw| ==> Normalized(raw)[k] == NonFinite)
  {
    var base := BaseVector(v, n, m, step, row, col);
    var raw := RawScores(metric, sqrt, base, v, n, m, step);
    var index := col * n + row;
    assert 0 <= index < |raw| && raw[index] == Num(0.0) by {
      MulLeft(0, col, n);
      RawScoreAt(metric, sqrt, base, v, n, m, step, row, col);
      assert CellVector(v, n, m, step, row, col) == base;
      SelfDistanceZero(metric, sqrt, base);
    }
    RawDistancesFinite(metric, sqrt, base, v, n, m, step);
    RawDistancesNonnegative(metric, sqrt, base, v, n, m, step);
    NormalizedAtZero(raw, index);
  }

  /**
   * Comparing a cell with the same cell of the same vector and step under a
   * distance: the score at flat index col * n + row is exactly 1, unless every
   * distance of the grid is zero and the whole grid is non-finite.
   */
  lemma DistanceSelfComparison(reprs: map<string, seq<real>>, sqrt: real -> real, func: string,
                               url: string, step: nat, row: nat, col: nat, n: nat, m: nat)
    requires IsSqrt(sqrt) && IsDistanceName(func)
    requires WellFormedQuery(reprs, url, url, step, step, row, col, n, m)
    ensures Similarities(reprs, sqrt, func, url, url, step, step, row, col, n, m).Scores?
    ensures col * n + row < |Similarities(reprs, sqrt, func, url, url, step, step, row, col, n, m).scores|
    ensures var s := Similarities(reprs, sqrt, func, url, url, step, step, row, col, n, m).scores;
      s[col * n + row] == Num(1.0) || forall k :: 0 <= k < |s| ==> s[k] == NonFinite
    ensures ParseMetric(func).Some?
    ensures var s := Similarities(reprs, sqrt, func, url, url, step, step, row, col, n, m).scores;
      var raw := RawScores(ParseMetric(func).value, sqrt, BaseVector(reprs[url], n, m, step, row, col),
                           reprs[url], n, m, step);
      (forall k :: 0 <= k < |s| ==> s[k] == NonFinite) <==> (forall k :: 0 <= k < |raw| ==> raw[k] == Num(0.0))
  {
    DistanceNames(func);
    QueryScores(reprs, sqrt, func, url, url, step, step, row, col, n, m);
    NormalizedSelfCell(ParseMetric(func).value, sqrt, reprs[url], n, m, step, row, col);
    NormalizedDistanceGrid(ParseMetric(func).value, sqrt, BaseVector(reprs[url], n, m, step, row, col),
                           reprs[url], n, m, step);
  }
}
