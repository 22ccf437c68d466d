# Similarity worker model

A Dafny model of the similarity worker of h-space-similarity-explorer
(`worker/src/lib.rs`), the WebAssembly module that answers interactive
queries of the form "how similar is cell (row, col) at step S1 of
representation A to every cell at step S2 of representation B?".

The worker keeps a thread-local cache `GLOBAL_MAP` from a URL to a flat vector
of values. `fetch_repr` fetches a URL that is not cached yet, decodes the
buffer (4-byte little-endian binary32 words, each rounded through binary16)
and inserts it; a URL already cached is not fetched again, unless two fetches
of it are in flight at once, when the later insert wins;
`calc_similarities` views two cached vectors as shape (4, n, n, m), takes the
channel vector of (step1, row, col) of the first, scores it against every cell
of step2 of the second with one of four metrics, and rescales distances by the
largest one.

Modules (one per component):

- `Wrappers` (`wrappers.dfy`): `Option` and `Result`.
- `Decoder` (`decode.dfy`): byte chunks to 32-bit patterns and back, and the
  decode of a downloaded buffer.
- `Metrics` (`metrics.dfy`): `cosine_similarity`, `euclidean_distance`,
  `manhattan_distance`, `chebyshev_distance` over `real`, and their properties.
- `Normalize` (`normalize.dfy`): `normalize_distances` as an in-place pass over
  an array, proved against the function `Normalized`.
- `Kernel` (`kernel.dfy`): the (4, n, n, m) layout, metric names, the grid of
  scores and `Similarities`, the reply of a whole query, with its properties.
- `SimilarityWorker` (`worker.dfy`): the class `Worker` holding the cache, with
  `FetchRepr` and the imperative `CalcSimilarities` (nested loops pushing into a
  buffer of capacity n * n, then the in-place normalisation), proved equal to
  `Similarities`.

Modelling decisions:

- Values are `real`. A score is `Float = Num(real) | NonFinite`, so that the two
  divisions by zero of the source are visible: cosine with a zero-norm vector
  and normalisation of a batch whose largest distance is 0 give `NonFinite`
  (NaN or an infinity in f32).
- The platform's square root and the binary32 -> binary16 -> binary32 rounding
  are parameters (`sqrt`, `viaHalf`) held by the `Worker`; lemmas that need
  `sqrt` to be a square root require `IsSqrt(sqrt)`.
- A panic is a reply of its own (`Panicked`), distinct from the `Err` of a
  missing URL: a too-short vector (`from_shape(..).unwrap()`), an index outside
  the view (`slice`), an unknown metric name (`panic!`).
- The reshape `ArrayView4::from_shape((4, n, n, m), ..)` is modelled as failing
  only when the vector is shorter than 4·n·n·m; a longer one is viewed through
  its prefix. This is ndarray's own behaviour for slice views, which this model
  takes as given.
- The cached vector holds one value per 4-byte word of the downloaded buffer,
  not one per 2-byte half-precision value.
- Scores are laid out column by column: the loop is `for j { for i { .. } }`
  over cell (row i, column j), so flat index `j * n + i` (column-major) holds
  row i, column j.
- With n = 0 the base slice `s![step1, row, col, ..]` is out of bounds, so a
  query on cached vectors panics there; in particular the empty-batch panic of
  `normalize_distances` cannot be reached from `calc_similarities`.
- There are no precomputed per-cell norms or per-channel means, and no centred
  cosine: the code computes every norm per call and knows four metric names.

## Model

| member | source | states |
|---|---|---|
| `Decoder.Words` | worker/src/lib.rs:131-132 | chunking a buffer of whole 4-byte chunks gives one pattern per chunk, and pattern k is the little-endian value of bytes 4k..4k+3 |
| `Decoder.Decode` | worker/src/lib.rs:128-135 | a buffer is refused with "Buffer length is not a multiple of 4" exactly when its length is not a multiple of 4; otherwise it decodes to length/4 values, value k being the rounded value of the k-th little-endian word |
| `Decoder.LittleEndianOfWordBytes` | worker/src/lib.rs:132 | splitting a 32-bit pattern into four bytes and reading them little-endian gives the pattern back |
| `Decoder.WordBytesOfLittleEndian` | worker/src/lib.rs:132 | reading four bytes little-endian and splitting the pattern gives the same four bytes |
| `Decoder.WordsOfBytes` | worker/src/lib.rs:131-132 | chunking the buffer that carries a sequence of patterns gives those patterns |
| `Decoder.BytesOfWords` | worker/src/lib.rs:131-132 | every buffer of whole chunks is the carrier of its own patterns: chunking loses no byte |
| `Decoder.DecodeOfBytes` | worker/src/lib.rs:131-135 | decoding a buffer that carries patterns succeeds and gives, for each pattern, the value the platform assigns to it, so the same bit pattern always decodes to the same value |
| `Metrics.Abs` | worker/src/lib.rs:94 | the absolute value is nonnegative and is x or -x |
| `Metrics.DiffZero` | worker/src/lib.rs:90 | the difference `a - b` of two vectors of equal length is all zeros exactly when a = b |
| `Metrics.SumSquares` | worker/src/lib.rs:77-78 | a sum of squares is never negative |
| `Metrics.SumAbs` | worker/src/lib.rs:94 | a sum of absolute values is never negative |
| `Metrics.FoldMaxAbs` | worker/src/lib.rs:98 | the Chebyshev fold is at least its start value, at least every absolute entry, and equal to the start value or to one of them |
| `Metrics.DistancesNonnegative` | worker/src/lib.rs:89-99 | Euclidean, Manhattan and Chebyshev distances are never negative |
| `Metrics.DistanceZeroIffEqual` | worker/src/lib.rs:89-99 | each of the three distances is zero exactly when the vectors are equal, so a vector is at distance 0 from itself |
| `Metrics.DistancesSymmetric` | worker/src/lib.rs:89-99 | the three distances do not depend on the order of their arguments |
| `Metrics.ChebyshevIsLargestDifference` | worker/src/lib.rs:97-99 | the Chebyshev distance bounds every coordinate difference and is 0 or one of them |
| `Metrics.ChebyshevAtMostManhattan` | worker/src/lib.rs:93-99 | the Chebyshev distance never exceeds the Manhattan distance |
| `Metrics.CosineOfSelf` | worker/src/lib.rs:75-80 | a nonzero vector has cosine exactly 1 with itself; the zero vector gives a non-finite cosine |
| `Metrics.CosineSymmetric` | worker/src/lib.rs:75-80 | the cosine score does not depend on the order of its arguments |
| `Metrics.CosineExamples` | worker/src/lib.rs:75-80 | cos([1,0],[0,1]) = 0 and cos([1,1],[1,1]) = 1 |
| `Metrics.DistanceExamples` | worker/src/lib.rs:89-99 | euclidean([0,0,0],[3,4,0]) = 5, manhattan([0,0],[1,1]) = 2, chebyshev([0,0],[1,1]) = 1 |
| `Normalize.MaxNum` | worker/src/lib.rs:83 | the maximum picked by `max_by` is one of the entries and no entry exceeds it |
| `Normalize.NormalizeDistances` | worker/src/lib.rs:82-87 | an empty batch panics and is untouched; otherwise the array becomes `Normalized` of its old contents, every entry d replaced by 1 - d/max |
| `Normalize.NormalizedShape` | worker/src/lib.rs:82-87 | normalisation keeps the length, and every result is finite exactly when the maximum is nonzero |
| `Normalize.NormalizedEnds` | worker/src/lib.rs:84-86 | with a nonzero maximum, the largest distance becomes 0 and a zero distance becomes 1 |
| `Normalize.NormalizedInUnitInterval` | worker/src/lib.rs:84-86 | nonnegative distances with a positive maximum are mapped into [0, 1] |
| `Normalize.NormalizedZeroMax` | worker/src/lib.rs:83-86 | for nonnegative distances the maximum is 0 exactly when all are 0, and then every result is non-finite |
| `Normalize.NormalizedNonFiniteIffAllZero` | worker/src/lib.rs:83-86 | nonnegative distances normalise to an entirely non-finite batch exactly when every distance is zero |
| `Normalize.NormalizedAtZero` | worker/src/lib.rs:83-86 | a zero distance among nonnegative ones becomes exactly 1, unless the whole batch turns non-finite |
| `Normalize.NormalizedReversesOrder` | worker/src/lib.rs:84-86 | with a positive maximum, a smaller distance never gets a smaller normalised score |
| `Normalize.NormalizedExample` | worker/src/lib.rs:82-87 | the distances [0, 2, 4] normalise to [1, 0.5, 0] |
| `Kernel.ParseMetricName` | worker/src/lib.rs:53-58 | a metric is recognised exactly under its own name |
| `Kernel.DistanceNames` | worker/src/lib.rs:65 | the names normalised afterwards are exactly the recognised names other than "cosine" |
| `Kernel.Score` | worker/src/lib.rs:53-58 | the three distance metrics always give a finite score |
| `Kernel.SelfDistanceZero` | worker/src/lib.rs:89-99 | a vector scored against itself with a distance metric scores exactly 0 |
| `Kernel.ScoreNonnegative` | worker/src/lib.rs:55-57 | a distance score of two vectors of equal length is never negative |
| `Kernel.CellInBounds` | worker/src/lib.rs:42-43 | the channel vector at offset ((s·n+r)·n+c)·m of an in-range (s, r, c) ends inside the 4·n·n·m view |
| `Kernel.CellVector` | worker/src/lib.rs:46-52 | a slice `s![step, row, col, ..]` of an in-range cell has m channels |
| `Kernel.BaseVector` | worker/src/lib.rs:46 | the base slice has m channels |
| `Kernel.GridIndex` | worker/src/lib.rs:50-61 | the cell (row i, column j) is pushed at index j·n+i < n·n, and that index gives back i and j |
| `Kernel.GridPosition` | worker/src/lib.rs:50-61 | every index k < n·n is j·n+i for an in-range row i = k mod n and column j = k div n |
| `Kernel.RawScores` | worker/src/lib.rs:47-62 | one raw score per loop iteration: exactly n·n of them |
| `Kernel.RawScoreAt` | worker/src/lib.rs:50-60 | raw score j·n+i compares the base vector with cell (row i, column j) of step2 |
| `Kernel.RawDistancesFinite` | worker/src/lib.rs:55-57 | the raw scores of a distance metric are all finite, so the batch can be normalised |
| `Kernel.RawDistancesNonnegative` | worker/src/lib.rs:55-57 | the raw scores of a distance metric are all nonnegative |
| `Kernel.RawScoreNonnegative` | worker/src/lib.rs:55-57 | each single raw distance score of the grid is nonnegative |
| `Kernel.MissingRepresentation` | worker/src/lib.rs:38-39 | a query returns `Err` exactly when one of its URLs is not cached, with the message naming the first missing one |
| `Kernel.QueryOutcome` | worker/src/lib.rs:38-62 | a query returns scores exactly when it is well formed and the name is known, and then n > 0 and there are n·n scores; a well-formed query with an unknown name panics instead of returning `Err`; with n = 0 the query panics once both URLs are cached |
| `Kernel.QueryScores` | worker/src/lib.rs:46-67 | a well-formed query with a known name returns the raw grid of scores for "cosine" and its normalisation for a distance name, whose raw scores are all finite |
| `Kernel.CosineScoreLayout` | worker/src/lib.rs:46-62 | for "cosine", score j·n+i is the cosine of the base vector and cell (row i, column j) of step2 |
| `Kernel.DistanceScoreLayout` | worker/src/lib.rs:46-67 | for a distance name, score j·n+i is the distance between the base vector and cell (row i, column j) of step2, rescaled by the largest distance of the grid |
| `Kernel.NormalizedDistanceGrid` | worker/src/lib.rs:50-67 | the normalised grid of a distance metric lies entirely in [0, 1] or is entirely non-finite, and it is entirely non-finite exactly when every raw distance is zero |
| `Kernel.DistanceScoresBounded` | worker/src/lib.rs:46-87 | a well-formed distance query returns scores that all lie in [0, 1] or are all non-finite, and they are all non-finite exactly when every distance of the grid is zero |
| `Kernel.CosineSelfComparison` | worker/src/lib.rs:46-62 | comparing a cell with itself under "cosine" puts exactly 1 at index col·n+row, non-finite when the cell is the zero vector |
| `Kernel.NormalizedSelfCell` | worker/src/lib.rs:50-67 | in the grid of distances from a cell to its own step, the cell's own index col·n+row normalises to exactly 1 unless the whole grid turns non-finite |
| `Kernel.DistanceSelfComparison` | worker/src/lib.rs:46-67 | comparing a cell with itself under a distance puts exactly 1 at index col·n+row, or makes every score non-finite, which happens exactly when every distance of the grid is zero |
| `SimilarityWorker.FetchKeepsEntries` | worker/src/lib.rs:107-136 | a fetch with no other fetch of the same URL in flight never removes or changes a cached entry and adds at most its own URL |
| `SimilarityWorker.FetchOfCachedUrl` | worker/src/lib.rs:107-109 | fetching a cached URL returns `Ok(())` and leaves the cache unchanged whatever the download |
| `SimilarityWorker.FetchOfNewUrl` | worker/src/lib.rs:117-136 | for an uncached URL a download error or a length not a multiple of 4 is returned and changes nothing; otherwise the URL holds length/4 decoded values in order |
| `SimilarityWorker.FetchCachesOnSuccess` | worker/src/lib.rs:103-143 | a URL is cached after a fetch exactly when it was before or the fetch returned `Ok(())` |
| `SimilarityWorker.FetchIdempotent` | worker/src/lib.rs:107-109 | repeating a fetch with the same download changes nothing more |
| `SimilarityWorker.ConcurrentFetchesConverge` | worker/src/lib.rs:117-136 | of two fetches that both found a URL absent, a later download that succeeds overwrites the earlier insert and a later one that fails leaves it; with the same buffer the result equals one fetch |
| `SimilarityWorker.ColumnOfRawScores` | worker/src/lib.rs:50-61 | the n scores one column pass writes at j·n .. j·n+n-1 are the raw scores at those indices |
| `SimilarityWorker.Worker.constructor` | worker/src/lib.rs:13-15 | the cache starts empty |
| `SimilarityWorker.Worker.FetchedIsQueryable` | worker/src/lib.rs:17-21 | after a fetch that returned `Ok(())`, `get_repr` finds the URL, with its earlier entry or else the decoded buffer, and finds every other URL exactly as before |
| `SimilarityWorker.Worker.CompleteFetch` | worker/src/lib.rs:128-136 | after the download: refuses a length not a multiple of 4, otherwise inserts the decoded buffer, overwriting |
| `SimilarityWorker.Worker.FetchRepr` | worker/src/lib.rs:103-143 | the new cache and reply are `AfterFetch` and `FetchReply` of the old cache; old entries are kept and only the URL may be added |
| `SimilarityWorker.Worker.CalcSimilarities` | worker/src/lib.rs:24-73 | the lookups, the shape and index checks, the two loops (`ScoreGrid`) and the in-place normalisation return exactly `Similarities` of the cache, whose properties are the `Kernel` lemmas above |
| `SimilarityWorker.Worker.ScoreGrid` | worker/src/lib.rs:47-62 | a fresh buffer of n·n entries filled column by column: with n > 0 it panics at its first cell for a step outside the view or an unknown name, and otherwise holds exactly the raw grid of scores; with n = 0 nothing runs and nothing panics |
| `SimilarityWorker.Worker.ScoreColumn` | worker/src/lib.rs:51-61 | the inner loop over the rows of column j either panics at its first cell and leaves the buffer untouched, or writes the score of cell (row i, column j) at j·n+i for every row; entries outside j·n .. j·n+n-1 never change |
| `SimilarityWorker.Worker.ScoreCell` | worker/src/lib.rs:52-60 | one cell panics with an index error for a step outside the view, else with an unknown-function error for an unrecognised name, else gives the metric's score of the base vector and that cell |
| `SimilarityWorker.Worker.Dispatch` | worker/src/lib.rs:53-58 | the `match` on the name yields nothing exactly for an unrecognised name, and otherwise that metric's score |

## Left out

- The network half of `fetch_repr` (worker/src/lib.rs:111-127: the request, the
  `fetch` and `array_buffer` awaits, the `dyn_into` casts) is I/O: its outcome
  is the parameter `download`, either the buffer or the error it propagates.
- Timing and logging (`js_sys::Date::now`, `console::log_1`) and the panic hook
  have no effect on the results.
- IEEE 754 arithmetic: f32 rounding of sums, products and quotients, the
  bit-level binary32 -> binary16 -> binary32 conversion (the parameter
  `viaHalf`), the square root (the parameter `sqrt`), signed zeros. NaN and
  infinite values cannot be stored in the cache, which holds reals.
- `Normalize.NormalizeDistances`: requires every entry to be finite; the panic
  of `partial_cmp(..).unwrap()` on a NaN in a batch of two or more entries is
  not modelled. In this model the cache holds reals (see above), so the call
  site only normalises finite distances; in the program a non-finite cached
  value (a NaN word, or a word beyond the binary16 range that `f16::from_f32`
  turns into an infinity) can give a NaN distance and make this unwrap panic.
- `Metrics.Cosine`, `Metrics.Euclidean`, `Metrics.Manhattan`, `Metrics.Chebyshev`:
  require vectors of equal length; ndarray broadcasts a one-element operand
  and panics on other mismatched lengths, and `calc_similarities` never
  produces either (both slices have m channels).
- `usize` overflow of 4·n·n·m and n·n (ndarray's checked shape size, the
  capacity of the buffer) is not modelled: sizes are unbounded naturals.
- `Metrics.Cosine`: that the cosine score lies in [-1, 1] (Cauchy-Schwarz) is not proved.
- `thread_local!` and `RefCell` borrow checks: the cache is a field of one
  `Worker` object.
- `SimilarityWorker.Worker.FetchRepr`: a fetch is modelled as uninterrupted, from
  the presence check to the insert. The source awaits the network between the
  two, so two fetches of one URL can both find it absent and both insert, the
  later one overwriting. The model covers that interleaving only through
  `Worker.CompleteFetch` (which overwrites) and `ConcurrentFetchesConverge`.
- worker/webworker.js (message dispatch of the web worker) and sdwrapper.py
  (the Stable Diffusion wrapper that produces the representations) are not part
  of this model.
