/**
 * The state of the similarity worker (worker/src/lib.rs): the cache
 * `GLOBAL_MAP` from a URL to its decoded vector, `fetch_repr` that fills it
 * and `calc_similarities` that reads it.
 */
module SimilarityWorker {
  import opened Wrappers
  import opened Decoder
  import opened Metrics
  import opened Normalize
  import opened Kernel

  // ---------------------------------------------------------------------------
  // The effect of `fetch_repr` on the cache, as functions
  // ---------------------------------------------------------------------------

  /**
   * What the part of `fetch_repr` after the download does to the cache: a
   * buffer of whole 4-byte chunks is decoded and inserted under `url`, replacing
   * whatever is there; anything else leaves the cache as it is.
   */
  function Inserted(reprs: map<string, seq<real>>, url: string,
                    download: Result<seq<Byte>, string>, viaHalf: Word -> real): map<string, seq<real>>
  {
    if download.Success? && Decode(download.value, viaHalf).Success? then
      reprs[url := Decode(download.value, viaHalf).value]
    else reprs
  }

  /** The cache after a whole `fetch_repr`: an URL already cached is not fetched again. */
  function AfterFetch(reprs: map<string, seq<real>>, url: string,
                      download: Result<seq<Byte>, string>, viaHalf: Word -> real): map<string, seq<real>>
  {
    if url in reprs then reprs else Inserted(reprs, url, download, viaHalf)
  }

  /** What `fetch_repr` returns: `Ok(())`, the download's error, or the length error. */
  function FetchReply(reprs: map<string, seq<real>>, url: string,
                      download: Result<seq<Byte>, string>, viaHalf: Word -> real): Result<(), string>
  {
    if url in reprs then Success(())
    else if download.Failure? then Failure(download.error)
    else if Decode(download.value, viaHalf).Failure? then Failure(Decode(download.value, viaHalf).error)
    else Success(())
  }

  /**
   * A fetch with no other fetch of the same URL in flight never removes or
   * changes a cached entry, and adds at most the fetched URL.
   */
  lemma FetchKeepsEntries(reprs: map<string, seq<real>>, url: string,
                          download: Result<seq<Byte>, string>, viaHalf: Word -> real)
    ensures var after := AfterFetch(reprs, url, download, viaHalf);
      && (forall u :: u in reprs ==> u in after && after[u] == reprs[u])
      && after.Keys <= reprs.Keys + {url}
  {
  }

  /** Fetching a cached URL returns `Ok(())` and changes nothing, whatever the download would have given. */
  lemma FetchOfCachedUrl(reprs: map<string, seq<real>>, url: string,
                         download: Result<seq<Byte>, string>, viaHalf: Word -> real)
    requires url in reprs
    ensures AfterFetch(reprs, url, download, viaHalf) == reprs
    ensures FetchReply(reprs, url, download, viaHalf) == Success(())
  {
  }

  /**
   * Fetching an uncached URL: a download error or a buffer whose length is not
   * a multiple of 4 is returned as the error and leaves the cache unchanged;
   * otherwise `Ok(())`, and the URL now holds one decoded value per 4-byte
   * chunk, in order.
   */
  lemma FetchOfNewUrl(reprs: map<string, seq<real>>, url: string,
                      download: Result<seq<Byte>, string>, viaHalf: Word -> real)
    requires url !in reprs
    ensures var after := AfterFetch(reprs, url, download, viaHalf);
      var reply := FetchReply(reprs, url, download, viaHalf);
      && (download.Failure? ==> after == reprs && reply == Failure(download.error))
      && (download.Success? && |download.value| % 4 != 0 ==> after == reprs && reply == Failure(LengthError))
      && (download.Success? && |download.value| % 4 == 0 ==>
            var bytes := download.value;
            && reply == Success(())
            && url in after && |after[url]| == |bytes| / 4
            && (forall k :: 0 <= k < |bytes| / 4 ==>
                  after[url][k] == viaHalf(LittleEndian(bytes[4 * k], bytes[4 * k + 1], bytes[4 * k + 2], bytes[4 * k + 3]))))
  {
  }

  /** A URL is cached after a fetch exactly when it was before, or the fetch returned `Ok(())`. */
  lemma FetchCachesOnSuccess(reprs: map<string, seq<real>>, url: string,
                             download: Result<seq<Byte>, string>, viaHalf: Word -> real)
    ensures url in AfterFetch(reprs, url, download, viaHalf) <==>
            url in reprs || FetchReply(reprs, url, download, viaHalf).Success?
  {
  }

  /** Repeating a fetch with the same download changes nothing more. */
  lemma FetchIdempotent(reprs: map<string, seq<real>>, url: string,
                        download: Result<seq<Byte>, string>, viaHalf: Word -> real)
    ensures var once := AfterFetch(reprs, url, download, viaHalf);
      AfterFetch(once, url, download, viaHalf) == once
  {
  }

  /**
   * Two fetches of one URL that both found it absent and both complete: the
   * later insert wins, a later download that fails leaves the earlier insert,
   * and when both downloads gave the same buffer the cache holds one entry
   * for it, the same as after a single fetch.
   */
  lemma ConcurrentFetchesConverge(reprs: map<string, seq<real>>, url: string,
                                  first: Result<seq<Byte>, string>, second: Result<seq<Byte>, string>,
                                  viaHalf: Word -> real)
    requires url !in reprs
    ensures var both := Inserted(Inserted(reprs, url, first, viaHalf), url, second, viaHalf);
      && (Inserted(reprs, url, second, viaHalf) != reprs ==> both == Inserted(reprs, url, second, viaHalf))
      && (Inserted(reprs, url, second, viaHalf) == reprs ==> both == Inserted(reprs, url, first, viaHalf))
      && (first == second ==> both == AfterFetch(reprs, url, first, viaHalf))
  {
  }

  /** A column whose position i holds the score of cell (i, j) is column j of the raw grid. */
  lemma ColumnOfRawScores(metric: Metric, sqrt: real -> real, base: seq<real>, v: seq<real>,
                          n: nat, m: nat, step2: nat, j: nat, start: nat, similarities: array<Float>)
    requires |base| == m && Steps * n * n * m <= |v| && step2 < Steps && j < n
    requires start == j * n && start + n <= n * n && similarities.Length == n * n
    requires forall i :: 0 <= i < n ==>
               similarities[start + i] == Score(metric, sqrt, base, CellVector(v, n, m, step2, i, j))
    ensures forall k :: start <= k < start + n ==>
              similarities[k] == RawScores(metric, sqrt, base, v, n, m, step2)[k]
  {
    forall k | start <= k < start + n
      ensures similarities[k] == RawScores(metric, sqrt, base, v, n, m, step2)[k]
    {
      RawScoreAt(metric, sqrt, base, v, n, m, step2, k - start, j);
    }
  }

  /** The worker: its cache, and the platform's f32 square root and binary16 rounding. */
  class Worker {
    /** The platform's `f32::sqrt`. */
    const sqrt: real -> real
    /** The value of a binary32 pattern after `f16::from_f32` and `f32::from`. */
    const viaHalf: Word -> real
    /** `GLOBAL_MAP`. */
    var reprs: map<string, seq<real>>

    /** The thread-local cache starts empty. */
    constructor (sqrt: real -> real, viaHalf: Word -> real)
      ensures this.sqrt == sqrt && this.viaHalf == viaHalf
      ensures reprs == map[]
    {
      this.sqrt := sqrt;
      this.viaHalf := viaHalf;
      reprs := map[];
    }

    /** `get_repr`: the cached vector of `url`, absent exactly when `url` was never stored. */
    function GetRepr(url: string): (r: Option<seq<real>>)
      reads this
      ensures r.Some? <==> url in reprs
      ensures r.Some? ==> r.value == reprs[url]
    {
      if url in reprs then Some(reprs[url]) else None
    }

    /**
     * The tail of `fetch_repr` once the buffer has arrived: check the length,
     * decode, insert. The insert overwrites, so of two fetches of one URL
     * that both found it absent, the later insert wins.
     */
    method CompleteFetch(url: string, bytes: seq<Byte>) returns (r: Result<(), string>)
      modifies this
      ensures reprs == Inserted(old(reprs), url, Success(bytes), viaHalf)
      ensures r == if |bytes| % 4 != 0 then Failure(LengthError) else Success(())
    {
      if |bytes| % 4 != 0 {
        return Failure(LengthError);
      }
      var ws := Words(bytes);
      var values := seq(|ws|, k requires 0 <= k < |ws| => viaHalf(ws[k]));
      reprs := reprs[url := values];
      return Success(());
    }

    /**
     * `fetch_repr`: a cached URL returns at once; otherwise `download` is what
     * the network half gives (the buffer or its error), and a buffer is
     * completed as above.
     */
    method FetchRepr(url: string, download: Result<seq<Byte>, string>) returns (r: Result<(), string>)
      modifies this
      ensures reprs == AfterFetch(old(reprs), url, download, viaHalf)
      ensures r == FetchReply(old(reprs), url, download, viaHalf)
      ensures forall u :: u in old(reprs) ==> u in reprs && reprs[u] == old(reprs)[u]
      ensures reprs.Keys <= old(reprs).Keys + {url}
    {
      if url in reprs {
        return Success(());
      }
      if download.Failure? {
        return Failure(download.error);
      }
      r := CompleteFetch(url, download.value);
    }

    /**
     * Once a fetch from the cache `before` has returned `Ok(())`, `get_repr`
     * finds the URL: its earlier entry if it was cached, else the decoded
     * buffer. Every other URL is found exactly as before the fetch.
     */
    lemma FetchedIsQueryable(before: map<string, seq<real>>, url: string, download: Result<seq<Byte>, string>)
      requires reprs == AfterFetch(before, url, download, viaHalf)
      requires FetchReply(before, url, download, viaHalf).Success?
      ensures GetRepr(url).Some?
      ensures url in before ==> GetRepr(url).value == before[url]
      ensures url !in before ==>
                download.Success? && Decode(download.value, viaHalf) == Success(GetRepr(url).value)
      ensures forall u :: u != url ==> GetRepr(u) == if u in before then Some(before[u]) else None
    {
    }

    /**
     * `calc_similarities`: compares the cell (row, col) of `step1` of the
     * first vector with every cell of `step2` of the second, filling the
     * scores column by column, and normalises distances. The cache is only read.
     */
    method CalcSimilarities(func: string, url1: string, url2: string, step1: nat, step2: nat,
                            row: nat, col: nat, n: nat, m: nat) returns (reply: Reply)
      ensures reply == Similarities(reprs, sqrt, func, url1, url2, step1, step2, row, col, n, m)
    {
      var repr1 := GetRepr(url1);
      if repr1.None? {
        return Error("Failed to get representation 1, url: " + url1);
      }
      var repr2 := GetRepr(url2);
      if repr2.None? {
        return Error("Failed to get representation 2, url: " + url2);
      }
      var v1, v2 := repr1.value, repr2.value;
      if |v1| < Steps * n * n * m || |v2| < Steps * n * n * m {
        return Panicked(ShapeMismatch);
      }
      if !(step1 < Steps && row < n && col < n) {
        return Panicked(IndexOutOfBounds);
      }
      ghost var expected := Similarities(reprs, sqrt, func, url1, url2, step1, step2, row, col, n, m);
      assert !(step2 < Steps) ==> expected == Panicked(IndexOutOfBounds);
      assert step2 < Steps && ParseMetric(func).None? ==> expected == Panicked(UnknownFunction);
      var base := BaseVector(v1, n, m, step1, row, col);
      var similarities, panic := ScoreGrid(func, base, v2, n, m, step2);
      if panic.Some? {
        return Panicked(panic.value);
      }
      QueryScores(reprs, sqrt, func, url1, url2, step1, step2, row, col, n, m);
      if IsDistanceName(func) {
        var _ := NormalizeDistances(similarities);
      }
      return Scores(similarities[..]);
    }

    /**
     * The two loops of `calc_similarities`: a buffer of capacity n * n filled
     * column by column, cell (i, j) of `step2` at index j * n + i. It stops at
     * its first cell when `step2` is out of range or the name is unknown, and
     * otherwise holds the raw grid of scores.
     */
    method ScoreGrid(func: string, base: seq<real>, v: seq<real>, n: nat, m: nat, step2: nat)
      returns (similarities: array<Float>, panic: Option<Panic>)
      requires |base| == m && Steps * n * n * m <= |v|
      ensures fresh(similarities) && similarities.Length == n * n
      ensures panic == if n == 0 then None
                       else if !(step2 < Steps) then Some(IndexOutOfBounds)
                       else if ParseMetric(func).None? then Some(UnknownFunction)
                       else None
      ensures panic.None? && 0 < n ==> similarities[..] == RawScores(ParseMetric(func).value, sqrt, base, v, n, m, step2)
    {
      similarities := new Float[n * n];
      panic := None;
      // Known once a column has been scored: the target step is in range and the name is recognised.
      ghost var known := step2 < Steps && ParseMetric(func).Some?;
      ghost var raw: seq<Float> :=
        if known then RawScores(ParseMetric(func).value, sqrt, base, v, n, m, step2) else [];
      for j := 0 to n
        invariant panic.None?
        invariant j > 0 ==> known
        invariant j * n <= n * n
        invariant forall k :: 0 <= k < j * n ==> similarities[k] == raw[k]
      {
        MulLeft(0, j, n);
        MulLeft(j + 1, n, n);
        assert (j + 1) * n == j * n + n;
        var start := j * n;
        panic := ScoreColumn(func, base, v, n, m, step2, j, start, similarities);
        if panic.Some? {
          return;
        }
        assert known;
        ColumnOfRawScores(ParseMetric(func).value, sqrt, base, v, n, m, step2, j, start, similarities);
      }
      assert similarities[..] == raw;
    }

    /**
     * The inner loop of `calc_similarities` for column j: the cells (i, j)
     * of `step2` for i in 0..n, pushed at indices j * n .. (j + 1) * n. It
     * stops at its first cell when `step2` is out of range or the name is
     * unknown.
     */
    method ScoreColumn(func: string, base: seq<real>, v: seq<real>, n: nat, m: nat, step2: nat, j: nat,
                       start: nat, similarities: array<Float>) returns (panic: Option<Panic>)
      requires |base| == m && Steps * n * n * m <= |v| && j < n && similarities.Length == n * n
      requires start == j * n && start + n <= n * n
      modifies similarities
      ensures panic == if !(step2 < Steps) then Some(IndexOutOfBounds)
                       else if ParseMetric(func).None? then Some(UnknownFunction)
                       else None
      ensures panic.None? ==> forall i :: 0 <= i < n ==>
                similarities[start + i] == Score(ParseMetric(func).value, sqrt, base, CellVector(v, n, m, step2, i, j))
      ensures forall k :: 0 <= k < start ==> similarities[k] == old(similarities[k])
      ensures forall k :: start + n <= k < similarities.Length ==> similarities[k] == old(similarities[k])
      ensures panic.Some? ==> forall k :: 0 <= k < similarities.Length ==> similarities[k] == old(similarities[k])
    {
      var len := start;
      for i := 0 to n
        invariant len == start + i
        invariant i > 0 ==> step2 < Steps && ParseMetric(func).Some?
        invariant forall i' :: 0 <= i' < i ==>
                    similarities[start + i'] == Score(ParseMetric(func).value, sqrt, base, CellVector(v, n, m, step2, i', j))
        invariant forall k :: 0 <= k < similarities.Length && !(start <= k < start + i) ==>
                    similarities[k] == old(similarities[k])
      {
        var cell := ScoreCell(func, base, v, n, m, step2, i, j);
        if cell.Failure? {
          return Some(cell.error);
        }
        similarities[len] := cell.value;
        len := len + 1;
      }
      return None;
    }

    /**
     * One iteration of the inner loop: slice the cell (i, j) of `step2` and
     * score it with the named metric, giving the raw score pushed at
     * j * n + i, or the panic of an out-of-range step or an unknown name.
     */
    method ScoreCell(func: string, base: seq<real>, v: seq<real>, n: nat, m: nat, step2: nat, i: nat, j: nat)
      returns (cell: Result<Float, Panic>)
      requires |base| == m && Steps * n * n * m <= |v| && i < n && j < n
      ensures cell.Failure? <==> !(step2 < Steps) || ParseMetric(func).None?
      ensures cell.Failure? ==> cell.error == if !(step2 < Steps) then IndexOutOfBounds else UnknownFunction
      ensures cell.Success? ==> cell.value == Score(ParseMetric(func).value, sqrt, base, CellVector(v, n, m, step2, i, j))
    {
      if !(step2 < Steps) {
        return Failure(IndexOutOfBounds);
      }
      var concept := CellVector(v, n, m, step2, i, j);
      var similarity := Dispatch(func, base, concept);
      if similarity.None? {
        return Failure(UnknownFunction);
      }
      return Success(similarity.value);
    }

    /** The `match func.as_str()` of the inner loop: the named metric's score, or none for another name. */
    method Dispatch(func: string, base: seq<real>, concept: seq<real>) returns (similarity: Option<Float>)
      requires |base| == |concept|
      ensures similarity.None? <==> ParseMetric(func).None?
      ensures similarity.Some? ==> similarity.value == Score(ParseMetric(func).value, sqrt, base, concept)
    {
      if func == "cosine" {
        similarity := Some(Cosine(sqrt, base, concept));
      } else if func == "euclidean" {
        similarity := Some(Num(Euclidean(sqrt, base, concept)));
      } else if func == "manhattan" {
        similarity := Some(Num(Manhattan(base, concept)));
      } else if func == "chebyshev" {
        similarity := Some(Num(Chebyshev(base, concept)));
      } else {
        similarity := None;
      }
    }
  }
}
