/**
 K-nearest-neighbours recall, over exact reals: the hits are grouped by denominator and divided
 once per group, and the result is proved to be the mean of the per-query recalls.
 */
module Recall {
  import opened Collections

  datatype Mode = Fixed | Flexible

  datatype Error =
    | RecallKAndN
    | RowsMismatch
    | NotEnoughGroundTruth
    | DistanceRowsMismatch
    | GroundTruthDistanceMismatch

  datatype Result = Ok(average: real) | Err(error: Error)

  // ---- One query ----

  /** How many of a query's true neighbours count: the first `k`, or all if there are fewer. */
  ghost function RowK<T>(truth: seq<T>, k: nat): nat {
    Min(|truth|, k)
  }

  /** The first index from `from` on whose distance differs from `last`. */
  ghost function TieEnd(dists: seq<real>, from: nat, last: real): (end: nat)
    requires from <= |dists|
    ensures from <= end <= |dists|
    ensures forall j :: from <= j < end ==> dists[j] == last
    ensures end < |dists| ==> dists[end] != last
    decreases |dists| - from
  {
    if from == |dists| || dists[from] != last then from else TieEnd(dists, from + 1, last)
  }

  /** The neighbours that may be matched: the first ones, and with distances those tied with the
      last of them. */
  ghost function Truth<T>(truth: seq<T>, dists: Option<seq<real>>, k: nat): set<T>
    requires RowK(truth, k) > 0 && (dists.Some? ==> |dists.value| == |truth|)
  {
    var rowK := RowK(truth, k);
    Elements(truth[..if dists.None? then rowK else TieEnd(dists.value, rowK, dists.value[rowK - 1])])
  }

  /** How many of them are among the first `n` results, but no more than count. */
  ghost function RowHits<T>(truth: seq<T>, dists: Option<seq<real>>, results: seq<T>, k: nat, n: nat): nat
    requires RowK(truth, k) > 0 && (dists.Some? ==> |dists.value| == |truth|)
  {
    Min(|Truth(truth, dists, k) * Elements(results[..Min(n, |results|)])|, RowK(truth, k))
  }

  // ---- All queries ----

  datatype Queries<T> = Queries(truth: seq<seq<T>>, dists: Option<seq<seq<real>>>, results: seq<seq<T>>)

  ghost predicate Matching<T>(q: Queries<T>) {
    && |q.results| == |q.truth|
    && (q.dists.Some? ==> |q.dists.value| == |q.truth|
                          && forall i :: 0 <= i < |q.truth| ==> |q.dists.value[i]| == |q.truth[i]|)
  }

  ghost function RowDists<T>(q: Queries<T>, i: nat): Option<seq<real>>
    requires q.dists.Some? ==> i < |q.dists.value|
  {
    if q.dists.None? then None else Some(q.dists.value[i])
  }

  ghost function Hits<T>(q: Queries<T>, i: nat, k: nat, n: nat): nat
    requires Matching(q) && i < |q.truth| && RowK(q.truth[i], k) > 0
  {
    RowHits(q.truth[i], RowDists(q, i), q.results[i], k, n)
  }

  ghost function Share(hits: nat, k: nat): real
    requires k > 0
  {
    hits as real / k as real
  }

  /** The recall of one query; a query without true neighbours adds nothing. */
  ghost function RowRecall<T>(q: Queries<T>, i: nat, k: nat, n: nat): real
    requires Matching(q) && i < |q.truth|
  {
    if RowK(q.truth[i], k) == 0 then 0.0
    else Share(Hits(q, i, k, n), RowK(q.truth[i], k))
  }

  ghost function SumRecall<T>(q: Queries<T>, rows: nat, k: nat, n: nat): real
    requires Matching(q) && rows <= |q.truth|
  {
    if rows == 0 then 0.0 else SumRecall(q, rows - 1, k, n) + RowRecall(q, rows - 1, k, n)
  }

  /** The queries that count: those with at least one true neighbour. */
  ghost function Scored<T>(q: Queries<T>, rows: nat, k: nat): nat
    requires rows <= |q.truth|
  {
    if rows == 0 then 0 else Scored(q, rows - 1, k) + if RowK(q.truth[rows - 1], k) > 0 then 1 else 0
  }

  /** The mean of `count` numbers that add up to `sum`. */
  ghost function Mean(sum: real, count: nat): real {
    if count == 0 then 0.0 else sum / count as real
  }

  /** The mean of the per-query recalls. */
  ghost function MeanRecall<T>(q: Queries<T>, k: nat, n: nat): real
    requires Matching(q)
  {
    Mean(SumRecall(q, |q.truth|, k, n), Scored(q, |q.truth|, k))
  }

  /** The first condition on the input that fails, if any. */
  ghost function Check<T>(q: Queries<T>, k: nat, n: nat, mode: Mode): Option<Error> {
    if k > n then Some(RecallKAndN)
    else if |q.results| != |q.truth| then Some(RowsMismatch)
    else if mode.Fixed? && exists i :: 0 <= i < |q.truth| && |q.truth[i]| < k then Some(NotEnoughGroundTruth)
    else if q.dists.None? then None
    else if |q.dists.value| != |q.truth| then Some(DistanceRowsMismatch)
    else if exists i :: 0 <= i < |q.truth| && |q.dists.value[i]| != |q.truth[i]| then Some(GroundTruthDistanceMismatch)
    else None
  }

  // ---- Grouping by denominator ----

  /** The groups up to denominator `top`, in increasing order, each divided once. */
  ghost function GroupSum(hits: map<nat, nat>, top: nat): real {
    if top == 0 then 0.0
    else GroupSum(hits, top - 1) + if top in hits then hits[top] as real / top as real else 0.0
  }

  function AddHits(hits: map<nat, nat>, k: nat, r: nat): map<nat, nat> {
    hits[k := (if k in hits then hits[k] else 0) + r]
  }

  lemma DivAdd(a: real, b: real, c: real)
    requires c > 0.0
    ensures (a + b) / c == a / c + b / c
  {
  }

  lemma {:induction false} GroupSumAdd(hits: map<nat, nat>, k: nat, r: nat, top: nat)
    requires 0 < k
    ensures GroupSum(AddHits(hits, k, r), top) == GroupSum(hits, top) + if k <= top then r as real / k as real else 0.0
  {
    if top > 0 {
      GroupSumAdd(hits, k, r, top - 1);
      if k == top && k in hits {
        DivAdd(hits[k] as real, r as real, k as real);
      }
    }
  }

  lemma {:induction false} GroupSumEmpty(top: nat)
    ensures GroupSum(map[], top) == 0.0
  {
    if top > 0 {
      GroupSumEmpty(top - 1);
    }
  }

  /** Dividing by `k * queries` at once, as the result is computed. */
  lemma OneDivision(hits: real, k: real, queries: real)
    requires k > 0.0 && queries > 0.0
    ensures k * queries > 0.0 && hits / (k * queries) == hits / k / queries
  {
    assert hits == hits / k * k;
    assert hits / k == hits / k / queries * queries;
    assert hits == hits / k / queries * (k * queries);
  }

  // ---- What a hit is ----

  /** ID `x` is one of the first `k` true neighbours, or comes right after them at the distance of
      the last of them. */
  ghost predicate Wanted<T>(truth: seq<T>, dists: Option<seq<real>>, k: nat, x: T)
    requires 0 < k && (dists.Some? ==> |dists.value| == |truth|)
  {
    exists j :: && 0 <= j < |truth| && truth[j] == x
                && (j < k || (dists.Some? && forall i :: k <= i <= j ==> dists.value[i] == dists.value[k - 1]))
  }

  /** The wanted IDs among the first `n` results. */
  ghost function Found<T>(truth: seq<T>, dists: Option<seq<real>>, results: seq<T>, k: nat, n: nat): set<T>
    requires 0 < k && (dists.Some? ==> |dists.value| == |truth|)
  {
    set j | 0 <= j < n && j < |results| && Wanted(truth, dists, k, results[j]) :: results[j]
  }

  lemma TruthWanted<T>(truth: seq<T>, dists: Option<seq<real>>, k: nat, x: T)
    requires RowK(truth, k) > 0 && (dists.Some? ==> |dists.value| == |truth|)
    ensures x in Truth(truth, dists, k) <==> Wanted(truth, dists, k, x)
  {
    var rowK := RowK(truth, k);
    var end := if dists.None? then rowK else TieEnd(dists.value, rowK, dists.value[rowK - 1]);
    if Wanted(truth, dists, k, x) {
      var j :| && 0 <= j < |truth| && truth[j] == x
               && (j < k || (dists.Some? && forall i :: k <= i <= j ==> dists.value[i] == dists.value[k - 1]));
      assert j < end;
      assert truth[..end][j] == x;
    }
    if x in truth[..end] {
      var j :| 0 <= j < end && truth[..end][j] == x;
      assert truth[j] == x;
    }
  }

  lemma FoundIsOverlap<T>(truth: seq<T>, dists: Option<seq<real>>, results: seq<T>, k: nat, n: nat)
    requires RowK(truth, k) > 0 && (dists.Some? ==> |dists.value| == |truth|)
    ensures Truth(truth, dists, k) * Elements(results[..Min(n, |results|)]) == Found(truth, dists, results, k, n)
  {
    var first := results[..Min(n, |results|)];
    forall x
      ensures x in Truth(truth, dists, k) && x in first <==> x in Found(truth, dists, results, k, n)
    {
      TruthWanted(truth, dists, k, x);
      hide Truth, Wanted;
      if x in Truth(truth, dists, k) && x in first {
        var j :| 0 <= j < |first| && first[j] == x;
        assert results[j] == x;
      }
      if x in Found(truth, dists, results, k, n) {
        var j :| 0 <= j < n && j < |results| && Wanted(truth, dists, k, results[j]) && results[j] == x;
        assert first[j] == x;
      }
    }
  }

  // ---- The computation ----

  /** One row: its first neighbours, extended by ties, against its first results. */
  method RowOverlap<T(==)>(truth: seq<T>, dists: Option<seq<real>>, results: seq<T>, k: nat, n: nat) returns (r: nat)
    requires RowK(truth, k) > 0 && (dists.Some? ==> |dists.value| == |truth|)
    ensures r == RowHits(truth, dists, results, k, n)
    ensures r == Min(|Found(truth, dists, results, k, n)|, Min(|truth|, k))
  {
    FoundIsOverlap(truth, dists, results, k, n);
    hide TieEnd, Elements, Found;
    var rowK := Min(|truth|, k);
    var wanted := Elements(truth[..rowK]);
    if dists.Some? {
      wanted := WithTies(truth, dists.value, rowK);
    }
    var found := Elements(results[..Min(n, |results|)]);
    r := Min(|wanted * found|, rowK);
  }

  /** The first neighbours and those tied with the last of them. */
  method WithTies<T(==)>(truth: seq<T>, dists: seq<real>, rowK: nat) returns (wanted: set<T>)
    requires 0 < rowK <= |truth| == |dists|
    ensures wanted == Elements(truth[..TieEnd(dists, rowK, dists[rowK - 1])])
  {
    hide Elements;
    wanted := Elements(truth[..rowK]);
    var last := dists[rowK - 1];
    var j := rowK;
    while j < |truth| && dists[j] == last
      invariant rowK <= j <= |truth|
      invariant wanted == Elements(truth[..j])
      invariant TieEnd(dists, rowK, last) == TieEnd(dists, j, last)
    {
      wanted := wanted + {truth[j]};
      ElementsNext(truth, j);
      j := j + 1;
    }
  }

  /** The whole computation. */
  method Knn<T(==)>(q: Queries<T>, k: nat, n: nat, mode: Mode) returns (r: Result)
    ensures r.Err? <==> Check(q, k, n, mode).Some?
    ensures r.Err? ==> Some(r.error) == Check(q, k, n, mode)
    ensures r.Ok? ==> Matching(q) && r.average == MeanRecall(q, k, n)
  {
    hide Check, RowHits, GroupSum, AddHits;
    var failed := Validate(q, k, n, mode);
    if failed.Some? {
      return Err(failed.value);
    }
    var hits: map<nat, nat> := map[];
    var scored := 0;
    GroupSumEmpty(k);
    for i := 0 to |q.truth|
      invariant scored == Scored(q, i, k)
      invariant GroupSum(hits, k) == SumRecall(q, i, k, n)
    {
      var rowK := Min(|q.truth[i]|, k);
      if rowK > 0 {
        var h := RowOverlap(q.truth[i], if q.dists.None? then None else Some(q.dists.value[i]), q.results[i], k, n);
        GroupSumAdd(hits, rowK, h, k);
        hits := AddHits(hits, rowK, h);
        scored := scored + 1;
      }
    }
    if scored == 0 {
      return Ok(0.0);
    }
    var average := Average(hits, k, scored);
    r := Ok(average);
  }

  method Average(hits: map<nat, nat>, k: nat, scored: nat) returns (average: real)
    requires scored > 0
    ensures average == GroupSum(hits, k) / scored as real
  {
    average := 0.0;
    for d := 1 to k + 1
      invariant average == GroupSum(hits, d - 1) / scored as real
    {
      if d in hits {
        OneDivision(hits[d] as real, d as real, scored as real);
        DivAdd(GroupSum(hits, d - 1), hits[d] as real / d as real, scored as real);
        average := average + hits[d] as real / (d as real * scored as real);
      }
    }
  }

  method Validate<T>(q: Queries<T>, k: nat, n: nat, mode: Mode) returns (failed: Option<Error>)
    ensures failed == Check(q, k, n, mode)
    ensures failed.None? ==> Matching(q)
  {
    if k > n {
      return Some(RecallKAndN);
    }
    if |q.results| != |q.truth| {
      return Some(RowsMismatch);
    }
    if mode.Fixed? {
      for i := 0 to |q.truth|
        invariant forall j :: 0 <= j < i ==> |q.truth[j]| >= k
      {
        if |q.truth[i]| < k {
          return Some(NotEnoughGroundTruth);
        }
      }
    }
    if q.dists.Some? {
      if |q.dists.value| != |q.truth| {
        return Some(DistanceRowsMismatch);
      }
      for i := 0 to |q.truth|
        invariant forall j :: 0 <= j < i ==> |q.dists.value[j]| == |q.truth[j]|
      {
        if |q.dists.value[i]| != |q.truth[i]| {
          return Some(GroundTruthDistanceMismatch);
        }
      }
    }
    failed := None;
  }

  // ---- What the number means ----

  lemma Fraction(a: nat, b: nat, c: nat)
    requires a <= b && c > 0
    ensures Share(a, c) <= Share(b, c)
    ensures 0.0 <= Share(a, c)
    ensures a <= c ==> Share(a, c) <= 1.0
  {
  }

  lemma RowInUnit<T>(q: Queries<T>, i: nat, k: nat, n: nat)
    requires Matching(q) && i < |q.truth|
    ensures 0.0 <= RowRecall(q, i, k, n) <= if RowK(q.truth[i], k) > 0 then 1.0 else 0.0
  {
    hide Share, Truth, Elements;
    if RowK(q.truth[i], k) > 0 {
      Fraction(Hits(q, i, k, n), Hits(q, i, k, n), RowK(q.truth[i], k));
    }
  }

  lemma {:induction false} SumBounds<T>(q: Queries<T>, rows: nat, k: nat, n: nat)
    requires Matching(q) && rows <= |q.truth|
    ensures 0.0 <= SumRecall(q, rows, k, n) <= Scored(q, rows, k) as real
  {
    if rows > 0 {
      hide RowRecall, RowK;
      SumBounds(q, rows - 1, k, n);
      RowInUnit(q, rows - 1, k, n);
    }
  }

  lemma DivMono(a: real, b: real, c: real)
    requires a <= b && c > 0.0
    ensures a / c <= b / c
  {
  }

  lemma UnitQuotient(a: real, b: real)
    requires 0.0 <= a <= b && b > 0.0
    ensures 0.0 <= a / b <= 1.0
  {
  }

  /** Recall is a fraction. */
  lemma RecallInUnit<T>(q: Queries<T>, k: nat, n: nat)
    requires Matching(q)
    ensures 0.0 <= MeanRecall(q, k, n) <= 1.0
  {
    SumBounds(q, |q.truth|, k, n);
    var scored := Scored(q, |q.truth|, k);
    if scored > 0 {
      UnitQuotient(SumRecall(q, |q.truth|, k, n), scored as real);
    }
  }

  lemma {:induction false} SumMono<T>(p: Queries<T>, q: Queries<T>, rows: nat, k: nat, m: nat, n: nat)
    requires Matching(p) && Matching(q) && p.truth == q.truth && rows <= |q.truth|
    requires forall i :: 0 <= i < rows && RowK(q.truth[i], k) > 0 ==> Hits(p, i, k, m) <= Hits(q, i, k, n)
    ensures SumRecall(p, rows, k, m) <= SumRecall(q, rows, k, n)
    ensures Scored(p, rows, k) == Scored(q, rows, k)
  {
    if rows > 0 {
      hide Hits, RowRecall;
      SumMono(p, q, rows - 1, k, m, n);
      RowRecallMono(p, q, rows - 1, k, m, n);
    }
  }

  lemma RowRecallMono<T>(p: Queries<T>, q: Queries<T>, i: nat, k: nat, m: nat, n: nat)
    requires Matching(p) && Matching(q) && p.truth == q.truth && i < |q.truth|
    requires RowK(q.truth[i], k) > 0 ==> Hits(p, i, k, m) <= Hits(q, i, k, n)
    ensures RowRecall(p, i, k, m) <= RowRecall(q, i, k, n)
  {
    hide Hits, Share;
    if RowK(q.truth[i], k) > 0 {
      Fraction(Hits(p, i, k, m), Hits(q, i, k, n), RowK(q.truth[i], k));
    }
  }

  lemma RowMono<T>(truth: seq<T>, some: Option<seq<real>>, dists: Option<seq<real>>, results: seq<T>,
                   k: nat, m: nat, n: nat)
    requires RowK(truth, k) > 0 && (dists.Some? ==> |dists.value| == |truth|)
    requires some == dists || some == None
    requires m <= n
    ensures RowHits(truth, some, results, k, m) <= RowHits(truth, dists, results, k, n)
  {
    var a := Truth(truth, some, k) * Elements(results[..Min(m, |results|)]);
    var b := Truth(truth, dists, k) * Elements(results[..Min(n, |results|)]);
    SubsetSize(a, b);
  }

  /** Supplying distances, so that ties count, never lowers the recall; nor does looking at more
      results. */
  lemma RecallMonotone<T>(q: Queries<T>, k: nat, m: nat, n: nat)
    requires Matching(q) && m <= n
    ensures MeanRecall(q, k, m) <= MeanRecall(q, k, n)
    ensures MeanRecall(q.(dists := None), k, n) <= MeanRecall(q, k, n)
  {
    var p := q.(dists := None);
    forall i | 0 <= i < |q.truth| && RowK(q.truth[i], k) > 0
      ensures Hits(q, i, k, m) <= Hits(q, i, k, n) && Hits(p, i, k, n) <= Hits(q, i, k, n)
    {
      RowMono(q.truth[i], RowDists(q, i), RowDists(q, i), q.results[i], k, m, n);
      RowMono(q.truth[i], None, RowDists(q, i), q.results[i], k, n, n);
    }
    SumMono(q, q, |q.truth|, k, m, n);
    SumMono(p, q, |q.truth|, k, n, n);
    var scored := Scored(q, |q.truth|, k);
    if scored > 0 {
      DivMono(SumRecall(q, |q.truth|, k, m), SumRecall(q, |q.truth|, k, n), scored as real);
      DivMono(SumRecall(p, |q.truth|, k, n), SumRecall(q, |q.truth|, k, n), scored as real);
    }
  }

  /** A row has no hits without results, and one more result is one more hit if and only if it is a
      wanted neighbour, not seen before, and not all that count were hit already. */
  lemma HitsOneMore<T>(truth: seq<T>, dists: Option<seq<real>>, results: seq<T>, k: nat, n: nat)
    requires 0 < k && truth != [] && (dists.Some? ==> |dists.value| == |truth|)
    ensures RowHits(truth, dists, results, k, 0) == 0
    ensures RowHits(truth, dists, results, k, n + 1) == RowHits(truth, dists, results, k, n) +
              if && n < |results| && Wanted(truth, dists, k, results[n]) && results[n] !in results[..n]
                 && RowHits(truth, dists, results, k, n) < Min(|truth|, k)
              then 1 else 0
  {
    var wanted := Truth(truth, dists, k);
    assert wanted * Elements(results[..0]) == {};
    if n < |results| {
      TruthWanted(truth, dists, k, results[n]);
      OverlapOneMore(wanted, results, n);
    }
    hide Truth, Wanted, Elements;
  }

  lemma OverlapOneMore<T>(wanted: set<T>, results: seq<T>, n: nat)
    requires n < |results|
    ensures |wanted * Elements(results[..n + 1])| == |wanted * Elements(results[..n])| +
              if results[n] in wanted && results[n] !in results[..n] then 1 else 0
  {
    ElementsNext(results, n);
    var x, hits, hits' := results[n], wanted * Elements(results[..n]), wanted * Elements(results[..n + 1]);
    assert hits - {x} == hits' - {x};
    SwapSize(hits, hits', x);
  }

  /** The queries that have true neighbours to look for. */
  ghost function Answerable<T>(q: Queries<T>, rows: nat, k: nat): set<nat>
    requires rows <= |q.truth|
  {
    set i | 0 <= i < rows && q.truth[i] != [] && k > 0
  }

  lemma {:induction false} ScoredCounts<T>(q: Queries<T>, rows: nat, k: nat)
    requires rows <= |q.truth|
    ensures Scored(q, rows, k) == |Answerable(q, rows, k)|
  {
    if rows > 0 {
      ScoredCounts(q, rows - 1, k);
      var i := rows - 1;
      assert Answerable(q, rows, k) ==
             if q.truth[i] != [] && k > 0 then Answerable(q, i, k) + {i} else Answerable(q, i, k);
    } else {
      assert Answerable(q, 0, k) == {};
    }
  }

  /** The queries without the last one. */
  function ButLast<T>(q: Queries<T>): Queries<T>
    requires |q.truth| > 0 && |q.results| == |q.truth| && (q.dists.Some? ==> |q.dists.value| == |q.truth|)
  {
    var n := |q.truth| - 1;
    Queries(q.truth[..n], if q.dists.None? then None else Some(q.dists.value[..n]), q.results[..n])
  }

  lemma {:induction false} SumButLast<T>(q: Queries<T>, rows: nat, k: nat, n: nat)
    requires Matching(q) && rows < |q.truth| && Matching(ButLast(q))
    ensures SumRecall(ButLast(q), rows, k, n) == SumRecall(q, rows, k, n)
    ensures Scored(ButLast(q), rows, k) == Scored(q, rows, k)
  {
    hide RowHits;
    if rows > 0 {
      SumButLast(q, rows - 1, k, n);
    }
  }

  /** The mean becomes `mean'` with one more number, `share`, if that of `count` numbers is `mean`. */
  ghost predicate MeanGrows(mean': real, mean: real, count: nat, share: real) {
    mean' * (count + 1) as real == mean * count as real + share
  }

  /** Every query that can be answered weighs the same: one more adds its share of hits, out of the
      neighbours it has to find, to the average; one that cannot changes nothing. */
  lemma MeanOneMore<T>(q: Queries<T>, k: nat, n: nat)
    requires Matching(q) && |q.truth| > 0
    ensures Matching(ButLast(q))
    ensures var last := |q.truth| - 1;
            if q.truth[last] == [] || k == 0 then MeanRecall(q, k, n) == MeanRecall(ButLast(q), k, n)
            else MeanGrows(MeanRecall(q, k, n), MeanRecall(ButLast(q), k, n), |Answerable(q, last, k)|,
                           Share(Hits(q, last, k, n), Min(|q.truth[last]|, k)))
  {
    hide SumRecall, Scored, RowRecall, Hits, Share, Answerable, MeanGrows, Mean;
    var last := |q.truth| - 1;
    SumButLast(q, last, k, n);
    ScoredCounts(q, last, k);
    if Scored(q, last, k) == 0 {
      NothingScored(q, last, k, n);
    }
    SumLast(q, k, n);
    OneMoreShare(SumRecall(q, last, k, n), Scored(q, last, k), RowRecall(q, last, k, n));
  }

  lemma SumLast<T>(q: Queries<T>, k: nat, n: nat)
    requires Matching(q) && |q.truth| > 0
    ensures var last := |q.truth| - 1;
            if q.truth[last] == [] || k == 0 then
              && SumRecall(q, |q.truth|, k, n) == SumRecall(q, last, k, n)
              && Scored(q, |q.truth|, k) == Scored(q, last, k)
            else
              && SumRecall(q, |q.truth|, k, n) == SumRecall(q, last, k, n) + RowRecall(q, last, k, n)
              && Scored(q, |q.truth|, k) == Scored(q, last, k) + 1
              && RowRecall(q, last, k, n) == Share(Hits(q, last, k, n), Min(|q.truth[last]|, k))
  {
    hide Hits, Share;
  }

  lemma OneMoreShare(sum: real, count: nat, share: real)
    requires count == 0 ==> sum == 0.0
    ensures MeanGrows(Mean(sum + share, count + 1), Mean(sum, count), count, share)
  {
  }

  lemma {:induction false} NothingScored<T>(q: Queries<T>, rows: nat, k: nat, n: nat)
    requires Matching(q) && rows <= |q.truth| && Scored(q, rows, k) == 0
    ensures SumRecall(q, rows, k, n) == 0.0
  {
    hide RowHits;
    if rows > 0 {
      NothingScored(q, rows - 1, k, n);
    }
  }
}
