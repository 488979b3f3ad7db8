/**
 * An exact, idealised stand-in for the flat L2 index that
 * `RAGService.search_similar_chunks` builds (rag_service.py:73-77): squared
 * Euclidean distance over real vectors, a ranking of the indexed vectors by
 * ascending distance, and the similarity score `1 / (1 + d)`.
 */
module VectorIndex {
  import opened Records

  /** Squared Euclidean distance, the quantity a flat L2 index reports. */
  function SqDist(a: Vector, b: Vector): (d: real)
    requires |a| == |b|
    ensures d >= 0.0
  {
    if a == [] then 0.0
    else SqDist(a[..|a| - 1], b[..|b| - 1]) + (a[|a| - 1] - b[|b| - 1]) * (a[|a| - 1] - b[|b| - 1])
  }

  /** `1 / (1 + d)` (rag_service.py:77). */
  function Score(d: real): real
    requires d >= 0.0
  {
    1.0 / (1.0 + d)
  }

  /** Scores lie in (0, 1], reach 1 exactly at distance 0, and fall as the distance grows. */
  lemma ScoreProperties(d: real, e: real)
    requires 0.0 <= d && 0.0 <= e
    ensures 0.0 < Score(d) <= 1.0
    ensures Score(d) == 1.0 <==> d == 0.0
    ensures d <= e ==> Score(e) <= Score(d)
    ensures d < e ==> Score(e) < Score(d)
  {
    assert Score(d) * (1.0 + d) == 1.0;
    assert Score(e) * (1.0 + e) == 1.0;
    if d < e {
      assert Score(d) * (1.0 + e) > 1.0;
    }
  }

  /** `[0, 1, ..., n - 1]`. */
  function Range(n: nat): (r: seq<nat>)
    ensures |r| == n
    ensures forall i :: 0 <= i < n ==> r[i] == i
  {
    seq(n, i requires 0 <= i < n => i)
  }

  /** Every entry of `r` indexes `d`. */
  predicate Indexes(r: seq<nat>, d: seq<real>)
  {
    forall i :: 0 <= i < |r| ==> r[i] < |d|
  }

  /** `r` lists indices of `d` in ascending order of their keys. */
  predicate SortedBy(r: seq<nat>, d: seq<real>)
  {
    && Indexes(r, d)
    && forall i, j :: 0 <= i < j < |r| ==> d[r[i]] <= d[r[j]]
  }

  /** Inserts index `x` into `r`, before the first index whose key is not smaller. */
  function InsertByKey(x: nat, r: seq<nat>, d: seq<real>): (r': seq<nat>)
    requires x < |d| && Indexes(r, d)
    ensures Indexes(r', d)
  {
    if r == [] || d[x] <= d[r[0]] then [x] + r
    else [r[0]] + InsertByKey(x, r[1..], d)
  }

  /** The indices `xs` ordered by ascending key (insertion sort). */
  function SortByKey(xs: seq<nat>, d: seq<real>): (r: seq<nat>)
    requires Indexes(xs, d)
    ensures Indexes(r, d)
  {
    if xs == [] then []
    else
      assert Indexes(xs[1..], d) by { assert forall i :: 0 <= i < |xs| - 1 ==> xs[1..][i] == xs[i + 1]; }
      InsertByKey(xs[0], SortByKey(xs[1..], d), d)
  }

  /** Inserting an index whose key is at least `v` among indices whose keys are at least `v` keeps them all at least `v`. */
  lemma {:induction false} InsertByKeyBounded(x: nat, r: seq<nat>, d: seq<real>, v: real)
    requires x < |d| && Indexes(r, d) && v <= d[x]
    requires forall i :: 0 <= i < |r| ==> v <= d[r[i]]
    ensures forall i :: 0 <= i < |InsertByKey(x, r, d)| ==> v <= d[InsertByKey(x, r, d)[i]]
    decreases |r|
  {
    if r != [] && d[x] > d[r[0]] {
      InsertByKeyBounded(x, r[1..], d, v);
    }
  }

  /** Putting an index whose key is at most every key of a sorted list in front keeps it sorted. */
  lemma ConsSorted(h: nat, r: seq<nat>, d: seq<real>)
    requires h < |d| && SortedBy(r, d)
    requires forall i :: 0 <= i < |r| ==> d[h] <= d[r[i]]
    ensures SortedBy([h] + r, d)
  {
    var s := [h] + r;
    assert forall i :: 1 <= i < |s| ==> s[i] == r[i - 1];
  }

  lemma {:induction false} InsertByKeyPermutes(x: nat, r: seq<nat>, d: seq<real>)
    requires x < |d| && Indexes(r, d)
    ensures multiset(InsertByKey(x, r, d)) == multiset(r) + multiset{x}
    decreases |r|
  {
    if r != [] && d[x] > d[r[0]] {
      var tail := r[1..];
      InsertByKeyPermutes(x, tail, d);
      assert r == [r[0]] + tail;
    }
  }

  lemma {:induction false} InsertByKeyKeepsOrder(x: nat, r: seq<nat>, d: seq<real>)
    requires x < |d| && SortedBy(r, d)
    ensures multiset(InsertByKey(x, r, d)) == multiset(r) + multiset{x}
    ensures SortedBy(InsertByKey(x, r, d), d)
    decreases |r|
  {
    InsertByKeyPermutes(x, r, d);
    if r == [] || d[x] <= d[r[0]] {
      ConsSorted(x, r, d);
    } else {
      var tail := r[1..];
      InsertByKeyKeepsOrder(x, tail, d);
      InsertByKeyBounded(x, tail, d, d[r[0]]);
      ConsSorted(r[0], InsertByKey(x, tail, d), d);
    }
  }

  /** The ranking is a reordering of the indices that puts them in ascending order of key. */
  lemma {:induction false} SortByKeyIsSortedPermutation(xs: seq<nat>, d: seq<real>)
    requires Indexes(xs, d)
    ensures multiset(SortByKey(xs, d)) == multiset(xs)
    ensures SortedBy(SortByKey(xs, d), d)
  {
    if xs != [] {
      assert Indexes(xs[1..], d) by { assert forall i :: 0 <= i < |xs| - 1 ==> xs[1..][i] == xs[i + 1]; }
      SortByKeyIsSortedPermutation(xs[1..], d);
      InsertByKeyKeepsOrder(xs[0], SortByKey(xs[1..], d), d);
      assert xs == [xs[0]] + xs[1..];
    }
  }

  /** The distance from `query` to each indexed vector, in index order. */
  function Distances(vectors: seq<Vector>, query: Vector): (d: seq<real>)
    requires forall i :: 0 <= i < |vectors| ==> |vectors[i]| == |query|
    ensures |d| == |vectors|
  {
    seq(|vectors|, i requires 0 <= i < |vectors| => SqDist(vectors[i], query))
  }

  /** The exact nearest-neighbour ranking: every index, nearest first. */
  function Ranking(vectors: seq<Vector>, query: Vector): seq<nat>
    requires forall i :: 0 <= i < |vectors| ==> |vectors[i]| == |query|
  {
    SortByKey(Range(|vectors|), Distances(vectors, query))
  }

  /**
   * The ranking lists every indexed vector exactly once, nearest first: it
   * is a permutation of the indices, and a vector ranked earlier is never
   * further from the query than one ranked later.
   */
  lemma RankingIsNearestFirst(vectors: seq<Vector>, query: Vector)
    requires forall i :: 0 <= i < |vectors| ==> |vectors[i]| == |query|
    ensures var r := Ranking(vectors, query);
      && |r| == |vectors|
      && multiset(r) == multiset(Range(|vectors|))
      && (forall i :: 0 <= i < |r| ==> r[i] < |vectors|)
      && (forall i, j :: 0 <= i < j < |r| ==> SqDist(vectors[r[i]], query) <= SqDist(vectors[r[j]], query))
  {
    var d := Distances(vectors, query);
    SortByKeyIsSortedPermutation(Range(|vectors|), d);
    var r := Ranking(vectors, query);
    assert |r| == |multiset(r)| == |multiset(Range(|vectors|))| == |vectors|;
  }

  /** Each index occurs at most once in `[0, ..., n - 1]`. */
  lemma {:induction false} RangeHasNoRepeats(n: nat, x: nat)
    ensures multiset(Range(n))[x] <= 1
  {
    if n > 0 {
      RangeHasNoRepeats(n - 1, x);
      assert Range(n) == Range(n - 1) + [n - 1];
      if x == n - 1 {
        assert x !in Range(n - 1);
      }
    }
  }

  /** A sequence in which no value occurs twice has pairwise different entries. */
  lemma NoRepeatsDistinct(r: seq<nat>, i: nat, j: nat)
    requires i < j < |r| && multiset(r)[r[i]] <= 1
    ensures r[i] != r[j]
  {
    assert r == r[..j] + r[j..];
    assert r[i] in r[..j] && r[j..][0] == r[j];
    assert multiset(r)[r[i]] == multiset(r[..j])[r[i]] + multiset(r[j..])[r[i]];
  }

  /** The ranking lists no index twice. */
  lemma RankingListsEachOnce(vectors: seq<Vector>, query: Vector)
    requires forall i :: 0 <= i < |vectors| ==> |vectors[i]| == |query|
    ensures var r := Ranking(vectors, query);
      forall i, j :: 0 <= i < j < |r| ==> r[i] != r[j]
  {
    RankingIsNearestFirst(vectors, query);
    var r := Ranking(vectors, query);
    forall i, j | 0 <= i < j < |r|
      ensures r[i] != r[j]
    {
      RangeHasNoRepeats(|vectors|, r[i]);
      NoRepeatsDistinct(r, i, j);
    }
  }

  /** Every index appears in the ranking. */
  lemma RankingCoversAll(vectors: seq<Vector>, query: Vector, m: nat)
    requires forall i :: 0 <= i < |vectors| ==> |vectors[i]| == |query|
    requires m < |vectors|
    ensures m in Ranking(vectors, query)
  {
    RankingIsNearestFirst(vectors, query);
    assert Range(|vectors|)[m] == m;
    assert m in multiset(Range(|vectors|));
  }
}
