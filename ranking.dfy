/** The ranking of app.py:159: the predictions sorted by score, highest
    first, entries of equal score keeping their order in
    `results` (Python's sort is stable, also with `reverse=True`), cut to the
    first five. */
module Ranking {
  import opened Values

  /** How many entries the page shows. */
  const TopCount: nat := 5

  /** Scores never increase along `s`. */
  predicate SortedDesc(s: seq<Prediction>)
  {
    forall i, j :: 0 <= i < j < |s| ==> s[i].score >= s[j].score
  }

  /** The entries of `s` whose score is exactly `v`, in their order in `s`;
      a sort is stable when it leaves every such subsequence as it was. */
  function WithScore(s: seq<Prediction>, v: real): seq<Prediction>
  {
    if s == [] then [] else (if s[0].score == v then [s[0]] else []) + WithScore(s[1..], v)
  }

  /** Puts `x` in front of the first entry of `s` whose score does not exceed
      its own, so that `x` precedes every entry of equal score. */
  function Insert(x: Prediction, s: seq<Prediction>): (r: seq<Prediction>)
    ensures multiset(r) == multiset(s) + multiset{x}
    ensures forall y :: y in r ==> y == x || y in s
  {
    if s == [] || x.score >= s[0].score then [x] + s
    else
      assert s == [s[0]] + s[1..];
      [s[0]] + Insert(x, s[1..])
  }

  lemma {:induction false} InsertSorted(x: Prediction, s: seq<Prediction>)
    requires SortedDesc(s)
    ensures SortedDesc(Insert(x, s))
  {
    if s != [] && x.score < s[0].score {
      var rest := Insert(x, s[1..]);
      InsertSorted(x, s[1..]);
      assert forall y :: y in rest ==> y.score <= s[0].score;
      assert Insert(x, s) == [s[0]] + rest;
    }
  }

  /** Stable insertion sort, descending by score. */
  function SortDesc(s: seq<Prediction>): (r: seq<Prediction>)
    ensures SortedDesc(r)
    ensures multiset(r) == multiset(s)
  {
    if s == [] then []
    else
      assert s == [s[0]] + s[1..];
      InsertSorted(s[0], SortDesc(s[1..]));
      Insert(s[0], SortDesc(s[1..]))
  }

  function Min(a: nat, b: nat): nat
  {
    if a <= b then a else b
  }

  /** The five best-scored predictions (all of them when there are fewer):
      sorted, drawn from `results`, and no dropped entry scores higher than a
      kept one. */
  function Top5(results: seq<Prediction>): (top: seq<Prediction>)
    ensures |top| == Min(TopCount, |results|)
    ensures SortedDesc(top)
    ensures multiset(top) <= multiset(results)
    ensures forall p, q :: p in top && q in multiset(results) - multiset(top) ==> q.score <= p.score
  {
    var sorted := SortDesc(results);
    assert |sorted| == |multiset(sorted)| == |results|;
    PrefixDominates(sorted, Min(TopCount, |sorted|));
    sorted[..Min(TopCount, |sorted|)]
  }

  /** In a sorted sequence every entry left out of a prefix scores no higher
      than any entry of the prefix. */
  lemma PrefixDominates(sorted: seq<Prediction>, k: nat)
    requires SortedDesc(sorted) && k <= |sorted|
    ensures multiset(sorted[..k]) <= multiset(sorted)
    ensures forall p, q :: p in sorted[..k] && q in multiset(sorted) - multiset(sorted[..k]) ==> q.score <= p.score
  {
    var top, rest := sorted[..k], sorted[k..];
    assert sorted == top + rest;
    assert multiset(sorted) == multiset(top) + multiset(rest);
    forall p, q | p in top && q in multiset(sorted) - multiset(top) ensures q.score <= p.score {
      assert q in multiset(rest);
      var i :| 0 <= i < |top| && top[i] == p;
      var j :| 0 <= j < |rest| && rest[j] == q;
      assert sorted[i] == p && sorted[k + j] == q;
    }
  }

  lemma {:induction false} WithScoreAppend(a: seq<Prediction>, b: seq<Prediction>, v: real)
    ensures WithScore(a + b, v) == WithScore(a, v) + WithScore(b, v)
  {
    if a != [] {
      assert (a + b)[0] == a[0] && (a + b)[1..] == a[1..] + b;
      var head := if a[0].score == v then [a[0]] else [];
      assert WithScore(a + b, v) == head + WithScore(a[1..] + b, v);
      assert WithScore(a, v) == head + WithScore(a[1..], v);
      WithScoreAppend(a[1..], b, v);
      assert head + (WithScore(a[1..], v) + WithScore(b, v)) == (head + WithScore(a[1..], v)) + WithScore(b, v);
    } else {
      assert a + b == b;
    }
  }

  lemma WithScoreCons(y: Prediction, rest: seq<Prediction>, v: real)
    ensures WithScore([y] + rest, v) == (if y.score == v then [y] else []) + WithScore(rest, v)
  {
    assert ([y] + rest)[0] == y && ([y] + rest)[1..] == rest;
  }

  /** Inserting `x` keeps it ahead of every entry of its own score. */
  lemma {:induction false} WithScoreInsert(x: Prediction, s: seq<Prediction>, v: real)
    ensures WithScore(Insert(x, s), v) == WithScore([x] + s, v)
  {
    if s != [] && x.score < s[0].score {
      var inserted := Insert(x, s[1..]);
      assert s == [s[0]] + s[1..];
      assert Insert(x, s) == [s[0]] + inserted;
      WithScoreCons(s[0], inserted, v);
      WithScoreInsert(x, s[1..], v);
      WithScoreCons(x, s[1..], v);
      WithScoreCons(x, s, v);
      WithScoreCons(s[0], s[1..], v);
    }
  }

  /** The sort is stable: among entries of equal score, the input order survives. */
  lemma {:induction false} SortStable(s: seq<Prediction>, v: real)
    ensures WithScore(SortDesc(s), v) == WithScore(s, v)
  {
    if s != [] {
      WithScoreInsert(s[0], SortDesc(s[1..]), v);
      SortStable(s[1..], v);
      assert ([s[0]] + SortDesc(s[1..]))[1..] == SortDesc(s[1..]);
    }
  }

  /** Cutting to five keeps stability: for every score, the kept entries of
      that score are the first ones of that score in `results`. */
  lemma Top5Stable(results: seq<Prediction>, v: real)
    ensures WithScore(Top5(results), v) <= WithScore(results, v)
  {
    var sorted := SortDesc(results);
    var k := Min(TopCount, |sorted|);
    assert sorted == sorted[..k] + sorted[k..];
    WithScoreAppend(sorted[..k], sorted[k..], v);
    SortStable(results, v);
  }

  lemma {:induction false} WithScoreElements(s: seq<Prediction>, v: real)
    ensures forall x :: x in WithScore(s, v) ==> x in s && x.score == v
  {
    if s != [] {
      WithScoreElements(s[1..], v);
    }
  }

  lemma WithScoreHead(s: seq<Prediction>)
    requires s != []
    ensures WithScore(s, s[0].score) == [s[0]] + WithScore(s[1..], s[0].score)
  {
  }

  /** A stable descending sort is unique: two sorted sequences with the same
      entries of every score, in the same order, are equal. */
  lemma {:induction false} SortedUnique(a: seq<Prediction>, b: seq<Prediction>)
    requires SortedDesc(a) && SortedDesc(b)
    requires forall v :: WithScore(a, v) == WithScore(b, v)
    ensures a == b
    decreases |a|
  {
    if a == [] && b != [] {
      WithScoreHead(b);
      assert false;
    } else if a != [] && b == [] {
      WithScoreHead(a);
      assert false;
    } else if a != [] {
      var m, n := a[0].score, b[0].score;
      WithScoreElements(a, n);
      WithScoreElements(b, m);
      assert WithScore(a, m)[0] == a[0];
      assert WithScore(b, m)[0] in b;
      assert WithScore(b, n)[0] == b[0];
      assert WithScore(a, n)[0] in a;
      assert m == n;
      assert a[0] == b[0];
      forall v ensures WithScore(a[1..], v) == WithScore(b[1..], v) {
        var head := if a[0].score == v then [a[0]] else [];
        assert WithScore(a, v) == head + WithScore(a[1..], v);
        assert WithScore(b, v) == head + WithScore(b[1..], v);
        assert WithScore(a, v) == WithScore(b, v);
        assert WithScore(a[1..], v) == (head + WithScore(a[1..], v))[|head|..];
        assert WithScore(b[1..], v) == (head + WithScore(b[1..], v))[|head|..];
      }
      SortedUnique(a[1..], b[1..]);
      assert a == [a[0]] + a[1..] && b == [b[0]] + b[1..];
    }
  }

  /** Top5 is what Python computes: for any stable descending sort `t` of
      `results` (as `sorted(..., reverse=True)` is), Top5 is `t[:5]`. */
  lemma Top5OfStableSort(results: seq<Prediction>, t: seq<Prediction>)
    requires SortedDesc(t)
    requires forall v :: WithScore(t, v) == WithScore(results, v)
    ensures Top5(results) == t[..Min(TopCount, |t|)]
  {
    forall v ensures WithScore(t, v) == WithScore(SortDesc(results), v) {
      SortStable(results, v);
    }
    SortedUnique(t, SortDesc(results));
  }
}
