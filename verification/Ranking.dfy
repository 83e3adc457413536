/** Stable descending sort of scored items, as list.sort(reverse=True) does it. */
module Ranking {

  datatype Scored<T> = Scored(item: T, score: real)

  /** Before the first item with a lower score. */
  function Insert<T>(x: Scored<T>, s: seq<Scored<T>>): (r: seq<Scored<T>>)
    ensures |r| == |s| + 1
  {
    if s == [] then [x]
    else if s[0].score < x.score then [x] + s
    else [s[0]] + Insert(x, s[1..])
  }

  function SortDescending<T>(s: seq<Scored<T>>): (r: seq<Scored<T>>)
    ensures |r| == |s|
  {
    if s == [] then [] else Insert(s[|s| - 1], SortDescending(s[..|s| - 1]))
  }

  predicate Descending<T>(s: seq<Scored<T>>) {
    forall i, j | 0 <= i < j < |s| :: s[i].score >= s[j].score
  }

  lemma {:induction false} InsertHolds<T>(x: Scored<T>, s: seq<Scored<T>>)
    ensures multiset(Insert(x, s)) == multiset(s) + multiset{x}
  {
    if s != [] {
      InsertHolds(x, s[1..]);
      assert s == [s[0]] + s[1..];
    }
  }

  lemma {:induction false} InsertStaysBelow<T>(x: Scored<T>, s: seq<Scored<T>>, top: real)
    requires x.score <= top && forall i | 0 <= i < |s| :: s[i].score <= top
    ensures forall i | 0 <= i < |Insert(x, s)| :: Insert(x, s)[i].score <= top
  {
    if s != [] { InsertStaysBelow(x, s[1..], top); }
  }

  lemma {:induction false} InsertKeepsOrder<T>(x: Scored<T>, s: seq<Scored<T>>)
    requires Descending(s)
    ensures Descending(Insert(x, s))
  {
    if s != [] && s[0].score >= x.score {
      InsertKeepsOrder(x, s[1..]);
      InsertStaysBelow(x, s[1..], s[0].score);
    }
  }

  /** The result is in order and holds the same items as often. */
  lemma {:induction false} SortIsOrdered<T>(s: seq<Scored<T>>)
    ensures Descending(SortDescending(s)) && multiset(SortDescending(s)) == multiset(s)
  {
    if s != [] {
      SortIsOrdered(s[..|s| - 1]);
      InsertKeepsOrder(s[|s| - 1], SortDescending(s[..|s| - 1]));
      InsertHolds(s[|s| - 1], SortDescending(s[..|s| - 1]));
      assert s == s[..|s| - 1] + [s[|s| - 1]];
    }
  }

  function Pick<T>(x: Scored<T>, v: real): seq<Scored<T>> { if x.score == v then [x] else [] }

  function WithScore<T>(s: seq<Scored<T>>, v: real): seq<Scored<T>> {
    if s == [] then [] else Pick(s[0], v) + WithScore(s[1..], v)
  }

  lemma Associate<T>(x: seq<T>, y: seq<T>, z: seq<T>)
    ensures x + (y + z) == (x + y) + z
  {
  }

  lemma {:induction false} WithScoreOfConcat<T>(a: seq<Scored<T>>, b: seq<Scored<T>>, v: real)
    ensures WithScore(a + b, v) == WithScore(a, v) + WithScore(b, v)
  {
    if a == [] {
      assert a + b == b;
    } else {
      WithScoreOfConcat(a[1..], b, v);
      assert (a + b)[1..] == a[1..] + b;
      Associate(Pick(a[0], v), WithScore(a[1..], v), WithScore(b, v));
    }
  }

  lemma {:induction false} LowerScoresAreLast<T>(s: seq<Scored<T>>, v: real)
    requires Descending(s) && s != [] && s[0].score < v
    ensures WithScore(s, v) == []
  {
    if |s| > 1 { LowerScoresAreLast(s[1..], v); }
  }

  lemma {:induction false} InsertIsStable<T>(x: Scored<T>, s: seq<Scored<T>>, v: real)
    requires Descending(s)
    ensures WithScore(Insert(x, s), v) == WithScore(s, v) + WithScore([x], v)
  {
    if s != [] {
      if s[0].score < x.score {
        WithScoreOfConcat([x], s, v);
        if v == x.score { LowerScoresAreLast(s, v); }
      } else {
        InsertIsStable(x, s[1..], v);
        WithScoreOfConcat([s[0]], Insert(x, s[1..]), v);
        WithScoreOfConcat([s[0]], s[1..], v);
        assert s == [s[0]] + s[1..];
      }
    }
  }

  /** Items with equal scores keep their order. */
  lemma {:induction false} SortIsStable<T>(s: seq<Scored<T>>, v: real)
    ensures WithScore(SortDescending(s), v) == WithScore(s, v)
  {
    if s != [] {
      var before, x := s[..|s| - 1], s[|s| - 1];
      SortIsStable(before, v);
      SortIsOrdered(before);
      InsertIsStable(x, SortDescending(before), v);
      WithScoreOfConcat(before, [x], v);
      assert s == before + [x];
    }
  }

  function Best<T>(s: seq<Scored<T>>, n: nat): seq<Scored<T>> {
    var r := SortDescending(s);
    if |r| <= n then r else r[..n]
  }

  lemma CutAt<T>(all: seq<Scored<T>>, k: nat)
    requires Descending(all) && k <= |all|
    ensures Descending(all[..k]) && multiset(all[..k]) + multiset(all[k..]) == multiset(all)
    ensures forall i, j | 0 <= i < k && 0 <= j < |all| - k :: all[..k][i].score >= all[k..][j].score
  {
    assert all == all[..k] + all[k..];
  }

  /** The cut keeps as many as it may, in order, and nothing it drops scores
      higher than anything it keeps. */
  lemma BestAreKept<T>(s: seq<Scored<T>>, n: nat) returns (dropped: seq<Scored<T>>)
    ensures var r := Best(s, n);
            && Descending(r) && |r| == (if |s| <= n then |s| else n)
            && multiset(r) + multiset(dropped) == multiset(s)
            && forall i, j | 0 <= i < |r| && 0 <= j < |dropped| :: r[i].score >= dropped[j].score
  {
    SortIsOrdered(s);
    var all := SortDescending(s);
    var k := if |s| <= n then |s| else n;
    assert Best(s, n) == all[..k];
    CutAt(all, k);
    dropped := all[k..];
  }

  // ---------- What sorting leaves alone ----------

  function Total<T>(s: seq<Scored<T>>): real {
    if s == [] then 0.0 else Total(s[..|s| - 1]) + s[|s| - 1].score
  }

  lemma {:induction false} TotalFromTheFront<T>(s: seq<Scored<T>>)
    requires s != []
    ensures Total(s) == s[0].score + Total(s[1..])
  {
    if |s| > 1 {
      TotalFromTheFront(s[..|s| - 1]);
      assert s[..|s| - 1][1..] == s[1..][..|s| - 2];
    }
  }

  lemma {:induction false} InsertAddsScore<T>(x: Scored<T>, s: seq<Scored<T>>)
    ensures Total(Insert(x, s)) == Total(s) + x.score
  {
    if s == [] {
      assert Insert(x, s)[..0] == [];
    } else {
      TotalFromTheFront(s);
      TotalFromTheFront(Insert(x, s));
      if s[0].score < x.score {
        assert ([x] + s)[1..] == s;
      } else {
        InsertAddsScore(x, s[1..]);
        assert ([s[0]] + Insert(x, s[1..]))[1..] == Insert(x, s[1..]);
      }
    }
  }

  lemma {:induction false} SortKeepsTotal<T>(s: seq<Scored<T>>)
    ensures Total(SortDescending(s)) == Total(s)
  {
    if s != [] {
      SortKeepsTotal(s[..|s| - 1]);
      InsertAddsScore(s[|s| - 1], SortDescending(s[..|s| - 1]));
    }
  }

  predicate DistinctBy<T, K(==)>(key: Scored<T> -> K, s: seq<Scored<T>>) {
    forall i, j | 0 <= i < j < |s| :: key(s[i]) != key(s[j])
  }

  lemma {:induction false} InsertKeepsDistinct<T, K>(key: Scored<T> -> K, x: Scored<T>, s: seq<Scored<T>>)
    requires DistinctBy(key, s) && forall y :: y in s ==> key(y) != key(x)
    ensures DistinctBy(key, Insert(x, s))
  {
    if s != [] && s[0].score >= x.score {
      InsertKeepsDistinct(key, x, s[1..]);
      InsertHolds(x, s[1..]);
      var r := Insert(x, s[1..]);
      forall y | y in r ensures key(y) != key(s[0]) {
        assert y in multiset(r);
        assert y == x || y in s[1..];
      }
    }
  }

  lemma {:induction false} SortKeepsDistinct<T, K>(key: Scored<T> -> K, s: seq<Scored<T>>)
    requires DistinctBy(key, s)
    ensures DistinctBy(key, SortDescending(s))
  {
    if s != [] {
      var before, x := s[..|s| - 1], s[|s| - 1];
      SortKeepsDistinct(key, before);
      SortIsOrdered(before);
      forall y | y in SortDescending(before) ensures key(y) != key(x) {
        assert y in multiset(before);
      }
      InsertKeepsDistinct(key, x, SortDescending(before));
    }
  }
}
