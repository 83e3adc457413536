/** Reciprocal rank fusion of a sparse and a dense result list, in exact reals. */
module RankFusion {
  import opened Ranking

  /** A chunk and its deduplication key. */
  datatype Chunk = Chunk(key: string, text: string)

  datatype Origin = Sparse | Dense | Hybrid

  datatype Fused = Fused(chunk: Chunk, origin: Origin)

  /** What the chunk at an index of a list is worth; ranks start at one. */
  function Share(k: nat, i: nat): real { 1.0 / (k + i + 1) as real }

  /** The worth of a key in a list, with all its repetitions. */
  function ListScore(k: nat, list: seq<Chunk>, key: string): real {
    if list == [] then 0.0
    else
      var n := |list| - 1;
      ListScore(k, list[..n], key) + if list[n].key == key then Share(k, n) else 0.0
  }

  /** The sum of 1 / (k + rank) over a whole list. */
  function Mass(k: nat, list: seq<Chunk>): real {
    if list == [] then 0.0 else Mass(k, list[..|list| - 1]) + Share(k, |list| - 1)
  }

  predicate Lists(list: seq<Chunk>, key: string) { exists c :: c in list && c.key == key }

  /** The keys of a list in the order of their first occurrence. */
  function Keys(list: seq<Chunk>): seq<string> {
    if list == [] then []
    else
      var before, key := Keys(list[..|list| - 1]), list[|list| - 1].key;
      if key in before then before else before + [key]
  }

  lemma {:induction false} KeysAreDistinctAndComplete(list: seq<Chunk>)
    ensures forall i, j | 0 <= i < j < |Keys(list)| :: Keys(list)[i] != Keys(list)[j]
    ensures forall key :: key in Keys(list) <==> Lists(list, key)
  {
    if list != [] {
      var before, c := list[..|list| - 1], list[|list| - 1];
      KeysAreDistinctAndComplete(before);
      assert list == before + [c];
      forall key ensures key in Keys(list) <==> Lists(list, key) {
        assert c in list;
        if Lists(before, key) {
          var d :| d in before && d.key == key;
          assert d in list;
        }
      }
    }
  }

  /** The chunk a key ends up with: its last one. */
  function LastWith(list: seq<Chunk>, key: string): Chunk
    requires Lists(list, key)
  {
    var c := list[|list| - 1];
    if c.key == key then c
    else
      assert list == list[..|list| - 1] + [c];
      LastWith(list[..|list| - 1], key)
  }

  function Worth(k: nat, sparse: seq<Chunk>, dense: seq<Chunk>, key: string): real {
    ListScore(k, sparse, key) + ListScore(k, dense, key)
  }

  function OriginOf(sparse: seq<Chunk>, dense: seq<Chunk>, key: string): Origin {
    if Lists(sparse, key) && Lists(dense, key) then Hybrid else if Lists(sparse, key) then Sparse else Dense
  }

  /** The results before sorting, in the order of the score table. */
  function Results(k: nat, sparse: seq<Chunk>, dense: seq<Chunk>, keys: seq<string>): seq<Scored<Fused>>
    requires forall key :: key in keys ==> Lists(sparse + dense, key)
  {
    seq(|keys|, i requires 0 <= i < |keys| =>
      Scored(Fused(LastWith(sparse + dense, keys[i]), OriginOf(sparse, dense, keys[i])),
             Worth(k, sparse, dense, keys[i])))
  }

  function Unsorted(k: nat, sparse: seq<Chunk>, dense: seq<Chunk>): seq<Scored<Fused>> {
    KeysAreDistinctAndComplete(sparse + dense);
    Results(k, sparse, dense, Keys(sparse + dense))
  }

  /** `reciprocal_rank_fusion`. */
  function Fuse(k: nat, sparse: seq<Chunk>, dense: seq<Chunk>): seq<Scored<Fused>> {
    SortDescending(Unsorted(k, sparse, dense))
  }

  /** `HybridRetriever.retrieve`. */
  function Retrieve(k: nat, sparse: seq<Chunk>, dense: seq<Chunk>, topK: nat): seq<Scored<Fused>> {
    Best(Unsorted(k, sparse, dense), topK)
  }

  // ---------- What comes out ----------

  function KeyOf(r: Scored<Fused>): string { r.item.chunk.key }

  lemma {:induction false} LastWithHasTheKey(list: seq<Chunk>, key: string)
    requires Lists(list, key)
    ensures LastWith(list, key).key == key && LastWith(list, key) in list
  {
    var c := list[|list| - 1];
    if c.key != key {
      assert list == list[..|list| - 1] + [c];
      LastWithHasTheKey(list[..|list| - 1], key);
    }
  }

  /** One result per key of either list, carrying the score of both lists and the
      origin they give it; in descending score. */
  lemma FusionIsTheUnion(k: nat, sparse: seq<Chunk>, dense: seq<Chunk>)
    ensures var r := Fuse(k, sparse, dense);
            && Descending(r)
            && |r| == |Keys(sparse + dense)| && DistinctBy(KeyOf, r)
            && (forall x :: x in r ==> x.score == Worth(k, sparse, dense, KeyOf(x))
                                       && x.item.origin == OriginOf(sparse, dense, KeyOf(x)))
            && (forall key :: (exists x :: x in r && KeyOf(x) == key) <==> Lists(sparse, key) || Lists(dense, key))
  {
    var all := sparse + dense;
    var u, r, keys := Unsorted(k, sparse, dense), Fuse(k, sparse, dense), Keys(sparse + dense);
    SortIsOrdered(u);
    KeysAreDistinctAndComplete(all);
    forall i | 0 <= i < |keys| ensures KeyOf(u[i]) == keys[i] { LastWithHasTheKey(all, keys[i]); }
    SortKeepsDistinct(KeyOf, u);
    forall x ensures x in r <==> x in u { assert x in multiset(r) <==> x in multiset(u); }
    forall key ensures (exists x :: x in r && KeyOf(x) == key) <==> Lists(sparse, key) || Lists(dense, key) {
      EitherLists(sparse, dense, key);
      if key in keys {
        var i :| 0 <= i < |keys| && keys[i] == key;
        assert u[i] in r && KeyOf(u[i]) == key;
      }
    }
  }

  /** Retrieval keeps the front of the fused list, as much of it as was asked for. */
  lemma RetrievedAreTheBest(k: nat, sparse: seq<Chunk>, dense: seq<Chunk>, topK: nat)
    ensures var r, n := Retrieve(k, sparse, dense, topK), |Keys(sparse + dense)|;
            r <= Fuse(k, sparse, dense) && |r| == if n <= topK then n else topK
  {
    FusionIsTheUnion(k, sparse, dense);
  }

  lemma EitherLists(sparse: seq<Chunk>, dense: seq<Chunk>, key: string)
    ensures Lists(sparse + dense, key) <==> Lists(sparse, key) || Lists(dense, key)
  {
    assert forall c :: c in sparse + dense <==> c in sparse || c in dense;
  }

  // ---------- Scores ----------

  /** The worth of several keys together. */
  function KeySum(k: nat, list: seq<Chunk>, keys: seq<string>): real {
    if keys == [] then 0.0 else KeySum(k, list, keys[..|keys| - 1]) + ListScore(k, list, keys[|keys| - 1])
  }

  lemma {:induction false} KeySumOfMore(k: nat, list: seq<Chunk>, c: Chunk, keys: seq<string>)
    requires forall i, j | 0 <= i < j < |keys| :: keys[i] != keys[j]
    ensures KeySum(k, list + [c], keys) == KeySum(k, list, keys) + if c.key in keys then Share(k, |list|) else 0.0
  {
    if keys != [] {
      var before, key := keys[..|keys| - 1], keys[|keys| - 1];
      KeySumOfMore(k, list, c, before);
      assert (list + [c])[..|list|] == list;
      assert keys == before + [key];
    }
  }

  /** Distinct keys that cover a list share out its whole mass, repetitions included. */
  lemma {:induction false} KeysShareTheMass(k: nat, list: seq<Chunk>, keys: seq<string>)
    requires forall i, j | 0 <= i < j < |keys| :: keys[i] != keys[j]
    requires forall c :: c in list ==> c.key in keys
    ensures KeySum(k, list, keys) == Mass(k, list)
  {
    if list == [] {
      EmptyListIsWorthNothing(k, keys);
    } else {
      var before, c := list[..|list| - 1], list[|list| - 1];
      assert list == before + [c];
      KeysShareTheMass(k, before, keys);
      KeySumOfMore(k, before, c, keys);
    }
  }

  lemma {:induction false} EmptyListIsWorthNothing(k: nat, keys: seq<string>)
    ensures KeySum(k, [], keys) == 0.0
  {
    if keys != [] { EmptyListIsWorthNothing(k, keys[..|keys| - 1]); }
  }

  lemma {:induction false} TotalOfResults(k: nat, sparse: seq<Chunk>, dense: seq<Chunk>, keys: seq<string>)
    requires forall key :: key in keys ==> Lists(sparse + dense, key)
    ensures Total(Results(k, sparse, dense, keys)) == KeySum(k, sparse, keys) + KeySum(k, dense, keys)
  {
    if keys != [] {
      var before := keys[..|keys| - 1];
      TotalOfResults(k, sparse, dense, before);
      assert Results(k, sparse, dense, keys)[..|keys| - 1] == Results(k, sparse, dense, before);
    }
  }

  /** Nothing is lost or made up: the scores add up to 1 / (k + rank) over both lists. */
  lemma ScoresAddUp(k: nat, sparse: seq<Chunk>, dense: seq<Chunk>)
    ensures Total(Fuse(k, sparse, dense)) == Mass(k, sparse) + Mass(k, dense)
  {
    var keys := Keys(sparse + dense);
    KeysAreDistinctAndComplete(sparse + dense);
    SortKeepsTotal(Unsorted(k, sparse, dense));
    TotalOfResults(k, sparse, dense, keys);
    forall c | c in sparse || c in dense ensures c.key in keys { assert c in sparse + dense; }
    KeysShareTheMass(k, sparse, keys);
    KeysShareTheMass(k, dense, keys);
  }

  predicate NoDuplicates(list: seq<Chunk>) {
    forall i, j | 0 <= i < j < |list| :: list[i].key != list[j].key
  }

  lemma {:induction false} SingleScore(k: nat, list: seq<Chunk>, i: nat)
    requires NoDuplicates(list) && i < |list|
    ensures ListScore(k, list, list[i].key) == Share(k, i)
  {
    var n := |list| - 1;
    if i < n {
      SingleScore(k, list[..n], i);
    } else {
      NotListedIsWorthNothing(k, list[..n], list[n].key);
    }
  }

  lemma {:induction false} NotListedIsWorthNothing(k: nat, list: seq<Chunk>, key: string)
    requires forall i | 0 <= i < |list| :: list[i].key != key
    ensures ListScore(k, list, key) == 0.0
  {
    if list != [] { NotListedIsWorthNothing(k, list[..|list| - 1], key); }
  }

  lemma EarlierIsWorthMore(k: nat, i: nat, j: nat)
    requires i < j
    ensures 0.0 < Share(k, j) < Share(k, i)
  {
    var a, b := (k + i + 1) as real, (k + j + 1) as real;
    assert a < b;
    assert 1.0 / a - 1.0 / b == (b - a) / (a * b);
  }

  /** Listed at an index, and the other key further down or not at all. */
  predicate Ahead(list: seq<Chunk>, key: string, other: string) {
    exists i | 0 <= i < |list| ::
      list[i].key == key && forall j | 0 <= j < |list| && list[j].key == other :: i < j
  }

  lemma AheadScoresMore(k: nat, list: seq<Chunk>, key: string, other: string)
    requires NoDuplicates(list) && Ahead(list, key, other)
    ensures ListScore(k, list, key) > ListScore(k, list, other)
  {
    var i :| 0 <= i < |list| && list[i].key == key && forall j | 0 <= j < |list| && list[j].key == other :: i < j;
    SingleScore(k, list, i);
    if exists j :: 0 <= j < |list| && list[j].key == other {
      var j :| 0 <= j < |list| && list[j].key == other;
      SingleScore(k, list, j);
      EarlierIsWorthMore(k, i, j);
    } else {
      NotListedIsWorthNothing(k, list, other);
      EarlierIsWorthMore(k, i, i + 1);
    }
  }

  /** A chunk ahead of another in both duplicate-free lists scores strictly higher. */
  lemma AheadInBothScoresHigher(k: nat, sparse: seq<Chunk>, dense: seq<Chunk>, key: string, other: string)
    requires NoDuplicates(sparse) && NoDuplicates(dense)
    requires Ahead(sparse, key, other) && Ahead(dense, key, other)
    ensures Worth(k, sparse, dense, key) > Worth(k, sparse, dense, other)
  {
    AheadScoresMore(k, sparse, key, other);
    AheadScoresMore(k, dense, key, other);
  }

  lemma {:induction false} LastWithIsAt(list: seq<Chunk>, i: nat)
    requires i < |list| && forall j | i < j < |list| :: list[j].key != list[i].key
    ensures Lists(list, list[i].key) && LastWith(list, list[i].key) == list[i]
  {
    assert list[i] in list;
    if i < |list| - 1 {
      var before := list[..|list| - 1];
      assert list[|list| - 1].key != list[i].key;
      LastWithIsAt(before, i);
      assert list == before + [list[|list| - 1]];
    }
  }

  /** What becomes of one key of two duplicate-free lists: in both, the dense chunk and
      both ranks count; in one, its chunk and its rank. */
  lemma ResultInWords(k: nat, sparse: seq<Chunk>, dense: seq<Chunk>, x: Scored<Fused>)
    requires NoDuplicates(sparse) && NoDuplicates(dense) && x in Fuse(k, sparse, dense)
    ensures forall i, j | 0 <= i < |sparse| && 0 <= j < |dense| && sparse[i].key == KeyOf(x) == dense[j].key ::
              x == Scored(Fused(dense[j], Hybrid), 1.0 / (k + 1 + i) as real + 1.0 / (k + 1 + j) as real)
    ensures forall i | 0 <= i < |sparse| && sparse[i].key == KeyOf(x) && !Lists(dense, KeyOf(x)) ::
              x == Scored(Fused(sparse[i], Sparse), 1.0 / (k + 1 + i) as real)
    ensures forall j | 0 <= j < |dense| && dense[j].key == KeyOf(x) && !Lists(sparse, KeyOf(x)) ::
              x == Scored(Fused(dense[j], Dense), 1.0 / (k + 1 + j) as real)
  {
    var all, key := sparse + dense, KeyOf(x);
    FusionIsTheUnion(k, sparse, dense);
    ChunkIsTheLast(k, sparse, dense, x);
    hide Fuse, LastWith, ListScore;
    forall j | 0 <= j < |dense| && dense[j].key == key
      ensures x.item.chunk == dense[j] && ListScore(k, dense, key) == 1.0 / (k + 1 + j) as real && Lists(dense, key)
    {
      assert dense[j] in dense;
      assert all[|sparse| + j] == dense[j];
      LastWithIsAt(all, |sparse| + j);
      SingleScore(k, dense, j);
    }
    forall i | 0 <= i < |sparse| && sparse[i].key == key
      ensures ListScore(k, sparse, key) == 1.0 / (k + 1 + i) as real && Lists(sparse, key)
      ensures !Lists(dense, key) ==> x.item.chunk == sparse[i]
    {
      assert sparse[i] in sparse;
      SingleScore(k, sparse, i);
      if !Lists(dense, key) {
        assert forall j | 0 <= j < |dense| :: dense[j] in dense;
        assert all[i] == sparse[i];
        LastWithIsAt(all, i);
      }
    }
    if !Lists(dense, key) {
      assert forall j | 0 <= j < |dense| :: dense[j] in dense;
      NotListedIsWorthNothing(k, dense, key);
    }
    if !Lists(sparse, key) {
      assert forall i | 0 <= i < |sparse| :: sparse[i] in sparse;
      NotListedIsWorthNothing(k, sparse, key);
    }
  }

  lemma ChunkIsTheLast(k: nat, sparse: seq<Chunk>, dense: seq<Chunk>, x: Scored<Fused>)
    requires x in Fuse(k, sparse, dense)
    ensures Lists(sparse + dense, KeyOf(x)) && x.item.chunk == LastWith(sparse + dense, KeyOf(x))
  {
    var all, u, keys := sparse + dense, Unsorted(k, sparse, dense), Keys(sparse + dense);
    SortIsOrdered(u);
    KeysAreDistinctAndComplete(all);
    assert x in multiset(Fuse(k, sparse, dense)) <==> x in multiset(u);
    var i :| 0 <= i < |u| && u[i] == x;
    LastWithHasTheKey(all, keys[i]);
  }

  // ---------- The tables ----------

  /** The score table, the chunk table and the origins after both lists, with the
      keys in order of insertion. */
  datatype Tables = Tables(order: seq<string>, scores: map<string, real>, chunks: map<string, Chunk>,
                           inSparse: set<string>, inDense: set<string>)

  ghost predicate EntrySound(k: nat, sparse: seq<Chunk>, dense: seq<Chunk>, t: Tables, key: string) {
    && (key in t.scores <==> Lists(sparse + dense, key))
    && (key in t.scores ==> t.scores[key] == Worth(k, sparse, dense, key))
    && (key in t.chunks <==> Lists(sparse + dense, key))
    && (key in t.chunks ==> t.chunks[key] == LastWith(sparse + dense, key))
    && (key in t.inSparse <==> Lists(sparse, key))
    && (key in t.inDense <==> Lists(dense, key))
  }

  ghost predicate Tabulated(k: nat, sparse: seq<Chunk>, dense: seq<Chunk>, t: Tables) {
    t.order == Keys(sparse + dense) && forall key :: EntrySound(k, sparse, dense, t, key)
  }

  method Tally(k: nat, t: Tables, c: Chunk, i: nat, dense: bool) returns (r: Tables)
    ensures r == Tallied(k, t, c, i, dense)
  {
    var seen := c.key in t.scores;
    r := t.(order := if seen then t.order else t.order + [c.key],
            scores := t.scores[c.key := (if seen then t.scores[c.key] else 0.0) + 1.0 / (k + i + 1) as real],
            chunks := t.chunks[c.key := c]);
    if dense {
      r := r.(inDense := r.inDense + {c.key});
    } else {
      r := r.(inSparse := r.inSparse + {c.key});
    }
  }

  /** The tables after one more chunk of a list. */
  function Tallied(k: nat, t: Tables, c: Chunk, i: nat, dense: bool): Tables {
    Tables(if c.key in t.scores then t.order else t.order + [c.key],
           t.scores[c.key := (if c.key in t.scores then t.scores[c.key] else 0.0) + Share(k, i)],
           t.chunks[c.key := c],
           if dense then t.inSparse else t.inSparse + {c.key},
           if dense then t.inDense + {c.key} else t.inDense)
  }

  lemma ListOfMore(k: nat, list: seq<Chunk>, c: Chunk, key: string)
    ensures Lists(list + [c], key) <==> Lists(list, key) || key == c.key
    ensures ListScore(k, list + [c], key) == ListScore(k, list, key) + if key == c.key then Share(k, |list|) else 0.0
    ensures Lists(list + [c], key) ==> LastWith(list + [c], key) == if c.key == key then c else LastWith(list, key)
    ensures !Lists(list, key) ==> ListScore(k, list, key) == 0.0
  {
    assert (list + [c])[..|list|] == list;
    EitherLists(list, [c], key);
    assert c in [c];
    if !Lists(list, key) {
      assert forall i | 0 <= i < |list| :: list[i] in list;
      NotListedIsWorthNothing(k, list, key);
    }
  }

  lemma KeysOfMore(list: seq<Chunk>, c: Chunk)
    ensures Keys(list + [c]) == if Lists(list, c.key) then Keys(list) else Keys(list) + [c.key]
  {
    assert (list + [c])[..|list|] == list;
    KeysAreDistinctAndComplete(list);
  }

  lemma SparseStep(k: nat, sparse: seq<Chunk>, c: Chunk, t: Tables)
    requires Tabulated(k, sparse, [], t)
    ensures Tabulated(k, sparse + [c], [], Tallied(k, t, c, |sparse|, false))
  {
    assert sparse + [] == sparse && sparse + [c] + [] == sparse + [c];
    KeysOfMore(sparse, c);
    assert EntrySound(k, sparse, [], t, c.key);
    forall key ensures EntrySound(k, sparse + [c], [], Tallied(k, t, c, |sparse|, false), key) {
      assert EntrySound(k, sparse, [], t, key);
      ListOfMore(k, sparse, c, key);
    }
  }

  lemma DenseStep(k: nat, sparse: seq<Chunk>, dense: seq<Chunk>, c: Chunk, t: Tables)
    requires Tabulated(k, sparse, dense, t)
    ensures Tabulated(k, sparse, dense + [c], Tallied(k, t, c, |dense|, true))
  {
    assert sparse + (dense + [c]) == sparse + dense + [c];
    KeysOfMore(sparse + dense, c);
    assert EntrySound(k, sparse, dense, t, c.key);
    forall key ensures EntrySound(k, sparse, dense + [c], Tallied(k, t, c, |dense|, true), key) {
      assert EntrySound(k, sparse, dense, t, key);
      DenseEntry(k, sparse, dense, c, t, key);
    }
  }

  lemma DenseEntry(k: nat, sparse: seq<Chunk>, dense: seq<Chunk>, c: Chunk, t: Tables, key: string)
    requires EntrySound(k, sparse, dense, t, key) && EntrySound(k, sparse, dense, t, c.key)
    ensures EntrySound(k, sparse, dense + [c], Tallied(k, t, c, |dense|, true), key)
  {
    hide ListScore, LastWith, Lists, Share, Keys;
    assert sparse + (dense + [c]) == sparse + dense + [c];
    ListOfMore(k, sparse + dense, c, key);
    ListOfMore(k, sparse, c, key);
    ListOfMore(k, dense, c, key);
    EitherLists(sparse, dense, key);
  }

  /** The loop that forms the results. */
  method FormResults(k: nat, sparse: seq<Chunk>, dense: seq<Chunk>, t: Tables) returns (results: seq<Scored<Fused>>)
    requires Tabulated(k, sparse, dense, t)
    ensures results == Unsorted(k, sparse, dense)
  {
    hide ListScore, LastWith, Lists, Share;
    KeysAreDistinctAndComplete(sparse + dense);
    results := [];
    for i := 0 to |t.order|
      invariant results == Unsorted(k, sparse, dense)[..i]
    {
      var key := t.order[i];
      assert key in Keys(sparse + dense) && EntrySound(k, sparse, dense, t, key);
      var origin := if key in t.inSparse && key in t.inDense then Hybrid
                    else if key in t.inSparse then Sparse else Dense;
      results := results + [Scored(Fused(t.chunks[key], origin), t.scores[key])];
    }
    assert Unsorted(k, sparse, dense)[..|t.order|] == Unsorted(k, sparse, dense);
  }

  /** Both ranking loops, the results, and the sort. */
  method ReciprocalRankFusion(k: nat, sparse: seq<Chunk>, dense: seq<Chunk>) returns (r: seq<Scored<Fused>>)
    ensures r == Fuse(k, sparse, dense)
  {
    var t := Tables([], map[], map[], {}, {});
    for i := 0 to |sparse|
      invariant Tabulated(k, sparse[..i], [], t)
    {
      SparseStep(k, sparse[..i], sparse[i], t);
      assert sparse[..i + 1] == sparse[..i] + [sparse[i]];
      t := Tally(k, t, sparse[i], i, false);
    }
    assert sparse[..|sparse|] == sparse;
    for i := 0 to |dense|
      invariant Tabulated(k, sparse, dense[..i], t)
    {
      DenseStep(k, sparse, dense[..i], dense[i], t);
      assert dense[..i + 1] == dense[..i] + [dense[i]];
      t := Tally(k, t, dense[i], i, true);
    }
    assert dense[..|dense|] == dense;
    var results := FormResults(k, sparse, dense, t);
    r := SortDescending(results);
  }
}
