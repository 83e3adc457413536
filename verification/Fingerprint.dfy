/** Canonical form of request parameters: dictionaries sorted by key, without
    excluded keys and without keys whose value is None. */
module Fingerprint {
  import opened Texts
  import opened TextOrder

  /** A parameter value. `Number` stands for integers, floats and booleans by
      their JSON text, `Other` for any other object by its str(). */
  datatype Json =
    | Nothing
    | Number(literal: string)
    | Text(text: string)
    | List(items: seq<Json>)
    | Dict(entries: seq<Entry>)
    | Other(str: string)

  datatype Entry = Entry(key: string, value: Json)

  const EXCLUDED := {
    "run_id", "created_at", "timestamp", "updated_at", "auth_token", "authorization", "token", "api_key",
    "idempotency_key" }

  predicate Survives(e: Entry) { ToLower(e.key) !in EXCLUDED && !e.value.Nothing? }

  function Kept(entries: seq<Entry>): (r: seq<Entry>)
    ensures forall e :: e in r <==> e in entries && Survives(e)
  {
    if entries == [] then []
    else
      var n := |entries| - 1;
      Kept(entries[..n]) + if Survives(entries[n]) then [entries[n]] else []
  }

  function InsertByKey(e: Entry, s: seq<Entry>): seq<Entry> {
    if s == [] then [e]
    else if Precedes(e.key, s[0].key) then [e] + s
    else [s[0]] + InsertByKey(e, s[1..])
  }

  function SortByKey(s: seq<Entry>): seq<Entry> {
    if s == [] then [] else InsertByKey(s[0], SortByKey(s[1..]))
  }

  function Normalize(v: Json): Json {
    match v
    case Nothing => Text("None")
    case Number(_) => v
    case Text(_) => v
    case List(items) => List(seq(|items|, i requires 0 <= i < |items| => Normalize(items[i])))
    case Dict(entries) =>
      var kept := Kept(entries);
      Dict(SortByKey(seq(|kept|, i requires 0 <= i < |kept| =>
        assert kept[i] in entries; Entry(kept[i].key, Normalize(kept[i].value)))))
    case Other(s) => Text(s)
  }

  // ---------- What the values mean ----------

  datatype Meaning =
    | NumberM(literal: string)
    | TextM(text: string)
    | ListM(items: seq<Meaning>)
    | DictM(entries: map<string, Meaning>)

  datatype Pair = Pair(key: string, value: Meaning)

  function MapOf(pairs: seq<Pair>): map<string, Meaning> {
    if pairs == [] then map[] else MapOf(pairs[1..])[pairs[0].key := pairs[0].value]
  }

  /** The request a value stands for: dictionaries are maps without the keys that
      do not count. */
  function Denote(v: Json): Meaning {
    match v
    case Nothing => TextM("None")
    case Number(n) => NumberM(n)
    case Text(s) => TextM(s)
    case List(items) => ListM(seq(|items|, i requires 0 <= i < |items| => Denote(items[i])))
    case Dict(entries) =>
      var kept := Kept(entries);
      DictM(MapOf(seq(|kept|, i requires 0 <= i < |kept| =>
        assert kept[i] in entries; Pair(kept[i].key, Denote(kept[i].value)))))
    case Other(s) => TextM(s)
  }

  predicate DistinctKeys(entries: seq<Entry>) {
    forall i, j | 0 <= i < j < |entries| :: entries[i].key != entries[j].key
  }

  /** A Python value: no dictionary has a key twice. */
  predicate Proper(v: Json) {
    match v
    case Nothing => true
    case Number(_) => true
    case Text(_) => true
    case List(items) => forall i | 0 <= i < |items| :: Proper(items[i])
    case Dict(entries) => DistinctKeys(entries) && forall i | 0 <= i < |entries| :: Proper(entries[i].value)
    case Other(_) => true
  }

  // ---------- Sorting ----------

  lemma {:induction false} InsertHolds(e: Entry, s: seq<Entry>)
    ensures forall x :: x in InsertByKey(e, s) <==> x == e || x in s
  {
    if s != [] {
      InsertHolds(e, s[1..]);
      assert s == [s[0]] + s[1..];
    }
  }

  lemma {:induction false} SortHolds(s: seq<Entry>)
    ensures forall x :: x in SortByKey(s) <==> x in s
  {
    if s != [] {
      SortHolds(s[1..]);
      InsertHolds(s[0], SortByKey(s[1..]));
      assert s == [s[0]] + s[1..];
    }
  }

  predicate Ascending(s: seq<Entry>) {
    forall i, j | 0 <= i < j < |s| :: Precedes(s[i].key, s[j].key) && s[i].key != s[j].key
  }

  lemma {:induction false} InsertKeepsAscending(e: Entry, s: seq<Entry>)
    requires Ascending(s) && forall x :: x in s ==> x.key != e.key
    ensures Ascending(InsertByKey(e, s))
  {
    if s != [] {
      PrecedesTotal(e.key, s[0].key);
      if Precedes(e.key, s[0].key) {
        forall j | 0 <= j < |s| ensures Precedes(e.key, s[j].key) {
          if j > 0 { PrecedesTransitive(e.key, s[0].key, s[j].key); }
        }
      } else {
        InsertKeepsAscending(e, s[1..]);
        InsertHolds(e, s[1..]);
        var r := InsertByKey(e, s[1..]);
        forall j | 0 <= j < |r| ensures Precedes(s[0].key, r[j].key) && s[0].key != r[j].key {
          assert r[j] in r;
        }
      }
    }
  }

  lemma {:induction false} SortAscends(s: seq<Entry>)
    requires DistinctKeys(s)
    ensures Ascending(SortByKey(s))
  {
    if s != [] {
      SortAscends(s[1..]);
      SortHolds(s[1..]);
      InsertKeepsAscending(s[0], SortByKey(s[1..]));
    }
  }

  lemma {:induction false} SortedStays(s: seq<Entry>)
    requires Ascending(s)
    ensures SortByKey(s) == s
  {
    if s != [] {
      SortedStays(s[1..]);
      if |s| > 1 { assert s[1..][0] == s[1]; }
    }
  }

  lemma {:induction false} KeptAreDistinct(entries: seq<Entry>)
    requires DistinctKeys(entries)
    ensures DistinctKeys(Kept(entries))
  {
    if entries != [] {
      var n := |entries| - 1;
      KeptAreDistinct(entries[..n]);
      forall e | e in Kept(entries[..n]) ensures e.key != entries[n].key { assert e in entries[..n]; }
    }
  }

  lemma LastApart(entries: seq<Entry>)
    requires entries != []
    ensures entries[..|entries| - 1] + [entries[|entries| - 1]] == entries
  {
  }

  lemma {:induction false} AllKept(entries: seq<Entry>)
    requires forall i | 0 <= i < |entries| :: Survives(entries[i])
    ensures Kept(entries) == entries
  {
    if entries != [] {
      AllKept(entries[..|entries| - 1]);
      LastApart(entries);
    }
  }

  // ---------- Normal forms ----------

  /** What normalisation arrives at. */
  predicate Normal(v: Json) {
    match v
    case Nothing => false
    case Number(_) => true
    case Text(_) => true
    case List(items) => forall i | 0 <= i < |items| :: Normal(items[i])
    case Dict(entries) =>
      Ascending(entries) && forall i | 0 <= i < |entries| :: NormalEntry(entries[i])
    case Other(_) => false
  }

  predicate NormalEntry(e: Entry) { Survives(e) && Normal(e.value) }

  function NormalizedEntries(entries: seq<Entry>): (r: seq<Entry>)
    ensures |r| == |Kept(entries)|
    ensures forall i | 0 <= i < |r| :: Kept(entries)[i] in entries && r[i].key == Kept(entries)[i].key
  {
    var kept := Kept(entries);
    seq(|kept|, i requires 0 <= i < |kept| => assert kept[i] in entries; Entry(kept[i].key, Normalize(kept[i].value)))
  }

  lemma {:induction false} NormalizedIsNormal(v: Json)
    requires Proper(v)
    ensures Normal(Normalize(v))
  {
    match v
    case Nothing =>
    case Number(_) =>
    case Text(_) =>
    case List(items) =>
      forall i | 0 <= i < |items| ensures Normal(Normalize(v).items[i]) { NormalizedIsNormal(items[i]); }
    case Dict(entries) =>
      var kept, m := Kept(entries), NormalizedEntries(entries);
      KeptAreDistinct(entries);
      SortAscends(m);
      SortHolds(m);
      forall x | x in m ensures NormalEntry(x) {
        var i :| 0 <= i < |m| && m[i] == x;
        assert kept[i] in entries;
        NormalizedIsNormal(kept[i].value);
      }
    case Other(_) =>
  }

  lemma NormalEntriesStay(entries: seq<Entry>)
    requires Normal(Dict(entries)) && forall i | 0 <= i < |entries| :: Normalize(entries[i].value) == entries[i].value
    ensures Normalize(Dict(entries)) == Dict(entries)
  {
    assert forall i | 0 <= i < |entries| :: NormalEntry(entries[i]);
    AllKept(entries);
    assert NormalizedEntries(entries) == entries;
    hide Survives, NormalEntry, Kept;
    SortedStays(entries);
  }

  lemma {:induction false} NormalStays(v: Json)
    requires Normal(v)
    ensures Normalize(v) == v
  {
    match v
    case Nothing =>
    case Number(_) =>
    case Text(_) =>
    case List(items) =>
      forall i | 0 <= i < |items| ensures Normalize(items[i]) == items[i] { NormalStays(items[i]); }
      assert Normalize(v).items == items;
    case Dict(entries) =>
      forall i | 0 <= i < |entries| ensures Normalize(entries[i].value) == entries[i].value {
        assert NormalEntry(entries[i]);
        NormalStays(entries[i].value);
      }
      NormalEntriesStay(entries);
    case Other(_) =>
  }

  /** Normalising what was normalised changes nothing. */
  lemma NormalizeTwice(v: Json)
    requires Proper(v)
    ensures Normalize(Normalize(v)) == Normalize(v)
  {
    NormalizedIsNormal(v);
    NormalStays(Normalize(v));
  }

  // ---------- Normalisation keeps the meaning ----------

  predicate DistinctPairs(pairs: seq<Pair>) {
    forall i, j | 0 <= i < j < |pairs| :: pairs[i].key != pairs[j].key
  }

  /** The map of pairs with distinct keys, looked up. */
  lemma {:induction false} MapOfLookup(pairs: seq<Pair>, key: string, value: Meaning)
    requires DistinctPairs(pairs)
    ensures (key in MapOf(pairs) && MapOf(pairs)[key] == value) <==> Pair(key, value) in pairs
  {
    if pairs != [] {
      MapOfLookup(pairs[1..], key, value);
      assert pairs == [pairs[0]] + pairs[1..];
      if pairs[0].key == key {
        assert forall i | 0 <= i < |pairs[1..]| :: pairs[1..][i].key != key;
      }
    }
  }

  lemma SamePairsSameMap(a: seq<Pair>, b: seq<Pair>)
    requires DistinctPairs(a) && DistinctPairs(b) && forall p :: p in a <==> p in b
    ensures MapOf(a) == MapOf(b)
  {
    forall key | key in MapOf(a) ensures key in MapOf(b) && MapOf(b)[key] == MapOf(a)[key] {
      MapOfLookup(a, key, MapOf(a)[key]);
      MapOfLookup(b, key, MapOf(a)[key]);
    }
    forall key | key in MapOf(b) ensures key in MapOf(a) {
      MapOfLookup(b, key, MapOf(b)[key]);
      MapOfLookup(a, key, MapOf(b)[key]);
    }
  }

  function DenotedEntries(entries: seq<Entry>): (r: seq<Pair>)
    ensures |r| == |Kept(entries)|
    ensures forall i | 0 <= i < |r| :: r[i] == Pair(Kept(entries)[i].key, Denote(Kept(entries)[i].value))
  {
    var kept := Kept(entries);
    seq(|kept|, i requires 0 <= i < |kept| => assert kept[i] in entries; Pair(kept[i].key, Denote(kept[i].value)))
  }

  lemma {:induction false} NormalizeKeepsMeaning(v: Json)
    requires Proper(v)
    ensures Denote(Normalize(v)) == Denote(v)
  {
    match v
    case Nothing =>
    case Number(_) =>
    case Text(_) =>
    case List(items) =>
      var r := Normalize(v);
      forall i | 0 <= i < |items| ensures Denote(r.items[i]) == Denote(items[i]) { NormalizeKeepsMeaning(items[i]); }
      assert Denote(r).items == Denote(v).items;
    case Dict(entries) =>
      forall e | e in Kept(entries) ensures Denote(Normalize(e.value)) == Denote(e.value) {
        assert e in entries;
        NormalizeKeepsMeaning(e.value);
      }
      DictKeepsMeaning(entries);
    case Other(_) =>
  }

  function PairsOf(s: seq<Entry>): seq<Pair> {
    seq(|s|, i requires 0 <= i < |s| => Pair(s[i].key, Denote(s[i].value)))
  }

  lemma PairComesFromEntry(a: seq<Entry>, b: seq<Entry>, p: Pair)
    requires p in PairsOf(a) && forall e :: e in a ==> e in b
    ensures p in PairsOf(b)
  {
    var i :| 0 <= i < |a| && PairsOf(a)[i] == p;
    assert a[i] in b;
    var j :| 0 <= j < |b| && b[j] == a[i];
    assert PairsOf(b)[j] == p;
  }

  /** Whatever the order: the pairs of the sorted entries are those of the entries. */
  lemma DictKeepsMeaning(entries: seq<Entry>)
    requires Proper(Dict(entries))
    requires forall e :: e in Kept(entries) ==> Denote(Normalize(e.value)) == Denote(e.value)
    ensures Denote(Normalize(Dict(entries))) == Denote(Dict(entries))
  {
    var m := NormalizedEntries(entries);
    var s := SortByKey(m);
    NormalizedIsNormal(Dict(entries));
    NormalDenotesItsPairs(s);
    NormalizedPairs(entries);
    KeptAreDistinct(entries);
    hide Normal, NormalizedEntries, SortByKey, MapOf, Proper;
    SortKeepsPairs(m);
    SamePairsSameMap(DenotedEntries(s), DenotedEntries(entries));
  }

  lemma NormalDenotesItsPairs(s: seq<Entry>)
    requires Normal(Dict(s))
    ensures DenotedEntries(s) == PairsOf(s)
  {
    assert forall i | 0 <= i < |s| :: NormalEntry(s[i]);
    AllKept(s);
  }

  lemma SortKeepsPairs(m: seq<Entry>)
    ensures forall p :: p in PairsOf(SortByKey(m)) <==> p in PairsOf(m)
  {
    var s := SortByKey(m);
    SortHolds(m);
    forall p ensures p in PairsOf(s) <==> p in PairsOf(m) {
      if p in PairsOf(s) { PairComesFromEntry(s, m, p); }
      if p in PairsOf(m) { PairComesFromEntry(m, s, p); }
    }
  }

  lemma NormalizedPairs(entries: seq<Entry>)
    requires forall e :: e in Kept(entries) ==> Denote(Normalize(e.value)) == Denote(e.value)
    ensures PairsOf(NormalizedEntries(entries)) == DenotedEntries(entries)
  {
    var kept, m := Kept(entries), NormalizedEntries(entries);
    forall i | 0 <= i < |m| ensures PairsOf(m)[i] == DenotedEntries(entries)[i] {
      assert kept[i] in kept;
    }
  }

  // ---------- Equal normal forms mean the same ----------

  /** Ascending lists with the same entries are the same list. */
  lemma {:induction false} AscendingIsUnique(a: seq<Entry>, b: seq<Entry>)
    requires Ascending(a) && Ascending(b) && forall e :: e in a <==> e in b
    ensures a == b
  {
    if b != [] { assert b[0] in b; }
    if a != [] {
      assert a[0] in a;
      SameFirst(a, b);
      hide Ascending;
      forall e ensures e in a[1..] <==> e in b[1..] { SameTail(a, b, e); }
      AscendingIsUnique(a[1..], b[1..]);
      assert a == [a[0]] + a[1..] && b == [b[0]] + b[1..];
    }
  }

  lemma SameFirst(a: seq<Entry>, b: seq<Entry>)
    requires a != [] && b != [] && Ascending(a) && Ascending(b) && a[0] in b && b[0] in a
    ensures a[0] == b[0]
  {
    var i :| 0 <= i < |b| && b[i] == a[0];
    var j :| 0 <= j < |a| && a[j] == b[0];
    PrecedesTotal(a[0].key, b[0].key);
  }

  lemma SameTail(a: seq<Entry>, b: seq<Entry>, e: Entry)
    requires a != [] && b != [] && a[0] == b[0] && Ascending(a) && Ascending(b) && (e in a <==> e in b)
    ensures e in a[1..] <==> e in b[1..]
  {
    assert a == [a[0]] + a[1..] && b == [b[0]] + b[1..];
    assert forall i | 0 < i < |a| :: a[i].key != a[0].key;
    assert forall i | 0 < i < |b| :: b[i].key != b[0].key;
  }

  lemma {:induction false} MeaningOfNormalIsUnique(a: Json, b: Json)
    requires Normal(a) && Normal(b) && Denote(a) == Denote(b)
    ensures a == b
  {
    match a
    case Nothing =>
    case Number(_) =>
    case Text(_) =>
    case List(items) =>
      forall i | 0 <= i < |items| ensures items[i] == b.items[i] {
        assert Denote(items[i]) == Denote(a).items[i] == Denote(b).items[i];
        MeaningOfNormalIsUnique(items[i], b.items[i]);
      }
    case Dict(entries) =>
      forall x, y | x in entries && y in b.entries && x.key == y.key && Denote(x.value) == Denote(y.value)
        ensures x == y
      {
        assert NormalEntry(x) && NormalEntry(y);
        MeaningOfNormalIsUnique(x.value, y.value);
      }
      SameEntries(entries, b.entries);
      AscendingIsUnique(entries, b.entries);
    case Other(_) =>
  }

  lemma EntryHasItsPair(a: seq<Entry>, e: Entry)
    requires Normal(Dict(a))
    ensures Denote(Dict(a)).DictM? && DistinctPairs(DenotedEntries(a))
    ensures var m := Denote(Dict(a)).entries; e in a ==> e.key in m && m[e.key] == Denote(e.value)
  {
    assert forall i | 0 <= i < |a| :: NormalEntry(a[i]);
    AllKept(a);
    MapOfLookup(DenotedEntries(a), e.key, Denote(e.value));
    if e in a {
      var i :| 0 <= i < |a| && a[i] == e;
      assert DenotedEntries(a)[i] == Pair(e.key, Denote(e.value));
    }
  }

  lemma KeyHasItsEntry(a: seq<Entry>, key: string) returns (e: Entry)
    requires Normal(Dict(a)) && key in Denote(Dict(a)).entries
    ensures e in a && e.key == key && Denote(e.value) == Denote(Dict(a)).entries[key]
  {
    assert forall i | 0 <= i < |a| :: NormalEntry(a[i]);
    AllKept(a);
    var value := Denote(Dict(a)).entries[key];
    MapOfLookup(DenotedEntries(a), key, value);
    var i :| 0 <= i < |a| && DenotedEntries(a)[i] == Pair(key, value);
    e := a[i];
  }

  lemma SameEntries(a: seq<Entry>, b: seq<Entry>)
    requires Normal(Dict(a)) && Normal(Dict(b)) && Denote(Dict(a)) == Denote(Dict(b))
    requires forall x, y | x in a && y in b && x.key == y.key && Denote(x.value) == Denote(y.value) :: x == y
    ensures forall e :: e in a <==> e in b
  {
    forall e | e in a ensures e in b {
      EntryHasItsPair(a, e);
      var f := KeyHasItsEntry(b, e.key);
    }
    forall e | e in b ensures e in a {
      EntryHasItsPair(b, e);
      var f := KeyHasItsEntry(a, e.key);
    }
  }

  /** Two requests have the same canonical form exactly when they mean the same:
      it is blind to key order, to keys with None and to excluded keys, at every
      depth, and to nothing else. */
  lemma SameFormExactlyWhenSameMeaning(a: Json, b: Json)
    requires Proper(a) && Proper(b)
    ensures Normalize(a) == Normalize(b) <==> Denote(a) == Denote(b)
  {
    NormalizeKeepsMeaning(a);
    NormalizeKeepsMeaning(b);
    NormalizedIsNormal(a);
    NormalizedIsNormal(b);
    if Denote(a) == Denote(b) { MeaningOfNormalIsUnique(Normalize(a), Normalize(b)); }
  }

  lemma DenotedKeys(entries: seq<Entry>, key: string)
    requires Proper(Dict(entries))
    ensures Denote(Dict(entries)).DictM?
    ensures key in Denote(Dict(entries)).entries <==> exists e :: e in Kept(entries) && e.key == key
  {
    var pairs := DenotedEntries(entries);
    KeptAreDistinct(entries);
    if key in MapOf(pairs) {
      MapOfLookup(pairs, key, MapOf(pairs)[key]);
      var i :| 0 <= i < |pairs| && pairs[i] == Pair(key, MapOf(pairs)[key]);
      assert Kept(entries)[i].key == key;
    }
    if exists e :: e in Kept(entries) && e.key == key {
      var i :| 0 <= i < |pairs| && Kept(entries)[i].key == key;
      MapOfLookup(pairs, key, pairs[i].value);
    }
  }

  /** One more entry under a new key leaves the canonical form as it was exactly when the
      key, in lower case, is one of the excluded ones or the value is None. */
  lemma EntryCountsExactlyWhen(entries: seq<Entry>, e: Entry)
    requires Proper(Dict(entries + [e]))
    ensures Normalize(Dict(entries + [e])) == Normalize(Dict(entries))
            <==> ToLower(e.key) in EXCLUDED || e.value == Nothing
  {
    var more := entries + [e];
    assert more[..|more| - 1] == entries;
    assert more[|more| - 1] == e;
    assert Kept(more) == Kept(entries) + if Survives(e) then [e] else [];
    forall i | 0 <= i < |entries| ensures Proper(entries[i].value) { assert more[i] == entries[i]; }
    assert forall i, j | 0 <= i < j < |entries| :: more[i].key != more[j].key;
    assert forall i | 0 <= i < |entries| :: more[i].key != e.key;
    assert Proper(Dict(entries));
    hide Normalize, Denote, Kept, Proper;
    SameFormExactlyWhenSameMeaning(Dict(more), Dict(entries));
    if Survives(e) {
      DenotedKeys(more, e.key);
      DenotedKeys(entries, e.key);
      assert e in Kept(more);
      assert forall x | x in Kept(entries) :: x in entries;
    } else {
      SameKeptSameMeaning(more, entries);
    }
  }

  lemma SameKeptSameMeaning(a: seq<Entry>, b: seq<Entry>)
    requires Kept(a) == Kept(b)
    ensures Denote(Dict(a)) == Denote(Dict(b))
  {
    assert DenotedEntries(a) == DenotedEntries(b);
  }

  /** A None inside a list is not dropped: it reads as the text "None". */
  lemma NoneInListReadsAsText()
    ensures Normalize(List([Nothing])) == Normalize(List([Text("None")]))
  {
    assert Normalize(List([Nothing])).items == [Text("None")];
    assert Normalize(List([Text("None")])).items == [Text("None")];
  }
}
