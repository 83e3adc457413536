/** Line windows for files without structure, and the consolidation of fragments
    into whole files for the patch prompt. */
module Chunker {
  import opened Options
  import opened Patcher

  // ---------- Windows ----------

  /** Lines `first` to `last` of a file, counted from one. */
  datatype Window = Window(first: int, last: int, lines: seq<string>)

  function Min(a: int, b: int): int { if a < b then a else b }

  /** Where the next window starts. */
  function Next(total: int, size: int, overlap: int, start: int): int {
    var end, next := Min(start + size, total), start + size - overlap;
    if next >= end then end else next
  }

  /** What neighbouring windows share; a negative overlap counts as none. */
  function Shared(overlap: int): nat { if overlap < 0 then 0 else overlap }

  function Windows(lines: seq<string>, size: int, overlap: int, start: nat): seq<Window>
    requires start < |lines| && Ends(|lines| - start, size, overlap)
    decreases |lines| - start
  {
    var end := Min(start + size, |lines|);
    var w := Window(start + 1, end, lines[start..end]);
    if end == |lines| then [w] else [w] + Windows(lines, size, overlap, Next(|lines|, size, overlap, start))
  }

  /** When the loop ends: a window must be wider than the overlap, unless one
      window holds the whole file. */
  predicate Ends(total: nat, size: int, overlap: int) { 1 <= size && (overlap < size || total <= size) }

  function Chunks(lines: seq<string>, size: int, overlap: int): seq<Window>
    requires Ends(|lines|, size, overlap)
  {
    if lines == [] then [Window(1, 1, [])] else Windows(lines, size, overlap, 0)
  }

  method FallbackChunk(lines: seq<string>, size: int, overlap: int) returns (chunks: seq<Window>)
    requires Ends(|lines|, size, overlap)
    ensures chunks == Chunks(lines, size, overlap)
  {
    var total := |lines|;
    if total == 0 { return [Window(1, 1, [])]; }
    chunks := [];
    var start := 0;
    while start < total
      invariant 0 <= start < total && Ends(total - start, size, overlap)
      invariant chunks + Windows(lines, size, overlap, start) == Chunks(lines, size, overlap)
      decreases total - start
    {
      var end := Min(start + size, total);
      var w := Window(start + 1, end, lines[start..end]);
      ghost var before, from := chunks, start;
      chunks := chunks + [w];
      if end == total { break; }
      start := start + size - overlap;
      if start >= end { start := end; }
      assert Windows(lines, size, overlap, from) == [w] + Windows(lines, size, overlap, start);
      assert before + ([w] + Windows(lines, size, overlap, start)) == chunks + Windows(lines, size, overlap, start);
    }
  }

  /** The start of the window after `n` rounds, as long as the loop goes on. */
  function StartOf(total: int, size: int, overlap: int, n: nat): int {
    if n == 0 then 0 else Next(total, size, overlap, StartOf(total, size, overlap, n - 1))
  }

  /** For any other setting it never ends: the window after any number of rounds
      still stops before the end of the file. */
  lemma {:induction false} NeverEnds(total: nat, size: int, overlap: int, n: nat)
    requires total > 0 && !Ends(total, size, overlap)
    ensures var start := StartOf(total, size, overlap, n); start < total && Min(start + size, total) != total
    ensures StartOf(total, size, overlap, n) <= 0
  {
    if n > 0 { NeverEnds(total, size, overlap, n - 1); }
  }

  /** Every window holds the lines it names, at least one and at most `size`. */
  predicate Sound(lines: seq<string>, size: int, w: Window) {
    1 <= w.first <= w.last <= |lines| && w.last - w.first < size && w.lines == lines[w.first - 1..w.last]
  }

  lemma {:induction false} WindowsAreSound(lines: seq<string>, size: int, overlap: int, start: nat)
    requires start < |lines| && Ends(|lines| - start, size, overlap)
    ensures var r := Windows(lines, size, overlap, start);
            && r != [] && r[0].first == start + 1 && r[|r| - 1].last == |lines|
            && (forall i | 0 <= i < |r| :: Sound(lines, size, r[i]))
            && (forall i | 0 <= i < |r| - 1 ::
                  r[i + 1].first == r[i].last + 1 - Shared(overlap) && r[i].last < r[i + 1].last)
    decreases |lines| - start
  {
    var end := Min(start + size, |lines|);
    if end != |lines| {
      var next := Next(|lines|, size, overlap, start);
      WindowsAreSound(lines, size, overlap, next);
      var r, rest := Windows(lines, size, overlap, start), Windows(lines, size, overlap, next);
      assert r == [r[0]] + rest;
      hide Windows, Sound;
      forall i | 0 <= i < |r| ensures Sound(lines, size, r[i]) { if i > 0 { assert r[i] == rest[i - 1]; } }
      forall i | 0 <= i < |r| - 1
        ensures r[i + 1].first == r[i].last + 1 - Shared(overlap) && r[i].last < r[i + 1].last
      {
        if i > 0 { assert r[i] == rest[i - 1] && r[i + 1] == rest[i]; }
      }
    }
  }

  /** Windows put together again, without the lines each repeats. */
  function Rebuild(windows: seq<Window>, shared: nat): seq<string> {
    if windows == [] then []
    else if |windows| == 1 then windows[0].lines
    else windows[0].lines + RebuildRest(windows[1..], shared)
  }

  function RebuildRest(windows: seq<Window>, shared: nat): seq<string> {
    if windows == [] then []
    else (if shared <= |windows[0].lines| then windows[0].lines[shared..] else []) + RebuildRest(windows[1..], shared)
  }

  lemma Glue(lines: seq<string>, a: nat, b: nat)
    requires a <= b <= |lines|
    ensures lines[a..b] + lines[b..] == lines[a..]
  {
  }

  lemma {:induction false} RestIsTheRest(lines: seq<string>, size: int, overlap: int, start: nat)
    requires start + Shared(overlap) < |lines| && 1 <= size && overlap < size
    ensures RebuildRest(Windows(lines, size, overlap, start), Shared(overlap)) == lines[start + Shared(overlap)..]
    decreases |lines| - start
  {
    var end, shared := Min(start + size, |lines|), Shared(overlap);
    var r := Windows(lines, size, overlap, start);
    var head := r[0].lines[shared..];
    assert head == lines[start + shared..end];
    Glue(lines, start + shared, end);
    if end == |lines| {
      assert r[1..] == [] && lines[end..] == [];
    } else {
      var next := Next(|lines|, size, overlap, start);
      RestIsTheRest(lines, size, overlap, next);
      assert r[1..] == Windows(lines, size, overlap, next) && next + shared == end;
      hide Windows;
    }
  }

  lemma RebuildGivesBack(lines: seq<string>, size: int, overlap: int)
    requires lines != [] && Ends(|lines|, size, overlap)
    ensures Rebuild(Chunks(lines, size, overlap), Shared(overlap)) == lines
  {
    var r := Windows(lines, size, overlap, 0);
    if |lines| <= size {
      assert lines[0..|lines|] == lines;
    } else {
      var next := Next(|lines|, size, overlap, 0);
      RestIsTheRest(lines, size, overlap, next);
      assert r[1..] == Windows(lines, size, overlap, next);
      Glue(lines, 0, size);
      assert lines[0..] == lines;
    }
  }

  /** For every setting under which the loop ends: the windows are in order and
      no wider than asked, neighbours share exactly the overlap, and together
      they give back the file. */
  lemma WindowsCoverTheFile(lines: seq<string>, size: int, overlap: int)
    requires lines != [] && Ends(|lines|, size, overlap)
    ensures var r := Chunks(lines, size, overlap);
            && r[0].first == 1 && r[|r| - 1].last == |lines|
            && (forall i | 0 <= i < |r| :: Sound(lines, size, r[i]))
            && (forall i | 0 <= i < |r| - 1 :: r[i + 1].first == r[i].last + 1 - Shared(overlap))
            && Rebuild(r, Shared(overlap)) == lines
  {
    WindowsAreSound(lines, size, overlap, 0);
    RebuildGivesBack(lines, size, overlap);
  }

  // ---------- Whole files for the patch prompt ----------

  datatype Chunk = Chunk(path: string, kind: string, content: string)

  /** The whole-file chunk of a path, or None when it is missing, unreadable or too large. */
  type Whole = string -> Option<Chunk>

  ghost predicate NamesItsPath(whole: Whole) { forall p :: whole(p).Some? ==> whole(p).value.path == p }

  predicate Replaceable(whole: Whole, path: string) { !IsPython(path) && whole(path).Some? }

  predicate Mentions(chunks: seq<Chunk>, path: string) { exists c :: c in chunks && c.path == path }

  function Resolve(whole: Whole, before: seq<Chunk>, c: Chunk): seq<Chunk> {
    if !Replaceable(whole, c.path) then [c]
    else if Mentions(before, c.path) then []
    else [whole(c.path).value]
  }

  function Consolidate(whole: Whole, chunks: seq<Chunk>): seq<Chunk> {
    if chunks == [] then []
    else
      var before, c := chunks[..|chunks| - 1], chunks[|chunks| - 1];
      Consolidate(whole, before) + Resolve(whole, before, c)
  }

  method BuildPatchContextChunks(whole: Whole, chunks: seq<Chunk>) returns (resolved: seq<Chunk>)
    ensures resolved == Consolidate(whole, chunks)
  {
    var cache: map<string, Option<Chunk>> := map[];
    var emitted: set<string> := {};
    resolved := [];
    for i := 0 to |chunks|
      invariant resolved == Consolidate(whole, chunks[..i])
      invariant forall p | p in cache :: cache[p] == whole(p)
      invariant forall p :: p in emitted <==> Replaceable(whole, p) && Mentions(chunks[..i], p)
    {
      var c := chunks[i];
      assert chunks[..i + 1][..i] == chunks[..i];
      MentionsOfMore(chunks[..i], c);
      assert chunks[..i + 1] == chunks[..i] + [c];
      if IsPython(c.path) {
        resolved := resolved + [c];
      } else {
        if c.path !in cache { cache := cache[c.path := whole(c.path)]; }
        if cache[c.path].None? {
          resolved := resolved + [c];
        } else if c.path !in emitted {
          resolved := resolved + [cache[c.path].value];
          emitted := emitted + {c.path};
        }
      }
    }
    assert chunks[..|chunks|] == chunks;
  }

  lemma MentionsOfMore(chunks: seq<Chunk>, c: Chunk)
    ensures forall p :: Mentions(chunks + [c], p) <==> Mentions(chunks, p) || p == c.path
  {
    forall p ensures Mentions(chunks + [c], p) <==> Mentions(chunks, p) || p == c.path {
      assert c in chunks + [c];
      if Mentions(chunks, p) {
        var d :| d in chunks && d.path == p;
        assert d in chunks + [c];
      }
    }
  }

  function Others(whole: Whole, chunks: seq<Chunk>): seq<Chunk> {
    if chunks == [] then []
    else
      var c := chunks[|chunks| - 1];
      Others(whole, chunks[..|chunks| - 1]) + if Replaceable(whole, c.path) then [] else [c]
  }

  function OnPath(chunks: seq<Chunk>, path: string): seq<Chunk> {
    if chunks == [] then []
    else
      var c := chunks[|chunks| - 1];
      OnPath(chunks[..|chunks| - 1], path) + if c.path == path then [c] else []
  }

  lemma OneMore(whole: Whole, chunks: seq<Chunk>, c: Chunk, path: string)
    ensures Others(whole, chunks + [c]) == Others(whole, chunks) + if Replaceable(whole, c.path) then [] else [c]
    ensures OnPath(chunks + [c], path) == OnPath(chunks, path) + if c.path == path then [c] else []
    ensures Consolidate(whole, chunks + [c]) == Consolidate(whole, chunks) + Resolve(whole, chunks, c)
  {
    assert (chunks + [c])[..|chunks|] == chunks;
  }

  /** Each replaceable file appears once, whole; every other chunk passes
      through, in order. */
  lemma {:induction false} ConsolidateOnceEach(whole: Whole, chunks: seq<Chunk>, path: string)
    requires NamesItsPath(whole)
    ensures var r := Consolidate(whole, chunks);
            && Others(whole, r) == Others(whole, chunks)
            && (Mentions(r, path) <==> Mentions(chunks, path))
            && (Replaceable(whole, path) ==>
                  OnPath(r, path) == if Mentions(chunks, path) then [whole(path).value] else [])
  {
    if chunks != [] {
      var before, c := chunks[..|chunks| - 1], chunks[|chunks| - 1];
      assert chunks == before + [c];
      ConsolidateOnceEach(whole, before, path);
      var r := Consolidate(whole, before);
      MentionsOfMore(before, c);
      OneMore(whole, before, c, path);
      var added := Resolve(whole, before, c);
      if added != [] {
        OneMore(whole, r, added[0], path);
        MentionsOfMore(r, added[0]);
        assert added == [added[0]];
      } else {
        assert r + added == r;
      }
    }
  }

  /** A whole file stands where its first fragment stood: consolidating a longer
      list only adds at the end. */
  lemma {:induction false} ConsolidatePrefix(whole: Whole, a: seq<Chunk>, b: seq<Chunk>)
    ensures Consolidate(whole, a) <= Consolidate(whole, a + b)
  {
    if b == [] {
      assert a + b == a;
    } else {
      ConsolidatePrefix(whole, a, b[..|b| - 1]);
      assert (a + b)[..|a + b| - 1] == a + b[..|b| - 1];
    }
  }

  /** Consolidating twice changes nothing more. */
  lemma {:induction false} ConsolidateTwice(whole: Whole, chunks: seq<Chunk>)
    requires NamesItsPath(whole)
    ensures Consolidate(whole, Consolidate(whole, chunks)) == Consolidate(whole, chunks)
  {
    if chunks != [] {
      var before, c := chunks[..|chunks| - 1], chunks[|chunks| - 1];
      ConsolidateTwice(whole, before);
      var r, added := Consolidate(whole, before), Resolve(whole, before, c);
      if added == [] {
        assert r + added == r;
      } else {
        assert added == [added[0]];
        ConsolidateOnceEach(whole, before, c.path);
        OneMore(whole, r, added[0], c.path);
      }
    }
  }
}
