/** The diff text of a set of changed files, its hash, and the check before a
    commit that the workspace still shows the approved diff. */
module DriftCheck {
  import opened Options
  import opened Patcher
  import opened GitWorkspace
  import opened TextOrder

  /** difflib's diff of one file as lines, and SHA-256. */
  datatype Tools = Tools(render: (string, Pair) -> seq<string>, hash: string -> string)

  ghost predicate Collisionless(hash: string -> string) {
    && (forall a, b :: hash(a) == hash(b) ==> a == b)
    && (forall a :: hash(a) != "")
  }

  // ---------- Sorted paths ----------

  ghost predicate IsFirst(s: set<string>, m: string) { m in s && forall k :: k in s ==> Precedes(m, k) }

  lemma {:induction false} HasFirst(s: set<string>)
    requires s != {}
    ensures exists m :: IsFirst(s, m)
  {
    var x :| x in s;
    PrecedesTotal(x, x);
    if s != {x} {
      HasFirst(s - {x});
      var m :| IsFirst(s - {x}, m);
      PrecedesTotal(x, m);
      if Precedes(m, x) {
        assert IsFirst(s, m);
      } else {
        forall k | k in s ensures Precedes(x, k) {
          if k != x { PrecedesTransitive(x, m, k); }
        }
        assert IsFirst(s, x);
      }
    } else {
      assert IsFirst(s, x);
    }
  }

  ghost function SortedKeys(s: set<string>): seq<string> {
    if s == {} then []
    else
      HasFirst(s);
      var m :| IsFirst(s, m);
      [m] + SortedKeys(s - {m})
  }

  lemma {:induction false} SortedKeysAreTheKeys(s: set<string>)
    ensures forall k :: k in SortedKeys(s) <==> k in s
  {
    if s != {} {
      var m := SortedKeys(s)[0];
      SortedKeysAreTheKeys(s - {m});
      assert SortedKeys(s) == [m] + SortedKeys(s - {m});
    }
  }

  /** Ascending and without repetition. */
  ghost predicate Ascending(r: seq<string>) {
    forall i, j | 0 <= i < j < |r| :: Precedes(r[i], r[j]) && r[i] != r[j]
  }

  /** With the lemma before this pins the list down. */
  lemma {:induction false} SortedKeysAscend(s: set<string>)
    ensures Ascending(SortedKeys(s))
  {
    if s != {} {
      var r := SortedKeys(s);
      var m, rest := r[0], SortedKeys(s - {r[0]});
      assert r == [m] + rest && IsFirst(s, m);
      SortedKeysAscend(s - {m});
      SortedKeysAreTheKeys(s - {m});
      forall i, j | 0 <= i < j < |r| ensures Precedes(r[i], r[j]) && r[i] != r[j] {
        var k := rest[j - 1];
        assert r[j] == k && k in rest && k in s - {m};
        if i == 0 {
          assert Precedes(m, k);
        } else {
          assert r[i] == rest[i - 1] && Precedes(rest[i - 1], rest[j - 1]);
        }
      }
    }
  }

  // ---------- The diff ----------

  function Lines(t: Tools, changes: map<string, Pair>, order: seq<string>): seq<string>
    requires forall f :: f in order ==> f in changes
  {
    if order == [] then []
    else
      var n := |order| - 1;
      Lines(t, changes, order[..n]) + t.render(order[n], changes[order[n]])
  }

  function JoinLines(lines: seq<string>): string {
    if lines == [] then ""
    else if |lines| == 1 then lines[0]
    else JoinLines(lines[..|lines| - 1]) + "\n" + lines[|lines| - 1]
  }

  ghost function DiffLines(t: Tools, changes: map<string, Pair>): seq<string> {
    SortedKeysAreTheKeys(changes.Keys);
    Lines(t, changes, SortedKeys(changes.Keys))
  }

  ghost function DiffText(t: Tools, changes: map<string, Pair>): string { JoinLines(DiffLines(t, changes)) }

  function TrimBreaks(line: string): string {
    if line != "" && line[|line| - 1] in {'\n', '\r'} then TrimBreaks(line[..|line| - 1]) else line
  }

  predicate Counts(line: string, mark: char) {
    var s := TrimBreaks(line);
    s != "" && s[0] == mark && !([mark, mark, mark] <= s)
  }

  function CountLines(lines: seq<string>, mark: char): nat {
    if lines == [] then 0
    else CountLines(lines[..|lines| - 1], mark) + if Counts(lines[|lines| - 1], mark) then 1 else 0
  }

  method Append(all: seq<string>, diff: seq<string>) returns (longer: seq<string>, plus: nat, minus: nat)
    ensures longer == all + diff
    ensures CountLines(longer, '+') == CountLines(all, '+') + plus
    ensures CountLines(longer, '-') == CountLines(all, '-') + minus
  {
    longer, plus, minus := all, 0, 0;
    for j := 0 to |diff|
      invariant longer == all + diff[..j]
      invariant CountLines(longer, '+') == CountLines(all, '+') + plus
      invariant CountLines(longer, '-') == CountLines(all, '-') + minus
    {
      var line := diff[j];
      assert (longer + [line])[..|longer|] == longer;
      longer := longer + [line];
      if Counts(line, '+') {
        plus := plus + 1;
      } else if Counts(line, '-') {
        minus := minus + 1;
      }
    }
  }

  /** Assembly of the diff in the order of the paths, counting as it goes. */
  method ComputeDiff(t: Tools, changes: map<string, Pair>, order: seq<string>)
    returns (text: string, added: nat, deleted: nat)
    requires order == SortedKeys(changes.Keys)
    ensures text == DiffText(t, changes)
    ensures added == CountLines(DiffLines(t, changes), '+') && deleted == CountLines(DiffLines(t, changes), '-')
  {
    SortedKeysAreTheKeys(changes.Keys);
    var all: seq<string> := [];
    added, deleted := 0, 0;
    for i := 0 to |order|
      invariant all == Lines(t, changes, order[..i])
      invariant added == CountLines(all, '+') && deleted == CountLines(all, '-')
    {
      assert order[..i + 1][..i] == order[..i];
      var plus, minus;
      all, plus, minus := Append(all, t.render(order[i], changes[order[i]]));
      added, deleted := added + plus, deleted + minus;
    }
    assert order[..|order|] == order;
    text := JoinLines(all);
  }

  // ---------- What the diff and its counters say ----------

  lemma JoinOneMore(lines: seq<string>, line: string)
    ensures JoinLines(lines + [line]) == if lines == [] then line else JoinLines(lines) + "\n" + line
  {
    assert (lines + [line])[..|lines|] == lines;
  }

  /** The text is the lines with one break between any two, and the lines are those of one
      file after another. */
  lemma {:induction false} DiffJoinsLines(a: seq<string>, b: seq<string>)
    requires a != [] && b != []
    ensures JoinLines(a + b) == JoinLines(a) + ("\n" + JoinLines(b))
    ensures JoinLines([]) == "" && JoinLines(a[..1]) == a[0]
  {
    hide JoinLines;
    var front, last := b[..|b| - 1], b[|b| - 1];
    JoinOneMore([], a[0]);
    assert a[..1] == [] + [a[0]];
    JoinOneMore(front, last);
    JoinOneMore(a + front, last);
    assert b == front + [last] && a + b == a + front + [last];
    if front != [] {
      DiffJoinsLines(a, front);
      var x, y := JoinLines(a), JoinLines(front);
      assert x + ("\n" + y) + "\n" + last == x + ("\n" + (y + "\n" + last));
    } else {
      assert a + front == a;
      assert JoinLines(a) + "\n" + last == JoinLines(a) + ("\n" + last);
      NoLines();
    }
    NoLines();
  }

  lemma NoLines()
    ensures JoinLines([]) == ""
  {
  }

  lemma {:induction false} LinesAreFileByFile(t: Tools, changes: map<string, Pair>, a: seq<string>, b: seq<string>)
    requires forall f :: f in a || f in b ==> f in changes
    ensures Lines(t, changes, a + b) == Lines(t, changes, a) + Lines(t, changes, b)
    ensures |b| == 1 ==> Lines(t, changes, b) == t.render(b[0], changes[b[0]])
  {
    if b == [] {
      assert a + b == a;
    } else {
      var front := b[..|b| - 1];
      LinesAreFileByFile(t, changes, a, front);
      assert (a + b)[..|a + b| - 1] == a + front;
    }
  }

  lemma {:induction false} TrimmedIsTheFront(line: string)
    ensures TrimBreaks(line) <= line
    ensures forall k | |TrimBreaks(line)| <= k < |line| :: line[k] in {'\n', '\r'}
  {
    if line != "" && line[|line| - 1] in {'\n', '\r'} { TrimmedIsTheFront(line[..|line| - 1]); }
  }

  /** A line counts exactly when it starts with the mark and not with three of them; what
      breaks it ends in does not matter. */
  lemma CountsExactlyWhen(line: string, mark: char)
    requires mark !in {'\n', '\r'}
    ensures Counts(line, mark)
            <==> line != "" && line[0] == mark && !(|line| >= 3 && line[1] == mark && line[2] == mark)
  {
    TrimmedIsTheFront(line);
    var s := TrimBreaks(line);
    if |line| >= 3 && line[0] == line[1] == line[2] == mark { assert |s| >= 3 && s[..3] == [mark, mark, mark]; }
    if [mark, mark, mark] <= s { assert s[..3] == [mark, mark, mark] && s[1] == [mark, mark, mark][1]; }
  }

  lemma {:induction false} CountedLines(lines: seq<string>, mark: char)
    ensures CountLines(lines, mark) == |set i | 0 <= i < |lines| && Counts(lines[i], mark)|
  {
    hide Counts;
    var all := set i | 0 <= i < |lines| && Counts(lines[i], mark);
    if lines != [] {
      var n := |lines| - 1;
      CountedLines(lines[..n], mark);
      var before := set i | 0 <= i < |lines[..n]| && Counts(lines[..n][i], mark);
      assert all == if Counts(lines[n], mark) then before + {n} else before;
    }
  }

  // ---------- The check ----------

  function CurrentPairs(head: Tree, disk: Tree, files: seq<string>): map<string, Pair> {
    map f | f in files :: Pair(Get(head, f), Get(disk, f))
  }

  predicate HasBaseline(head: Tree, files: seq<string>) { exists f :: f in files && Get(head, f) != "" }

  /** What `verify_workspace_drift` answers. */
  ghost predicate NoDrift(t: Tools, present: bool, head: Tree, disk: Tree, diff: string, hash: string,
                          files: seq<string>)
  {
    hash == "" ||
    (hash == t.hash(diff) &&
     (present && HasBaseline(head, files) ==> t.hash(DiffText(t, CurrentPairs(head, disk, files))) == hash))
  }

  method VerifyWorkspaceDrift(t: Tools, present: bool, head: Tree, disk: Tree, diff: string, hash: string,
                              files: seq<string>, order: seq<string>) returns (ok: bool)
    requires order == SortedKeys(set f | f in files)
    ensures ok <==> NoDrift(t, present, head, disk, diff, hash, files)
  {
    if hash == "" { return true; }
    if hash != t.hash(diff) { return false; }
    if !present { return true; }
    var changes: map<string, Pair> := map[];
    var baseline := false;
    for i := 0 to |files|
      invariant changes == CurrentPairs(head, disk, files[..i])
      invariant baseline <==> HasBaseline(head, files[..i])
    {
      var f := files[i];
      assert files[..i + 1] == files[..i] + [f];
      assert Get(head, f) != "" ==> HasBaseline(head, files[..i + 1]);
      assert forall g :: g in files[..i] && Get(head, g) != "" ==> HasBaseline(head, files[..i + 1]);
      if Get(head, f) != "" { baseline := true; }
      changes := changes[f := Pair(Get(head, f), Get(disk, f))];
    }
    assert files[..|files|] == files;
    if baseline {
      assert changes.Keys == set f | f in files;
      var text, added, deleted := ComputeDiff(t, changes, order);
      return t.hash(text) == hash;
    }
    return true;
  }

  /** With a hash that does not collide, passing means exactly this: the hash is
      that of the approved text, and the listed files show that text now unless
      there is no workspace or no listed file was ever committed. */
  lemma PassesExactlyWhen(t: Tools, present: bool, head: Tree, disk: Tree, diff: string, hash: string,
                          files: seq<string>)
    requires Collisionless(t.hash) && hash != ""
    ensures NoDrift(t, present, head, disk, diff, hash, files)
            <==> hash == t.hash(diff)
                 && (!present || !HasBaseline(head, files) || DiffText(t, CurrentPairs(head, disk, files)) == diff)
  {
  }

  /** What the check reads for each listed path. */
  function Seen(env: Env, disk: Tree, files: seq<string>): Tree { map f | f in files :: Get(disk, env.locate(f)) }

  /** Preparation followed at once by the check. */
  ghost predicate PreparedPasses(t: Tools, env: Env, head: Tree, disk: Tree, patches: seq<FilePatch>,
                                 files: seq<string>)
    requires ApplyAll(env, head, disk, patches).Applied?
  {
    var r := ApplyAll(env, head, disk, patches);
    var diff := DiffText(t, r.pairs);
    NoDrift(t, true, head, Seen(env, r.disk, files), diff, t.hash(diff), files)
  }

  ghost predicate ListsThePairs(r: Result, files: seq<string>) {
    r.Applied? && forall f :: f in files <==> f in r.pairs
  }

  /** The check looks for every listed path where preparation resolves it to, and
      no two of them lead to one file. */
  ghost predicate Plain(env: Env, files: seq<string>) {
    && (forall f :: f in files ==> env.resolve(f) == Some(env.locate(f)))
    && (forall f, g :: f in files && g in files && env.locate(f) == env.locate(g) ==> f == g)
  }

  /** For plain paths the pairs differ from what the check computes in nothing but
      the committed text of exceptional files. */
  lemma PairsAreWhatIsSeen(env: Env, head: Tree, disk: Tree, patches: seq<FilePatch>, files: seq<string>, f: string)
    requires ListsThePairs(ApplyAll(env, head, disk, patches), files) && Plain(env, files) && f in files
    ensures var r := ApplyAll(env, head, disk, patches);
            var current := CurrentPairs(head, Seen(env, r.disk, files), files);
            && r.pairs[f].after == current[f].after
            && (r.pairs[f].before == current[f].before <==> !Exceptional(head, patches, f))
  {
    forall p | p in patches ensures p.path in files {
      PatchedPathsAreListed(patches, p);
      PairsAreHeadAndDisk(env, head, disk, patches, p.path);
    }
    assert OneSpelling(env, patches, f);
    PairsAreHeadAndDisk(env, head, disk, patches, f);
  }

  /** Without an exceptional file the prepared pairs are the ones the check
      computes, so an untouched workspace with plain paths never reports drift. */
  lemma UntouchedWorkspacePasses(t: Tools, env: Env, head: Tree, disk: Tree, patches: seq<FilePatch>,
                                 files: seq<string>)
    requires Collisionless(t.hash) && ListsThePairs(ApplyAll(env, head, disk, patches), files) && Plain(env, files)
    requires !HasBaseline(head, files) || forall f :: f in files ==> !Exceptional(head, patches, f)
    ensures PreparedPasses(t, env, head, disk, patches, files)
  {
    var r := ApplyAll(env, head, disk, patches);
    var current := CurrentPairs(head, Seen(env, r.disk, files), files);
    if HasBaseline(head, files) {
      forall f | f in files ensures r.pairs[f] == current[f] {
        PairsAreWhatIsSeen(env, head, disk, patches, files, f);
      }
      assert r.pairs == current;
    }
  }

  /** What difflib's text is for: knowing the files after the change, one can read
      off the text what they were before, and the other way round. */
  ghost predicate ReadsBack(t: Tools) {
    forall a: map<string, Pair>, b: map<string, Pair>
      | a.Keys == b.Keys && SameAfter(a, b) && DiffText(t, a) == DiffText(t, b) :: a == b
  }

  ghost predicate ReadsForward(t: Tools) {
    forall a: map<string, Pair>, b: map<string, Pair>
      | a.Keys == b.Keys && SameBefore(a, b) && DiffText(t, a) == DiffText(t, b) :: a == b
  }

  predicate SameAfter(a: map<string, Pair>, b: map<string, Pair>) {
    forall f | f in a && f in b :: a[f].after == b[f].after
  }

  predicate SameBefore(a: map<string, Pair>, b: map<string, Pair>) {
    forall f | f in a && f in b :: a[f].before == b[f].before
  }

  /** With plain paths, an untouched workspace passes if and only if none of the
      listed files was ever committed, or none of them got its last patch as a
      snippet without committed content to apply it to. */
  lemma UntouchedPassesExactlyWhen(t: Tools, env: Env, head: Tree, disk: Tree, patches: seq<FilePatch>,
                                   files: seq<string>)
    requires Collisionless(t.hash) && ReadsBack(t)
    requires ListsThePairs(ApplyAll(env, head, disk, patches), files) && Plain(env, files)
    ensures PreparedPasses(t, env, head, disk, patches, files)
            <==> !HasBaseline(head, files) || forall f :: f in files ==> !Exceptional(head, patches, f)
  {
    if !HasBaseline(head, files) || forall f :: f in files ==> !Exceptional(head, patches, f) {
      UntouchedWorkspacePasses(t, env, head, disk, patches, files);
    } else {
      var f :| f in files && Exceptional(head, patches, f);
      ExceptionalPairDiffers(t, env, head, disk, patches, files, f);
    }
  }

  lemma ExceptionalPairDiffers(t: Tools, env: Env, head: Tree, disk: Tree, patches: seq<FilePatch>,
                               files: seq<string>, f: string)
    requires ReadsBack(t) && ListsThePairs(ApplyAll(env, head, disk, patches), files) && Plain(env, files)
    requires f in files && Exceptional(head, patches, f)
    ensures var r := ApplyAll(env, head, disk, patches);
            DiffText(t, r.pairs) != DiffText(t, CurrentPairs(head, Seen(env, r.disk, files), files))
  {
    var r := ApplyAll(env, head, disk, patches);
    var current := CurrentPairs(head, Seen(env, r.disk, files), files);
    forall g | g in files ensures r.pairs[g].after == current[g].after {
      PairsAreWhatIsSeen(env, head, disk, patches, files, g);
    }
    PairsAreWhatIsSeen(env, head, disk, patches, files, f);
    assert r.pairs[f] != current[f];
    assert r.pairs.Keys == current.Keys && SameAfter(r.pairs, current);
  }

  /** Without an exceptional file the pairs differ from what the check computes in
      nothing but the text after the change, where a path is looked for elsewhere. */
  lemma UnexceptionalPairs(env: Env, head: Tree, disk: Tree, patches: seq<FilePatch>, files: seq<string>)
    requires ListsThePairs(ApplyAll(env, head, disk, patches), files)
    requires forall f :: f in files ==> !Exceptional(head, patches, f)
    ensures var r := ApplyAll(env, head, disk, patches);
            var current := CurrentPairs(head, Seen(env, r.disk, files), files);
            && r.pairs.Keys == current.Keys && SameBefore(r.pairs, current)
            && (r.pairs == current <==> forall f :: f in files ==> Get(r.disk, env.locate(f)) == r.pairs[f].after)
  {
    var r := ApplyAll(env, head, disk, patches);
    var current := CurrentPairs(head, Seen(env, r.disk, files), files);
    forall f | f in files
      ensures r.pairs[f].before == current[f].before && current[f].after == Get(r.disk, env.locate(f))
    {
      PairsAreHeadAndDisk(env, head, disk, patches, f);
    }
    hide ApplyAll, PairSound;
    if r.pairs != current {
      var f :| f in r.pairs && r.pairs[f] != current[f];
      assert f in files;
    }
  }

  /** Paths in any spelling, but no exceptional file: an untouched workspace passes
      if and only if none of the listed files was ever committed, or the check
      finds the prepared text of every listed path where it looks for it. */
  lemma UnexceptionalPassesExactlyWhen(t: Tools, env: Env, head: Tree, disk: Tree, patches: seq<FilePatch>,
                                       files: seq<string>)
    requires Collisionless(t.hash) && ReadsForward(t) && ListsThePairs(ApplyAll(env, head, disk, patches), files)
    requires forall f :: f in files ==> !Exceptional(head, patches, f)
    ensures var r := ApplyAll(env, head, disk, patches);
            PreparedPasses(t, env, head, disk, patches, files)
            <==> !HasBaseline(head, files) || forall f :: f in files ==> Get(r.disk, env.locate(f)) == r.pairs[f].after
  {
    UnexceptionalPairs(env, head, disk, patches, files);
    hide ApplyAll, Exceptional, CurrentPairs, Seen, SameBefore, HasBaseline, DiffText;
    var r := ApplyAll(env, head, disk, patches);
    var current := CurrentPairs(head, Seen(env, r.disk, files), files);
    assert DiffText(t, r.pairs) == DiffText(t, current) <==> r.pairs == current;
  }

  /** One round of preparation for a file that a patch changes as a snippet, all of it. */
  lemma SnippetRound(env: Env, head: Tree, d: Tree, pairs: map<string, Pair>, p: FilePatch, h: string)
    requires env.resolve(p.path) == Some(p.path) && |p.path| < 3 && p.original == Get(d, p.path) != ""
    requires Get(head, p.path) == h && h in {"", p.original}
    ensures ApplyOne(env, head, d, pairs, p)
         == Applied(d[p.path := p.updated], pairs[p.path := Pair(p.original, p.updated)])
  {
    WholeTextReplaced(env.parses, p.original, p);
  }

  lemma TwoPatches(env: Env, head: Tree, disk: Tree, p: FilePatch, q: FilePatch)
    ensures ApplyAll(env, head, disk, [p, q]) ==
            match ApplyOne(env, head, disk, map[], p)
            case Refused(d) => Refused(d)
            case Applied(d, pairs) => ApplyOne(env, head, d, pairs, q)
  {
    assert [p, q][..1] == [p] && [p][..0] == [];
    assert ApplyAll(env, head, disk, [p]) == ApplyOne(env, head, disk, map[], p);
  }

  lemma TrackedAndUntracked(env: Env, p: FilePatch, q: FilePatch)
    requires env.resolve("a") == Some("a") && env.resolve("b") == Some("b")
    requires p == FilePatch("a", "x", "z") && q == FilePatch("b", "y", "w")
    ensures ApplyAll(env, map["a" := "x"], map["a" := "x", "b" := "y"], [p, q])
         == Applied(map["a" := "z", "b" := "w"], map["a" := Pair("x", "z"), "b" := Pair("y", "w")])
  {
    var head, disk := map["a" := "x"], map["a" := "x", "b" := "y"];
    hide ApplyOne, ApplyAll;
    SnippetRound(env, head, disk, map[], p, "x");
    SnippetRound(env, head, disk["a" := "z"], map["a" := Pair("x", "z")], q, "");
    TwoPatches(env, head, disk, p, q);
  }

  lemma TrackedAndPadded(env: Env, p: FilePatch, q: FilePatch)
    requires env.resolve("a") == Some("a") && env.resolve(" b") == Some("b")
    requires p == FilePatch("a", "x", "z") && q == FilePatch(" b", "", "w")
    ensures ApplyAll(env, map["a" := "x"], map["a" := "x"], [p, q])
         == Applied(map["a" := "z", "b" := "w"], map["a" := Pair("x", "z"), " b" := Pair("", "w")])
  {
    var tree := map["a" := "x"];
    SnippetRound(env, tree, tree, map[], p, "x");
    TwoPatches(env, tree, tree, p, q);
    assert !IsPython(" b");
    assert ApplyOne(env, tree, tree["a" := "z"], map["a" := Pair("x", "z")], q)
        == Applied(map["a" := "z", "b" := "w"], map["a" := Pair("x", "z"), " b" := Pair("", "w")]);
    hide ApplyOne, ApplyAll;
  }

  /** So it happens: one snippet patch on an uncommitted file beside one on a
      committed file, and a workspace that nobody touched is refused as drifted. */
  lemma ExceptionalFileReportsDrift(t: Tools, env: Env)
    requires Collisionless(t.hash) && ReadsBack(t)
    requires env.resolve("a") == Some("a") && env.resolve("b") == Some("b")
    requires env.locate("a") == "a" && env.locate("b") == "b"
    ensures var head, disk := map["a" := "x"], map["a" := "x", "b" := "y"];
            var patches := [FilePatch("a", "x", "z"), FilePatch("b", "y", "w")];
            ApplyAll(env, head, disk, patches).Applied? && !PreparedPasses(t, env, head, disk, patches, ["a", "b"])
  {
    var head, disk := map["a" := "x"], map["a" := "x", "b" := "y"];
    var p, q, files := FilePatch("a", "x", "z"), FilePatch("b", "y", "w"), ["a", "b"];
    hide ApplyOne, ApplyAll, NoDrift;
    TrackedAndUntracked(env, p, q);
    assert Get(head, "a") == "x" && "a" in files && HasBaseline(head, files);
    assert LastOn([p, q], "b") == Some(q);
    assert Exceptional(head, [p, q], "b") && "b" in files;
    UntouchedPassesExactlyWhen(t, env, head, disk, [p, q], files);
  }

  /** And it happens with a padded path: preparation trims it and writes the file,
      the check looks for a file whose name starts with a blank. */
  lemma PaddedPathReportsDrift(t: Tools, env: Env)
    requires Collisionless(t.hash) && ReadsForward(t)
    requires env.resolve("a") == Some("a") && env.resolve(" b") == Some("b")
    requires env.locate("a") == "a" && env.locate(" b") == " b"
    ensures var tree := map["a" := "x"]; var patches := [FilePatch("a", "x", "z"), FilePatch(" b", "", "w")];
            var files := ["a", " b"];
            && ApplyAll(env, tree, tree, patches).Applied? && !PreparedPasses(t, env, tree, tree, patches, files)
            && forall f :: f in files ==> !Exceptional(tree, patches, f)
  {
    var tree, files := map["a" := "x"], ["a", " b"];
    var p, q := FilePatch("a", "x", "z"), FilePatch(" b", "", "w");
    hide ApplyOne, ApplyAll, NoDrift;
    TrackedAndPadded(env, p, q);
    assert Get(tree, "a") == "x" && "a" in files && HasBaseline(tree, files);
    assert LastOn([p, q], " b") == Some(q) && !Exceptional(tree, [p, q], " b");
    assert !Exceptional(tree, [p, q], "a") by { assert Get(tree, "a") != ""; }
    assert " b" in files;
    UnexceptionalPassesExactlyWhen(t, env, tree, tree, [p, q], files);
  }
}
