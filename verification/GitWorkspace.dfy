/** Diff preparation and the drift check before a commit: two computations over
    the committed tree and the working tree that must agree. */
module GitWorkspace {
  import opened Options
  import opened Texts
  import opened Patcher

  /** Path to content; a missing file reads as the empty text. A committed tree is
      looked up by the path as it is written, a working tree by the file that a
      path leads to. */
  type Tree = map<string, string>

  function Get(t: Tree, path: string): string { if path in t then t[path] else "" }

  /** Before and after of one file. */
  datatype Pair = Pair(before: string, after: string)

  /** The Python parser; where preparation reads and writes a generated path, which
      it trims and resolves first, if that is inside the repository; and where the
      drift check looks for the path as it is written. */
  datatype Env = Env(parses: string -> bool, resolve: string -> Option<string>, locate: string -> string)

  // ---------- One file ----------

  predicate IsWholeFile(p: FilePatch) { p.original == "" }

  /** The text a patch is diffed against: the committed one, or for a snippet
      patch on a file without one, what is on disk. */
  function Before(h: string, c: string, p: FilePatch): string {
    if IsWholeFile(p) && c != "" then h else if h == "" then c else h
  }

  /** The file after one patch; `h` is committed, `c` on disk. A file that
      already differs from its commit is trusted as it is. */
  function After(parses: string -> bool, h: string, c: string, p: FilePatch): Option<string> {
    if IsWholeFile(p) && c != "" then Some(c)
    else if c != "" && c != Before(h, c, p) then Some(c)
    else ApplyPatch(parses, Before(h, c, p), p)
  }

  /** The file after all the patches on it. */
  function FileRun(parses: string -> bool, h: string, c: string, ps: seq<FilePatch>): Option<string> {
    if ps == [] then Some(c)
    else match FileRun(parses, h, c, ps[..|ps| - 1])
      case None => None
      case Some(m) => After(parses, h, m, ps[|ps| - 1])
  }

  // ---------- All files ----------

  /** Refusal raises; what was written before it stays written. */
  datatype Result = Applied(disk: Tree, pairs: map<string, Pair>) | Refused(disk: Tree)

  function ApplyAll(env: Env, head: Tree, disk: Tree, patches: seq<FilePatch>): Result {
    if patches == [] then Applied(disk, map[])
    else match ApplyAll(env, head, disk, patches[..|patches| - 1])
      case Refused(d) => Refused(d)
      case Applied(d, pairs) => ApplyOne(env, head, d, pairs, patches[|patches| - 1])
  }

  function ApplyOne(env: Env, head: Tree, d: Tree, pairs: map<string, Pair>, p: FilePatch): Result {
    match env.resolve(p.path)
    case None => Refused(d)
    case Some(f) =>
      var h, c := Get(head, p.path), Get(d, f);
      match After(env.parses, h, c, p)
      case None => Refused(d)
      case Some(after) => Applied(d[f := after], pairs[p.path := Pair(Before(h, c, p), after)])
  }

  /** The body of the loop in `apply_patches`. Nothing is written when the file is trusted. */
  method PreparePatch(env: Env, head: Tree, disk: Tree, pairs: map<string, Pair>, p: FilePatch) returns (r: Result)
    ensures r == ApplyOne(env, head, disk, pairs, p)
  {
    var resolved := env.resolve(p.path);
    if resolved.None? { return Refused(disk); }
    var file := resolved.value;
    var original, current := Get(head, p.path), Get(disk, file);
    var d, patched := disk, current;
    if !(IsWholeFile(p) && current != "") {
      if original == "" { original := current; }
      if current == "" || current == original {
        var validation := ApplyPatch(env.parses, original, p);
        if validation.None? { return Refused(disk); }
        patched := validation.value;
        d := disk[file := patched];
      }
    }
    assert current != "" ==> disk[file := current] == disk;
    r := Applied(d, pairs[p.path := Pair(original, patched)]);
  }

  method ApplyPatches(env: Env, head: Tree, disk: Tree, patches: seq<FilePatch>) returns (r: Result)
    ensures r == ApplyAll(env, head, disk, patches)
  {
    r := Applied(disk, map[]);
    var i := 0;
    while i < |patches|
      invariant 0 <= i <= |patches| && r.Applied?
      invariant r == ApplyAll(env, head, disk, patches[..i])
    {
      assert patches[..i + 1][..i] == patches[..i];
      r := PreparePatch(env, head, r.disk, r.pairs, patches[i]);
      if r.Refused? {
        RefusedEarly(env, head, disk, patches, i);
        return;
      }
      i := i + 1;
    }
    assert patches[..i] == patches;
  }

  lemma {:induction false} RefusedEarly(env: Env, head: Tree, disk: Tree, patches: seq<FilePatch>, i: nat)
    requires i < |patches| && ApplyAll(env, head, disk, patches[..i + 1]).Refused?
    ensures ApplyAll(env, head, disk, patches) == ApplyAll(env, head, disk, patches[..i + 1])
    decreases |patches|
  {
    var n := |patches| - 1;
    if i == n {
      assert patches[..i + 1] == patches;
    } else {
      assert patches[..n][..i + 1] == patches[..i + 1];
      RefusedEarly(env, head, disk, patches[..n], i);
    }
  }

  // ---------- What preparation does to a file ----------

  /** Preparation keeps what is on disk: a whole-file patch on a file that has text,
      or a snippet patch on a file that already differs from its commit. */
  predicate Trusted(h: string, c: string, p: FilePatch) { c != "" && (IsWholeFile(p) || (h != "" && c != h)) }

  /** The text a snippet is looked for in: the committed one, or what is on disk if there is none. */
  function Baseline(h: string, c: string): string { if h == "" then c else h }

  /** A patch that cannot be applied to a file that is not trusted: its snippet is
      nowhere in the baseline, or what it makes is Python that does not parse. */
  ghost predicate CannotApply(parses: string -> bool, h: string, c: string, p: FilePatch) {
    !Trusted(h, c, p) && Invalid(parses, Baseline(h, c), p)
  }

  /** Exactly when a patch is refused, and what a file holds otherwise. */
  lemma AfterMeaning(parses: string -> bool, h: string, c: string, p: FilePatch)
    ensures var r := After(parses, h, c, p);
            && (r == None <==> CannotApply(parses, h, c, p))
            && (r.Some? ==> if Trusted(h, c, p) then r.value == c else Yields(Baseline(h, c), p, r.value))
  {
    if !Trusted(h, c, p) {
      RefusedExactlyWhenInvalid(parses, Baseline(h, c), p);
      if IsWholeFile(p) { WholeFileIgnoresSource(parses, Baseline(h, c), h, p); }
      assert After(parses, h, c, p) == ApplyPatch(parses, Baseline(h, c), p);
    }
    hide ApplyPatch, Invalid, Yields;
  }

  /** Patch `k`, where its turn comes, has no safe path or cannot be applied. */
  ghost predicate RefusedAt(env: Env, head: Tree, disk: Tree, patches: seq<FilePatch>, k: nat)
    requires k < |patches|
  {
    var before, p := ApplyAll(env, head, disk, patches[..k]), patches[k];
    before.Applied? &&
    match env.resolve(p.path)
    case None => true
    case Some(f) => CannotApply(env.parses, Get(head, p.path), Get(before.disk, f), p)
  }

  /** A preparation is refused if and only if some patch is when its turn comes;
      what the patches before it have written stays. */
  lemma {:induction false} RefusedExactlyWhen(env: Env, head: Tree, disk: Tree, patches: seq<FilePatch>)
    ensures ApplyAll(env, head, disk, patches).Refused?
            <==> exists k: nat :: k < |patches| && RefusedAt(env, head, disk, patches, k)
    ensures forall k: nat | k < |patches| && RefusedAt(env, head, disk, patches, k) ::
              ApplyAll(env, head, disk, patches) == Refused(ApplyAll(env, head, disk, patches[..k]).disk)
  {
    if patches != [] {
      var n, before := |patches| - 1, patches[..|patches| - 1];
      RefusedExactlyWhen(env, head, disk, before);
      LastTurn(env, head, disk, patches);
      hide ApplyAll;
      forall k: nat | k < n
        ensures before[..k] == patches[..k]
        ensures RefusedAt(env, head, disk, patches, k) <==> RefusedAt(env, head, disk, before, k)
      {
        assert before[..k] == patches[..k] && before[k] == patches[k];
      }
      hide RefusedAt;
    }
  }

  lemma LastTurn(env: Env, head: Tree, disk: Tree, patches: seq<FilePatch>)
    requires patches != []
    ensures var n, r := |patches| - 1, ApplyAll(env, head, disk, patches);
            var before := ApplyAll(env, head, disk, patches[..n]);
            if before.Refused? then r == before && !RefusedAt(env, head, disk, patches, n)
            else (r.Refused? <==> RefusedAt(env, head, disk, patches, n))
                 && (RefusedAt(env, head, disk, patches, n) ==> r == Refused(before.disk))
  {
    var p := patches[|patches| - 1];
    var before := ApplyAll(env, head, disk, patches[..|patches| - 1]);
    var f := env.resolve(p.path);
    if before.Applied? && f.Some? {
      AfterMeaning(env.parses, Get(head, p.path), Get(before.disk, f.value), p);
      hide After, CannotApply;
    }
  }

  /** A missing snippet in a committed file, for one. */
  lemma MissingSnippetIsRefused(env: Env, tree: Tree, p: FilePatch)
    requires env.resolve(p.path) == Some(p.path) && p.original != "" && Get(tree, p.path) != ""
    requires forall i: nat :: !Occurs(Get(tree, p.path), p.original, i)
    ensures ApplyAll(env, tree, tree, [p]) == Refused(tree)
  {
    assert [p][..0] == [] && RefusedAt(env, tree, tree, [p], 0);
    RefusedExactlyWhen(env, tree, tree, [p]);
  }

  // ---------- The pairs ----------

  function LastOn(patches: seq<FilePatch>, path: string): Option<FilePatch> {
    if patches == [] then None
    else if patches[|patches| - 1].path == path then Some(patches[|patches| - 1])
    else LastOn(patches[..|patches| - 1], path)
  }

  /** A snippet patch on a file with no committed text. */
  predicate Exceptional(head: Tree, patches: seq<FilePatch>, path: string) {
    var last := LastOn(patches, path);
    last.Some? && !IsWholeFile(last.value) && Get(head, path) == ""
  }

  lemma {:induction false} EmptyTextHasNoSnippet(w: string)
    requires w != ""
    ensures IndexOf("", w) == None
  {
  }

  /** No patch reaches the file of `path` under another spelling. */
  ghost predicate OneSpelling(env: Env, patches: seq<FilePatch>, path: string) {
    forall p :: p in patches && env.resolve(p.path) == env.resolve(path) ==> p.path == path
  }

  ghost predicate PairSound(env: Env, head: Tree, r: Result, patches: seq<FilePatch>, path: string)
    requires r.Applied?
  {
    if path in r.pairs then
      && LastOn(patches, path).Some? && env.resolve(path).Some?
      && (r.pairs[path].before == Get(head, path) <==> !Exceptional(head, patches, path))
      && (OneSpelling(env, patches, path) ==>
            env.resolve(path).value in r.disk && r.pairs[path].after == r.disk[env.resolve(path).value])
    else LastOn(patches, path).None?
  }

  lemma OnePairSound(env: Env, head: Tree, r: Result, patches: seq<FilePatch>, p: FilePatch, path: string)
    requires r.Applied? && PairSound(env, head, r, patches, path)
    requires ApplyOne(env, head, r.disk, r.pairs, p).Applied?
    ensures PairSound(env, head, ApplyOne(env, head, r.disk, r.pairs, p), patches + [p], path)
  {
    assert (patches + [p])[..|patches|] == patches && p in patches + [p];
    assert forall q :: q in patches ==> q in patches + [p];
    if p.path == path {
      EmptyTextHasNoSnippet(if p.original == "" then "x" else p.original);
    } else {
      hide After, Before;
      assert LastOn(patches + [p], path) == LastOn(patches, path);
    }
  }

  /** After preparation every pair starts with what is committed exactly when the
      file is not exceptional, and ends in what is on disk where its path leads,
      unless another spelling leads there too. */
  lemma {:induction false} PairsAreHeadAndDisk(env: Env, head: Tree, disk: Tree, patches: seq<FilePatch>, path: string)
    requires ApplyAll(env, head, disk, patches).Applied?
    ensures PairSound(env, head, ApplyAll(env, head, disk, patches), patches, path)
  {
    if patches != [] {
      hide PairSound, ApplyOne;
      var before, p := patches[..|patches| - 1], patches[|patches| - 1];
      PairsAreHeadAndDisk(env, head, disk, before, path);
      OnePairSound(env, head, ApplyAll(env, head, disk, before), before, p, path);
      assert before + [p] == patches;
    }
  }

  lemma {:induction false} PatchedPathsAreListed(patches: seq<FilePatch>, p: FilePatch)
    requires p in patches
    ensures LastOn(patches, p.path).Some?
  {
    var n := |patches| - 1;
    if patches[n] != p { PatchedPathsAreListed(patches[..n], p); }
  }

  // ---------- File by file ----------

  /** The file after patches that name it in any spelling, each with the committed text of its own. */
  function FileRunBy(parses: string -> bool, head: Tree, c: string, ps: seq<FilePatch>): Option<string> {
    if ps == [] then Some(c)
    else match FileRunBy(parses, head, c, ps[..|ps| - 1])
      case None => None
      case Some(m) => After(parses, Get(head, ps[|ps| - 1].path), m, ps[|ps| - 1])
  }

  lemma {:induction false} SameCommittedText(parses: string -> bool, head: Tree, h: string, c: string,
                                             ps: seq<FilePatch>)
    requires forall p :: p in ps ==> Get(head, p.path) == h
    ensures FileRunBy(parses, head, c, ps) == FileRun(parses, h, c, ps)
  {
    if ps != [] { SameCommittedText(parses, head, h, c, ps[..|ps| - 1]); }
  }

  function OnFile(env: Env, patches: seq<FilePatch>, f: string): seq<FilePatch> {
    if patches == [] then []
    else
      var n := |patches| - 1;
      OnFile(env, patches[..n], f) + if env.resolve(patches[n].path) == Some(f) then [patches[n]] else []
  }

  predicate RunSound(env: Env, head: Tree, disk: Tree, r: Result, ps: seq<FilePatch>, f: string)
    requires r.Applied?
  {
    && (f in r.disk <==> ps != [] || f in disk)
    && FileRunBy(env.parses, head, Get(disk, f), ps) == Some(Get(r.disk, f))
  }

  /** The whole preparation is the per-file ones side by side. */
  predicate FileSound(env: Env, head: Tree, disk: Tree, r: Result, patches: seq<FilePatch>, f: string)
    requires r.Applied?
  {
    RunSound(env, head, disk, r, OnFile(env, patches, f), f)
  }

  lemma FileRunExtends(parses: string -> bool, h: string, c: string, ps: seq<FilePatch>, p: FilePatch)
    ensures FileRun(parses, h, c, ps + [p]) ==
            match FileRun(parses, h, c, ps) case None => None case Some(m) => After(parses, h, m, p)
  {
    assert (ps + [p])[..|ps|] == ps;
  }

  lemma FileRunByExtends(parses: string -> bool, head: Tree, c: string, ps: seq<FilePatch>, p: FilePatch)
    ensures FileRunBy(parses, head, c, ps + [p]) ==
            match FileRunBy(parses, head, c, ps)
            case None => None
            case Some(m) => After(parses, Get(head, p.path), m, p)
  {
    assert (ps + [p])[..|ps|] == ps;
  }

  lemma OnFileExtends(env: Env, patches: seq<FilePatch>, f: string)
    requires patches != []
    ensures var p := patches[|patches| - 1]; var ps := OnFile(env, patches[..|patches| - 1], f);
            OnFile(env, patches, f) == if env.resolve(p.path) == Some(f) then ps + [p] else ps
  {
    var ps := OnFile(env, patches[..|patches| - 1], f);
    assert ps + [] == ps;
  }

  lemma {:induction false} FilesAreIndependent(env: Env, head: Tree, disk: Tree, patches: seq<FilePatch>, f: string)
    requires ApplyAll(env, head, disk, patches).Applied?
    ensures FileSound(env, head, disk, ApplyAll(env, head, disk, patches), patches, f)
  {
    if patches != [] {
      var before, p := patches[..|patches| - 1], patches[|patches| - 1];
      FilesAreIndependent(env, head, disk, before, f);
      OnFileExtends(env, patches, f);
      var r := ApplyAll(env, head, disk, before);
      OneKeepsSound(env, head, disk, r, OnFile(env, before, f), p, f);
    }
  }

  lemma OneKeepsSound(env: Env, head: Tree, disk: Tree, r: Result, ps: seq<FilePatch>, p: FilePatch, f: string)
    requires r.Applied? && RunSound(env, head, disk, r, ps, f)
    requires ApplyOne(env, head, r.disk, r.pairs, p).Applied?
    ensures var longer := if env.resolve(p.path) == Some(f) then ps + [p] else ps;
            RunSound(env, head, disk, ApplyOne(env, head, r.disk, r.pairs, p), longer, f)
  {
    FileRunByExtends(env.parses, head, Get(disk, f), ps, p);
  }

  predicate FileRuns(env: Env, head: Tree, disk: Tree, patches: seq<FilePatch>, f: string) {
    FileRunBy(env.parses, head, Get(disk, f), OnFile(env, patches, f)).Some?
  }

  /** Conversely, preparation succeeds when every path resolves and no file's own run fails. */
  lemma {:induction false} AppliedWhenFilesRun(env: Env, head: Tree, disk: Tree, patches: seq<FilePatch>)
    requires forall p :: p in patches ==> env.resolve(p.path).Some?
    requires forall p :: p in patches ==> FileRuns(env, head, disk, patches, env.resolve(p.path).value)
    ensures ApplyAll(env, head, disk, patches).Applied?
  {
    if patches != [] {
      var before, p := patches[..|patches| - 1], patches[|patches| - 1];
      forall q | q in before ensures FileRuns(env, head, disk, before, env.resolve(q.path).value) {
        ShorterRun(env, head, disk, patches, env.resolve(q.path).value);
      }
      AppliedWhenFilesRun(env, head, disk, before);
      var f := env.resolve(p.path).value;
      FilesAreIndependent(env, head, disk, before, f);
      OnFileExtends(env, patches, f);
      FileRunByExtends(env.parses, head, Get(disk, f), OnFile(env, before, f), p);
      assert FileRuns(env, head, disk, patches, f);
    }
  }

  lemma ShorterRun(env: Env, head: Tree, disk: Tree, patches: seq<FilePatch>, f: string)
    requires patches != [] && FileRuns(env, head, disk, patches, f)
    ensures FileRuns(env, head, disk, patches[..|patches| - 1], f)
  {
    var before, p := patches[..|patches| - 1], patches[|patches| - 1];
    OnFileExtends(env, patches, f);
    FileRunByExtends(env.parses, head, Get(disk, f), OnFile(env, before, f), p);
  }

  // ---------- Preparing twice ----------

  // One tracked file: a text other than the committed one is never touched again.

  lemma {:induction false} DirtyStays(parses: string -> bool, h: string, c: string, ps: seq<FilePatch>)
    requires h != "" && c != "" && c != h
    ensures FileRun(parses, h, c, ps) == Some(c)
  {
    if ps != [] { DirtyStays(parses, h, c, ps[..|ps| - 1]); }
  }

  /** As long as a run has not made the file dirty, a run from the committed text
      is at the same text or still at the committed one. */
  lemma {:induction false} RunFromCommitted(parses: string -> bool, h: string, c: string, ps: seq<FilePatch>)
    requires h != "" && FileRun(parses, h, c, ps) in {Some(""), Some(h)}
    ensures FileRun(parses, h, h, ps) in {FileRun(parses, h, c, ps), Some(h)}
  {
    if ps != [] {
      var before, last := ps[..|ps| - 1], ps[|ps| - 1];
      var m := FileRun(parses, h, c, before).value;
      assert m != "" && m != h ==> After(parses, h, m, last) == Some(m);
      RunFromCommitted(parses, h, c, before);
    }
  }

  lemma {:induction false} FileRunSplits(parses: string -> bool, h: string, c: string, ps: seq<FilePatch>, k: nat)
    requires k <= |ps|
    ensures FileRun(parses, h, c, ps) ==
            match FileRun(parses, h, c, ps[..k]) case None => None case Some(m) => FileRun(parses, h, m, ps[k..])
    decreases |ps|
  {
    hide After;
    if k == |ps| {
      assert ps[..k] == ps;
    } else {
      var init, last := ps[..|ps| - 1], ps[|ps| - 1];
      FileRunSplits(parses, h, c, init, k);
      assert init[..k] == ps[..k];
      assert ps[k..] == init[k..] + [last];
      var m := FileRun(parses, h, c, ps[..k]);
      if m.Some? { FileRunExtends(parses, h, m.value, init[k..], last); }
    }
  }

  /** How many whole-file patches come before the first snippet patch. */
  function Leading(ps: seq<FilePatch>): (n: nat)
    ensures n <= |ps|
    ensures forall i | 0 <= i < n :: IsWholeFile(ps[i])
    ensures n < |ps| ==> !IsWholeFile(ps[n])
  {
    if ps == [] || !IsWholeFile(ps[0]) then 0 else 1 + Leading(ps[1..])
  }

  lemma {:induction false} WholeFilesTrustText(parses: string -> bool, h: string, c: string, ps: seq<FilePatch>)
    requires c != "" && forall i | 0 <= i < |ps| :: IsWholeFile(ps[i])
    ensures FileRun(parses, h, c, ps) == Some(c)
  {
    if ps != [] { WholeFilesTrustText(parses, h, c, ps[..|ps| - 1]); }
  }

  lemma SnippetForgets(parses: string -> bool, h: string, a: string, b: string, ps: seq<FilePatch>)
    requires h != "" && ps != [] && !IsWholeFile(ps[0])
    requires a in {"", h} && b in {"", h}
    ensures FileRun(parses, h, a, ps) == FileRun(parses, h, b, ps)
  {
    FileRunSplits(parses, h, a, ps, 1);
    FileRunSplits(parses, h, b, ps, 1);
    assert ps[..1][..0] == [];
    assert FileRun(parses, h, a, ps[..1]) == ApplyPatch(parses, h, ps[0]) == FileRun(parses, h, b, ps[..1]);
  }

  /** Preparing a tracked file again gives the same text, except in one case: the
      first run emptied it, and the whole-file patches that lead, run on an empty
      file, leave something else than nothing or the committed text. */
  lemma RerunOfTrackedFile(parses: string -> bool, h: string, c: string, f: string, ps: seq<FilePatch>)
    requires h != "" && FileRun(parses, h, c, ps) == Some(f)
    ensures FileRun(parses, h, f, ps) == Some(f)
            <==> f != "" || FileRun(parses, h, "", ps[..Leading(ps)]) in {Some(""), Some(h)}
  {
    if f == h {
      RunFromCommitted(parses, h, c, ps);
    } else if f != "" {
      DirtyStays(parses, h, f, ps);
    } else {
      RerunOfEmptiedFile(parses, h, c, ps);
    }
  }

  lemma RerunOfEmptiedFile(parses: string -> bool, h: string, c: string, ps: seq<FilePatch>)
    requires h != "" && FileRun(parses, h, c, ps) == Some("")
    ensures FileRun(parses, h, "", ps) == Some("")
            <==> FileRun(parses, h, "", ps[..Leading(ps)]) in {Some(""), Some(h)}
  {
    var lead := Leading(ps);
    var first, again := FileRun(parses, h, c, ps[..lead]), FileRun(parses, h, "", ps[..lead]);
    FileRunSplits(parses, h, c, ps, lead);
    FileRunSplits(parses, h, "", ps, lead);
    if first.value != "" && first.value != h { DirtyStays(parses, h, first.value, ps[lead..]); }
    if again.Some? && again.value != "" && again.value != h { DirtyStays(parses, h, again.value, ps[lead..]); }
    if lead == |ps| {
      assert ps[..lead] == ps;
      if c != "" { WholeFilesTrustText(parses, h, c, ps); }
    } else if again in {Some(""), Some(h)} {
      SnippetForgets(parses, h, first.value, again.value, ps[lead..]);
    }
  }

  /** The exceptional case happens: a whole-file patch that the first run skips,
      because the file is as committed, is written by the second. */
  lemma EmptiedFileIsRefilled(parses: string -> bool, h: string, u: string)
    requires h != "" && u != "" && u != h
    ensures var ps := [FilePatch("a", "", u), FilePatch("a", h, "")];
            FileRun(parses, h, h, ps) == Some("") && FileRun(parses, h, "", ps) == Some(u)
  {
    var p, q := FilePatch("a", "", u), FilePatch("a", h, "");
    assert [p, q][..1] == [p] && [p][..0] == [];
    WholeTextReplaced(parses, h, q);
    assert FileRun(parses, h, h, [p]) == Some(h) && FileRun(parses, h, "", [p]) == Some(u);
  }

  /** A tracked file that a second run leaves alone. */
  predicate Settled(env: Env, head: Tree, disk: Tree, patches: seq<FilePatch>, path: string)
    requires env.resolve(path).Some?
  {
    var f, h := env.resolve(path).value, Get(head, path);
    var ps := OnFile(env, patches, f);
    Get(disk, f) != "" || FileRun(env.parses, h, "", ps[..Leading(ps)]) in {Some(""), Some(h)}
  }

  /** Patches of files that are committed, each file in one spelling. */
  ghost predicate OnTrackedFiles(env: Env, head: Tree, patches: seq<FilePatch>) {
    forall p :: p in patches ==> Get(head, p.path) != "" && OneSpelling(env, patches, p.path)
  }

  ghost predicate AllSettled(env: Env, head: Tree, disk: Tree, patches: seq<FilePatch>) {
    forall p :: p in patches ==> env.resolve(p.path).Some? && Settled(env, head, disk, patches, p.path)
  }

  /** The texts prepared from tracked files stand, in the working tree and in the
      pairs, if and only if no file is left empty whose leading whole-file patches
      would fill it again with something else than the committed text. */
  lemma PreparingTwiceIsStable(env: Env, head: Tree, disk: Tree, patches: seq<FilePatch>)
    requires ApplyAll(env, head, disk, patches).Applied? && OnTrackedFiles(env, head, patches)
    ensures var r := ApplyAll(env, head, disk, patches);
            ApplyAll(env, head, r.disk, patches) == r <==> AllSettled(env, head, r.disk, patches)
  {
    var r := ApplyAll(env, head, disk, patches);
    if AllSettled(env, head, r.disk, patches) { SettledFilesStand(env, head, disk, patches); }
    if ApplyAll(env, head, r.disk, patches) == r {
      forall p | p in patches ensures env.resolve(p.path).Some? && Settled(env, head, r.disk, patches, p.path) {
        PreparedFileResolves(env, head, disk, patches, p);
        RerunOfPreparedFile(env, head, disk, patches, p);
        FilesAreIndependent(env, head, r.disk, patches, env.resolve(p.path).value);
      }
    }
  }

  lemma PreparedFileResolves(env: Env, head: Tree, disk: Tree, patches: seq<FilePatch>, p: FilePatch)
    requires ApplyAll(env, head, disk, patches).Applied? && p in patches
    ensures env.resolve(p.path).Some?
  {
    PairsAreHeadAndDisk(env, head, disk, patches, p.path);
    PatchedPathsAreListed(patches, p);
  }

  /** The patches of a file in one spelling have the committed text of that spelling. */
  lemma {:induction false} OnFileComesFromPatches(env: Env, patches: seq<FilePatch>, f: string)
    ensures forall p :: p in OnFile(env, patches, f) <==> p in patches && env.resolve(p.path) == Some(f)
  {
    if patches != [] {
      var before, p := patches[..|patches| - 1], patches[|patches| - 1];
      OnFileComesFromPatches(env, before, f);
      OnFileExtends(env, patches, f);
      assert forall q :: q in patches <==> q in before || q == p;
    }
  }

  /** The second run of one file, from what the first left. */
  lemma RerunOfPreparedFile(env: Env, head: Tree, disk: Tree, patches: seq<FilePatch>, p: FilePatch)
    requires ApplyAll(env, head, disk, patches).Applied? && OnTrackedFiles(env, head, patches)
    requires p in patches && env.resolve(p.path).Some?
    ensures var r := ApplyAll(env, head, disk, patches); var f := env.resolve(p.path).value;
            FileRunBy(env.parses, head, Get(r.disk, f), OnFile(env, patches, f)) == Some(Get(r.disk, f))
            <==> Settled(env, head, r.disk, patches, p.path)
  {
    var r := ApplyAll(env, head, disk, patches);
    var f, h := env.resolve(p.path).value, Get(head, p.path);
    var ps := OnFile(env, patches, f);
    OnFileComesFromPatches(env, patches, f);
    assert forall q :: q in ps ==> Get(head, q.path) == h;
    SameCommittedText(env.parses, head, h, Get(disk, f), ps);
    SameCommittedText(env.parses, head, h, Get(r.disk, f), ps);
    FilesAreIndependent(env, head, disk, patches, f);
    RerunOfTrackedFile(env.parses, h, Get(disk, f), Get(r.disk, f), ps);
  }

  lemma SettledFilesStand(env: Env, head: Tree, disk: Tree, patches: seq<FilePatch>)
    requires ApplyAll(env, head, disk, patches).Applied? && OnTrackedFiles(env, head, patches)
    requires AllSettled(env, head, ApplyAll(env, head, disk, patches).disk, patches)
    ensures var r := ApplyAll(env, head, disk, patches); ApplyAll(env, head, r.disk, patches) == r
  {
    hide ApplyAll, Settled;
    var r := ApplyAll(env, head, disk, patches);
    forall p | p in patches ensures FileRuns(env, head, r.disk, patches, env.resolve(p.path).value) {
      RerunOfPreparedFile(env, head, disk, patches, p);
    }
    AppliedWhenFilesRun(env, head, r.disk, patches);
    var r' := ApplyAll(env, head, r.disk, patches);
    forall f ensures f in r'.disk <==> f in r.disk ensures f in r.disk ==> r'.disk[f] == r.disk[f] {
      SameFileTwice(env, head, disk, patches, f);
    }
    forall path
      ensures path in r'.pairs <==> path in r.pairs
      ensures path in r.pairs ==> r'.pairs[path] == r.pairs[path]
    {
      SamePairTwice(env, head, disk, patches, path);
    }
    assert r'.disk == r.disk && r'.pairs == r.pairs;
  }

  lemma SameFileTwice(env: Env, head: Tree, disk: Tree, patches: seq<FilePatch>, f: string)
    requires ApplyAll(env, head, disk, patches).Applied? && OnTrackedFiles(env, head, patches)
    requires var r := ApplyAll(env, head, disk, patches);
             ApplyAll(env, head, r.disk, patches).Applied? && AllSettled(env, head, r.disk, patches)
    ensures var r := ApplyAll(env, head, disk, patches); var r' := ApplyAll(env, head, r.disk, patches);
            (f in r'.disk <==> f in r.disk) && (f in r.disk ==> r'.disk[f] == r.disk[f])
  {
    var r := ApplyAll(env, head, disk, patches);
    var ps := OnFile(env, patches, f);
    FilesAreIndependent(env, head, disk, patches, f);
    FilesAreIndependent(env, head, r.disk, patches, f);
    if ps != [] {
      OnFileComesFromPatches(env, patches, f);
      assert ps[0] in ps;
      RerunOfPreparedFile(env, head, disk, patches, ps[0]);
    }
  }

  lemma {:induction false} LastOnComesFromPatches(patches: seq<FilePatch>, path: string)
    ensures LastOn(patches, path).Some? ==>
              LastOn(patches, path).value in patches && LastOn(patches, path).value.path == path
  {
    if patches != [] { LastOnComesFromPatches(patches[..|patches| - 1], path); }
  }

  lemma SamePairTwice(env: Env, head: Tree, disk: Tree, patches: seq<FilePatch>, path: string)
    requires ApplyAll(env, head, disk, patches).Applied? && OnTrackedFiles(env, head, patches)
    requires var r := ApplyAll(env, head, disk, patches);
             ApplyAll(env, head, r.disk, patches).Applied? && AllSettled(env, head, r.disk, patches)
    ensures var r := ApplyAll(env, head, disk, patches); var r' := ApplyAll(env, head, r.disk, patches);
            (path in r'.pairs <==> path in r.pairs) && (path in r.pairs ==> r'.pairs[path] == r.pairs[path])
  {
    var r := ApplyAll(env, head, disk, patches);
    PairsAreHeadAndDisk(env, head, disk, patches, path);
    PairsAreHeadAndDisk(env, head, r.disk, patches, path);
    LastOnComesFromPatches(patches, path);
    if path in r.pairs { SameFileTwice(env, head, disk, patches, env.resolve(path).value); }
  }
}
