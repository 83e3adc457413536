/** The pre-flight check of the quality pipeline, which applies each patch again
    to the workspace as it is, after the developer node has already written it. */
module AstCheck {
  import opened Options
  import opened Patcher
  import opened Snapshots
  import QualityGate

  datatype Verdict = Fits | UnsafePath | SnippetMissing | BadPython

  function Judge(env: Env, disk: Disk, p: FilePatch): Verdict {
    match env.resolve(p.path)
    case None => UnsafePath
    case Some(f) =>
      if ApplyPatch(env.parses, Read(disk, f), p).Some? then Fits
      else if IsPython(p.path) then BadPython
      else SnippetMissing
  }

  predicate AnyIs(env: Env, disk: Disk, patches: seq<FilePatch>, v: Verdict) {
    exists i :: 0 <= i < |patches| && Judge(env, disk, patches[i]) == v
  }

  /** The check's result: it fails when any patch does not fit, and names the
      patch, and not Python, as the cause when no Python file is at fault. */
  function Finding(env: Env, disk: Disk, patches: seq<FilePatch>): QualityGate.Finding {
    var python := AnyIs(env, disk, patches, BadPython);
    var other := AnyIs(env, disk, patches, UnsafePath) || AnyIs(env, disk, patches, SnippetMissing);
    QualityGate.Finding(if python || other then QualityGate.FAIL else QualityGate.PASS, other && !python, false)
  }

  method CheckAst(env: Env, disk: Disk, patches: seq<FilePatch>) returns (r: QualityGate.Finding, errors: nat)
    ensures r == Finding(env, disk, patches)
    ensures errors == 0 <==> r.status.PASS?
  {
    errors := 0;
    var pythonFailure, patchFailure := false, false;
    for i := 0 to |patches|
      invariant pythonFailure <==> exists j :: 0 <= j < i && Judge(env, disk, patches[j]) == BadPython
      invariant patchFailure <==> exists j :: 0 <= j < i && Judge(env, disk, patches[j]) in {UnsafePath, SnippetMissing}
      invariant errors == 0 <==> !pythonFailure && !patchFailure
    {
      var p := patches[i];
      var resolved := env.resolve(p.path);
      if resolved.None? {
        errors, patchFailure := errors + 1, true;
      } else {
        var applied := ApplyPatch(env.parses, Read(disk, resolved.value), p);
        if applied.None? {
          errors := errors + 1;
          if IsPython(p.path) { pythonFailure := true; } else { patchFailure := true; }
        }
      }
    }
    var status := if errors > 0 then QualityGate.FAIL else QualityGate.PASS;
    r := QualityGate.Finding(status, patchFailure && !pythonFailure, false);
  }

  /** No safe path, or a patch that is invalid for the file as it is. */
  ghost predicate Bad(env: Env, disk: Disk, p: FilePatch) {
    env.resolve(p.path).None? || Invalid(env.parses, Read(disk, env.resolve(p.path).value), p)
  }

  /** The check fails exactly for a bad patch, and lays it on the patch alone exactly when no
      bad patch of a Python file had a safe path. */
  lemma CheckFailsExactlyWhen(env: Env, disk: Disk, patches: seq<FilePatch>)
    ensures var f := Finding(env, disk, patches);
            && (f.status == QualityGate.FAIL <==> exists p :: p in patches && Bad(env, disk, p))
            && f.status in {QualityGate.FAIL, QualityGate.PASS}
            && (f.patchFailure <==>
                  f.status == QualityGate.FAIL
                  && forall p :: p in patches && IsPython(p.path) && Bad(env, disk, p) ==> env.resolve(p.path).None?)
            && !f.timeout
  {
    hide Invalid, ApplyPatch, IsPython;
    forall p ensures Judge(env, disk, p) == if !Bad(env, disk, p) then Fits
                                            else if env.resolve(p.path).None? then UnsafePath
                                            else if IsPython(p.path) then BadPython else SnippetMissing {
      var f := env.resolve(p.path);
      if f.Some? { RefusedExactlyWhenInvalid(env.parses, Read(disk, f.value), p); }
    }
    hide Judge, Bad;
    FoundExactlyWhen(env, disk, patches, BadPython);
    FoundExactlyWhen(env, disk, patches, UnsafePath);
    FoundExactlyWhen(env, disk, patches, SnippetMissing);
    hide AnyIs;
  }

  lemma FoundExactlyWhen(env: Env, disk: Disk, patches: seq<FilePatch>, v: Verdict)
    ensures AnyIs(env, disk, patches, v) <==> exists p :: p in patches && Judge(env, disk, p) == v
  {
    hide Judge;
    if p :| p in patches && Judge(env, disk, p) == v {
      var i :| 0 <= i < |patches| && patches[i] == p;
    }
  }

  // ---------- After the developer node has written the batch ----------

  function Edited(source: string, p: FilePatch): string {
    if p.original == "" then p.updated else ReplaceFirst(source, p.original, p.updated)
  }

  /** The text that a batch leaves in a file, each patch of that file editing what
      the patches before it left. */
  function LeftText(env: Env, source: string, patches: seq<FilePatch>, f: File): string {
    if patches == [] then source
    else
      var n := |patches| - 1;
      var before := LeftText(env, source, patches[..n], f);
      if env.writable(f) && env.resolve(patches[n].path) == Some(f) then Edited(before, patches[n]) else before
  }

  lemma {:induction false} BatchLeavesText(env: Env, s: Session, patches: seq<FilePatch>, f: File)
    requires PatchAll(env, s, patches).ending.Done?
    ensures Read(PatchAll(env, s, patches).s.disk, f) == LeftText(env, Read(s.disk, f), patches, f)
  {
    if patches != [] {
      BatchLeavesText(env, s, patches[..|patches| - 1], f);
    }
  }

  /** Each patch of a batch that was written resolved, and a whole-file one was accepted. */
  lemma {:induction false} WrittenPatchesWereValid(env: Env, s: Session, patches: seq<FilePatch>, k: nat)
    requires PatchAll(env, s, patches).ending.Done? && k < |patches|
    ensures env.resolve(patches[k].path).Some?
    ensures patches[k].original == "" ==> IsPython(patches[k].path) ==> env.parses(patches[k].updated)
  {
    var n := |patches| - 1;
    if k < n {
      WrittenPatchesWereValid(env, s, patches[..n], k);
    } else {
      assert TryPatch(env, PatchAll(env, s, patches[..n]).s, patches[n]).1.Done?;
    }
  }

  /** The snippet is still in `text` and, in Python, replacing it once more parses. */
  ghost predicate SnippetStillFits(env: Env, text: string, p: FilePatch) {
    && (exists i: nat :: Occurs(text, p.original, i))
    && (IsPython(p.path) ==> env.parses(ReplaceFirst(text, p.original, p.updated)))
  }

  lemma JudgedByTheText(env: Env, disk: Disk, p: FilePatch, f: File)
    requires ResolvesTo(env, p.path, f) && p.original != ""
    ensures Judge(env, disk, p).Fits? <==> SnippetStillFits(env, Read(disk, f), p)
  {
    IndexOfIsFirst(Read(disk, f), p.original);
  }

  /** A whole-file patch, or one whose snippet still fits the text that the batch
      leaves in its file. */
  ghost predicate StillFits(env: Env, start: Disk, patches: seq<FilePatch>, p: FilePatch) {
    p.original != "" ==>
      forall f | ResolvesTo(env, p.path, f) :: SnippetStillFits(env, LeftText(env, Read(start, f), patches, f), p)
  }

  lemma JudgedAfterTheBatch(env: Env, s: Session, patches: seq<FilePatch>, k: nat)
    requires PatchAll(env, s, patches).ending.Done? && k < |patches|
    ensures Judge(env, PatchAll(env, s, patches).s.disk, patches[k]).Fits?
            <==> StillFits(env, s.disk, patches, patches[k])
  {
    WrittenPatchesWereValid(env, s, patches, k);
    var p := patches[k];
    if p.original != "" {
      hide PatchAll, Judge, LeftText, SnippetStillFits;
      var f := env.resolve(p.path).value;
      BatchLeavesText(env, s, patches, f);
      JudgedByTheText(env, PatchAll(env, s, patches).s.disk, p, f);
    }
  }

  /** The check accepts a batch that the developer node has just written if and
      only if each snippet of it still occurs in the text that the whole batch
      leaves in its file and, in Python, replacing it once more still parses. */
  lemma WrittenBatchPassesExactlyWhen(env: Env, s: Session, patches: seq<FilePatch>)
    requires PatchAll(env, s, patches).ending.Done?
    ensures Finding(env, PatchAll(env, s, patches).s.disk, patches).status.PASS?
            <==> forall p :: p in patches ==> StillFits(env, s.disk, patches, p)
  {
    hide PatchAll, Judge, StillFits;
    var disk := PatchAll(env, s, patches).s.disk;
    forall k | 0 <= k < |patches|
      ensures Judge(env, disk, patches[k]).Fits? <==> StillFits(env, s.disk, patches, patches[k])
    {
      JudgedAfterTheBatch(env, s, patches, k);
    }
    PassesWhenAllFit(env, disk, patches);
  }

  lemma PassesWhenAllFit(env: Env, disk: Disk, patches: seq<FilePatch>)
    ensures Finding(env, disk, patches).status.PASS?
            <==> forall k | 0 <= k < |patches| :: Judge(env, disk, patches[k]).Fits?
  {
    if k :| 0 <= k < |patches| && !Judge(env, disk, patches[k]).Fits? {
      assert AnyIs(env, disk, patches, Judge(env, disk, patches[k]));
    }
  }

  /** For one snippet patch alone, in terms of the text it was made for: with the
      snippet first at `i`, it must occur again in the text with that place replaced. */
  lemma WrittenPatchFitsExactlyWhen(env: Env, s: Session, p: FilePatch, f: File, i: nat)
    requires ResolvesTo(env, p.path, f) && env.writable(f) && p.original != "" && !IsPython(p.path)
    requires IndexOf(Read(s.disk, f), p.original) == Some(i) && PatchAll(env, s, [p]).ending.Done?
    ensures i + |p.original| <= |Read(s.disk, f)|
    ensures Finding(env, PatchAll(env, s, [p]).s.disk, [p]).status.PASS?
            <==> exists j: nat :: Occurs(Splice(Read(s.disk, f), i, |p.original|, p.updated), p.original, j)
  {
    var source := Read(s.disk, f);
    ReplaceFirstAt(source, p.original, p.updated);
    assert [p][..0] == [] && LeftText(env, source, [p], f) == ReplaceFirst(source, p.original, p.updated);
    WrittenBatchPassesExactlyWhen(env, s, [p]);
    assert p in [p] && (StillFits(env, s.disk, [p], p) <==> SnippetStillFits(env, LeftText(env, source, [p], f), p));
  }

  /** So the ordinary replacement of a file's text by one that no longer holds it
      is written and then fails the check as a patch that does not apply. */
  lemma ReplacementFailsItsOwnCheck(env: Env, s: Session, p: FilePatch, f: File)
    requires ResolvesTo(env, p.path, f) && env.writable(f) && !IsPython(p.path)
    requires p.original != "" && Read(s.disk, f) == p.original
    requires IndexOf(p.updated, p.original).None? && !env.wrapper(p.updated)
    ensures var o := PatchAll(env, s, [p]);
            o.ending.Done? && Finding(env, o.s.disk, [p]) == QualityGate.Finding(QualityGate.FAIL, true, false)
  {
    var a := p.original;
    assert a[|a|..] == "" && p.updated + "" == p.updated;
    assert [p][..0] == [] && [p][0] == p;
    var t := TryPatch(env, s, p).0;
    assert PatchAll(env, s, [p]).s == t && t.disk[f] == p.updated;
    assert Judge(env, t.disk, [p][0]) == SnippetMissing;
  }

  /** The fallback's batch of whole files: it never fails for a missing snippet, and
      passes if and only if every Python file in it parses. */
  lemma FallbackPassesExactlyWhen(env: Env, s: Session, changes: seq<FileChange>)
    requires Materialize(env, s, changes).ending.Done?
    ensures var o := Materialize(env, s, changes);
            Finding(env, o.s.disk, o.batch).status.PASS?
            <==> forall ch | ch in changes && ch.content != "" && IsPython(ch.path) :: env.parses(ch.content)
  {
    var o := Materialize(env, s, changes);
    forall k | 0 <= k < |o.batch|
      ensures Judge(env, o.s.disk, o.batch[k]).Fits?
              <==> (IsPython(o.batch[k].path) ==> env.parses(o.batch[k].updated))
      ensures exists ch :: ch in changes && ch.content != "" && o.batch[k] == FilePatch(ch.path, "", ch.content)
    {
      NoChangeVanishes(env, s, changes, o.batch[k]);
      var ch :| ch in changes && ch.content != "" && o.batch[k] == FilePatch(ch.path, "", ch.content);
      WrittenChangesResolve(env, s, changes, ch);
    }
    PassesWhenAllFit(env, o.s.disk, o.batch);
    forall ch | ch in changes && ch.content != "" ensures FilePatch(ch.path, "", ch.content) in o.batch {
      NoChangeVanishes(env, s, changes, FilePatch(ch.path, "", ch.content));
    }
    if Finding(env, o.s.disk, o.batch).status.PASS? {
      forall ch | ch in changes && ch.content != "" && IsPython(ch.path) ensures env.parses(ch.content) {
        var k :| 0 <= k < |o.batch| && o.batch[k] == FilePatch(ch.path, "", ch.content);
        assert Judge(env, o.s.disk, o.batch[k]).Fits?;
      }
    }
  }

  lemma {:induction false} WrittenChangesResolve(env: Env, s: Session, changes: seq<FileChange>, ch: FileChange)
    requires Materialize(env, s, changes).ending.Done? && ch in changes && ch.content != ""
    ensures env.resolve(ch.path).Some?
  {
    var n := |changes| - 1;
    if ch in changes[..n] {
      WrittenChangesResolve(env, s, changes[..n], ch);
    } else {
      assert ch == changes[n];
    }
  }
}
