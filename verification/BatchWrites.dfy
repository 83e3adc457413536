/** How the two write loops end, what they leave on the disk, and which contents they
    snapshot: read off the patches and changes themselves. */
module BatchWrites {
  import opened Options
  import opened Patcher
  import opened Snapshots

  // ---------- A batch of exact patches ----------

  /** No safe path, an invalid patch, or a wrapper in the text it makes. */
  ghost predicate Unfit(env: Env, disk: Disk, p: FilePatch) {
    match env.resolve(p.path)
    case None => true
    case Some(f) =>
      || Invalid(env.parses, Read(disk, f), p)
      || exists text :: Yields(Read(disk, f), p, text) && env.wrapper(text)
  }

  /** The first patch of the batch that does not fit where its turn comes. */
  ghost predicate StopsAt(env: Env, s: Session, patches: seq<FilePatch>, k: nat)
    requires k < |patches|
  {
    var before := PatchAll(env, s, patches[..k]);
    before.ending.Done? && Unfit(env, before.s.disk, patches[k])
  }

  /** What is fatal about it: an unsafe path, or an invalid patch of a Python file. */
  ghost predicate Fatal(env: Env, disk: Disk, p: FilePatch) {
    env.resolve(p.path).None? || (IsPython(p.path) && Invalid(env.parses, Read(disk, env.resolve(p.path).value), p))
  }

  lemma OnePatchEnds(env: Env, s: Session, p: FilePatch)
    ensures var (t, ending) := TryPatch(env, s, p);
            && (ending == Done <==> !Unfit(env, s.disk, p))
            && (ending == Crashed <==> Fatal(env, s.disk, p))
            && (ending != Done ==> t.disk == s.disk)
  {
    var f := env.resolve(p.path);
    if f.Some? {
      RefusedExactlyWhenInvalid(env.parses, Read(s.disk, f.value), p);
      YieldsOneText(Read(s.disk, f.value), p);
    }
    hide Invalid, Yields, ApplyPatch;
  }

  lemma LastPatch(env: Env, s: Session, patches: seq<FilePatch>)
    requires patches != []
    ensures var n, r := |patches| - 1, PatchAll(env, s, patches);
            var before := PatchAll(env, s, patches[..n]);
            if StopsAt(env, s, patches, n) then
              && before.ending == Done && r.s.disk == before.s.disk && r.batch == []
              && r.ending == if Fatal(env, before.s.disk, patches[n]) then Crashed else Recoverable
            else if before.ending == Done then r.ending == Done && r.batch == patches
            else r == before
  {
    OnePatchEnds(env, PatchAll(env, s, patches[..|patches| - 1]).s, patches[|patches| - 1]);
    hide Unfit, Fatal, TryPatch;
  }

  lemma StopsAlike(env: Env, s: Session, patches: seq<FilePatch>, n: nat, k: nat)
    requires k < n <= |patches|
    ensures patches[..n][..k] == patches[..k]
    ensures StopsAt(env, s, patches, k) <==> StopsAt(env, s, patches[..n], k)
  {
    assert patches[..n][..k] == patches[..k];
    hide PatchAll, Unfit;
  }

  lemma {:induction false} BatchStops(env: Env, s: Session, patches: seq<FilePatch>, k: nat)
    requires k < |patches| && StopsAt(env, s, patches, k)
    ensures var r, disk := PatchAll(env, s, patches), PatchAll(env, s, patches[..k]).s.disk;
            && r.s.disk == disk && r.batch == []
            && r.ending == if Fatal(env, disk, patches[k]) then Crashed else Recoverable
  {
    hide StopsAt, Fatal, PatchAll;
    var n := |patches| - 1;
    LastPatch(env, s, patches);
    if k < n {
      StopsAlike(env, s, patches, n, k);
      BatchStops(env, s, patches[..n], k);
    }
  }

  lemma {:induction false} BatchHasAStop(env: Env, s: Session, patches: seq<FilePatch>) returns (k: nat)
    requires PatchAll(env, s, patches).ending != Done
    ensures k < |patches| && StopsAt(env, s, patches, k)
  {
    hide StopsAt, Fatal;
    var n := |patches| - 1;
    LastPatch(env, s, patches);
    k := n;
    if !StopsAt(env, s, patches, n) {
      k := BatchHasAStop(env, s, patches[..n]);
      StopsAlike(env, s, patches, n, k);
    }
  }

  /** A batch is written to its end if and only if every patch fits where its turn comes.
      Otherwise nothing is written from the first one on that does not, no batch is handed
      on, and the visit crashes or can recover by what is wrong with that patch. */
  lemma BatchEndsExactlyWhen(env: Env, s: Session, patches: seq<FilePatch>)
    ensures var r := PatchAll(env, s, patches);
            && (r.ending == Done <==> forall k: nat | k < |patches| :: !StopsAt(env, s, patches, k))
            && (r.ending == Done ==> r.batch == patches)
    ensures forall k: nat | k < |patches| && StopsAt(env, s, patches, k) ::
              var r, disk := PatchAll(env, s, patches), PatchAll(env, s, patches[..k]).s.disk;
              && r.s.disk == disk && r.batch == []
              && r.ending == if Fatal(env, disk, patches[k]) then Crashed else Recoverable
  {
    if patches != [] { LastPatch(env, s, patches); }
    forall k: nat | k < |patches| && StopsAt(env, s, patches, k)
      ensures var r, disk := PatchAll(env, s, patches), PatchAll(env, s, patches[..k]).s.disk;
              && r.s.disk == disk && r.batch == []
              && r.ending == if Fatal(env, disk, patches[k]) then Crashed else Recoverable
    {
      BatchStops(env, s, patches, k);
    }
    if PatchAll(env, s, patches).ending != Done { var k := BatchHasAStop(env, s, patches); }
    hide StopsAt, Fatal;
  }

  // ---------- A batch of whole files ----------

  predicate Blocked(env: Env, ch: FileChange) {
    ch.content != "" &&
    match env.resolve(ch.path)
    case None => true
    case Some(f) => env.wrapper(ch.content) || !env.writable(f)
  }

  predicate FirstBlocked(env: Env, changes: seq<FileChange>, k: nat)
    requires k < |changes|
  {
    Blocked(env, changes[k]) && forall j | 0 <= j < k :: !Blocked(env, changes[j])
  }

  lemma OneChangeEnds(env: Env, s: Session, ch: FileChange)
    ensures var (t, ending) := TryChange(env, s, ch);
            if Blocked(env, ch) then
              && t.disk == s.disk
              && ending == if env.resolve(ch.path).Some? && env.wrapper(ch.content) then Recoverable else Crashed
            else ending == Done
  {
  }

  /** The fallback writes every change with content unless one of them is blocked, and stops
      at the first that is: for good, unless its content is a wrapper. */
  lemma {:induction false} FallbackEndsExactlyWhen(env: Env, s: Session, changes: seq<FileChange>)
    ensures Materialize(env, s, changes).ending == Done <==> forall k | 0 <= k < |changes| :: !Blocked(env, changes[k])
    ensures forall k: nat | k < |changes| && FirstBlocked(env, changes, k) ::
              var r, ch := Materialize(env, s, changes), changes[k];
              && r.s.disk == Materialize(env, s, changes[..k]).s.disk && r.batch == []
              && r.ending == if env.resolve(ch.path).Some? && env.wrapper(ch.content) then Recoverable else Crashed
  {
    if changes != [] {
      var n, before := |changes| - 1, changes[..|changes| - 1];
      FallbackEndsExactlyWhen(env, s, before);
      OneChangeEnds(env, Materialize(env, s, before).s, changes[n]);
      hide TryChange, Blocked;
      forall k: nat | k < n
        ensures before[..k] == changes[..k] && before[k] == changes[k]
        ensures FirstBlocked(env, changes, k) ==> FirstBlocked(env, before, k)
      {
      }
    }
  }

  /** The last change with content to a file is what the file holds. */
  lemma {:induction false} LastChangeStands(env: Env, s: Session, changes: seq<FileChange>, k: nat, f: File)
    requires Materialize(env, s, changes).ending.Done? && k < |changes|
    requires changes[k].content != "" && ResolvesTo(env, changes[k].path, f)
    requires forall j | k < j < |changes| :: changes[j].content == "" || !ResolvesTo(env, changes[j].path, f)
    ensures Materialize(env, s, changes).s.disk[f := changes[k].content] == Materialize(env, s, changes).s.disk
  {
    var n := |changes| - 1;
    if k < n {
      LastChangeStands(env, s, changes[..n], k, f);
    }
  }

  lemma {:induction false} OtherFilesStay(env: Env, s: Session, changes: seq<FileChange>, f: File)
    requires forall j | 0 <= j < |changes| :: changes[j].content == "" || !ResolvesTo(env, changes[j].path, f)
    ensures Content(Materialize(env, s, changes).s.disk, f) == Content(s.disk, f)
  {
    if changes != [] { OtherFilesStay(env, s, changes[..|changes| - 1], f); }
  }

  // ---------- The immediate snapshots ----------

  /** A patch or a change that has a safe path replaces the immediate snapshot and sets
      the original one if there is none. */
  ghost predicate Snapped(env: Env, s: Session, t: Session, path: string) {
    match env.resolve(path)
    case None => t == s
    case Some(f) =>
      && t.pre == s.pre[path := Read(s.disk, f)]
      && t.originals == if path in s.originals then s.originals else s.originals[path := Read(s.disk, f)]
  }

  lemma PatchSnaps(env: Env, s: Session, p: FilePatch)
    ensures Snapped(env, s, TryPatch(env, s, p).0, p.path)
  {
    hide ApplyPatch;
  }

  lemma ChangeSnaps(env: Env, s: Session, ch: FileChange)
    ensures if ch.content == "" then TryChange(env, s, ch).0 == s else Snapped(env, s, TryChange(env, s, ch).0, ch.path)
  {
  }

  lemma LastPatchSnaps(env: Env, s: Session, patches: seq<FilePatch>, path: string)
    requires patches != []
    ensures var n := |patches| - 1;
            var before, after := PatchAll(env, s, patches[..n]), PatchAll(env, s, patches).s;
            if before.ending.Done? && path == patches[n].path && env.resolve(path).Some?
            then Content(after.pre, path) == Some(Read(before.s.disk, env.resolve(path).value))
            else Content(after.pre, path) == Content(before.s.pre, path)
                 && Content(after.originals, path) == Content(before.s.originals, path)
  {
    PatchSnaps(env, PatchAll(env, s, patches[..|patches| - 1]).s, patches[|patches| - 1]);
    hide TryPatch, Read;
  }

  /** After a batch the immediate snapshot of a path is the text that the last patch under
      that path found; a path that no patch names has the one it had. */
  lemma {:induction false} SnapshotIsWhatTheLastPatchFound(env: Env, s: Session, patches: seq<FilePatch>, k: nat,
                                                           f: File)
    requires k < |patches| && ResolvesTo(env, patches[k].path, f)
    requires PatchAll(env, s, patches[..k]).ending.Done?
    requires forall j | k < j < |patches| :: patches[j].path != patches[k].path
    ensures Content(PatchAll(env, s, patches).s.pre, patches[k].path)
            == Some(Read(PatchAll(env, s, patches[..k]).s.disk, f))
  {
    hide PatchAll, Read, Content;
    var n := |patches| - 1;
    LastPatchSnaps(env, s, patches, patches[k].path);
    if k < n {
      assert patches[..n][..k] == patches[..k];
      SnapshotIsWhatTheLastPatchFound(env, s, patches[..n], k, f);
    }
  }

  lemma {:induction false} OtherSnapshotsStay(env: Env, s: Session, patches: seq<FilePatch>, path: string)
    requires forall j | 0 <= j < |patches| :: patches[j].path != path
    ensures var r := PatchAll(env, s, patches).s;
            && Content(r.pre, path) == Content(s.pre, path) && Content(r.originals, path) == Content(s.originals, path)
  {
    if patches != [] {
      OtherSnapshotsStay(env, s, patches[..|patches| - 1], path);
      LastPatchSnaps(env, s, patches, path);
    }
    hide TryPatch, Read;
  }

  lemma LastChangeSnaps(env: Env, s: Session, changes: seq<FileChange>, path: string)
    requires changes != []
    ensures var n := |changes| - 1;
            var before, after := Materialize(env, s, changes[..n]), Materialize(env, s, changes).s;
            if before.ending.Done? && path == changes[n].path && changes[n].content != "" && env.resolve(path).Some?
            then Content(after.pre, path) == Some(Read(before.s.disk, env.resolve(path).value))
            else Content(after.pre, path) == Content(before.s.pre, path)
                 && Content(after.originals, path) == Content(before.s.originals, path)
  {
    ChangeSnaps(env, Materialize(env, s, changes[..|changes| - 1]).s, changes[|changes| - 1]);
    hide TryChange, Read;
  }

  /** The same for the fallback. */
  lemma {:induction false} SnapshotIsWhatTheLastChangeFound(env: Env, s: Session, changes: seq<FileChange>, k: nat,
                                                            f: File)
    requires k < |changes| && ResolvesTo(env, changes[k].path, f) && changes[k].content != ""
    requires Materialize(env, s, changes[..k]).ending.Done?
    requires forall j | k < j < |changes| :: changes[j].content == "" || changes[j].path != changes[k].path
    ensures Content(Materialize(env, s, changes).s.pre, changes[k].path)
            == Some(Read(Materialize(env, s, changes[..k]).s.disk, f))
  {
    hide Materialize, Read, Content;
    var n := |changes| - 1;
    LastChangeSnaps(env, s, changes, changes[k].path);
    if k < n {
      assert changes[..n][..k] == changes[..k];
      SnapshotIsWhatTheLastChangeFound(env, s, changes[..n], k, f);
    }
  }

  lemma {:induction false} SnapshotsNameChanges(env: Env, s: Session, changes: seq<FileChange>, path: string)
    requires forall j | 0 <= j < |changes| :: changes[j].content == "" || changes[j].path != path
    ensures var r := Materialize(env, s, changes).s;
            && Content(r.pre, path) == Content(s.pre, path) && Content(r.originals, path) == Content(s.originals, path)
  {
    if changes != [] {
      SnapshotsNameChanges(env, s, changes[..|changes| - 1], path);
      LastChangeSnaps(env, s, changes, path);
    }
    hide TryChange, Read;
  }

  // ---------- The two nodes ----------

  /** The developer node writes exact patches when it has any; only without them does it
      fall back on whole files. Either way it starts without immediate snapshots. */
  lemma DeveloperPrefersExactPatches(env: Env, s: Session, context: bool, patches: seq<FilePatch>,
                                     changes: seq<FileChange>)
    ensures var r, begun := Develop(env, s, context, patches, changes), s.(pre := map[]);
            r == if context && patches != [] then PatchAll(env, begun, patches) else Materialize(env, begun, changes)
  {
    if context && patches != [] { LastPatch(env, s.(pre := map[]), patches); }
    hide TryPatch, TryChange;
  }

  /** A snapshot after a developer visit is of a file of that visit. */
  lemma DeveloperSnapshotsItsOwnFiles(env: Env, s: Session, context: bool, patches: seq<FilePatch>,
                                      changes: seq<FileChange>, path: string)
    requires path in Develop(env, s, context, patches, changes).s.pre
    ensures (exists p :: p in patches && p.path == path)
            || exists ch :: ch in changes && ch.path == path && ch.content != ""
  {
    hide PatchAll, Materialize;
    DeveloperPrefersExactPatches(env, s, context, patches, changes);
    hide Develop;
    var begun := s.(pre := map[]);
    if forall j | 0 <= j < |patches| :: patches[j].path != path { OtherSnapshotsStay(env, begun, patches, path); }
    if forall j | 0 <= j < |changes| :: changes[j].content == "" || changes[j].path != path {
      SnapshotsNameChanges(env, begun, changes, path);
    }
  }

  /** A revision never loses the batch: patches revised in context are handed on unwritten
      and their snapshots dropped; without anything to write, and when a wrapper stops the
      writing, the last batch is kept; and a batch that is written is handed on. */
  lemma RevisionHandsOnABatch(env: Env, s: Session, batch: seq<FilePatch>, aware: seq<FilePatch>,
                              changes: seq<FileChange>)
    ensures var r := Revise(env, s, batch, aware, changes);
            && (aware != [] ==>
                  && r.ending == Done && r.batch == aware
                  && r.s.disk == s.disk && r.s.originals == s.originals
                  && forall path :: Content(r.s.pre, path) ==
                       if exists p :: p in aware && p.path == path then None else Content(s.pre, path))
            && (aware == [] ==>
                  && r.s == Materialize(env, s, changes).s
                  && r.ending == (if Materialize(env, s, changes).ending == Crashed then Crashed else Done)
                  && (r.ending == Done ==>
                        r.batch == if changes == [] || Materialize(env, s, changes).ending == Recoverable then batch
                                   else AsPatches(changes)))
  {
    forall path ensures Content(Forget(s.pre, aware), path) ==
                          if exists p :: p in aware && p.path == path then None else Content(s.pre, path) {
      ForgottenAre(s.pre, aware, path);
    }
    hide Forget, TryChange;
  }

  lemma {:induction false} ForgottenAre(pre: map<string, string>, patches: seq<FilePatch>, path: string)
    ensures Content(Forget(pre, patches), path) ==
            if exists p :: p in patches && p.path == path then None else Content(pre, path)
  {
    if patches != [] {
      ForgottenAre(pre, patches[..|patches| - 1], path);
      assert forall p :: p in patches <==> p in patches[..|patches| - 1] || p == patches[|patches| - 1];
    }
  }
}
