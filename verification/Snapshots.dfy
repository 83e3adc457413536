/** What the developer and revision nodes write to the workspace, and the two
    sets of snapshots they carry for the patch-scope check: each file's content
    right before the last write, and its content from before the run. */
module Snapshots {
  import opened Options
  import opened Patcher

  /** A resolved location; two path strings may resolve to the same one. */
  type File = string
  type Disk = map<File, string>

  /** Containment of generated paths, the Python parser, the detector of patch
      wrapper artifacts, and which files can be written. */
  datatype Env = Env(resolve: string -> Option<File>, parses: string -> bool, wrapper: string -> bool,
                     writable: File -> bool)

  datatype Session = Session(disk: Disk, pre: map<string, string>, originals: map<string, string>)

  datatype FileChange = FileChange(path: string, content: string)

  datatype Ending = Done | Recoverable | Crashed

  /** `batch` is what the node hands on as `generated_patches`. */
  datatype Outcome = Outcome(s: Session, ending: Ending, batch: seq<FilePatch>)

  function Read(disk: Disk, f: File): string { if f in disk then disk[f] else "" }

  // ---------- One write ----------

  /** Before a write: the immediate snapshot is replaced, the original one is set once. */
  function Snap(s: Session, path: string, f: File): Session {
    var before := Read(s.disk, f);
    s.(pre := s.pre[path := before],
       originals := if path in s.originals then s.originals else s.originals[path := before])
  }

  function Store(env: Env, s: Session, f: File, content: string): Session {
    if env.writable(f) then s.(disk := s.disk[f := content]) else s
  }

  /** One patch of the developer node. A write that fails is only noted. */
  function TryPatch(env: Env, s: Session, p: FilePatch): (Session, Ending) {
    match env.resolve(p.path)
    case None => (s, Crashed)
    case Some(f) =>
      var t := Snap(s, p.path, f);
      match ApplyPatch(env.parses, Read(s.disk, f), p)
      case None => (t, if IsPython(p.path) then Crashed else Recoverable)
      case Some(content) => if env.wrapper(content) then (t, Recoverable) else (Store(env, t, f, content), Done)
  }

  function PatchAll(env: Env, s: Session, patches: seq<FilePatch>): Outcome {
    if patches == [] then Outcome(s, Done, [])
    else
      var n := |patches| - 1;
      var before := PatchAll(env, s, patches[..n]);
      if !before.ending.Done? then before
      else
        var (t, ending) := TryPatch(env, before.s, patches[n]);
        Outcome(t, ending, if ending.Done? then patches else [])
  }

  /** One change of `_materialize_developer_changes`. A write that fails ends the run. */
  function TryChange(env: Env, s: Session, ch: FileChange): (Session, Ending) {
    if ch.content == "" then (s, Done)
    else match env.resolve(ch.path)
      case None => (s, Crashed)
      case Some(f) =>
        var t := Snap(s, ch.path, f);
        if env.wrapper(ch.content) then (t, Recoverable)
        else if !env.writable(f) then (t, Crashed)
        else (Store(env, t, f, ch.content), Done)
  }

  function AsPatches(changes: seq<FileChange>): seq<FilePatch> {
    if changes == [] then []
    else
      var ch := changes[|changes| - 1];
      AsPatches(changes[..|changes| - 1]) + if ch.content == "" then [] else [FilePatch(ch.path, "", ch.content)]
  }

  function Materialize(env: Env, s: Session, changes: seq<FileChange>): Outcome {
    if changes == [] then Outcome(s, Done, [])
    else
      var n := |changes| - 1;
      var before := Materialize(env, s, changes[..n]);
      if !before.ending.Done? then before
      else
        var (t, ending) := TryChange(env, before.s, changes[n]);
        Outcome(t, ending, if ending.Done? then AsPatches(changes) else [])
  }

  lemma {:induction false} AsPatchesHoldsChanges(changes: seq<FileChange>, p: FilePatch)
    ensures p in AsPatches(changes)
            <==> exists ch :: ch in changes && ch.content != "" && p == FilePatch(ch.path, "", ch.content)
  {
    if changes != [] {
      var before, last := changes[..|changes| - 1], changes[|changes| - 1];
      AsPatchesHoldsChanges(before, p);
      assert forall ch :: ch in changes <==> ch in before || ch == last;
    }
  }

  /** No change vanishes silently: when the fallback succeeds, its batch holds a
      whole-file patch for every change with content, and nothing else. */
  lemma NoChangeVanishes(env: Env, s: Session, changes: seq<FileChange>, p: FilePatch)
    requires Materialize(env, s, changes).ending.Done?
    ensures p in Materialize(env, s, changes).batch
            <==> exists ch :: ch in changes && ch.content != "" && p == FilePatch(ch.path, "", ch.content)
  {
    AsPatchesHoldsChanges(changes, p);
  }

  // ---------- The nodes ----------

  /** The writes of the developer node. `context` says whether there was
      repository context to generate exact patches from. */
  function Develop(env: Env, s: Session, context: bool, patches: seq<FilePatch>, changes: seq<FileChange>): Outcome {
    var begun := s.(pre := map[]);
    var first := if context then PatchAll(env, begun, patches) else Outcome(begun, Done, []);
    if first.ending.Done? && first.batch == [] then Materialize(env, first.s, changes) else first
  }

  function Forget(pre: map<string, string>, patches: seq<FilePatch>): map<string, string> {
    if patches == [] then pre else Forget(pre, patches[..|patches| - 1]) - {patches[|patches| - 1].path}
  }

  /** The writes of the revision node. Patches revised in context are not
      written; a revision whose content is a wrapper artifact keeps the last batch. */
  function Revise(env: Env, s: Session, batch: seq<FilePatch>, aware: seq<FilePatch>, changes: seq<FileChange>): Outcome
  {
    if aware != [] then Outcome(s.(pre := Forget(s.pre, aware)), Done, aware)
    else if changes == [] then Outcome(s, Done, batch)
    else
      var m := Materialize(env, s, changes);
      if m.ending.Recoverable? then Outcome(m.s, Done, batch) else m
  }

  datatype Visit =
    | Developer(context: bool, patches: seq<FilePatch>, changes: seq<FileChange>)
    | Revision(aware: seq<FilePatch>, changes: seq<FileChange>)

  /** A visit whose result is kept, or one cut off before that by the death of its
      process; any prefix of a batch is a batch, so it may die between any two writes. */
  datatype Turn = Kept(visit: Visit) | CutOff(visit: Visit)

  function Entered(env: Env, o: Outcome, v: Visit): Outcome {
    match v
    case Developer(context, patches, changes) => Develop(env, o.s, context, patches, changes)
    case Revision(aware, changes) => Revise(env, o.s, o.batch, aware, changes)
  }

  /** A node that raises leaves no result either. */
  predicate Lost(env: Env, o: Outcome, t: Turn) { t.CutOff? || Entered(env, o, t.visit).ending.Crashed? }

  /** What is not kept is rolled back, except what was written to the disk: the
      node is entered again later, with the snapshots it was entered with before. */
  function Perform(env: Env, o: Outcome, t: Turn): Outcome {
    var r := Entered(env, o, t.visit);
    if Lost(env, o, t) then Outcome(o.s.(disk := r.s.disk), Crashed, o.batch) else r
  }

  /** Everything a run writes up to QA: any visits, in any order. */
  function Run(env: Env, start: Disk, turns: seq<Turn>): Outcome {
    if turns == [] then Outcome(Session(start, map[], map[]), Done, [])
    else Perform(env, Run(env, start, turns[..|turns| - 1]), turns[|turns| - 1])
  }

  // ---------- The loops ----------

  method PatchLoop(env: Env, s: Session, patches: seq<FilePatch>) returns (r: Outcome)
    ensures r == PatchAll(env, s, patches)
  {
    r := Outcome(s, Done, []);
    var i := 0;
    while i < |patches|
      invariant 0 <= i <= |patches| && r.ending.Done?
      invariant r == PatchAll(env, s, patches[..i])
    {
      var p := patches[i];
      assert patches[..i + 1][..i] == patches[..i];
      var resolved := env.resolve(p.path);
      if resolved.None? {
        CutShort(env, s, patches, i);
        return Outcome(r.s, Crashed, []);
      }
      var f := resolved.value;
      var source := Read(r.s.disk, f);
      var t := Snap(r.s, p.path, f);
      var applied := ApplyPatch(env.parses, source, p);
      if applied.None? {
        CutShort(env, s, patches, i);
        return Outcome(t, if IsPython(p.path) then Crashed else Recoverable, []);
      }
      if env.wrapper(applied.value) {
        CutShort(env, s, patches, i);
        return Outcome(t, Recoverable, []);
      }
      r := Outcome(Store(env, t, f, applied.value), Done, patches[..i + 1]);
      i := i + 1;
    }
    assert patches[..i] == patches;
  }

  /** What ends the loop early is the result of the whole batch. */
  lemma {:induction false} CutShort(env: Env, s: Session, patches: seq<FilePatch>, i: nat)
    requires i < |patches| && !PatchAll(env, s, patches[..i + 1]).ending.Done?
    ensures PatchAll(env, s, patches) == PatchAll(env, s, patches[..i + 1])
    decreases |patches|
  {
    var n := |patches| - 1;
    if i == n {
      assert patches[..i + 1] == patches;
    } else {
      assert patches[..n][..i + 1] == patches[..i + 1];
      CutShort(env, s, patches[..n], i);
    }
  }

  method MaterializeLoop(env: Env, s: Session, changes: seq<FileChange>) returns (r: Outcome)
    ensures r == Materialize(env, s, changes)
  {
    var t, patches := s, [];
    var i := 0;
    while i < |changes|
      invariant 0 <= i <= |changes|
      invariant Outcome(t, Done, patches) == Materialize(env, s, changes[..i])
      invariant patches == AsPatches(changes[..i])
    {
      var ch := changes[i];
      assert changes[..i + 1][..i] == changes[..i];
      if ch.content != "" {
        var resolved := env.resolve(ch.path);
        if resolved.None? {
          ChangesCutShort(env, s, changes, i);
          return Outcome(t, Crashed, []);
        }
        var f := resolved.value;
        var snapped := Snap(t, ch.path, f);
        if env.wrapper(ch.content) {
          ChangesCutShort(env, s, changes, i);
          return Outcome(snapped, Recoverable, []);
        }
        if !env.writable(f) {
          ChangesCutShort(env, s, changes, i);
          return Outcome(snapped, Crashed, []);
        }
        t := Store(env, snapped, f, ch.content);
        patches := patches + [FilePatch(ch.path, "", ch.content)];
      }
      i := i + 1;
    }
    assert changes[..i] == changes;
    r := Outcome(t, Done, patches);
  }

  lemma {:induction false} ChangesCutShort(env: Env, s: Session, changes: seq<FileChange>, i: nat)
    requires i < |changes| && !Materialize(env, s, changes[..i + 1]).ending.Done?
    ensures Materialize(env, s, changes) == Materialize(env, s, changes[..i + 1])
    decreases |changes|
  {
    var n := |changes| - 1;
    if i == n {
      assert changes[..i + 1] == changes;
    } else {
      assert changes[..n][..i + 1] == changes[..i + 1];
      ChangesCutShort(env, s, changes[..n], i);
    }
  }

  /** The loop that drops the snapshots of patches revised in context. */
  method ForgetLoop(pre: map<string, string>, patches: seq<FilePatch>) returns (r: map<string, string>)
    ensures r == Forget(pre, patches)
  {
    r := pre;
    for i := 0 to |patches|
      invariant r == Forget(pre, patches[..i])
    {
      assert patches[..i + 1][..i] == patches[..i];
      r := r - {patches[i].path};
    }
    assert patches[..|patches|] == patches;
  }

  // ---------- What the original snapshots say ----------

  predicate ResolvesTo(env: Env, path: string, f: File) { env.resolve(path) == Some(f) }

  /** A file that no recorded path leads to is as it was when the run started. */
  ghost predicate Untouched(env: Env, start: Disk, s: Session, f: File) {
    (forall p | p in s.originals :: !ResolvesTo(env, p, f)) ==>
      (f in s.disk <==> f in start) && Read(s.disk, f) == Read(start, f)
  }

  /** A recorded original is the content at the start, unless another recorded
      path leads to the same file. */
  ghost predicate OriginalSound(env: Env, start: Disk, s: Session, path: string) {
    path in s.originals ==>
      env.resolve(path).Some? &&
      (s.originals[path] == Read(start, env.resolve(path).value)
       || exists q | q in s.originals :: q != path && ResolvesTo(env, q, env.resolve(path).value))
  }

  ghost predicate Sound(env: Env, start: Disk, s: Session) {
    && (forall f :: Untouched(env, start, s, f))
    && (forall p :: OriginalSound(env, start, s, p))
    && s.pre.Keys <= s.originals.Keys
  }

  lemma SnapIsSound(env: Env, start: Disk, s: Session, path: string, f: File)
    requires Sound(env, start, s) && ResolvesTo(env, path, f)
    ensures Sound(env, start, Snap(s, path, f))
  {
    var t := Snap(s, path, f);
    forall g ensures Untouched(env, start, t, g) { assert Untouched(env, start, s, g); }
    forall p ensures OriginalSound(env, start, t, p) {
      assert OriginalSound(env, start, s, p);
      assert Untouched(env, start, s, f);
    }
  }

  lemma StoreIsSound(env: Env, start: Disk, s: Session, path: string, f: File, content: string)
    requires Sound(env, start, s) && path in s.originals && ResolvesTo(env, path, f)
    ensures Sound(env, start, Store(env, s, f, content))
  {
    var t := Store(env, s, f, content);
    forall g ensures Untouched(env, start, t, g) { assert Untouched(env, start, s, g); }
    forall p ensures OriginalSound(env, start, t, p) { assert OriginalSound(env, start, s, p); }
  }

  lemma TryPatchIsSound(env: Env, start: Disk, s: Session, p: FilePatch)
    requires Sound(env, start, s)
    ensures Sound(env, start, TryPatch(env, s, p).0)
  {
    var resolved := env.resolve(p.path);
    if resolved.Some? {
      var f := resolved.value;
      SnapIsSound(env, start, s, p.path, f);
      var applied := ApplyPatch(env.parses, Read(s.disk, f), p);
      if applied.Some? { StoreIsSound(env, start, Snap(s, p.path, f), p.path, f, applied.value); }
    }
  }

  lemma TryChangeIsSound(env: Env, start: Disk, s: Session, ch: FileChange)
    requires Sound(env, start, s)
    ensures Sound(env, start, TryChange(env, s, ch).0)
  {
    var resolved := env.resolve(ch.path);
    if resolved.Some? {
      var f := resolved.value;
      SnapIsSound(env, start, s, ch.path, f);
      StoreIsSound(env, start, Snap(s, ch.path, f), ch.path, f, ch.content);
    }
  }

  lemma {:induction false} PatchAllIsSound(env: Env, start: Disk, s: Session, patches: seq<FilePatch>)
    requires Sound(env, start, s)
    ensures Sound(env, start, PatchAll(env, s, patches).s)
  {
    if patches != [] {
      var n := |patches| - 1;
      PatchAllIsSound(env, start, s, patches[..n]);
      TryPatchIsSound(env, start, PatchAll(env, s, patches[..n]).s, patches[n]);
    }
  }

  lemma {:induction false} MaterializeIsSound(env: Env, start: Disk, s: Session, changes: seq<FileChange>)
    requires Sound(env, start, s)
    ensures Sound(env, start, Materialize(env, s, changes).s)
  {
    if changes != [] {
      var n := |changes| - 1;
      MaterializeIsSound(env, start, s, changes[..n]);
      TryChangeIsSound(env, start, Materialize(env, s, changes[..n]).s, changes[n]);
    }
  }

  lemma FewerSnapshotsAreSound(env: Env, start: Disk, s: Session, pre: map<string, string>)
    requires Sound(env, start, s) && pre.Keys <= s.pre.Keys
    ensures Sound(env, start, s.(pre := pre))
  {
    var t := s.(pre := pre);
    forall g ensures Untouched(env, start, t, g) { assert Untouched(env, start, s, g); }
    forall p ensures OriginalSound(env, start, t, p) { assert OriginalSound(env, start, s, p); }
  }

  lemma {:induction false} ForgetOnlyRemoves(pre: map<string, string>, patches: seq<FilePatch>)
    ensures Forget(pre, patches).Keys <= pre.Keys
    ensures forall p :: p in patches ==> p.path !in Forget(pre, patches)
  {
    if patches != [] {
      ForgetOnlyRemoves(pre, patches[..|patches| - 1]);
      assert forall p :: p in patches ==> p in patches[..|patches| - 1] || p == patches[|patches| - 1];
    }
  }

  lemma DevelopIsSound(env: Env, start: Disk, s: Session, context: bool, patches: seq<FilePatch>,
                       changes: seq<FileChange>)
    requires Sound(env, start, s)
    ensures Sound(env, start, Develop(env, s, context, patches, changes).s)
  {
    FewerSnapshotsAreSound(env, start, s, map[]);
    var begun := s.(pre := map[]);
    PatchAllIsSound(env, start, begun, patches);
    var first := if context then PatchAll(env, begun, patches) else Outcome(begun, Done, []);
    MaterializeIsSound(env, start, first.s, changes);
  }

  lemma ReviseIsSound(env: Env, start: Disk, s: Session, batch: seq<FilePatch>, aware: seq<FilePatch>,
                      changes: seq<FileChange>)
    requires Sound(env, start, s)
    ensures Sound(env, start, Revise(env, s, batch, aware, changes).s)
  {
    ForgetOnlyRemoves(s.pre, aware);
    FewerSnapshotsAreSound(env, start, s, Forget(s.pre, aware));
    MaterializeIsSound(env, start, s, changes);
  }

  predicate Recorded(env: Env, s: Session, f: File) { exists p :: p in s.originals && ResolvesTo(env, p, f) }

  /** `base`, but with the content in `disk` for the files that no recorded path leads to. */
  function Rebased(env: Env, s: Session, base: Disk, disk: Disk): Disk {
    map f | f in base.Keys + disk.Keys && (if Recorded(env, s, f) then f in base else f in disk) ::
      if Recorded(env, s, f) then base[f] else disk[f]
  }

  /** What the run can still know as original: the disk at the start or, for a
      file that was not recorded by then, after the last visit that was lost. */
  function Base(env: Env, start: Disk, turns: seq<Turn>): Disk {
    if turns == [] then start
    else
      var n := |turns| - 1;
      var o, base := Run(env, start, turns[..n]), Base(env, start, turns[..n]);
      if Lost(env, o, turns[n]) then Rebased(env, o.s, base, Run(env, start, turns).s.disk) else base
  }

  lemma LosingIsSound(env: Env, base: Disk, s: Session, disk: Disk)
    requires Sound(env, base, s)
    ensures Sound(env, Rebased(env, s, base, disk), s.(disk := disk))
  {
    var b, t := Rebased(env, s, base, disk), s.(disk := disk);
    forall p ensures OriginalSound(env, b, t, p) {
      assert OriginalSound(env, base, s, p);
      if p in s.originals { assert Recorded(env, s, env.resolve(p).value); }
    }
  }

  lemma EnteringIsSound(env: Env, base: Disk, o: Outcome, v: Visit)
    requires Sound(env, base, o.s)
    ensures Sound(env, base, Entered(env, o, v).s)
  {
    match v
    case Developer(context, patches, changes) => DevelopIsSound(env, base, o.s, context, patches, changes);
    case Revision(aware, changes) => ReviseIsSound(env, base, o.s, o.batch, aware, changes);
  }

  lemma {:induction false} RunIsSound(env: Env, start: Disk, turns: seq<Turn>)
    ensures Sound(env, Base(env, start, turns), Run(env, start, turns).s)
  {
    if turns != [] {
      var n := |turns| - 1;
      hide Sound;
      RunIsSound(env, start, turns[..n]);
      var o, base := Run(env, start, turns[..n]), Base(env, start, turns[..n]);
      EnteringIsSound(env, base, o, turns[n].visit);
      LosingIsSound(env, base, o.s, Run(env, start, turns).s.disk);
    } else {
      assert Sound(env, start, Run(env, start, []).s);
    }
  }

  /** No other recorded path leads to the file of `path`. */
  ghost predicate OnlyPath(env: Env, s: Session, path: string, f: File) {
    forall q | q in s.originals :: ResolvesTo(env, q, f) ==> q == path
  }

  function Content(disk: Disk, f: File): Option<string> { if f in disk then Some(disk[f]) else None }

  /** No visit that wrote to the file was lost. */
  ghost predicate NoWriteLost(env: Env, start: Disk, turns: seq<Turn>, f: File) {
    forall k | 0 <= k < |turns| :: !LosesWrite(env, Run(env, start, turns[..k]), turns[k], f)
  }

  predicate LosesWrite(env: Env, o: Outcome, t: Turn, f: File) {
    Lost(env, o, t) && Content(Entered(env, o, t.visit).s.disk, f) != Content(o.s.disk, f)
  }

  /** One more turn: the base moves only with a write that is lost. */
  lemma KeptTurnKeepsTheBase(env: Env, base: Disk, o: Outcome, t: Turn, f: File)
    requires Sound(env, base, o.s) && !LosesWrite(env, o, t, f)
    ensures Lost(env, o, t) ==>
              Content(Rebased(env, o.s, base, Entered(env, o, t.visit).s.disk), f) == Content(base, f)
  {
    hide Entered;
    assert Untouched(env, base, o.s, f);
    if !Recorded(env, o.s, f) {
      assert forall p | p in o.s.originals :: !ResolvesTo(env, p, f);
    }
  }

  lemma ShorterRunLosesNoWrite(env: Env, start: Disk, turns: seq<Turn>, f: File)
    requires turns != [] && NoWriteLost(env, start, turns, f)
    ensures var n := |turns| - 1;
            NoWriteLost(env, start, turns[..n], f) && !LosesWrite(env, Run(env, start, turns[..n]), turns[n], f)
  {
    hide LosesWrite, Run;
    var before := turns[..|turns| - 1];
    forall k | 0 <= k < |before| ensures !LosesWrite(env, Run(env, start, before[..k]), before[k], f) {
      assert before[..k] == turns[..k] && before[k] == turns[k];
    }
  }

  lemma {:induction false} KeptWritesKeepTheBase(env: Env, start: Disk, turns: seq<Turn>, f: File)
    requires NoWriteLost(env, start, turns, f)
    ensures Content(Base(env, start, turns), f) == Content(start, f)
  {
    if turns != [] {
      hide Sound, LosesWrite, Entered, Rebased, Lost, Content, Perform;
      var n := |turns| - 1;
      ShorterRunLosesNoWrite(env, start, turns, f);
      KeptWritesKeepTheBase(env, start, turns[..n], f);
      RunIsSound(env, start, turns[..n]);
      KeptTurnKeepsTheBase(env, Base(env, start, turns[..n]), Run(env, start, turns[..n]), turns[n], f);
    }
  }

  /** At every point of every run, for a file that one recorded path leads to: a
      recorded original is what the file held at the start or, if visits were lost
      before it was recorded, after the last of them; a path without an original
      still has that content. So originals are from before the run as long as no
      visit that wrote to the file was cut off before its result was kept. */
  lemma OriginalsAreFromBeforeTheRun(env: Env, start: Disk, turns: seq<Turn>, path: string, f: File)
    requires ResolvesTo(env, path, f) && OnlyPath(env, Run(env, start, turns).s, path, f)
    ensures var s, base := Run(env, start, turns).s, Base(env, start, turns);
            if path in s.originals then s.originals[path] == Read(base, f) else Content(s.disk, f) == Content(base, f)
    ensures NoWriteLost(env, start, turns, f) ==> Content(Base(env, start, turns), f) == Content(start, f)
  {
    RunIsSound(env, start, turns);
    var s, base := Run(env, start, turns).s, Base(env, start, turns);
    assert OriginalSound(env, base, s, path);
    assert Untouched(env, base, s, f);
    if NoWriteLost(env, start, turns, f) { KeptWritesKeepTheBase(env, start, turns, f); }
  }

  /** A developer visit writes, dies before its result is kept and is entered
      again: the text it had written is now recorded as the original. */
  lemma LostVisitRecordsChangedText(env: Env, start: Disk, path: string, f: File, one: string, two: string)
    requires ResolvesTo(env, path, f) && env.writable(f)
    requires one != "" && one != Read(start, f) && !env.wrapper(one)
    requires two != ""
    ensures var s := Run(env, start, [CutOff(Developer(false, [], [FileChange(path, one)])),
                                      Kept(Developer(false, [], [FileChange(path, two)]))]).s;
            path in s.originals && s.originals[path] == one != Read(start, f)
  {
    var first, second := [FileChange(path, one)], [FileChange(path, two)];
    var turns := [CutOff(Developer(false, [], first)), Kept(Developer(false, [], second))];
    var s0 := Session(start, map[], map[]);
    assert first[..0] == [] && second[..0] == [] && turns[..1][..0] == [];
    assert Materialize(env, s0, first).s == TryChange(env, s0, first[0]).0;
    assert turns[..1][0] == turns[0] && Run(env, start, turns[..1][..0]) == Outcome(s0, Done, []);
    var lost := Run(env, start, turns[..1]);
    assert Entered(env, Outcome(s0, Done, []), turns[0].visit).s == TryChange(env, s0, first[0]).0;
    assert lost.s == s0.(disk := start[f := one]);
    assert Materialize(env, lost.s, second).s == TryChange(env, lost.s, second[0]).0;
    assert env.writable(f) && Materialize(env, lost.s, second).s.originals[path] == one;
  }

  /** Two spellings of one path defeat the snapshot: once the file was changed
      under one of them, a patch under the other records the changed text as original. */
  lemma AliasRecordsChangedText(env: Env, start: Disk, a: string, b: string, f: File, one: string, two: string)
    requires a != b && ResolvesTo(env, a, f) && ResolvesTo(env, b, f) && env.writable(f)
    requires one != "" && one != Read(start, f) && !env.wrapper(one)
    requires two != ""
    ensures var s := Run(env, start, [Kept(Developer(false, [], [FileChange(a, one), FileChange(b, two)]))]).s;
            b in s.originals && s.originals[b] == one != Read(start, f)
  {
    var changes := [FileChange(a, one), FileChange(b, two)];
    var turn := Kept(Developer(false, [], changes));
    assert [turn][..0] == [];
    var s0 := Session(start, map[], map[]);
    assert changes[..1][..0] == [] && changes[..1][0] == changes[0];
    assert Materialize(env, s0, changes[..1][..0]) == Outcome(s0, Done, []);
    var m := Materialize(env, s0, changes[..1]);
    assert m.s == TryChange(env, s0, changes[0]).0;
    assert m.ending.Done? && m.s.disk[f] == one && b !in m.s.originals;
    assert Materialize(env, s0, changes).s == TryChange(env, m.s, changes[1]).0;
  }

  // ---------- The patch-scope check ----------

  datatype Verdict = Skipped | Fine | Violation

  /** One patch of `check_patch_scope`. `unsafe(original, updated)` is the deletion
      measurement for the user's request. */
  function ScopeVerdict(env: Env, unsafe: (string, string) -> bool, s: Session, p: FilePatch): Verdict {
    if IsPython(p.path) then Skipped
    else match Baseline(env, s, p.path)
      case None => Skipped
      case Some(b) =>
        (match ApplyPatch(env.parses, b, p)
         case None => Skipped
         case Some(updated) =>
           var original := if p.path in s.originals then s.originals[p.path] else b;
           if env.wrapper(updated) || unsafe(original, updated) then Violation else Fine)
  }

  /** The text the check applies a patch to: the immediate snapshot, or the file. */
  function Baseline(env: Env, s: Session, path: string): Option<string> {
    if path in s.pre then Some(s.pre[path])
    else match env.resolve(path)
      case None => None
      case Some(f) => if f in s.disk then Some(s.disk[f]) else None
  }

  function Violating(env: Env, unsafe: (string, string) -> bool, s: Session, patches: seq<FilePatch>): seq<string> {
    if patches == [] then []
    else
      var n := |patches| - 1;
      Violating(env, unsafe, s, patches[..n])
      + if ScopeVerdict(env, unsafe, s, patches[n]).Violation? then [patches[n].path] else []
  }

  /** The check fails when it returns violations; without a request it judges nothing. */
  method CheckPatchScope(env: Env, request: string, unsafe: (string, string) -> bool, s: Session,
                         patches: seq<FilePatch>)
    returns (violations: seq<string>)
    ensures violations == if request == "" then [] else Violating(env, unsafe, s, patches)
  {
    violations := [];
    if request == "" { return; }
    for i := 0 to |patches|
      invariant violations == Violating(env, unsafe, s, patches[..i])
    {
      assert patches[..i + 1][..i] == patches[..i];
      var p := patches[i];
      if !IsPython(p.path) {
        var baseline := Baseline(env, s, p.path);
        if baseline.Some? {
          var applied := ApplyPatch(env.parses, baseline.value, p);
          if applied.Some? {
            if env.wrapper(applied.value) {
              violations := violations + [p.path];
            } else {
              var original := if p.path in s.originals then s.originals[p.path] else baseline.value;
              if unsafe(original, applied.value) { violations := violations + [p.path]; }
            }
          }
        }
      }
    }
    assert patches[..|patches|] == patches;
  }

  /** A whole-file candidate is judged against the file as it was before the run
      or, if a visit that wrote to it was lost before it was recorded, after that
      visit; never against what kept attempts wrote. It goes unjudged exactly when
      it is Python, or has no snapshot and no file. */
  lemma WholeFileVerdictIsFromBeforeTheRun(env: Env, unsafe: (string, string) -> bool, start: Disk, turns: seq<Turn>,
                                           p: FilePatch, f: File)
    requires p.original == "" && ResolvesTo(env, p.path, f) && OnlyPath(env, Run(env, start, turns).s, p.path, f)
    ensures var s, base := Run(env, start, turns).s, Base(env, start, turns);
            ScopeVerdict(env, unsafe, s, p) ==
              if IsPython(p.path) || (p.path !in s.pre && f !in s.disk) then Skipped
              else if env.wrapper(p.updated) || unsafe(Read(base, f), p.updated) then Violation
              else Fine
    ensures NoWriteLost(env, start, turns, f) ==> Read(Base(env, start, turns), f) == Read(start, f)
  {
    OriginalsAreFromBeforeTheRun(env, start, turns, p.path, f);
    RunIsSound(env, start, turns);
  }

  /** The verdict on a snippet candidate: the check judges the text with the first
      occurrence of the snippet spliced, against the original the run started from or,
      for a file the run has not written, against the text it is spliced into. Python
      files, missing files and missing snippets are left to the other check. */
  lemma SnippetVerdictExactlyWhen(env: Env, unsafe: (string, string) -> bool, s: Session, p: FilePatch)
    requires p.original != ""
    ensures var verdict, baseline := ScopeVerdict(env, unsafe, s, p), Baseline(env, s, p.path);
            if IsPython(p.path) || baseline.None? || forall i: nat :: !Occurs(baseline.value, p.original, i)
            then verdict == Skipped
            else
              var b := baseline.value;
              var reference := if p.path in s.originals then s.originals[p.path] else b;
              exists i: nat | Occurs(b, p.original, i) && i + |p.original| <= |b| ::
                && (forall j: nat | j < i :: !Occurs(b, p.original, j))
                && var text := Splice(b, i, |p.original|, p.updated);
                   verdict == if env.wrapper(text) || unsafe(reference, text) then Violation else Fine
  {
    var baseline := Baseline(env, s, p.path);
    if baseline.Some? { PatchMeaning(env.parses, baseline.value, p); }
  }

  /** Each patch is judged on its own, and every violation is reported in its place. */
  lemma {:induction false} ViolationsAreTheViolating(env: Env, unsafe: (string, string) -> bool, s: Session,
                                                     a: seq<FilePatch>, b: seq<FilePatch>)
    ensures Violating(env, unsafe, s, a + b) == Violating(env, unsafe, s, a) + Violating(env, unsafe, s, b)
    ensures |b| == 1 ==>
              Violating(env, unsafe, s, b) == if ScopeVerdict(env, unsafe, s, b[0]).Violation? then [b[0].path] else []
  {
    hide ScopeVerdict;
    if b == [] {
      assert a + b == a;
    } else {
      var n := |b| - 1;
      ViolationsAreTheViolating(env, unsafe, s, a, b[..n]);
      assert (a + b)[..|a + b| - 1] == a + b[..n];
    }
  }
}
