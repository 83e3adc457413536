/** When does the last release of a key also free the key's RLock?

    The OS lock is what excludes other runs; the RLock only keeps threads of one
    process from polling the same file. It is freed by whichever thread executes
    the final release, and Python lets only the holding thread do that. Here we
    show that it is free again if and only if every final release so far was made
    by the thread that had recorded the ownership; a single one by another thread
    leaves it held for as long as the process lives. */
module LockThreads {
  import opened Options
  import opened LockTables
  import opened LockProtocol

  predicate UsesLock(s: Stage) { s !in {Unlocking, Unlocked, Finding} }
  predicate PastFirstCheck(s: Stage) { Acquiring(s) && s != Looking }

  predicate WorksOn(p: Process, tid: nat, key: Key) {
    tid in p.work && p.work[tid].key == key
  }

  // ---------- Who recorded the owner, and who released it ----------

  /** What can be seen from outside of one key in one process since it started:
      which thread recorded the present owner, how many final releases were made
      by another thread than the one that had recorded, whose ownership those
      released, and which threads are in the middle of such a release. */
  datatype Ledger = Ledger(recorder: Option<nat>, victim: nat, lost: nat, foreign: set<nat>)

  const CLEAN := Ledger(None, 0, 0, {})

  function Freeing(l: Ledger, tid: nat): Ledger {
    if l.recorder == None || l.recorder == Some(tid) then l.(recorder := None)
    else Ledger(None, l.recorder.value, l.lost + 1, l.foreign + {tid})
  }

  function Progressing(l: Ledger, tid: nat, stage: Stage): Ledger {
    match stage
    case Locked => l.(recorder := Some(tid))
    case Dropping => l.(foreign := l.foreign - {tid})
    case _ => l
  }

  predicate FinalRelease(p: Process, tid: nat, key: Key, org: string, run: string) {
    tid !in p.work && BeginRelease(p.tables, key, org, run).1.Freed?
  }

  function Mark(s: State, l: Ledger, step: Step, pid: nat, key: Key): Ledger {
    match step
    case Crash(p) => if p == pid then CLEAN else l
    case StartAcquire(_, _, _, _) => l
    case StartRelease(who, k, org, run) =>
      if who.pid == pid && k == key && FinalRelease(Proc(s, pid), who.tid, k, org, run) then Freeing(l, who.tid) else l
    case Advance(who, _) =>
      if who.pid == pid && WorksOn(Proc(s, pid), who.tid, key)
      then Progressing(l, who.tid, Proc(s, pid).work[who.tid].stage) else l
  }

  function Follow(lf: Key -> string, steps: seq<Step>, pid: nat, key: Key): Ledger {
    if steps == [] then CLEAN
    else
      var before := steps[..|steps| - 1];
      Mark(Run(lf, before), Follow(lf, before, pid, key), steps[|before|], pid, key)
  }

  /** Stale recovery forgets the key's RLock. */
  predicate Recovers(s: State, step: Step, pid: nat, key: Key) {
    step.Advance? && step.who.pid == pid && step.choice.stale &&
    var p := Proc(s, pid);
    WorksOn(p, step.who.tid, key) && p.work[step.who.tid].stage.Recovering? && key !in p.tables.owners
  }

  predicate NeverRecovered(lf: Key -> string, steps: seq<Step>, pid: nat, key: Key) {
    steps != [] ==>
      var before := steps[..|steps| - 1];
      NeverRecovered(lf, before, pid, key) && !Recovers(Run(lf, before), steps[|before|], pid, key)
  }

  // ---------- How often each thread holds the RLock ----------

  /** Once for the ownership it recorded, once for the operation it is in the
      middle of, and once for every ownership that somebody else released. */
  function Need(p: Process, l: Ledger, key: Key, tid: nat): nat {
    (if l.recorder == Some(tid) then 1 else 0)
    + (if WorksOn(p, tid, key) && KeepsRLock(p.work[tid].stage) && tid !in l.foreign then 1 else 0)
    + (if l.victim == tid then l.lost else 0)
  }

  function LockCount(p: Process, key: Key, tid: nat): nat {
    if key in p.tables.threadLocks then Count(p, p.tables.threadLocks[key], tid) else 0
  }

  /** Lock identities are never reused, so different keys never share an RLock. */
  ghost predicate IdsSound(p: Process) {
    var t := p.tables;
    && (forall k :: k in t.threadLocks ==> t.threadLocks[k] < t.nextLock)
    && (forall k1, k2 ::
          k1 in t.threadLocks && k2 in t.threadLocks && k1 != k2 ==> t.threadLocks[k1] != t.threadLocks[k2])
    && (forall l :: l in p.rlocks ==> l < t.nextLock && p.rlocks[l].count >= 1)
  }

  /** A thread working on the key uses the key's RLock and no other thread does;
      past its first check it is not the owner it recorded itself. */
  predicate WorkerSound(p: Process, l: Ledger, key: Key, tid: nat, w: Work) {
    var t := p.tables;
    && (UsesLock(w.stage) ==>
          && w.lock < t.nextLock
          && (w.key == key ==> key in t.threadLocks && w.lock == t.threadLocks[key])
          && (w.key != key && key in t.threadLocks ==> w.lock != t.threadLocks[key]))
    && (w.key == key && PastFirstCheck(w.stage) && l.recorder == Some(tid) ==> !OwnedBy(t, key, w.org, w.run))
  }

  ghost predicate WorkersSound(p: Process, l: Ledger, key: Key) {
    forall tid :: tid in p.work ==> WorkerSound(p, l, key, tid, p.work[tid])
  }

  ghost predicate LedgerSound(p: Process, l: Ledger, key: Key) {
    && (key in p.tables.owners <==> l.recorder.Some?)
    && (forall tid :: tid in l.foreign ==> WorksOn(p, tid, key) && !Acquiring(p.work[tid].stage))
    && (forall tid :: tid in l.foreign ==> l.lost > 0 && tid != l.victim)
  }

  predicate CountSound(p: Process, l: Ledger, key: Key, tid: nat) {
    LockCount(p, key, tid) == Need(p, l, key, tid)
  }

  ghost predicate RInv(p: Process, l: Ledger, key: Key) {
    IdsSound(p) && WorkersSound(p, l, key) && LedgerSound(p, l, key) && forall tid :: CountSound(p, l, key, tid)
  }

  /** An RLock has one holder. */
  lemma OneHolder(p: Process, l: Ledger, key: Key, a: nat, b: nat)
    requires RInv(p, l, key) && Need(p, l, key, a) > 0 && Need(p, l, key, b) > 0
    ensures a == b
  {
    assert CountSound(p, l, key, a) && CountSound(p, l, key, b);
  }

  /** Proves the counts of `p'` from those of `p`, thread by thread. */
  lemma Recount(p: Process, l: Ledger, p': Process, l': Ledger, key: Key)
    requires forall tid :: CountSound(p, l, key, tid)
    requires forall tid ::
               LockCount(p', key, tid) + Need(p, l, key, tid) == LockCount(p, key, tid) + Need(p', l', key, tid)
    ensures forall tid :: CountSound(p', l', key, tid)
  {
    forall tid ensures CountSound(p', l', key, tid) {
      assert CountSound(p, l, key, tid);
    }
  }

  predicate SameRole(a: Stage, b: Stage) {
    KeepsRLock(a) == KeepsRLock(b) && UsesLock(a) == UsesLock(b)
    && Acquiring(a) == Acquiring(b) && PastFirstCheck(a) == PastFirstCheck(b)
  }

  /** Stages that neither take nor drop an RLock nor touch the tables. */
  lemma QuietKeepsRInv(p: Process, l: Ledger, tid: nat, w: Work, key: Key)
    requires RInv(p, l, key) && tid in p.work
    requires w == p.work[tid].(stage := w.stage, fd := w.fd) && SameRole(w.stage, p.work[tid].stage)
    ensures RInv(Goto(p, tid, w), l, key)
  {
    Recount(p, l, Goto(p, tid, w), l, key);
  }

  /** Whoever gets to the second check holds the RLock, so nobody else is the
      recorded owner: the second check can only hit for another key. */
  lemma SecondCheckMisses(p: Process, l: Ledger, tid: nat, key: Key)
    requires RInv(p, l, key) && WorksOn(p, tid, key) && p.work[tid].stage.Holding?
    ensures !OwnedBy(p.tables, key, p.work[tid].org, p.work[tid].run)
  {
    if key in p.tables.owners {
      OneHolder(p, l, key, l.recorder.value, tid);
      assert WorkerSound(p, l, key, tid, p.work[tid]);
    }
  }

  lemma ReenteringKeepsRInv(p: Process, l: Ledger, tid: nat, key: Key)
    requires RInv(p, l, key) && tid in p.work && p.work[tid].stage in {Looking, Holding}
    requires p.work[tid].key == key ==> p.work[tid].stage.Looking?
    requires var w := p.work[tid]; TryReenter(p.tables, w.key, w.org, w.run).1
    ensures var w := p.work[tid]; var t := TryReenter(p.tables, w.key, w.org, w.run).0;
            RInv(Finish(p.(tables := t), tid), l, key)
  {
    var w := p.work[tid];
    var p' := Finish(p.(tables := TryReenter(p.tables, w.key, w.org, w.run).0), tid);
    forall t | t in p'.work ensures WorkerSound(p', l, key, t, p'.work[t]) {
      assert WorkerSound(p, l, key, t, p.work[t]);
    }
    Recount(p, l, p', l, key);
  }

  lemma MissingKeepsRInv(p: Process, l: Ledger, tid: nat, next: Stage, key: Key)
    requires RInv(p, l, key) && tid in p.work && (p.work[tid].stage, next) in {(Looking, Waiting), (Holding, Opening)}
    requires var w := p.work[tid]; !OwnedBy(p.tables, w.key, w.org, w.run)
    ensures RInv(Goto(p, tid, p.work[tid].(stage := next)), l, key)
  {
    Recount(p, l, Goto(p, tid, p.work[tid].(stage := next)), l, key);
  }

  lemma PollingKeepsRInv(p: Process, l: Ledger, tid: nat, c: Choice, key: Key)
    requires RInv(p, l, key) && tid in p.work && p.work[tid].stage.Waiting?
    ensures RInv(Polling(p, tid, p.work[tid], c), l, key)
  {
    Recount(p, l, Polling(p, tid, p.work[tid], c), l, key);
  }

  function Recorded(p: Process, tid: nat, now: nat): Process
    requires tid in p.work
  {
    var w := p.work[tid];
    Finish(p.(tables := Record(p.tables, w.key, w.fd, now, w.org, w.run)), tid)
  }

  lemma RecordingCounts(p: Process, l: Ledger, tid: nat, now: nat, key: Key)
    requires RInv(p, l, key) && tid in p.work && p.work[tid].stage.Locked? && p.work[tid].key !in p.tables.owners
    ensures var l' := if p.work[tid].key == key then Progressing(l, tid, Locked) else l;
            forall t :: CountSound(Recorded(p, tid, now), l', key, t)
  {
    hide IdsSound, WorkersSound;
    Recount(p, l, Recorded(p, tid, now), if p.work[tid].key == key then Progressing(l, tid, Locked) else l, key);
  }

  lemma RecordingKeepsRInv(p: Process, l: Ledger, tid: nat, now: nat, key: Key)
    requires RInv(p, l, key) && tid in p.work && p.work[tid].stage.Locked? && p.work[tid].key !in p.tables.owners
    ensures RInv(Recorded(p, tid, now), if p.work[tid].key == key then Progressing(l, tid, Locked) else l, key)
  {
    hide CountSound;
    var w := p.work[tid];
    var p' := Recorded(p, tid, now);
    var l' := if w.key == key then Progressing(l, tid, Locked) else l;
    forall t | t in p'.work ensures WorkerSound(p', l', key, t, p'.work[t]) {
      assert WorkerSound(p, l, key, t, p.work[t]);
    }
    RecordingCounts(p, l, tid, now, key);
  }

  lemma DropCounts(p: Process, lock: LockId, tid: nat, other: LockId, t: nat)
    ensures Count(Drop(p, lock, tid), other, t)
         == Count(p, other, t) - if lock == other && t == tid && Count(p, other, t) > 0 then 1 else 0
  {
  }

  lemma BackingOffCounts(p: Process, l: Ledger, tid: nat, key: Key)
    requires RInv(p, l, key) && tid in p.work && p.work[tid].stage.BackingOff?
    ensures forall t :: CountSound(Goto(Drop(p, p.work[tid].lock, tid), tid, p.work[tid].(stage := Waiting)), l, key, t)
  {
    var w := p.work[tid];
    var p' := Goto(Drop(p, w.lock, tid), tid, w.(stage := Waiting));
    assert CountSound(p, l, key, tid) && WorkerSound(p, l, key, tid, w);
    hide IdsSound, WorkersSound, WorkerSound, Drop;
    forall t ensures LockCount(p', key, t) + Need(p, l, key, t) == LockCount(p, key, t) + Need(p', l, key, t) {
      if key in p.tables.threadLocks { DropCounts(p, w.lock, tid, p.tables.threadLocks[key], t); }
    }
    Recount(p, l, p', l, key);
  }

  lemma BackingOffKeepsRInv(p: Process, l: Ledger, tid: nat, key: Key)
    requires RInv(p, l, key) && tid in p.work && p.work[tid].stage.BackingOff?
    ensures var w := p.work[tid]; RInv(Goto(Drop(p, w.lock, tid), tid, w.(stage := Waiting)), l, key)
  {
    hide CountSound;
    BackingOffCounts(p, l, tid, key);
  }

  /** The end of a release: Python refuses to free the RLock for a thread that does not hold it. */
  lemma DroppingCounts(p: Process, l: Ledger, tid: nat, key: Key)
    requires tid in p.work && p.work[tid].stage.Dropping? && forall t :: CountSound(p, l, key, t)
    requires p.work[tid].key == key ==> key in p.tables.threadLocks && p.work[tid].lock == p.tables.threadLocks[key]
    requires p.work[tid].key != key && key in p.tables.threadLocks ==> p.work[tid].lock != p.tables.threadLocks[key]
    requires tid in l.foreign ==> p.work[tid].key == key && Need(p, l, key, tid) == 0
    ensures var l' := if p.work[tid].key == key then Progressing(l, tid, Dropping) else l;
            forall t :: CountSound(Finish(Drop(p, p.work[tid].lock, tid), tid), l', key, t)
  {
    hide Drop;
    var w := p.work[tid];
    var p' := Finish(Drop(p, w.lock, tid), tid);
    var l' := if w.key == key then Progressing(l, tid, Dropping) else l;
    assert CountSound(p, l, key, tid);
    forall t ensures LockCount(p', key, t) + Need(p, l, key, t) == LockCount(p, key, t) + Need(p', l', key, t) {
      if key in p.tables.threadLocks { DropCounts(p, w.lock, tid, p.tables.threadLocks[key], t); }
    }
    Recount(p, l, p', l', key);
  }

  lemma DroppingKeepsRInv(p: Process, l: Ledger, tid: nat, key: Key)
    requires RInv(p, l, key) && tid in p.work && p.work[tid].stage.Dropping?
    ensures RInv(Finish(Drop(p, p.work[tid].lock, tid), tid),
                 if p.work[tid].key == key then Progressing(l, tid, Dropping) else l, key)
  {
    if tid in l.foreign && l.recorder == Some(tid) { OneHolder(p, l, key, tid, l.victim); }
    hide CountSound;
    assert WorkerSound(p, l, key, tid, p.work[tid]);
    DroppingCounts(p, l, tid, key);
  }

  lemma RefindingCounts(p: Process, l: Ledger, tid: nat, key: Key)
    requires RInv(p, l, key) && tid in p.work && p.work[tid].stage.Finding?
    ensures forall t :: CountSound(Refinding(p, tid, p.work[tid]), l, key, t)
  {
    hide WorkersSound;
    Recount(p, l, Refinding(p, tid, p.work[tid]), l, key);
  }

  lemma RefindingKeepsRInv(p: Process, l: Ledger, tid: nat, key: Key)
    requires RInv(p, l, key) && tid in p.work && p.work[tid].stage.Finding?
    ensures RInv(Refinding(p, tid, p.work[tid]), l, key)
  {
    hide CountSound;
    RefindingCounts(p, l, tid, key);
  }

  lemma EvictingKeepsRInv(p: Process, l: Ledger, tid: nat, key: Key)
    requires RInv(p, l, key) && tid in p.work && p.work[tid].stage.Recovering?
    requires p.work[tid].key == key ==> key in p.tables.owners
    ensures var w := p.work[tid];
            RInv(Goto(p.(tables := EvictStale(p.tables, w.key).0), tid, w.(stage := BackingOff)), l, key)
  {
    var w := p.work[tid];
    Recount(p, l, Goto(p.(tables := EvictStale(p.tables, w.key).0), tid, w.(stage := BackingOff)), l, key);
  }

  lemma StartingCounts(p: Process, l: Ledger, tid: nat, k: Key, org: string, run: string, key: Key)
    requires RInv(p, l, key) && tid !in p.work
    ensures forall t :: CountSound(Starting(p, tid, k, org, run), l, key, t)
  {
    hide WorkersSound;
    Recount(p, l, Starting(p, tid, k, org, run), l, key);
  }

  lemma StartingKeepsRInv(p: Process, l: Ledger, tid: nat, k: Key, org: string, run: string, key: Key)
    requires RInv(p, l, key) && tid !in p.work
    ensures RInv(Starting(p, tid, k, org, run), l, key)
  {
    hide CountSound;
    StartingCounts(p, l, tid, k, org, run, key);
  }

  lemma HoldingOnKeepsRInv(p: Process, l: Ledger, k: Key, org: string, run: string, key: Key)
    requires RInv(p, l, key) && BeginRelease(p.tables, k, org, run).1.StillHeld?
    ensures RInv(p.(tables := BeginRelease(p.tables, k, org, run).0), l, key)
  {
    Recount(p, l, p.(tables := BeginRelease(p.tables, k, org, run).0), l, key);
  }

  function Unlocks(p: Process, tid: nat, k: Key, org: string, run: string, fd: nat): Process {
    Goto(p.(tables := BeginRelease(p.tables, k, org, run).0), tid, Work(Unlocking, k, org, run, 0, fd))
  }

  lemma FreeingOtherCounts(p: Process, l: Ledger, tid: nat, k: Key, org: string, run: string, fd: nat, key: Key)
    requires k != key && FinalRelease(p, tid, k, org, run) && forall t :: CountSound(p, l, key, t)
    ensures forall t :: CountSound(Unlocks(p, tid, k, org, run, fd), l, key, t)
  {
    Recount(p, l, Unlocks(p, tid, k, org, run, fd), l, key);
  }

  lemma FreeingOwnCounts(p: Process, l: Ledger, tid: nat, org: string, run: string, fd: nat, key: Key)
    requires LedgerSound(p, l, key) && FinalRelease(p, tid, key, org, run) && forall t :: CountSound(p, l, key, t)
    requires l.lost > 0 ==> l.recorder == Some(l.victim)
    ensures forall t :: CountSound(Unlocks(p, tid, key, org, run, fd), Freeing(l, tid), key, t)
  {
    Recount(p, l, Unlocks(p, tid, key, org, run, fd), Freeing(l, tid), key);
  }

  lemma FreeingCounts(p: Process, l: Ledger, tid: nat, k: Key, org: string, run: string, fd: nat, key: Key)
    requires RInv(p, l, key) && FinalRelease(p, tid, k, org, run)
    ensures var l' := if k == key then Freeing(l, tid) else l;
            forall t :: CountSound(Unlocks(p, tid, k, org, run, fd), l', key, t)
  {
    if k == key {
      assert k in p.tables.owners;
      if l.lost > 0 { OneHolder(p, l, key, l.recorder.value, l.victim); }
      hide CountSound, WorkersSound, IdsSound;
      FreeingOwnCounts(p, l, tid, org, run, fd, key);
    } else {
      hide CountSound, WorkersSound, IdsSound;
      FreeingOtherCounts(p, l, tid, k, org, run, fd, key);
    }
  }

  lemma FreeingWorkers(p: Process, l: Ledger, tid: nat, k: Key, org: string, run: string, fd: nat, key: Key)
    requires WorkersSound(p, l, key) && FinalRelease(p, tid, k, org, run)
    ensures WorkersSound(Unlocks(p, tid, k, org, run, fd), if k == key then Freeing(l, tid) else l, key)
  {
    var p' := Unlocks(p, tid, k, org, run, fd);
    var l' := if k == key then Freeing(l, tid) else l;
    forall u | u in p'.work ensures WorkerSound(p', l', key, u, p'.work[u]) {
      assert u in p.work ==> WorkerSound(p, l, key, u, p.work[u]);
    }
  }

  lemma FreeingLedger(p: Process, l: Ledger, tid: nat, k: Key, org: string, run: string, fd: nat, key: Key)
    requires RInv(p, l, key) && FinalRelease(p, tid, k, org, run)
    ensures LedgerSound(Unlocks(p, tid, k, org, run, fd), if k == key then Freeing(l, tid) else l, key)
  {
    if k == key && l.lost > 0 { OneHolder(p, l, key, l.recorder.value, l.victim); }
    hide CountSound, WorkersSound, IdsSound;
    assert BeginRelease(p.tables, k, org, run).0.owners == Without(p.tables.owners, k);
  }

  lemma FreeingKeepsRInv(p: Process, l: Ledger, tid: nat, k: Key, org: string, run: string, fd: nat, key: Key)
    requires RInv(p, l, key) && FinalRelease(p, tid, k, org, run)
    ensures RInv(Unlocks(p, tid, k, org, run, fd), if k == key then Freeing(l, tid) else l, key)
  {
    hide CountSound, WorkersSound, LedgerSound;
    FreeingWorkers(p, l, tid, k, org, run, fd, key);
    FreeingLedger(p, l, tid, k, org, run, fd, key);
    FreeingCounts(p, l, tid, k, org, run, fd, key);
  }

  lemma OwnKernelStageKeepsRInv(lf: Key -> string, s: State, who: Thread, c: Choice, l: Ledger, key: Key)
    requires who.tid in Proc(s, who.pid).work && RInv(Proc(s, who.pid), l, key)
    requires Proc(s, who.pid).work[who.tid].stage in {Opening, Opened, Refused, Unlocking, Unlocked}
    ensures RInv(Proc(Progress(lf, s, who, Proc(s, who.pid).work[who.tid], c), who.pid), l, key)
  {
    hide RInv;
    var p := Proc(s, who.pid);
    var w := p.work[who.tid];
    var p' := Proc(Progress(lf, s, who, w, c), who.pid);
    if p' != p {
      assert p' == Goto(p, who.tid, p'.work[who.tid]);
      QuietKeepsRInv(p, l, who.tid, p'.work[who.tid], key);
    }
  }

  lemma OwnAcquiringKeepsRInv(lf: Key -> string, s: State, who: Thread, c: Choice, l: Ledger, key: Key)
    requires Inv(lf, s) && who.tid in Proc(s, who.pid).work && RInv(Proc(s, who.pid), l, key)
    requires Proc(s, who.pid).work[who.tid].stage in {Looking, Waiting, Holding, Locked}
    ensures RInv(Proc(Progress(lf, s, who, Proc(s, who.pid).work[who.tid], c), who.pid),
                 Mark(s, l, Advance(who, c), who.pid, key), key)
  {
    hide RInv, Checking, Polling;
    var p := Proc(s, who.pid);
    var w := p.work[who.tid];
    match w.stage
    case Looking => CheckingKeepsRInv(s, who, l, Waiting, key);
    case Waiting => PollingKeepsRInv(p, l, who.tid, c, key);
    case Holding => CheckingKeepsRInv(s, who, l, Opening, key);
    case Locked =>
      RecordingKeepsInv(lf, s, who, w, c);
      RecordingKeepsRInv(p, l, who.tid, c.now, key);
  }

  lemma OwnRecoveringKeepsRInv(lf: Key -> string, s: State, who: Thread, c: Choice, l: Ledger, key: Key)
    requires who.tid in Proc(s, who.pid).work && RInv(Proc(s, who.pid), l, key)
    requires Proc(s, who.pid).work[who.tid].stage.Recovering? && !Recovers(s, Advance(who, c), who.pid, key)
    ensures RInv(Proc(Progress(lf, s, who, Proc(s, who.pid).work[who.tid], c), who.pid), l, key)
  {
    hide RInv, Evicting;
    var p := Proc(s, who.pid);
    var w := p.work[who.tid];
    if c.stale {
      EvictingKeepsRInv(p, l, who.tid, key);
      EvictingTouchesTablesOnly(s, who, w);
    } else {
      QuietKeepsRInv(p, l, who.tid, w.(stage := BackingOff), key);
    }
  }

  lemma OwnProgressKeepsRInv(lf: Key -> string, s: State, who: Thread, c: Choice, l: Ledger, key: Key)
    requires Inv(lf, s) && who.tid in Proc(s, who.pid).work && RInv(Proc(s, who.pid), l, key)
    requires !Recovers(s, Advance(who, c), who.pid, key)
    ensures RInv(Proc(Progress(lf, s, who, Proc(s, who.pid).work[who.tid], c), who.pid),
                 Mark(s, l, Advance(who, c), who.pid, key), key)
  {
    var p := Proc(s, who.pid);
    match p.work[who.tid].stage
    case BackingOff =>
      hide RInv;
      BackingOffKeepsRInv(p, l, who.tid, key);
    case Finding =>
      hide RInv;
      RefindingKeepsRInv(p, l, who.tid, key);
    case Dropping =>
      hide RInv;
      DroppingKeepsRInv(p, l, who.tid, key);
    case Recovering =>
      hide RInv, Progress, Recovers;
      OwnRecoveringKeepsRInv(lf, s, who, c, l, key);
    case stage =>
      hide RInv, Progress;
      if stage in {Looking, Waiting, Holding, Locked} { OwnAcquiringKeepsRInv(lf, s, who, c, l, key); }
      else { OwnKernelStageKeepsRInv(lf, s, who, c, l, key); }
  }

  lemma EvictingTouchesTablesOnly(s: State, who: Thread, w: Work)
    ensures var p := Proc(s, who.pid);
            Proc(Evicting(s, who, w), who.pid)
            == Goto(p.(tables := EvictStale(p.tables, w.key).0), who.tid, w.(stage := BackingOff))
  {
  }

  lemma CheckingKeepsRInv(s: State, who: Thread, l: Ledger, next: Stage, key: Key)
    requires who.tid in Proc(s, who.pid).work && RInv(Proc(s, who.pid), l, key)
    requires (Proc(s, who.pid).work[who.tid].stage, next) in {(Looking, Waiting), (Holding, Opening)}
    ensures RInv(Proc(Checking(s, who, Proc(s, who.pid).work[who.tid], next), who.pid), l, key)
  {
    hide RInv;
    var p := Proc(s, who.pid);
    var w := p.work[who.tid];
    if w.key == key && w.stage.Holding? { SecondCheckMisses(p, l, who.tid, key); }
    if TryReenter(p.tables, w.key, w.org, w.run).1 { ReenteringKeepsRInv(p, l, who.tid, key); }
    else { MissingKeepsRInv(p, l, who.tid, next, key); }
  }

  lemma OtherProgressOnTables(lf: Key -> string, s: State, who: Thread, w: Work, c: Choice, pid: nat)
    requires who.pid != pid && w.stage in {Looking, Holding, Locked, Recovering}
    ensures Proc(Progress(lf, s, who, w, c), pid) == Proc(s, pid)
  {
  }

  lemma OtherProgressOnKernel(lf: Key -> string, s: State, who: Thread, w: Work, c: Choice, pid: nat)
    requires who.pid != pid && w.stage in {Opening, Opened, Refused, Unlocking, Unlocked}
    ensures Proc(Progress(lf, s, who, w, c), pid) == Proc(s, pid)
  {
  }

  lemma OtherProgress(lf: Key -> string, s: State, who: Thread, w: Work, c: Choice, pid: nat)
    requires who.pid != pid
    ensures Proc(Progress(lf, s, who, w, c), pid) == Proc(s, pid)
  {
    if w.stage in {Looking, Holding, Locked, Recovering} {
      OtherProgressOnTables(lf, s, who, w, c, pid);
    } else if w.stage in {Opening, Opened, Refused, Unlocking, Unlocked} {
      OtherProgressOnKernel(lf, s, who, w, c, pid);
    }
  }

  lemma OtherProcess(lf: Key -> string, s: State, step: Step, pid: nat)
    requires if step.Crash? then step.pid != pid else step.who.pid != pid
    ensures Proc(Apply(lf, s, step), pid) == Proc(s, pid)
  {
    if step.Advance? && step.who.tid in Proc(s, step.who.pid).work {
      OtherProgress(lf, s, step.who, Proc(s, step.who.pid).work[step.who.tid], step.choice, pid);
    }
  }

  lemma OwnStepKeepsRInv(lf: Key -> string, s: State, step: Step, l: Ledger, pid: nat, key: Key)
    requires Inv(lf, s) && RInv(Proc(s, pid), l, key) && !Recovers(s, step, pid, key)
    requires if step.Crash? then step.pid == pid else step.who.pid == pid
    ensures RInv(Proc(Apply(lf, s, step), pid), Mark(s, l, step, pid, key), key)
  {
    hide RInv;
    var p := Proc(s, pid);
    match step
    case StartAcquire(who, k, org, run) =>
      if who.tid !in p.work { StartingKeepsRInv(p, l, who.tid, k, org, run, key); }
    case StartRelease(who, k, org, run) =>
      if who.tid !in p.work {
        match BeginRelease(p.tables, k, org, run).1
        case NotHeld =>
        case NotOwner =>
        case StillHeld => HoldingOnKeepsRInv(p, l, k, org, run, key);
        case Freed(fd) => FreeingKeepsRInv(p, l, who.tid, k, org, run, fd.value, key);
      }
    case Advance(who, c) =>
      if who.tid in p.work { OwnProgressKeepsRInv(lf, s, who, c, l, key); }
    case Crash(_) => FreshProcess(key);
  }

  lemma FreshProcess(key: Key)
    ensures RInv(IDLE, CLEAN, key)
  {
  }

  lemma StepKeepsRInv(lf: Key -> string, s: State, step: Step, l: Ledger, pid: nat, key: Key)
    requires Inv(lf, s) && RInv(Proc(s, pid), l, key) && !Recovers(s, step, pid, key)
    ensures RInv(Proc(Apply(lf, s, step), pid), Mark(s, l, step, pid, key), key)
  {
    hide RInv;
    if (if step.Crash? then step.pid != pid else step.who.pid != pid) {
      OtherProcess(lf, s, step, pid);
    } else {
      OwnStepKeepsRInv(lf, s, step, l, pid, key);
    }
  }

  lemma {:induction false} RunKeepsRInv(lf: Key -> string, steps: seq<Step>, pid: nat, key: Key)
    requires NeverRecovered(lf, steps, pid, key)
    ensures RInv(Proc(Run(lf, steps), pid), Follow(lf, steps, pid, key), key)
  {
    if steps != [] {
      var before, step := steps[..|steps| - 1], steps[|steps| - 1];
      var s := Run(lf, before);
      RunKeepsRInv(lf, before, pid, key);
      RunKeepsInv(lf, before);
      StepKeepsRInv(lf, s, step, Follow(lf, before, pid, key), pid, key);
      assert Run(lf, steps) == Apply(lf, s, step);
    }
  }

  /** Who holds the key's RLock. */
  function Holder(p: Process, key: Key): Option<Hold> {
    if key in p.tables.threadLocks && p.tables.threadLocks[key] in p.rlocks
    then Some(p.rlocks[p.tables.threadLocks[key]]) else None
  }

  ghost predicate HeldAsRecorded(p: Process, l: Ledger, key: Key) {
    && (Holder(p, key) == None <==> key !in p.tables.owners && l.lost == 0)
    && (key in p.tables.owners ==>
          l.recorder.Some? && Holder(p, key) == Some(Hold(l.recorder.value, 1 + l.lost)))
    && (key !in p.tables.owners && l.lost > 0 ==> Holder(p, key) == Some(Hold(l.victim, l.lost)))
  }

  lemma QuietKeyIsHeldAsRecorded(p: Process, l: Ledger, key: Key)
    requires RInv(p, l, key) && forall tid :: tid in p.work ==> p.work[tid].key != key
    ensures HeldAsRecorded(p, l, key)
  {
    assert CountSound(p, l, key, l.victim);
    if l.recorder.Some? {
      assert CountSound(p, l, key, l.recorder.value);
      if l.lost > 0 { OneHolder(p, l, key, l.recorder.value, l.victim); }
    }
    if Holder(p, key).Some? { assert CountSound(p, l, key, Holder(p, key).value.tid); }
  }

  /** A key that was never recovered and that no thread is working on: its RLock
      is free if and only if it has no owner and every final release so far was
      made by the thread that had recorded the ownership, whichever threads the
      re-entries and the other releases came from. Otherwise the recording thread
      holds it, once for its ownership and once for each final release that
      another thread took over. */
  lemma LastReleaseFreesThreadLock(lf: Key -> string, steps: seq<Step>, pid: nat, key: Key)
    requires NeverRecovered(lf, steps, pid, key)
    requires forall tid :: tid in Proc(Run(lf, steps), pid).work ==> Proc(Run(lf, steps), pid).work[tid].key != key
    ensures var p := Proc(Run(lf, steps), pid); var l := Follow(lf, steps, pid, key);
            && (Holder(p, key) == None <==> key !in p.tables.owners && l.lost == 0)
            && (key in p.tables.owners ==>
                  l.recorder.Some? && Holder(p, key) == Some(Hold(l.recorder.value, 1 + l.lost)))
            && (key !in p.tables.owners && l.lost > 0 ==> Holder(p, key) == Some(Hold(l.victim, l.lost)))
  {
    hide Run, Follow, NeverRecovered, RInv, Proc, Holder;
    RunKeepsRInv(lf, steps, pid, key);
    QuietKeyIsHeldAsRecorded(Proc(Run(lf, steps), pid), Follow(lf, steps, pid, key), key);
  }

  // ---------- A release on another thread ----------

  const FIRST := Thread(0, 0)
  const SECOND := Thread(0, 1)

  /** One run and one key; `lf` names the lock files. */
  datatype Scene = Scene(lf: Key -> string, key: Key, org: string, run: string)

  function Now(c: Scene, steps: seq<Step>): State { Run(c.lf, steps) }

  function Known(c: Scene, steps: seq<Step>): Ledger { Follow(c.lf, steps, 0, c.key) }

  lemma Extend(c: Scene, steps: seq<Step>, step: Step)
    ensures Now(c, steps + [step]) == Apply(c.lf, Now(c, steps), step)
    ensures Known(c, steps + [step]) == Mark(Now(c, steps), Known(c, steps), step, 0, c.key)
  {
    assert (steps + [step])[..|steps|] == steps;
  }

  function Next(tid: nat): Step { Advance(Thread(0, tid), Choice(7, false, false, 0)) }

  /** The first thread holds the RLock. */
  predicate FirstHolds(p: Process) { p.rlocks == map[0 := Hold(0, 1)] }

  predicate Working(c: Scene, p: Process, tid: nat, stage: Stage, fd: nat) {
    p.work == map[tid := Work(stage, c.key, c.org, c.run, 0, fd)]
  }

  function Unowned(c: Scene): Tables { Tables(map[c.key := 0], map[], map[], map[], 1) }

  function OwnedTimes(c: Scene, count: nat): Tables {
    Tables(map[c.key := 0], map[c.key := 7], map[c.key := Owner(c.org, c.run, count)], map[c.key := 0], 1)
  }

  const RECORDED := Ledger(Some(0), 0, 0, {})
  const LOST := Ledger(None, 0, 1, {})

  lemma FirstThreadEnters(c: Scene) returns (steps: seq<Step>)
    ensures var p := Proc(Now(c, steps), 0); p.tables == Unowned(c) && Working(c, p, 0, Holding, 0) && FirstHolds(p)
    ensures Now(c, steps).files == map[] && Now(c, steps).os == map[] && Known(c, steps) == CLEAN
  {
    var start := StartAcquire(FIRST, c.key, c.org, c.run);
    steps := [] + [start];
    Extend(c, [], start);
    assert Proc(Now(c, steps), 0) == Process(Unowned(c), map[0 := Work(Looking, c.key, c.org, c.run, 0, 0)], map[]);
    Extend(c, steps, Next(0)); steps := steps + [Next(0)];
    assert Proc(Now(c, steps), 0) == Process(Unowned(c), map[0 := Work(Waiting, c.key, c.org, c.run, 0, 0)], map[]);
    Extend(c, steps, Next(0)); steps := steps + [Next(0)];
  }

  lemma FirstThreadChecks(c: Scene, before: seq<Step>, held: nat) returns (steps: seq<Step>)
    requires var p := Proc(Now(c, before), 0);
             p.tables == Unowned(c) && Working(c, p, 0, Holding, 0) && p.rlocks == map[0 := Hold(0, held)]
    ensures var p := Proc(Now(c, steps), 0);
            p.tables == Unowned(c) && Working(c, p, 0, Opening, 0) && p.rlocks == map[0 := Hold(0, held)]
    ensures Now(c, steps).files == Now(c, before).files && Now(c, steps).os == Now(c, before).os
    ensures Known(c, steps) == Known(c, before)
  {
    Extend(c, before, Next(0)); steps := before + [Next(0)];
  }

  lemma FirstThreadOpens(c: Scene, before: seq<Step>, held: nat) returns (steps: seq<Step>)
    requires var p := Proc(Now(c, before), 0);
             p.tables == Unowned(c) && Working(c, p, 0, Opening, 0) && p.rlocks == map[0 := Hold(0, held)]
    requires Fd(0, 7) !in Now(c, before).files
    ensures var p := Proc(Now(c, steps), 0);
            p.tables == Unowned(c) && Working(c, p, 0, Opened, 7) && p.rlocks == map[0 := Hold(0, held)]
    ensures Now(c, steps).os == Now(c, before).os && Known(c, steps) == Known(c, before)
  {
    Extend(c, before, Next(0)); steps := before + [Next(0)];
  }

  lemma FirstThreadLocks(c: Scene, before: seq<Step>) returns (steps: seq<Step>)
    requires var p := Proc(Now(c, before), 0); p.tables == Unowned(c) && Working(c, p, 0, Opened, 7) && FirstHolds(p)
    requires Now(c, before).os == map[] && Known(c, before) == CLEAN
    ensures var p := Proc(Now(c, steps), 0); p.tables == Unowned(c) && Working(c, p, 0, Locked, 7) && FirstHolds(p)
    ensures Known(c, steps) == CLEAN
  {
    Extend(c, before, Next(0)); steps := before + [Next(0)];
  }

  lemma FirstThreadRecords(c: Scene, before: seq<Step>) returns (steps: seq<Step>)
    requires var p := Proc(Now(c, before), 0); p.tables == Unowned(c) && Working(c, p, 0, Locked, 7) && FirstHolds(p)
    requires Known(c, before) == CLEAN
    ensures var p := Proc(Now(c, steps), 0); p.tables == OwnedTimes(c, 1) && p.work == map[] && FirstHolds(p)
    ensures Known(c, steps) == RECORDED
  {
    Extend(c, before, Next(0)); steps := before + [Next(0)];
  }

  lemma SecondThreadReenters(c: Scene, before: seq<Step>) returns (steps: seq<Step>)
    requires var p := Proc(Now(c, before), 0); p.tables == OwnedTimes(c, 1) && p.work == map[] && FirstHolds(p)
    requires Known(c, before) == RECORDED
    ensures var p := Proc(Now(c, steps), 0); p.tables == OwnedTimes(c, 2) && p.work == map[] && FirstHolds(p)
    ensures Known(c, steps) == RECORDED
  {
    var start := StartAcquire(SECOND, c.key, c.org, c.run);
    Extend(c, before, start); steps := before + [start];
    assert Working(c, Proc(Now(c, steps), 0), 1, Looking, 0);
    Extend(c, steps, Next(1)); steps := steps + [Next(1)];
  }

  lemma FirstThreadReleases(c: Scene, before: seq<Step>) returns (steps: seq<Step>)
    requires var p := Proc(Now(c, before), 0); p.tables == OwnedTimes(c, 2) && p.work == map[] && FirstHolds(p)
    requires Known(c, before) == RECORDED
    ensures var p := Proc(Now(c, steps), 0); p.tables == OwnedTimes(c, 1) && p.work == map[] && FirstHolds(p)
    ensures Known(c, steps) == RECORDED
  {
    var start := StartRelease(FIRST, c.key, c.org, c.run);
    Extend(c, before, start); steps := before + [start];
  }

  lemma SecondThreadReleases(c: Scene, before: seq<Step>) returns (steps: seq<Step>)
    requires var p := Proc(Now(c, before), 0); p.tables == OwnedTimes(c, 1) && p.work == map[] && FirstHolds(p)
    requires Known(c, before) == RECORDED
    ensures var p := Proc(Now(c, steps), 0); p.tables == Unowned(c) && Working(c, p, 1, Unlocking, 7) && FirstHolds(p)
    ensures Known(c, steps) == LOST.(foreign := {1})
  {
    var start := StartRelease(SECOND, c.key, c.org, c.run);
    Extend(c, before, start); steps := before + [start];
  }

  lemma SecondThreadUnlocks(c: Scene, before: seq<Step>) returns (steps: seq<Step>)
    requires var p := Proc(Now(c, before), 0); p.tables == Unowned(c) && Working(c, p, 1, Unlocking, 7) && FirstHolds(p)
    requires Known(c, before) == LOST.(foreign := {1})
    ensures var p := Proc(Now(c, steps), 0); p.tables == Unowned(c) && Working(c, p, 1, Unlocked, 7) && FirstHolds(p)
    ensures Known(c, steps) == LOST.(foreign := {1})
  {
    Extend(c, before, Next(1)); steps := before + [Next(1)];
  }

  lemma SecondThreadCloses(c: Scene, before: seq<Step>) returns (steps: seq<Step>)
    requires var p := Proc(Now(c, before), 0); p.tables == Unowned(c) && Working(c, p, 1, Unlocked, 7) && FirstHolds(p)
    requires Known(c, before) == LOST.(foreign := {1})
    ensures var p := Proc(Now(c, steps), 0); p.tables == Unowned(c) && Working(c, p, 1, Finding, 7) && FirstHolds(p)
    ensures Fd(0, 7) !in Now(c, steps).files && Known(c, steps) == LOST.(foreign := {1})
  {
    Extend(c, before, Next(1)); steps := before + [Next(1)];
  }

  lemma SecondThreadRefinds(c: Scene, before: seq<Step>) returns (steps: seq<Step>)
    requires var p := Proc(Now(c, before), 0); p.tables == Unowned(c) && Working(c, p, 1, Finding, 7) && FirstHolds(p)
    requires Fd(0, 7) !in Now(c, before).files && Known(c, before) == LOST.(foreign := {1})
    ensures var p := Proc(Now(c, steps), 0); p.tables == Unowned(c) && Working(c, p, 1, Dropping, 7) && FirstHolds(p)
    ensures Fd(0, 7) !in Now(c, steps).files && Known(c, steps) == LOST.(foreign := {1})
  {
    Extend(c, before, Next(1)); steps := before + [Next(1)];
  }

  lemma SecondThreadFinishes(c: Scene, before: seq<Step>) returns (steps: seq<Step>)
    requires var p := Proc(Now(c, before), 0); p.tables == Unowned(c) && Working(c, p, 1, Dropping, 7) && FirstHolds(p)
    requires Fd(0, 7) !in Now(c, before).files && Known(c, before) == LOST.(foreign := {1})
    ensures Proc(Now(c, steps), 0) == Process(Unowned(c), map[], map[0 := Hold(0, 1)])
    ensures Fd(0, 7) !in Now(c, steps).files && Known(c, steps) == LOST
  {
    Extend(c, before, Next(1)); steps := before + [Next(1)];
  }

  lemma CrossThreadRelease(c: Scene) returns (steps: seq<Step>)
    ensures Proc(Now(c, steps), 0) == Process(Unowned(c), map[], map[0 := Hold(0, 1)])
    ensures Fd(0, 7) !in Now(c, steps).files && Known(c, steps) == LOST
  {
    var entered := FirstThreadEnters(c);
    var checked := FirstThreadChecks(c, entered, 1);
    var open := FirstThreadOpens(c, checked, 1);
    var locked := FirstThreadLocks(c, open);
    var acquired := FirstThreadRecords(c, locked);
    var reentered := SecondThreadReenters(c, acquired);
    var released := FirstThreadReleases(c, reentered);
    var freed := SecondThreadReleases(c, released);
    var unlocked := SecondThreadUnlocks(c, freed);
    var closed := SecondThreadCloses(c, unlocked);
    var found := SecondThreadRefinds(c, closed);
    steps := SecondThreadFinishes(c, found);
  }

  /** One run acquires on one thread, re-enters on a second, and is released
      once on each. The second release is the last, but its thread does not hold
      the RLock, so Python refuses to free it: with no owner and nobody at work,
      the first thread holds the RLock for as long as the process lives. */
  lemma CrossThreadReleaseLosesThreadLock(c: Scene)
    ensures exists steps :: Proc(Run(c.lf, steps), 0) == Process(Unowned(c), map[], map[0 := Hold(FIRST.tid, 1)])
                            && Follow(c.lf, steps, 0, c.key).lost == 1
  {
    var steps := CrossThreadRelease(c);
    assert Now(c, steps) == Run(c.lf, steps) && Known(c, steps) == Follow(c.lf, steps, 0, c.key);
  }

  // ---------- Recovery ----------

  function Struck(stale: bool): Step { Advance(FIRST, Choice(7, true, stale, 0)) }

  lemma FirstThreadReturns(c: Scene, before: seq<Step>) returns (steps: seq<Step>)
    requires Proc(Now(c, before), 0) == Process(Unowned(c), map[], map[0 := Hold(0, 1)])
    requires Fd(0, 7) !in Now(c, before).files && Known(c, before) == LOST
    ensures var p := Proc(Now(c, steps), 0);
            p.tables == Unowned(c) && Working(c, p, 0, Holding, 0) && p.rlocks == map[0 := Hold(0, 2)]
    ensures Fd(0, 7) !in Now(c, steps).files && Known(c, steps) == LOST
  {
    var start := StartAcquire(FIRST, c.key, c.org, c.run);
    Extend(c, before, start); steps := before + [start];
    assert Working(c, Proc(Now(c, steps), 0), 0, Looking, 0);
    Extend(c, steps, Next(0)); steps := steps + [Next(0)];
    assert Working(c, Proc(Now(c, steps), 0), 0, Waiting, 0);
    Extend(c, steps, Next(0)); steps := steps + [Next(0)];
  }

  lemma FirstThreadIsRefused(c: Scene, before: seq<Step>) returns (steps: seq<Step>)
    requires var p := Proc(Now(c, before), 0);
             p.tables == Unowned(c) && Working(c, p, 0, Opened, 7) && p.rlocks == map[0 := Hold(0, 2)]
    requires Known(c, before) == LOST
    ensures var p := Proc(Now(c, steps), 0);
            p.tables == Unowned(c) && Working(c, p, 0, Recovering, 7) && p.rlocks == map[0 := Hold(0, 2)]
    ensures Known(c, steps) == LOST
  {
    Extend(c, before, Struck(false)); steps := before + [Struck(false)];
    assert Working(c, Proc(Now(c, steps), 0), 0, Refused, 7);
    Extend(c, steps, Next(0)); steps := steps + [Next(0)];
  }

  lemma FirstThreadRecovers(c: Scene, before: seq<Step>) returns (steps: seq<Step>)
    requires var p := Proc(Now(c, before), 0);
             p.tables == Unowned(c) && Working(c, p, 0, Recovering, 7) && p.rlocks == map[0 := Hold(0, 2)]
    requires Known(c, before) == LOST
    ensures var p := Proc(Now(c, steps), 0);
            p.tables == EMPTY.(nextLock := 1) && Working(c, p, 0, BackingOff, 7) && p.rlocks == map[0 := Hold(0, 2)]
    ensures Known(c, steps) == LOST
  {
    Extend(c, before, Struck(true)); steps := before + [Struck(true)];
  }

  lemma FirstThreadGivesUp(c: Scene, before: seq<Step>) returns (steps: seq<Step>)
    requires var p := Proc(Now(c, before), 0);
             p.tables == EMPTY.(nextLock := 1) && Working(c, p, 0, BackingOff, 7) && p.rlocks == map[0 := Hold(0, 2)]
    requires Known(c, before) == LOST
    ensures Proc(Now(c, steps), 0) == Process(EMPTY.(nextLock := 1), map[], map[0 := Hold(0, 1)])
    ensures Known(c, steps) == LOST
  {
    Extend(c, before, Next(0)); steps := before + [Next(0)];
    assert Working(c, Proc(Now(c, steps), 0), 0, Waiting, 7);
    Extend(c, steps, Struck(false)); steps := steps + [Struck(false)];
  }

  /** Why the theorem leaves recovery out: after the lost release the first thread
      comes back, is refused the OS lock by the descriptor that a dead process
      passed on, recovers and times out. Recovery has forgotten the lost RLock: the
      thread goes on holding it for nothing, and the key starts over with a free one. */
  lemma RecoveryForgetsTheLostLock(c: Scene)
    ensures exists steps :: var p := Proc(Run(c.lf, steps), 0);
              && p.work == map[] && p.rlocks == map[0 := Hold(FIRST.tid, 1)]
              && Holder(p, c.key) == None && Follow(c.lf, steps, 0, c.key).lost == 1
  {
    var lost := CrossThreadRelease(c);
    var returned := FirstThreadReturns(c, lost);
    var checked := FirstThreadChecks(c, returned, 2);
    var open := FirstThreadOpens(c, checked, 2);
    var refused := FirstThreadIsRefused(c, open);
    var recovered := FirstThreadRecovers(c, refused);
    var steps := FirstThreadGivesUp(c, recovered);
    assert Now(c, steps) == Run(c.lf, steps) && Known(c, steps) == Follow(c.lf, steps, 0, c.key);
  }
}
