/** Which lock-file descriptors are open: at every point of every run each open one
    is either recorded under a key or in the hands of a thread that will go on to
    use or close it. A round of polling in vain leaves none behind. */
module LockDescriptors {
  import opened Options
  import opened LockTables
  import opened LockProtocol

  /** Recorded under a key. */
  predicate IsRecorded(p: Process, num: nat, key: Key) { key in p.tables.openFds && p.tables.openFds[key] == num }

  /** In the hands of a thread at a stage that uses it. */
  predicate InHand(p: Process, num: nat, tid: nat) {
    tid in p.work && UsesFd(p.work[tid].stage) && p.work[tid].fd == num
  }

  predicate IsInUse(p: Process, num: nat, user: User) {
    match user
    case ByKey(key) => IsRecorded(p, num, key)
    case ByThread(tid) => InHand(p, num, tid)
  }

  ghost predicate UsersSound(s: State, pid: nat, p: Process) {
    forall num: nat :: Fd(pid, num) in s.files ==>
      Fd(pid, num) in s.users && IsInUse(p, num, s.users[Fd(pid, num)])
  }

  /** Every open descriptor has a user. */
  ghost predicate NoneLost(s: State) { forall pid: nat :: UsersSound(s, pid, Proc(s, pid)) }

  /** A step of one process is judged by that process alone. */
  lemma OwnUsersSuffice(s: State, s': State, pid: nat)
    requires NoneLost(s) && UsersSound(s', pid, Proc(s', pid))
    requires forall q: nat :: q != pid ==> Proc(s', q) == Proc(s, q)
    requires forall fd: Fd :: fd.pid != pid && fd in s'.files ==>
               fd in s.files && (fd in s.users <==> fd in s'.users) && (fd in s.users ==> s'.users[fd] == s.users[fd])
    ensures NoneLost(s')
  {
    forall q: nat ensures UsersSound(s', q, Proc(s', q)) {
      assert UsersSound(s, q, Proc(s, q));
    }
  }

  /** The kernel stays, the process keeps its records, and only a thread without a
      descriptor in hand moves on. */
  lemma PrivateStepLosesNone(s: State, who: Thread, p': Process, log: seq<Event>)
    requires NoneLost(s) && p'.tables.openFds == Proc(s, who.pid).tables.openFds
    requires forall num: nat :: !InHand(Proc(s, who.pid), num, who.tid)
    requires forall tid :: tid != who.tid ==>
               (tid in p'.work <==> tid in Proc(s, who.pid).work)
               && (tid in p'.work ==> p'.work[tid] == Proc(s, who.pid).work[tid])
    ensures NoneLost(With(s.(log := log), who.pid, p'))
  {
    var s' := With(s.(log := log), who.pid, p');
    assert UsersSound(s, who.pid, Proc(s, who.pid));
    forall num: nat | Fd(who.pid, num) in s'.files
      ensures Fd(who.pid, num) in s'.users && IsInUse(p', num, s'.users[Fd(who.pid, num)])
    {
      assert IsInUse(Proc(s, who.pid), num, s.users[Fd(who.pid, num)]);
    }
    OwnUsersSuffice(s, s', who.pid);
  }

  /** A thread moves on with its descriptor in hand. */
  lemma HandKeeps(s: State, s': State, who: Thread, w: Work)
    requires NoneLost(s) && who.tid in Proc(s, who.pid).work && UsesFd(Proc(s, who.pid).work[who.tid].stage)
    requires UsesFd(w.stage) && w.fd == Proc(s, who.pid).work[who.tid].fd
    requires s'.files == s.files && s'.users == s.users
    requires s'.procs == s.procs[who.pid := Goto(Proc(s, who.pid), who.tid, w)]
    ensures NoneLost(s')
  {
    var p' := Goto(Proc(s, who.pid), who.tid, w);
    assert UsersSound(s, who.pid, Proc(s, who.pid));
    forall num: nat | Fd(who.pid, num) in s'.files
      ensures Fd(who.pid, num) in s'.users && IsInUse(p', num, s'.users[Fd(who.pid, num)])
    {
      assert IsInUse(Proc(s, who.pid), num, s.users[Fd(who.pid, num)]);
    }
    OwnUsersSuffice(s, s', who.pid);
  }

  /** A thread closes the descriptor it has in hand. */
  lemma ClosingLosesNone(s: State, who: Thread, w: Work, next: Stage)
    requires NoneLost(s) && who.tid in Proc(s, who.pid).work && w == Proc(s, who.pid).work[who.tid]
    requires UsesFd(w.stage) && !UsesFd(next)
    ensures NoneLost(With(Close(s, Fd(who.pid, w.fd)), who.pid, Goto(Proc(s, who.pid), who.tid, w.(stage := next))))
  {
    var p := Proc(s, who.pid);
    var s' := With(Close(s, Fd(who.pid, w.fd)), who.pid, Goto(p, who.tid, w.(stage := next)));
    assert UsersSound(s, who.pid, p);
    forall num: nat | Fd(who.pid, num) in s'.files
      ensures Fd(who.pid, num) in s'.users && IsInUse(Proc(s', who.pid), num, s'.users[Fd(who.pid, num)])
    {
      assert num != w.fd && IsInUse(p, num, s.users[Fd(who.pid, num)]);
    }
    OwnUsersSuffice(s, s', who.pid);
  }

  lemma OpeningLosesNone(lf: Key -> string, s: State, who: Thread, w: Work, c: Choice)
    requires NoneLost(s) && who.tid in Proc(s, who.pid).work && w == Proc(s, who.pid).work[who.tid]
    requires w.stage.Opening? && !c.fails && Fd(who.pid, c.num) !in s.files
    ensures NoneLost(OpeningFile(lf, s, who, w, c))
  {
    var p, s' := Proc(s, who.pid), OpeningFile(lf, s, who, w, c);
    assert UsersSound(s, who.pid, p);
    forall num: nat | Fd(who.pid, num) in s'.files
      ensures Fd(who.pid, num) in s'.users && IsInUse(Proc(s', who.pid), num, s'.users[Fd(who.pid, num)])
    {
      if num != c.num { assert IsInUse(p, num, s.users[Fd(who.pid, num)]); }
    }
    OwnUsersSuffice(s, s', who.pid);
  }

  /** Whoever records an owner hands the descriptor over to the key. */
  lemma RecordingLosesNone(s: State, who: Thread, w: Work, c: Choice)
    requires NoneLost(s) && who.tid in Proc(s, who.pid).work && w == Proc(s, who.pid).work[who.tid]
    requires w.stage.Locked? && w.key !in Proc(s, who.pid).tables.openFds
    ensures NoneLost(Recording(s, who, w, c))
  {
    var p, s' := Proc(s, who.pid), Recording(s, who, w, c);
    assert UsersSound(s, who.pid, p);
    forall num: nat | Fd(who.pid, num) in s'.files
      ensures Fd(who.pid, num) in s'.users && IsInUse(Proc(s', who.pid), num, s'.users[Fd(who.pid, num)])
    {
      if num != w.fd { assert IsInUse(p, num, s.users[Fd(who.pid, num)]); }
    }
    OwnUsersSuffice(s, s', who.pid);
  }

  /** Whoever releases for the last time takes it over from the key. */
  lemma FreeingLosesNone(s: State, who: Thread, key: Key, org: string, run: string)
    requires NoneLost(s) && Agree(Proc(s, who.pid).tables) && who.tid !in Proc(s, who.pid).work
    requires BeginRelease(Proc(s, who.pid).tables, key, org, run).1.Freed?
    ensures NoneLost(Releasing(s, who, key, org, run))
  {
    var p, s' := Proc(s, who.pid), Releasing(s, who, key, org, run);
    var p' := Proc(s', who.pid);
    assert UsersSound(s, who.pid, p);
    assert p'.tables.openFds == Without(p.tables.openFds, key);
    forall num: nat | Fd(who.pid, num) in s'.files
      ensures Fd(who.pid, num) in s'.users && IsInUse(p', num, s'.users[Fd(who.pid, num)])
    {
      if num != p.tables.openFds[key] { assert IsInUse(p, num, s.users[Fd(who.pid, num)]); }
    }
    OwnUsersSuffice(s, s', who.pid);
  }

  lemma CheckingLosesNone(s: State, who: Thread, w: Work, next: Stage)
    requires NoneLost(s) && who.tid in Proc(s, who.pid).work && w == Proc(s, who.pid).work[who.tid]
    requires !UsesFd(w.stage)
    ensures NoneLost(Checking(s, who, w, next))
  {
    var p := Proc(s, who.pid);
    var (t, hit) := TryReenter(p.tables, w.key, w.org, w.run);
    if hit {
      PrivateStepLosesNone(s, who, Finish(p.(tables := t), who.tid), s.log + [Acquired(who.pid, w.key, w.org, w.run)]);
    } else {
      PrivateStepLosesNone(s, who, Goto(p, who.tid, w.(stage := next)), s.log);
    }
  }

  lemma RecoveringLosesNone(s: State, who: Thread, w: Work, c: Choice)
    requires NoneLost(s) && Agree(Proc(s, who.pid).tables) && who.tid in Proc(s, who.pid).work
    requires w == Proc(s, who.pid).work[who.tid] && w.stage.Recovering?
    ensures NoneLost(if c.stale then Evicting(s, who, w)
                     else With(s, who.pid, Goto(Proc(s, who.pid), who.tid, w.(stage := BackingOff))))
  {
    var p := Proc(s, who.pid);
    PrivateStepLosesNone(s, who, Goto(p, who.tid, w.(stage := BackingOff)), s.log);
    PrivateStepLosesNone(s, who, Goto(p.(tables := EvictStale(p.tables, w.key).0), who.tid, w.(stage := BackingOff)),
                         s.log);
  }

  lemma RLockStageLosesNone(lf: Key -> string, s: State, who: Thread, w: Work, c: Choice)
    requires NoneLost(s) && who.tid in Proc(s, who.pid).work && w == Proc(s, who.pid).work[who.tid]
    requires w.stage in {Waiting, BackingOff, Finding, Dropping}
    ensures NoneLost(Progress(lf, s, who, w, c))
  {
    var p := Proc(s, who.pid);
    match w.stage
    case Waiting => PrivateStepLosesNone(s, who, Polling(p, who.tid, w, c), s.log);
    case BackingOff =>
      PrivateStepLosesNone(s, who, Goto(Drop(p, w.lock, who.tid), who.tid, w.(stage := Waiting)), s.log);
    case Finding => PrivateStepLosesNone(s, who, Refinding(p, who.tid, w), s.log);
    case Dropping => PrivateStepLosesNone(s, who, Finish(Drop(p, w.lock, who.tid), who.tid), s.log);
  }

  lemma OpeningStageLosesNone(lf: Key -> string, s: State, who: Thread, w: Work, c: Choice)
    requires NoneLost(s) && who.tid in Proc(s, who.pid).work && w == Proc(s, who.pid).work[who.tid] && w.stage.Opening?
    ensures NoneLost(OpeningFile(lf, s, who, w, c))
  {
    if c.fails {
      PrivateStepLosesNone(s, who, Goto(Proc(s, who.pid), who.tid, w.(stage := Recovering)), s.log);
    } else if Fd(who.pid, c.num) !in s.files {
      OpeningLosesNone(lf, s, who, w, c);
    }
  }

  lemma LockStageLosesNone(lf: Key -> string, s: State, who: Thread, w: Work, c: Choice)
    requires NoneLost(s) && who.tid in Proc(s, who.pid).work && w == Proc(s, who.pid).work[who.tid]
    ensures w.stage.Opened? ==> NoneLost(Trying(lf, s, who, w, c))
    ensures var unlocked := Unlock(s, Fd(who.pid, w.fd));
            w.stage.Unlocking? ==>
              NoneLost(With(unlocked, who.pid, Goto(Proc(s, who.pid), who.tid, w.(stage := Unlocked))))
  {
    var p := Proc(s, who.pid);
    if w.stage.Opened? {
      var next := if lf(w.key) in s.os || c.fails then Refused else Locked;
      HandKeeps(s, Trying(lf, s, who, w, c), who, w.(stage := next));
    } else if w.stage.Unlocking? {
      var s' := With(Unlock(s, Fd(who.pid, w.fd)), who.pid, Goto(p, who.tid, w.(stage := Unlocked)));
      HandKeeps(s, s', who, w.(stage := Unlocked));
    }
  }

  lemma FileStageLosesNone(lf: Key -> string, s: State, who: Thread, w: Work, c: Choice)
    requires Inv(lf, s) && NoneLost(s) && who.tid in Proc(s, who.pid).work && w == Proc(s, who.pid).work[who.tid]
    requires w.stage in {Opening, Opened, Locked, Refused, Unlocking, Unlocked}
    ensures NoneLost(Progress(lf, s, who, w, c))
  {
    hide NoneLost, OpeningFile, Trying, Recording, Close, Unlock, Inv;
    match w.stage
    case Opening => OpeningStageLosesNone(lf, s, who, w, c);
    case Opened => LockStageLosesNone(lf, s, who, w, c);
    case Locked =>
      RecordingKeepsInv(lf, s, who, w, c);
      ProcIsSound(lf, s, who.pid);
      RecordingLosesNone(s, who, w, c);
    case Refused => ClosingLosesNone(s, who, w, Recovering);
    case Unlocking => LockStageLosesNone(lf, s, who, w, c);
    case Unlocked => ClosingLosesNone(s, who, w, Finding);
  }

  lemma ProgressLosesNone(lf: Key -> string, s: State, who: Thread, w: Work, c: Choice)
    requires Inv(lf, s) && NoneLost(s) && who.tid in Proc(s, who.pid).work && w == Proc(s, who.pid).work[who.tid]
    ensures NoneLost(Progress(lf, s, who, w, c))
  {
    match w.stage
    case Looking => CheckingLosesNone(s, who, w, Waiting);
    case Holding => CheckingLosesNone(s, who, w, Opening);
    case Recovering =>
      ProcIsSound(lf, s, who.pid);
      RecoveringLosesNone(s, who, w, c);
    case stage =>
      if stage in {Waiting, BackingOff, Finding, Dropping} { RLockStageLosesNone(lf, s, who, w, c); }
      else { FileStageLosesNone(lf, s, who, w, c); }
  }

  lemma CrashLosesNone(lf: Key -> string, s: State, pid: nat)
    requires NoneLost(s)
    ensures NoneLost(Apply(lf, s, Crash(pid)))
  {
    var s' := Apply(lf, s, Crash(pid));
    forall q: nat ensures UsersSound(s', q, Proc(s', q)) {
      assert UsersSound(s, q, Proc(s, q));
    }
  }

  lemma StepLosesNone(lf: Key -> string, s: State, step: Step)
    requires Inv(lf, s) && NoneLost(s)
    ensures NoneLost(Apply(lf, s, step))
  {
    match step
    case StartAcquire(who, key, org, run) =>
      var p := Proc(s, who.pid);
      if who.tid !in p.work { PrivateStepLosesNone(s, who, Starting(p, who.tid, key, org, run), s.log); }
    case StartRelease(who, key, org, run) =>
      var p := Proc(s, who.pid);
      if who.tid !in p.work {
        ProcIsSound(lf, s, who.pid);
        var (t, outcome) := BeginRelease(p.tables, key, org, run);
        if outcome.StillHeld? {
          PrivateStepLosesNone(s, who, p.(tables := t), s.log + [Released(who.pid, key, org, run)]);
        } else if outcome.Freed? {
          FreeingLosesNone(s, who, key, org, run);
        }
      }
    case Advance(who, c) =>
      if who.tid in Proc(s, who.pid).work { ProgressLosesNone(lf, s, who, Proc(s, who.pid).work[who.tid], c); }
    case Crash(pid) => CrashLosesNone(lf, s, pid);
  }

  lemma {:induction false} RunLosesNone(lf: Key -> string, steps: seq<Step>)
    ensures NoneLost(Run(lf, steps))
  {
    hide NoneLost, Apply, Inv;
    if steps == [] {
      NothingIsOpenAtFirst();
    } else {
      var before := steps[..|steps| - 1];
      RunLosesNone(lf, before);
      RunKeepsInv(lf, before);
      StepLosesNone(lf, Run(lf, before), steps[|before|]);
    }
  }

  lemma NothingIsOpenAtFirst()
    ensures NoneLost(INIT)
  {
  }

  /** At every point of every run, the open descriptors of a process are exactly
      those recorded under a key and those a thread has in hand. */
  lemma OpenExactlyWhenInUse(lf: Key -> string, steps: seq<Step>, fd: Fd)
    ensures var s := Run(lf, steps); var p := Proc(s, fd.pid);
            fd in s.files <==> (exists key :: IsRecorded(p, fd.num, key)) || (exists tid :: InHand(p, fd.num, tid))
  {
    RunLosesNone(lf, steps);
    RunKeepsInv(lf, steps);
    var s := Run(lf, steps);
    var p := Proc(s, fd.pid);
    ProcIsSound(lf, s, fd.pid);
    assert UsersSound(s, fd.pid, p);
    if fd in s.files {
      assert fd == Fd(fd.pid, fd.num) && IsInUse(p, fd.num, s.users[fd]);
      match s.users[fd]
      case ByKey(key) => assert IsRecorded(p, fd.num, key);
      case ByThread(tid) => assert InHand(p, fd.num, tid);
    }
    forall key | IsRecorded(p, fd.num, key) ensures fd in s.files { assert RecordSound(lf, s, key, fd); }
    forall tid | InHand(p, fd.num, tid) ensures fd in s.files {
      assert WorkSound(lf, s, Thread(fd.pid, tid), p.work[tid]);
    }
  }

  /** So a process that owns nothing and has nobody at work has no lock file open
      and holds no OS lock, however many rounds of polling went before. */
  lemma IdleProcessHoldsNothing(lf: Key -> string, steps: seq<Step>, pid: nat)
    requires var p := Proc(Run(lf, steps), pid); p.tables.owners == map[] && p.work == map[]
    ensures forall fd: Fd :: fd in Run(lf, steps).files ==> fd.pid != pid
    ensures forall f :: f in Run(lf, steps).os ==> Run(lf, steps).os[f].pid != pid
  {
    var s := Run(lf, steps);
    RunKeepsInv(lf, steps);
    ProcIsSound(lf, s, pid);
    forall fd: Fd | fd in s.files ensures fd.pid != pid {
      if fd.pid == pid { OpenExactlyWhenInUse(lf, steps, fd); }
    }
  }

  predicate IsOwned(lf: Key -> string, s: State, f: string, pid: nat, key: Key) { Owns(s, pid, key) && lf(key) == f }

  /** A thread between the OS lock and the record, or between the record and the unlock. */
  predicate IsKept(lf: Key -> string, s: State, f: string, pid: nat, tid: nat) {
    var work := Proc(s, pid).work;
    tid in work && KeepsOsLock(work[tid].stage) && lf(work[tid].key) == f
  }

  /** The OS lock on a file is taken exactly while some process owns a key of that
      file or one of its threads is about to record or to give up such ownership. */
  lemma LockedExactlyWhenHeld(lf: Key -> string, steps: seq<Step>, f: string)
    ensures var s := Run(lf, steps);
            f in s.os
            <==> (exists pid, key :: IsOwned(lf, s, f, pid, key)) || (exists pid, tid :: IsKept(lf, s, f, pid, tid))
  {
    var s := Run(lf, steps);
    RunKeepsInv(lf, steps);
    RunLosesNone(lf, steps);
    if f in s.os { LockHasItsHolder(lf, s, f); }
    forall pid, key | IsOwned(lf, s, f, pid, key) ensures f in s.os { OwnerHoldsFile(lf, s, pid, key); }
    forall pid, tid | IsKept(lf, s, f, pid, tid) ensures f in s.os {
      ProcIsSound(lf, s, pid);
      assert WorkSound(lf, s, Thread(pid, tid), Proc(s, pid).work[tid]);
    }
  }

  lemma LockHasItsHolder(lf: Key -> string, s: State, f: string)
    requires Inv(lf, s) && NoneLost(s) && f in s.os
    ensures (exists pid, key :: IsOwned(lf, s, f, pid, key)) || (exists pid, tid :: IsKept(lf, s, f, pid, tid))
  {
    var fd := s.os[f];
    var p := Proc(s, fd.pid);
    ProcIsSound(lf, s, fd.pid);
    assert fd in s.files && s.files[fd] == f && UsersSound(s, fd.pid, p);
    assert fd == Fd(fd.pid, fd.num) && IsInUse(p, fd.num, s.users[fd]);
    match s.users[fd]
    case ByKey(key) =>
      assert RecordSound(lf, s, key, fd);
      assert IsOwned(lf, s, f, fd.pid, key);
    case ByThread(tid) =>
      assert WorkSound(lf, s, Thread(fd.pid, tid), p.work[tid]);
      assert IsKept(lf, s, f, fd.pid, tid);
  }
}
