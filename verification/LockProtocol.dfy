/** The workspace lock as a concurrent protocol: any number of processes, each
    with its own `Tables`, any number of threads in each, and one kernel that
    grants exclusive locks on lock files to open file descriptions.

    A step is one critical section of `_global_lock`, one system call, or one
    operation on an RLock; a process may also crash, which drops its memory and
    lets the kernel close its descriptors. A step that is not possible in a
    state leaves that state unchanged, so every sequence of steps is a run. */
module LockProtocol {
  import opened Options
  import opened LockTables

  datatype Fd = Fd(pid: nat, num: nat)
  datatype Thread = Thread(pid: nat, tid: nat)
  datatype Hold = Hold(tid: nat, count: nat)

  datatype Stage =
    | Looking     // has the RLock object, first re-entrancy check next
    | Waiting     // polling for the RLock
    | Holding     // has the RLock, second re-entrancy check next
    | Opening     // about to open the lock file
    | Opened      // about to try the OS lock
    | Locked      // OS lock held but not yet recorded
    | Refused     // OS lock refused, close next
    | Recovering  // stale recovery next
    | BackingOff  // about to release the RLock and poll again
    | Unlocking   // ownership dropped, OS unlock next
    | Unlocked    // close next
    | Finding     // about to look up the RLock again
    | Dropping    // about to release the RLock

  predicate UsesFd(s: Stage) { s in {Opened, Locked, Refused, Unlocking, Unlocked} }
  predicate KeepsOsLock(s: Stage) { s in {Locked, Unlocking} }
  predicate KeepsRLock(s: Stage) { s !in {Looking, Waiting} }
  predicate Acquiring(s: Stage) { s !in {Unlocking, Unlocked, Finding, Dropping} }

  /** What a busy thread is doing; an idle thread has no entry. */
  datatype Work = Work(stage: Stage, key: Key, org: string, run: string, lock: LockId, fd: nat)

  datatype Event =
    | Acquired(pid: nat, key: Key, org: string, run: string)
    | Released(pid: nat, key: Key, org: string, run: string)
    | Died(pid: nat)

  /** Who will close an open descriptor: the thread working on it, or whoever
      releases the key it is recorded under. Written for the proof; no step reads it. */
  datatype User = ByThread(tid: nat) | ByKey(key: Key)

  /** One process: its tables, what its busy threads are doing, and its held RLocks. */
  datatype Process = Process(tables: Tables, work: map<nat, Work>, rlocks: map<LockId, Hold>)

  datatype State = State(
    procs: map<nat, Process>,
    files: map<Fd, string>,         // open descriptors and the file each refers to
    os: map<string, Fd>,            // OS lock on a file
    users: map<Fd, User>,
    log: seq<Event>)

  const IDLE := Process(EMPTY, map[], map[])
  const INIT := State(map[], map[], map[], map[], [])

  function Proc(s: State, pid: nat): Process {
    if pid in s.procs then s.procs[pid] else IDLE
  }

  datatype Step =
    | StartAcquire(who: Thread, key: Key, org: string, run: string)
    | StartRelease(who: Thread, key: Key, org: string, run: string)
    | Advance(who: Thread, choice: Choice)
    | Crash(pid: nat)

  /** What the environment decides in a step: the descriptor number the kernel
      picks, whether it refuses a lock that is free, whether a timeout struck,
      and whether the recorded owner was found dead and its run terminal. */
  datatype Choice = Choice(num: nat, fails: bool, stale: bool, now: nat)

  function Erase<K, V>(m: map<K, V>, k: K): (r: map<K, V>) {
    m - {k}
  }

  // RLock semantics: re-entrant for the holding thread, RuntimeError for any other.

  function Count(p: Process, lock: LockId, tid: nat): nat {
    if lock in p.rlocks && p.rlocks[lock].tid == tid then p.rlocks[lock].count else 0
  }

  predicate CanTake(p: Process, lock: LockId, tid: nat) {
    lock in p.rlocks ==> p.rlocks[lock].tid == tid
  }

  function Take(p: Process, lock: LockId, tid: nat): Process {
    p.(rlocks := p.rlocks[lock := Hold(tid, Count(p, lock, tid) + 1)])
  }

  function Drop(p: Process, lock: LockId, tid: nat): (r: Process)
    ensures r == p.(rlocks := r.rlocks)
  {
    if Count(p, lock, tid) == 0 then p
    else if Count(p, lock, tid) == 1 then p.(rlocks := Erase(p.rlocks, lock))
    else p.(rlocks := p.rlocks[lock := Hold(tid, Count(p, lock, tid) - 1)])
  }

  function Goto(p: Process, tid: nat, w: Work): Process { p.(work := p.work[tid := w]) }

  function Finish(p: Process, tid: nat): Process { p.(work := Erase(p.work, tid)) }

  // The kernel.

  function Unlock(s: State, fd: Fd): (r: State)
    ensures r == s.(os := r.os)
  {
    if fd in s.files && s.files[fd] in s.os && s.os[s.files[fd]] == fd
    then s.(os := Erase(s.os, s.files[fd])) else s
  }

  /** Closing a descriptor also gives up the lock it holds. */
  function Close(s: State, fd: Fd): (r: State)
    ensures r == s.(os := r.os, files := r.files, users := r.users)
  {
    var u := Unlock(s, fd);
    u.(files := Erase(u.files, fd), users := Erase(u.users, fd))
  }

  function Use(s: State, fd: Fd, user: User): State { s.(users := s.users[fd := user]) }

  function With(s: State, pid: nat, p: Process): State { s.(procs := s.procs[pid := p]) }

  function Log(s: State, e: Event): State { s.(log := s.log + [e]) }

  function Apply(lf: Key -> string, s: State, step: Step): State {
    match step
    case StartAcquire(who, key, org, run) =>
      if who.tid in Proc(s, who.pid).work then s
      else With(s, who.pid, Starting(Proc(s, who.pid), who.tid, key, org, run))
    case StartRelease(who, key, org, run) =>
      if who.tid in Proc(s, who.pid).work then s else Releasing(s, who, key, org, run)
    case Advance(who, choice) =>
      var p := Proc(s, who.pid);
      if who.tid in p.work then Progress(lf, s, who, p.work[who.tid], choice) else s
    case Crash(pid) =>
      State(
        map p | p in s.procs && p != pid :: s.procs[p],
        map fd | fd in s.files && fd.pid != pid :: s.files[fd],
        map f | f in s.os && s.os[f].pid != pid :: s.os[f],
        map fd | fd in s.users && fd.pid != pid :: s.users[fd],
        s.log + [Died(pid)])
  }

  function Starting(p: Process, tid: nat, key: Key, org: string, run: string): Process {
    var (t, lock) := GetThreadLock(p.tables, key);
    Goto(p.(tables := t), tid, Work(Looking, key, org, run, lock, 0))
  }

  function Releasing(s: State, who: Thread, key: Key, org: string, run: string): State {
    var p := Proc(s, who.pid);
    var (t, outcome) := BeginRelease(p.tables, key, org, run);
    var logged := Log(s, Released(who.pid, key, org, run));
    match outcome
    case NotHeld => s
    case NotOwner => s
    case StillHeld => With(logged, who.pid, p.(tables := t))
    case Freed(fd) =>
      if fd.Some? then
        With(Use(logged, Fd(who.pid, fd.value), ByThread(who.tid)), who.pid,
             Goto(p.(tables := t), who.tid, Work(Unlocking, key, org, run, 0, fd.value)))
      else With(logged, who.pid, Goto(p.(tables := t), who.tid, Work(Finding, key, org, run, 0, 0)))
  }

  function Progress(lf: Key -> string, s: State, who: Thread, w: Work, c: Choice): State {
    var p := Proc(s, who.pid);
    var fd := Fd(who.pid, w.fd);
    match w.stage
    case Looking => Checking(s, who, w, Waiting)
    case Waiting => With(s, who.pid, Polling(p, who.tid, w, c))
    case Holding => Checking(s, who, w, Opening)
    case Opening => OpeningFile(lf, s, who, w, c)
    case Opened => Trying(lf, s, who, w, c)
    case Locked => Recording(s, who, w, c)
    case Refused => With(Close(s, fd), who.pid, Goto(p, who.tid, w.(stage := Recovering)))
    case Recovering =>
      if c.stale then Evicting(s, who, w) else With(s, who.pid, Goto(p, who.tid, w.(stage := BackingOff)))
    case BackingOff => With(s, who.pid, Goto(Drop(p, w.lock, who.tid), who.tid, w.(stage := Waiting)))
    case Unlocking => With(Unlock(s, fd), who.pid, Goto(p, who.tid, w.(stage := Unlocked)))
    case Unlocked => With(Close(s, fd), who.pid, Goto(p, who.tid, w.(stage := Finding)))
    case Finding => With(s, who.pid, Refinding(p, who.tid, w))
    case Dropping => With(s, who.pid, Finish(Drop(p, w.lock, who.tid), who.tid))
  }

  function Checking(s: State, who: Thread, w: Work, next: Stage): State {
    var p := Proc(s, who.pid);
    var (t, hit) := TryReenter(p.tables, w.key, w.org, w.run);
    if hit then
      With(Log(s, Acquired(who.pid, w.key, w.org, w.run)), who.pid, Finish(p.(tables := t), who.tid))
    else With(s, who.pid, Goto(p, who.tid, w.(stage := next)))
  }

  function Polling(p: Process, tid: nat, w: Work, c: Choice): (r: Process)
    ensures r.tables == p.tables
  {
    if c.fails then Finish(p, tid)
    else if CanTake(p, w.lock, tid) then Goto(Take(p, w.lock, tid), tid, w.(stage := Holding))
    else p
  }

  function OpeningFile(lf: Key -> string, s: State, who: Thread, w: Work, c: Choice): State {
    var p := Proc(s, who.pid);
    var fd := Fd(who.pid, c.num);
    if c.fails then With(s, who.pid, Goto(p, who.tid, w.(stage := Recovering)))
    else if fd in s.files then s
    else
      With(Use(s.(files := s.files[fd := lf(w.key)]), fd, ByThread(who.tid)), who.pid,
           Goto(p, who.tid, w.(stage := Opened, fd := c.num)))
  }

  function Trying(lf: Key -> string, s: State, who: Thread, w: Work, c: Choice): State {
    var p := Proc(s, who.pid);
    if lf(w.key) in s.os || c.fails then With(s, who.pid, Goto(p, who.tid, w.(stage := Refused)))
    else
      With(s.(os := s.os[lf(w.key) := Fd(who.pid, w.fd)]), who.pid, Goto(p, who.tid, w.(stage := Locked)))
  }

  function Recording(s: State, who: Thread, w: Work, c: Choice): State {
    var p := Proc(s, who.pid);
    var t := Record(p.tables, w.key, w.fd, c.now, w.org, w.run);
    With(Use(Log(s, Acquired(who.pid, w.key, w.org, w.run)), Fd(who.pid, w.fd), ByKey(w.key)), who.pid,
         Finish(p.(tables := t), who.tid))
  }

  function Evicting(s: State, who: Thread, w: Work): State {
    var p := Proc(s, who.pid);
    var (t, outcome) := EvictStale(p.tables, w.key);
    var p' := Goto(p.(tables := t), who.tid, w.(stage := BackingOff));
    if outcome.Evicted? && outcome.fd.Some? then With(Close(s, Fd(who.pid, outcome.fd.value)), who.pid, p')
    else With(s, who.pid, p')
  }

  function Refinding(p: Process, tid: nat, w: Work): Process {
    var (t, lock) := GetThreadLock(p.tables, w.key);
    Goto(p.(tables := t), tid, w.(stage := Dropping, lock := lock))
  }

  /** The state after a whole run from the empty host. */
  function Run(lf: Key -> string, steps: seq<Step>): State {
    if steps == [] then INIT else Apply(lf, Run(lf, steps[..|steps| - 1]), steps[|steps| - 1])
  }

  // ---------- The inductive invariant ----------

  /** Every lock in the kernel belongs to an open descriptor of that very file. */
  ghost predicate KernelSound(s: State) {
    forall f :: f in s.os ==> s.os[f] in s.files && s.files[s.os[f]] == f
  }

  predicate Holds(s: State, f: string, fd: Fd) {
    f in s.os && s.os[f] == fd
  }

  predicate IsUser(s: State, fd: Fd, f: string, user: User) {
    fd in s.files && s.files[fd] == f && fd in s.users && s.users[fd] == user
  }

  /** A recorded owner is backed by the OS lock on its descriptor. */
  predicate RecordSound(lf: Key -> string, s: State, key: Key, fd: Fd) {
    IsUser(s, fd, lf(key), ByKey(key)) && Holds(s, lf(key), fd)
  }

  predicate WorkSound(lf: Key -> string, s: State, who: Thread, w: Work) {
    var fd := Fd(who.pid, w.fd);
    UsesFd(w.stage) ==>
      IsUser(s, fd, lf(w.key), ByThread(who.tid)) && (KeepsOsLock(w.stage) <==> Holds(s, lf(w.key), fd))
  }

  ghost predicate ProcessSound(lf: Key -> string, s: State, pid: nat, p: Process) {
    && Agree(p.tables)
    && (forall key :: key in p.tables.openFds ==> RecordSound(lf, s, key, Fd(pid, p.tables.openFds[key])))
    && (forall tid :: tid in p.work ==> WorkSound(lf, s, Thread(pid, tid), p.work[tid]))
  }

  ghost predicate Inv(lf: Key -> string, s: State) {
    KernelSound(s) && forall pid :: pid in s.procs ==> ProcessSound(lf, s, pid, s.procs[pid])
  }

  /** A step that leaves the kernel alone need only keep its own process sound. */
  lemma LocalStep(lf: Key -> string, s: State, pid: nat, p: Process, log: seq<Event>)
    requires Inv(lf, s) && ProcessSound(lf, s, pid, p)
    ensures Inv(lf, With(s.(log := log), pid, p))
  {
    var s' := With(s.(log := log), pid, p);
    forall q | q in s'.procs ensures ProcessSound(lf, s', q, s'.procs[q]) {
      SameKernel(lf, s, s', q, s'.procs[q]);
    }
  }

  lemma SameKernel(lf: Key -> string, s: State, s': State, pid: nat, p: Process)
    requires ProcessSound(lf, s, pid, p) && s'.files == s.files && s'.os == s.os && s'.users == s.users
    ensures ProcessSound(lf, s', pid, p)
  {
    forall key | key in p.tables.openFds ensures RecordSound(lf, s', key, Fd(pid, p.tables.openFds[key])) {
      assert RecordSound(lf, s, key, Fd(pid, p.tables.openFds[key]));
    }
    forall tid | tid in p.work ensures WorkSound(lf, s', Thread(pid, tid), p.work[tid]) {
      assert WorkSound(lf, s, Thread(pid, tid), p.work[tid]);
    }
  }

  /** Two states agree on every descriptor but one, and on whether any other holds a lock. */
  ghost predicate DifferOnlyAt(s: State, s': State, fd: Fd) {
    && (forall d: Fd :: d != fd ==> (d in s.files <==> d in s'.files) && (d in s.users <==> d in s'.users))
    && (forall d: Fd :: d != fd && d in s.files ==> s'.files[d] == s.files[d])
    && (forall d: Fd :: d != fd && d in s.users ==> s'.users[d] == s.users[d])
    && (forall f, d: Fd :: d != fd ==> (Holds(s, f, d) <==> Holds(s', f, d)))
  }

  /** A step that touches one descriptor cannot disturb the other descriptors' users. */
  lemma ElsewhereSound(lf: Key -> string, s: State, s': State, fd: Fd, pid: nat, p: Process)
    requires ProcessSound(lf, s, pid, p) && DifferOnlyAt(s, s', fd)
    requires forall key :: key in p.tables.openFds ==> Fd(pid, p.tables.openFds[key]) != fd
    requires forall tid :: tid in p.work && UsesFd(p.work[tid].stage) ==> Fd(pid, p.work[tid].fd) != fd
    ensures ProcessSound(lf, s', pid, p)
  {
    forall key | key in p.tables.openFds ensures RecordSound(lf, s', key, Fd(pid, p.tables.openFds[key])) {
      assert RecordSound(lf, s, key, Fd(pid, p.tables.openFds[key]));
    }
    forall tid | tid in p.work ensures WorkSound(lf, s', Thread(pid, tid), p.work[tid]) {
      assert WorkSound(lf, s, Thread(pid, tid), p.work[tid]);
    }
  }

  /** A step on one descriptor keeps the invariant once its own process is sound again. */
  lemma KernelStep(lf: Key -> string, s: State, s': State, fd: Fd, p: Process)
    requires Inv(lf, s) && KernelSound(s') && DifferOnlyAt(s, s', fd) && s'.procs == s.procs[fd.pid := p]
    requires ProcessSound(lf, s', fd.pid, p)
    ensures Inv(lf, s')
  {
    forall q | q in s'.procs ensures ProcessSound(lf, s', q, s'.procs[q]) {
      if q != fd.pid { ElsewhereSound(lf, s, s', fd, q, s.procs[q]); }
    }
  }

  lemma NextWork(lf: Key -> string, s: State, pid: nat, p: Process, tid: nat, w: Work)
    requires ProcessSound(lf, s, pid, Finish(p, tid)) && WorkSound(lf, s, Thread(pid, tid), w)
    ensures ProcessSound(lf, s, pid, Goto(p, tid, w))
  {
    var q := Finish(p, tid);
    forall t | t in Goto(p, tid, w).work ensures WorkSound(lf, s, Thread(pid, t), Goto(p, tid, w).work[t]) {
      if t != tid { assert WorkSound(lf, s, Thread(pid, t), q.work[t]); }
    }
    forall key | key in p.tables.openFds ensures RecordSound(lf, s, key, Fd(pid, p.tables.openFds[key])) {
      assert RecordSound(lf, s, key, Fd(pid, q.tables.openFds[key]));
    }
  }

  /** A thread may forget its work, or go on to work that uses no descriptor,
      and the tables may change as long as the ownership dictionaries agree. */
  lemma Forgetting(lf: Key -> string, s: State, pid: nat, p: Process, p': Process, tid: nat, w: Work)
    requires ProcessSound(lf, s, pid, p) && Agree(p'.tables) && p'.tables.openFds == p.tables.openFds
    requires p'.work == p.work && !UsesFd(w.stage)
    ensures ProcessSound(lf, s, pid, Finish(p', tid)) && ProcessSound(lf, s, pid, Goto(p', tid, w))
  {
    var q := Finish(p', tid);
    forall t | t in q.work ensures WorkSound(lf, s, Thread(pid, t), q.work[t]) {
      assert WorkSound(lf, s, Thread(pid, t), p.work[t]);
    }
    forall key | key in q.tables.openFds ensures RecordSound(lf, s, key, Fd(pid, q.tables.openFds[key])) {
      assert RecordSound(lf, s, key, Fd(pid, p.tables.openFds[key]));
    }
    NextWork(lf, s, pid, p', tid, w);
  }

  /** Everybody but the user of a descriptor survives a step that touches only that descriptor. */
  lemma WithoutUser(lf: Key -> string, s: State, s': State, fd: Fd, p: Process, tid: nat)
    requires ProcessSound(lf, s, fd.pid, p) && DifferOnlyAt(s, s', fd)
    requires fd in s.files ==> fd in s.users && s.users[fd] == ByThread(tid)
    ensures ProcessSound(lf, s', fd.pid, Finish(p, tid))
  {
    var q := Finish(p, tid);
    forall t | t in q.work ensures WorkSound(lf, s, Thread(fd.pid, t), q.work[t]) {
      assert WorkSound(lf, s, Thread(fd.pid, t), p.work[t]);
    }
    forall key | key in q.tables.openFds ensures RecordSound(lf, s, key, Fd(fd.pid, q.tables.openFds[key])) {
      assert RecordSound(lf, s, key, Fd(fd.pid, p.tables.openFds[key]));
    }
    ElsewhereSound(lf, s, s', fd, fd.pid, q);
  }

  /** A thread that touches one descriptor and goes on to other work. */
  lemma UserStep(lf: Key -> string, s: State, s': State, fd: Fd, tid: nat, p: Process, w: Work)
    requires Inv(lf, s) && KernelSound(s') && DifferOnlyAt(s, s', fd) && s'.procs == s.procs[fd.pid := Goto(p, tid, w)]
    requires ProcessSound(lf, s', fd.pid, Finish(p, tid)) && WorkSound(lf, s', Thread(fd.pid, tid), w)
    ensures Inv(lf, s')
  {
    NextWork(lf, s', fd.pid, p, tid, w);
    KernelStep(lf, s, s', fd, Goto(p, tid, w));
  }

  /** Handing a descriptor over to another user leaves the kernel alone. */
  lemma HandOver(s: State, s': State, fd: Fd)
    requires KernelSound(s) && s'.files == s.files && s'.os == s.os && fd in s'.users
    requires s'.users == s.users[fd := s'.users[fd]]
    ensures KernelSound(s') && DifferOnlyAt(s, s', fd)
  {
  }

  // The steps, one kind at a time.

  lemma ProcIsSound(lf: Key -> string, s: State, pid: nat)
    requires Inv(lf, s)
    ensures ProcessSound(lf, s, pid, Proc(s, pid))
  {
  }

  lemma ReenteringAgrees(t: Tables, key: Key, org: string, run: string)
    requires Agree(t)
    ensures Agree(TryReenter(t, key, org, run).0) && TryReenter(t, key, org, run).0.openFds == t.openFds
  {
  }

  lemma CheckingKeepsInv(lf: Key -> string, s: State, who: Thread, w: Work, next: Stage)
    requires Inv(lf, s) && !UsesFd(next)
    ensures Inv(lf, Checking(s, who, w, next))
  {
    ProcIsSound(lf, s, who.pid);
    var p := Proc(s, who.pid);
    var (t, hit) := TryReenter(p.tables, w.key, w.org, w.run);
    assert Agree(p.tables);
    ReenteringAgrees(p.tables, w.key, w.org, w.run);
    hide Inv, ProcessSound, TryReenter, Agree;
    Forgetting(lf, s, who.pid, p, p.(tables := t), who.tid, w.(stage := next));
    if hit {
      LocalStep(lf, s, who.pid, Finish(p.(tables := t), who.tid), s.log + [Acquired(who.pid, w.key, w.org, w.run)]);
    } else {
      LocalStep(lf, s, who.pid, Goto(p, who.tid, w.(stage := next)), s.log);
    }
  }

  /** Steps that only change RLocks, the table of RLocks, or what a thread does next. */
  lemma PrivateStepKeepsInv(lf: Key -> string, s: State, who: Thread, p': Process, w: Work)
    requires Inv(lf, s) && Agree(p'.tables) && p'.tables.openFds == Proc(s, who.pid).tables.openFds
    requires p'.work == Proc(s, who.pid).work && !UsesFd(w.stage)
    ensures Inv(lf, With(s, who.pid, Goto(p', who.tid, w))) && Inv(lf, With(s, who.pid, Finish(p', who.tid)))
  {
    Forgetting(lf, s, who.pid, Proc(s, who.pid), p', who.tid, w);
    LocalStep(lf, s, who.pid, Goto(p', who.tid, w), s.log);
    LocalStep(lf, s, who.pid, Finish(p', who.tid), s.log);
  }

  lemma PollingKeepsInv(lf: Key -> string, s: State, who: Thread, w: Work, c: Choice)
    requires Inv(lf, s)
    ensures Inv(lf, With(s, who.pid, Polling(Proc(s, who.pid), who.tid, w, c)))
  {
    var p := Proc(s, who.pid);
    PrivateStepKeepsInv(lf, s, who, p, w.(stage := Holding));
    PrivateStepKeepsInv(lf, s, who, Take(p, w.lock, who.tid), w.(stage := Holding));
    LocalStep(lf, s, who.pid, p, s.log);
  }

  lemma OpeningKeepsInv(lf: Key -> string, s: State, who: Thread, w: Work, c: Choice)
    requires Inv(lf, s)
    ensures Inv(lf, OpeningFile(lf, s, who, w, c))
  {
    var p := Proc(s, who.pid);
    PrivateStepKeepsInv(lf, s, who, p, w.(stage := Recovering));
    if !c.fails && Fd(who.pid, c.num) !in s.files {
      OpenedKeepsInv(lf, s, who, p, w, c.num);
    }
  }

  lemma OpenedKeepsInv(lf: Key -> string, s: State, who: Thread, p: Process, w: Work, num: nat)
    requires Inv(lf, s) && p == Proc(s, who.pid) && Fd(who.pid, num) !in s.files
    ensures var fd := Fd(who.pid, num);
            Inv(lf, With(Use(s.(files := s.files[fd := lf(w.key)]), fd, ByThread(who.tid)), who.pid,
                         Goto(p, who.tid, w.(stage := Opened, fd := num))))
  {
    var fd := Fd(who.pid, num);
    var w' := w.(stage := Opened, fd := num);
    var s' := With(Use(s.(files := s.files[fd := lf(w.key)]), fd, ByThread(who.tid)), who.pid, Goto(p, who.tid, w'));
    assert DifferOnlyAt(s, s', fd);
    WithoutUser(lf, s, s', fd, p, who.tid);
    UserStep(lf, s, s', fd, who.tid, p, w');
  }

  lemma TriedDiffers(lf: Key -> string, s: State, who: Thread, w: Work, c: Choice)
    requires Inv(lf, s) && who.tid in Proc(s, who.pid).work && w == Proc(s, who.pid).work[who.tid] && w.stage.Opened?
    ensures var s' := Trying(lf, s, who, w, c);
            var w' := w.(stage := if lf(w.key) in s.os || c.fails then Refused else Locked);
            && KernelSound(s') && DifferOnlyAt(s, s', Fd(who.pid, w.fd)) && WorkSound(lf, s', who, w')
            && s'.procs == s.procs[who.pid := Goto(Proc(s, who.pid), who.tid, w')]
  {
    assert WorkSound(lf, s, who, w);
  }

  lemma TryingKeepsInv(lf: Key -> string, s: State, who: Thread, w: Work, c: Choice)
    requires Inv(lf, s) && who.tid in Proc(s, who.pid).work && w == Proc(s, who.pid).work[who.tid] && w.stage.Opened?
    ensures Inv(lf, Trying(lf, s, who, w, c))
  {
    var p, fd, s' := Proc(s, who.pid), Fd(who.pid, w.fd), Trying(lf, s, who, w, c);
    ProcIsSound(lf, s, who.pid);
    TriedDiffers(lf, s, who, w, c);
    assert WorkSound(lf, s, who, w);
    hide Inv, ProcessSound, KernelSound, DifferOnlyAt, Trying;
    WithoutUser(lf, s, s', fd, p, who.tid);
    UserStep(lf, s, s', fd, who.tid, p, w.(stage := if lf(w.key) in s.os || c.fails then Refused else Locked));
  }

  /** Whoever records an owner holds the OS lock, so nobody was recorded before. */
  lemma RecordingKeepsInv(lf: Key -> string, s: State, who: Thread, w: Work, c: Choice)
    requires Inv(lf, s) && who.tid in Proc(s, who.pid).work && w == Proc(s, who.pid).work[who.tid] && w.stage.Locked?
    ensures w.key !in Proc(s, who.pid).tables.owners
    ensures Inv(lf, Recording(s, who, w, c))
  {
    var p := Proc(s, who.pid);
    var fd := Fd(who.pid, w.fd);
    assert WorkSound(lf, s, who, w);
    var s' := Recording(s, who, w, c);
    assert DifferOnlyAt(s, s', fd);
    WithoutUser(lf, s, s', fd, p, who.tid);
    var q := Finish(p, who.tid);
    var q' := q.(tables := Record(p.tables, w.key, w.fd, c.now, w.org, w.run));
    forall key | key in q'.tables.openFds ensures RecordSound(lf, s', key, Fd(who.pid, q'.tables.openFds[key])) {
      if key != w.key { assert RecordSound(lf, s', key, Fd(who.pid, q.tables.openFds[key])); }
    }
    forall t | t in q'.work ensures WorkSound(lf, s', Thread(who.pid, t), q'.work[t]) {
      assert WorkSound(lf, s', Thread(who.pid, t), q.work[t]);
    }
    KernelStep(lf, s, s', fd, q');
  }

  lemma UnlockingKeepsInv(lf: Key -> string, s: State, who: Thread, w: Work)
    requires Inv(lf, s) && who.tid in Proc(s, who.pid).work && w == Proc(s, who.pid).work[who.tid] && w.stage.Unlocking?
    ensures Inv(lf, With(Unlock(s, Fd(who.pid, w.fd)), who.pid, Goto(Proc(s, who.pid), who.tid, w.(stage := Unlocked))))
  {
    var p := Proc(s, who.pid);
    var fd := Fd(who.pid, w.fd);
    assert WorkSound(lf, s, who, w);
    var s' := With(Unlock(s, fd), who.pid, Goto(p, who.tid, w.(stage := Unlocked)));
    assert DifferOnlyAt(s, s', fd);
    WithoutUser(lf, s, s', fd, p, who.tid);
    UserStep(lf, s, s', fd, who.tid, p, w.(stage := Unlocked));
  }

  lemma ClosingKeepsInv(lf: Key -> string, s: State, who: Thread, w: Work, next: Stage)
    requires Inv(lf, s) && who.tid in Proc(s, who.pid).work && w == Proc(s, who.pid).work[who.tid]
    requires w.stage in {Refused, Unlocked} && !UsesFd(next)
    ensures Inv(lf, With(Close(s, Fd(who.pid, w.fd)), who.pid, Goto(Proc(s, who.pid), who.tid, w.(stage := next))))
  {
    var p := Proc(s, who.pid);
    var fd := Fd(who.pid, w.fd);
    assert WorkSound(lf, s, who, w);
    var s' := With(Close(s, fd), who.pid, Goto(p, who.tid, w.(stage := next)));
    assert DifferOnlyAt(s, s', fd);
    WithoutUser(lf, s, s', fd, p, who.tid);
    UserStep(lf, s, s', fd, who.tid, p, w.(stage := next));
  }

  /** Recovery finds no descriptor to close, so it can neither evict an owner
      nor release an OS lock: it only forgets the RLock of an unowned key. */
  lemma EvictingKeepsInv(lf: Key -> string, s: State, who: Thread, w: Work)
    requires Inv(lf, s)
    ensures Inv(lf, Evicting(s, who, w))
    ensures Evicting(s, who, w) == s.(procs := Evicting(s, who, w).procs)
    ensures var t, t' := Proc(s, who.pid).tables, Proc(Evicting(s, who, w), who.pid).tables;
            t' == t.(threadLocks := t'.threadLocks) && (w.key in t.owners ==> t' == t)
  {
    var p := Proc(s, who.pid);
    var t := EvictStale(p.tables, w.key).0;
    PrivateStepKeepsInv(lf, s, who, p.(tables := t), w.(stage := BackingOff));
  }

  lemma ReleasingKeepsInv(lf: Key -> string, s: State, who: Thread, key: Key, org: string, run: string)
    requires Inv(lf, s) && who.tid !in Proc(s, who.pid).work
    ensures Inv(lf, Releasing(s, who, key, org, run))
  {
    var p := Proc(s, who.pid);
    var (t, outcome) := BeginRelease(p.tables, key, org, run);
    var s' := Releasing(s, who, key, org, run);
    if outcome.StillHeld? {
      assert p == Finish(p, who.tid);
      Forgetting(lf, s, who.pid, p, p.(tables := t), who.tid, Work(Looking, key, org, run, 0, 0));
      LocalStep(lf, s, who.pid, Finish(p.(tables := t), who.tid), s'.log);
      assert Finish(p.(tables := t), who.tid) == p.(tables := t);
    } else if outcome.Freed? {
      FreedKeepsInv(lf, s, who, p, t, Work(Unlocking, key, org, run, 0, p.tables.openFds[key]), s'.log);
    }
  }

  lemma FreedKeepsInv(lf: Key -> string, s: State, who: Thread, p: Process, t: Tables, w: Work, log: seq<Event>)
    requires Inv(lf, s) && p == Proc(s, who.pid) && who.tid !in p.work && w.stage.Unlocking?
    requires Agree(t) && w.key in p.tables.openFds && p.tables.openFds[w.key] == w.fd
    requires t.openFds == Without(p.tables.openFds, w.key)
    ensures var used := Use(s.(log := log), Fd(who.pid, w.fd), ByThread(who.tid));
            Inv(lf, With(used, who.pid, Goto(p.(tables := t), who.tid, w)))
  {
    hide ProcessSound, WorkSound, KernelSound;
    var q := p.(tables := t);
    var fd := Fd(who.pid, w.fd);
    var s' := With(Use(s.(log := log), fd, ByThread(who.tid)), who.pid, Goto(q, who.tid, w));
    HandOver(s, s', fd);
    UnlockingSound(lf, s, s', who, p, w);
    UnrecordedSound(lf, s, s', fd, p, t, w.key);
    assert Finish(q, who.tid) == q;
    UserStep(lf, s, s', fd, who.tid, q, w);
  }

  lemma UnlockingSound(lf: Key -> string, s: State, s': State, who: Thread, p: Process, w: Work)
    requires ProcessSound(lf, s, who.pid, p) && w.stage.Unlocking?
    requires w.key in p.tables.openFds && p.tables.openFds[w.key] == w.fd
    requires s'.files == s.files && s'.os == s.os && s'.users == s.users[Fd(who.pid, w.fd) := ByThread(who.tid)]
    ensures WorkSound(lf, s', who, w)
  {
    assert RecordSound(lf, s, w.key, Fd(who.pid, w.fd));
  }

  lemma UnrecordedSound(lf: Key -> string, s: State, s': State, fd: Fd, p: Process, t: Tables, key: Key)
    requires ProcessSound(lf, s, fd.pid, p) && DifferOnlyAt(s, s', fd)
    requires Agree(t) && key in p.tables.openFds && p.tables.openFds[key] == fd.num
    requires t.openFds == Without(p.tables.openFds, key)
    ensures ProcessSound(lf, s', fd.pid, p.(tables := t))
  {
    var q := p.(tables := t);
    assert RecordSound(lf, s, key, fd);
    forall k | k in q.tables.openFds ensures RecordSound(lf, s, k, Fd(fd.pid, q.tables.openFds[k])) {
      assert RecordSound(lf, s, k, Fd(fd.pid, p.tables.openFds[k]));
    }
    forall t | t in q.work ensures WorkSound(lf, s, Thread(fd.pid, t), q.work[t]) {
      assert WorkSound(lf, s, Thread(fd.pid, t), p.work[t]);
    }
    ElsewhereSound(lf, s, s', fd, fd.pid, q);
  }

  lemma CrashKeepsInv(lf: Key -> string, s: State, pid: nat)
    requires Inv(lf, s)
    ensures Inv(lf, Apply(lf, s, Crash(pid)))
  {
    var s' := Apply(lf, s, Crash(pid));
    forall q | q in s'.procs ensures ProcessSound(lf, s', q, s'.procs[q]) {
      var p := s.procs[q];
      forall key | key in p.tables.openFds ensures RecordSound(lf, s', key, Fd(q, p.tables.openFds[key])) {
        assert RecordSound(lf, s, key, Fd(q, p.tables.openFds[key]));
      }
      forall tid | tid in p.work ensures WorkSound(lf, s', Thread(q, tid), p.work[tid]) {
        assert WorkSound(lf, s, Thread(q, tid), p.work[tid]);
      }
    }
  }

  lemma ProgressKeepsInv(lf: Key -> string, s: State, who: Thread, w: Work, c: Choice)
    requires Inv(lf, s) && who.tid in Proc(s, who.pid).work && w == Proc(s, who.pid).work[who.tid]
    ensures Inv(lf, Progress(lf, s, who, w, c))
  {
    var p := Proc(s, who.pid);
    match w.stage
    case Looking => CheckingKeepsInv(lf, s, who, w, Waiting);
    case Waiting => PollingKeepsInv(lf, s, who, w, c);
    case Holding => CheckingKeepsInv(lf, s, who, w, Opening);
    case Opening => OpeningKeepsInv(lf, s, who, w, c);
    case Opened => TryingKeepsInv(lf, s, who, w, c);
    case Locked => RecordingKeepsInv(lf, s, who, w, c);
    case Refused => ClosingKeepsInv(lf, s, who, w, Recovering);
    case Recovering => EvictingKeepsInv(lf, s, who, w); PrivateStepKeepsInv(lf, s, who, p, w.(stage := BackingOff));
    case BackingOff => PrivateStepKeepsInv(lf, s, who, Drop(p, w.lock, who.tid), w.(stage := Waiting));
    case Unlocking => UnlockingKeepsInv(lf, s, who, w);
    case Unlocked => ClosingKeepsInv(lf, s, who, w, Finding);
    case Finding =>
      var (t, lock) := GetThreadLock(p.tables, w.key);
      PrivateStepKeepsInv(lf, s, who, p.(tables := t), w.(stage := Dropping, lock := lock));
    case Dropping => PrivateStepKeepsInv(lf, s, who, Drop(p, w.lock, who.tid), w.(stage := Waiting));
  }

  lemma StepKeepsInv(lf: Key -> string, s: State, step: Step)
    requires Inv(lf, s)
    ensures Inv(lf, Apply(lf, s, step))
  {
    match step
    case StartAcquire(who, key, org, run) =>
      var p := Proc(s, who.pid);
      var (t, lock) := GetThreadLock(p.tables, key);
      PrivateStepKeepsInv(lf, s, who, p.(tables := t), Work(Looking, key, org, run, lock, 0));
    case StartRelease(who, key, org, run) =>
      if who.tid !in Proc(s, who.pid).work { ReleasingKeepsInv(lf, s, who, key, org, run); }
    case Advance(who, c) =>
      if who.tid in Proc(s, who.pid).work { ProgressKeepsInv(lf, s, who, Proc(s, who.pid).work[who.tid], c); }
    case Crash(pid) => CrashKeepsInv(lf, s, pid);
  }

  lemma {:induction false} RunKeepsInv(lf: Key -> string, steps: seq<Step>)
    ensures Inv(lf, Run(lf, steps))
  {
    if steps != [] {
      RunKeepsInv(lf, steps[..|steps| - 1]);
      StepKeepsInv(lf, Run(lf, steps[..|steps| - 1]), steps[|steps| - 1]);
    }
  }

  // ---------- What follows for every run ----------

  predicate Owns(s: State, pid: nat, key: Key) { key in Proc(s, pid).tables.owners }

  /** Mutual exclusion. Two recorded owners whose keys lock the same file are
      one and the same, and the recorded descriptor holds that file's OS lock. */
  lemma MutualExclusion(lf: Key -> string, steps: seq<Step>, p1: nat, p2: nat, k1: Key, k2: Key)
    requires Owns(Run(lf, steps), p1, k1) && Owns(Run(lf, steps), p2, k2) && lf(k1) == lf(k2)
    ensures p1 == p2 && k1 == k2
    ensures var s := Run(lf, steps); var fds := Proc(s, p1).tables.openFds;
            k1 in fds && Holds(s, lf(k1), Fd(p1, fds[k1])) && Fd(p1, fds[k1]) in s.files
  {
    RunKeepsInv(lf, steps);
    OwnerHoldsFile(lf, Run(lf, steps), p1, k1);
    OwnerHoldsFile(lf, Run(lf, steps), p2, k2);
  }

  lemma OwnerHoldsFile(lf: Key -> string, s: State, pid: nat, key: Key)
    requires Inv(lf, s) && Owns(s, pid, key)
    ensures key in Proc(s, pid).tables.openFds
    ensures RecordSound(lf, s, key, Fd(pid, Proc(s, pid).tables.openFds[key]))
  {
  }

  /** Between critical sections the three ownership dictionaries list the same
      keys, so a recovery at any point of any run has no descriptor to close
      and leaves owners and OS locks exactly as they were. */
  lemma RecoveryIsHarmless(lf: Key -> string, steps: seq<Step>, who: Thread, w: Work)
    ensures var s := Run(lf, steps); var t := Proc(s, who.pid).tables;
            Agree(t) && (w.key !in t.owners ==> EvictStale(t, w.key).1 == Evicted(None))
    ensures var s := Run(lf, steps); var s' := Evicting(s, who, w);
            s'.os == s.os && s'.files == s.files && Proc(s', who.pid).tables.owners == Proc(s, who.pid).tables.owners
  {
    RunKeepsInv(lf, steps);
    EvictingKeepsInv(lf, Run(lf, steps), who, w);
  }

  // ---------- Re-entrancy accounting ----------

  /** Successful acquires minus releases of one run on one key since its process last started. */
  function Balance(log: seq<Event>, pid: nat, key: Key, org: string, run: string): int {
    if log == [] then 0
    else
      var before := Balance(log[..|log| - 1], pid, key, org, run);
      var e := log[|log| - 1];
      if e == Acquired(pid, key, org, run) then before + 1
      else if e == Released(pid, key, org, run) then before - 1
      else if e == Died(pid) then 0
      else before
  }

  predicate Accounted(s: State, pid: nat, key: Key, org: string, run: string) {
    Balance(s.log, pid, key, org, run) == CountOf(Proc(s, pid).tables, key, org, run)
  }

  lemma BalanceOfLogged(log: seq<Event>, e: Event, pid: nat, key: Key, org: string, run: string)
    ensures var before := Balance(log, pid, key, org, run);
            Balance(log + [e], pid, key, org, run) ==
            if e == Acquired(pid, key, org, run) then before + 1
            else if e == Released(pid, key, org, run) then before - 1
            else if e == Died(pid) then 0 else before
  {
    assert (log + [e])[..|log|] == log;
  }

  lemma CheckingKeepsAccount(s: State, who: Thread, w: Work, next: Stage, pid: nat, key: Key, org: string, run: string)
    requires Accounted(s, pid, key, org, run)
    ensures Accounted(Checking(s, who, w, next), pid, key, org, run)
  {
    ReenterCounts(Proc(s, who.pid).tables, w.key, w.org, w.run, key, org, run);
    BalanceOfLogged(s.log, Acquired(who.pid, w.key, w.org, w.run), pid, key, org, run);
  }

  lemma RecordingKeepsAccount(s: State, who: Thread, w: Work, c: Choice, pid: nat, key: Key, org: string, run: string)
    requires Accounted(s, pid, key, org, run) && w.key !in Proc(s, who.pid).tables.owners
    ensures Accounted(Recording(s, who, w, c), pid, key, org, run)
  {
    RecordCounts(Proc(s, who.pid).tables, w.key, w.fd, c.now, w.org, w.run, key, org, run);
    BalanceOfLogged(s.log, Acquired(who.pid, w.key, w.org, w.run), pid, key, org, run);
  }

  lemma ReleasingLogs(s: State, who: Thread, k: Key, o: string, r: string)
    ensures var s' := Releasing(s, who, k, o, r); var outcome := BeginRelease(Proc(s, who.pid).tables, k, o, r).1;
            s'.log == if outcome.StillHeld? || outcome.Freed? then s.log + [Released(who.pid, k, o, r)] else s.log
  {
    hide BeginRelease, Proc;
  }

  lemma ReleasingEffect(s: State, who: Thread, k: Key, o: string, r: string, pid: nat)
    ensures var s' := Releasing(s, who, k, o, r); var (t, outcome) := BeginRelease(Proc(s, who.pid).tables, k, o, r);
            s'.log == (if outcome.StillHeld? || outcome.Freed? then s.log + [Released(who.pid, k, o, r)] else s.log)
            && Proc(s', pid).tables == if pid == who.pid then t else Proc(s, pid).tables
  {
    ReleasingLogs(s, who, k, o, r);
    hide BeginRelease;
  }

  lemma ReleasingKeepsAccount(s: State, who: Thread, k: Key, o: string, r: string, pid: nat, key: Key, org: string,
                              run: string)
    requires Accounted(s, pid, key, org, run) && Agree(Proc(s, who.pid).tables)
    ensures Accounted(Releasing(s, who, k, o, r), pid, key, org, run)
  {
    ReleasingEffect(s, who, k, o, r, pid);
    ReleaseCounts(Proc(s, who.pid).tables, k, o, r, key, org, run);
    BalanceOfLogged(s.log, Released(who.pid, k, o, r), pid, key, org, run);
  }

  lemma FindingKeepsAccount(lf: Key -> string, s: State, who: Thread, w: Work, c: Choice, pid: nat, key: Key,
                            org: string, run: string)
    requires Accounted(s, pid, key, org, run) && w.stage.Finding?
    ensures Accounted(Progress(lf, s, who, w, c), pid, key, org, run)
  {
    EvictCounts(Proc(s, who.pid).tables, w.key, key, org, run);
  }

  lemma ProgressKeepsAccount(lf: Key -> string, s: State, who: Thread, w: Work, c: Choice, pid: nat, key: Key,
                             org: string, run: string)
    requires Accounted(s, pid, key, org, run) && (w.stage.Locked? ==> w.key !in Proc(s, who.pid).tables.owners)
    ensures Accounted(Progress(lf, s, who, w, c), pid, key, org, run)
  {
    match w.stage
    case Looking => CheckingKeepsAccount(s, who, w, Waiting, pid, key, org, run);
    case Holding => CheckingKeepsAccount(s, who, w, Opening, pid, key, org, run);
    case Locked => RecordingKeepsAccount(s, who, w, c, pid, key, org, run);
    case Recovering => EvictingKeepsAccount(s, who, w, pid, key, org, run);
    case Finding => FindingKeepsAccount(lf, s, who, w, c, pid, key, org, run);
    case _ =>
      if w.stage in {Waiting, BackingOff, Dropping} { RLockStages(lf, s, who, w, c, pid); }
      else { KernelStages(lf, s, who, w, c, pid); }
  }

  lemma EvictingKeepsAccount(s: State, who: Thread, w: Work, pid: nat, key: Key, org: string, run: string)
    requires Accounted(s, pid, key, org, run)
    ensures Accounted(Evicting(s, who, w), pid, key, org, run)
  {
    EvictCounts(Proc(s, who.pid).tables, w.key, key, org, run);
  }

  lemma RLockStages(lf: Key -> string, s: State, who: Thread, w: Work, c: Choice, pid: nat)
    requires w.stage in {Waiting, BackingOff, Dropping}
    ensures Progress(lf, s, who, w, c).log == s.log
    ensures Proc(Progress(lf, s, who, w, c), pid).tables == Proc(s, pid).tables
  {
  }

  lemma KernelStages(lf: Key -> string, s: State, who: Thread, w: Work, c: Choice, pid: nat)
    requires w.stage in {Opening, Opened, Refused, Unlocking, Unlocked}
    ensures Progress(lf, s, who, w, c).log == s.log
    ensures Proc(Progress(lf, s, who, w, c), pid).tables == Proc(s, pid).tables
  {
  }

  lemma StepKeepsAccount(lf: Key -> string, s: State, step: Step, pid: nat, key: Key, org: string, run: string)
    requires Inv(lf, s) && Accounted(s, pid, key, org, run)
    ensures Accounted(Apply(lf, s, step), pid, key, org, run)
  {
    match step
    case StartAcquire(who, k, o, r) =>
    case StartRelease(who, k, o, r) =>
      ReleasingKeepsAccount(s, who, k, o, r, pid, key, org, run);
    case Crash(p) =>
      BalanceOfLogged(s.log, Died(p), pid, key, org, run);
    case Advance(who, c) =>
      var p := Proc(s, who.pid);
      if who.tid in p.work {
        if p.work[who.tid].stage.Locked? { RecordingKeepsInv(lf, s, who, p.work[who.tid], c); }
        ProgressKeepsAccount(lf, s, who, p.work[who.tid], c, pid, key, org, run);
      }
  }

  /** The owner's count is exactly its successful acquires minus its releases,
      and a run owns the key exactly while some acquire is not yet released. */
  lemma {:induction false} ReentrancyAccounting(lf: Key -> string, steps: seq<Step>, pid: nat, key: Key, org: string,
                                                run: string)
    ensures var s := Run(lf, steps);
            Balance(s.log, pid, key, org, run) == CountOf(Proc(s, pid).tables, key, org, run)
            && (OwnedBy(Proc(s, pid).tables, key, org, run) <==> Balance(s.log, pid, key, org, run) > 0)
  {
    RunKeepsInv(lf, steps);
    if steps != [] {
      ReentrancyAccounting(lf, steps[..|steps| - 1], pid, key, org, run);
      RunKeepsInv(lf, steps[..|steps| - 1]);
      StepKeepsAccount(lf, Run(lf, steps[..|steps| - 1]), steps[|steps| - 1], pid, key, org, run);
    }
  }
}
