/** Any number of collectors, cancellers and watchdogs at work on one store.
    A client reads in one step and writes in a later one; whatever happens in
    between is decided by the other clients. A step that is not possible leaves
    the host unchanged, so every sequence of steps is a run. */
module StoreClients {
  import opened Options
  import opened RunStore

  /** What a client does next. */
  datatype Job =
    | Reading(id: string, org: string)     // a collector that has resolved the organization
    | Storing(id: string, record: Row)     // a collector with a record in hand
    | Updating(update: Statement)          // an admitted cancellation or finalization
    | Rechecking(id: string, org: string)  // a watchdog that found the run on its list
    | Flagging(id: string, org: string)    // a watchdog about to mark it
    | Announcing(id: string)               // a watchdog that marked it, event next

  datatype Result = Result(id: string, outcome: Outcome)

  datatype Host = Host(runs: Runs, jobs: map<nat, Job>, results: seq<Result>, alarms: seq<string>)

  const INIT := Host(map[], map[], [], [])

  datatype Step =
    | AskCancel(client: nat, id: string, org: string, now: string, actor: Option<string>, reason: Option<string>)
    | AskFinalize(client: nat, id: string, org: string, now: string)
    | AskRecord(client: nat, id: string, given: string)
    | AskWatch(client: nat, id: string)
    | Heartbeat(id: string, org: string, now: string, phase: Option<string>)
    | Continue(client: nat, choice: Choice)

  /** What a client decides: the time, the edits a collector makes (any, except
      to the organization), and whether it starts a new record without reading. */
  datatype Choice = Choice(now: string, edit: Row, creates: bool)

  const DEFAULT_ORG := "default-org"

  /** `_resolve_org`: an explicit organization wins, otherwise the recorded one. */
  function Resolve(runs: Runs, id: string, given: string): string {
    if given != "" && given != DEFAULT_ORG then given
    else if id in runs then runs[id].org
    else DEFAULT_ORG
  }

  function Begin(h: Host, client: nat, job: Job): Host {
    if client in h.jobs then h else h.(jobs := h.jobs[client := job])
  }

  function Goto(h: Host, client: nat, job: Job): Host { h.(jobs := h.jobs[client := job]) }

  function Finish(h: Host, client: nat): Host { h.(jobs := h.jobs - {client}) }

  function Do(h: Host, st: Statement): Host { h.(runs := Execute(h.runs, st)) }

  function Report(h: Host, id: string, o: Outcome): Host { h.(results := h.results + [Result(id, o)]) }

  function Apply(h: Host, step: Step): Host {
    match step
    case AskCancel(client, id, org, now, actor, reason) =>
      (match Admit(h.runs, id, org, now, actor, reason)
       case Answer(o) => Report(h, id, o)
       case Attempt(update) => Begin(h, client, Updating(update)))
    case AskFinalize(client, id, org, now) =>
      (match Lookup(h.runs, id, org)
       case None => h
       case Some(r) => Begin(h, client, Updating(Finalize(id, r.org, now))))
    case AskRecord(client, id, given) => Begin(h, client, Reading(id, Resolve(h.runs, id, given)))
    case AskWatch(client, id) =>
      if id in h.runs && Tracked(h.runs[id].status) && StuckAt !in h.runs[id].fields
      then Begin(h, client, Rechecking(id, h.runs[id].org)) else h
    case Heartbeat(id, org, now, phase) => Do(h, Beat(id, org, now, phase))
    case Continue(client, c) => if client in h.jobs then Work(h, client, h.jobs[client], c) else h
  }

  function Work(h: Host, client: nat, job: Job, c: Choice): Host {
    match job
    case Reading(id, org) =>
      var found := Lookup(h.runs, id, org);
      Goto(h, client, Storing(id, if found.Some? && !c.creates then found.value else c.edit.(org := org)))
    case Storing(id, record) => Finish(Do(h, Upsert(id, c.edit.(org := record.org))), client)
    case Updating(update) =>
      var done := Finish(Do(h, update), client);
      if update.Request? then Report(done, update.id, if Affects(h.runs, update) then Requested else AlreadyTerminal)
      else done
    case Rechecking(id, org) =>
      var current := Lookup(h.runs, id, org);
      if current.Some? && !Terminal(current.value.status) && StuckAt !in current.value.fields
      then Goto(h, client, Flagging(id, org)) else Finish(h, client)
    case Flagging(id, org) =>
      var flag := Flag(id, org, c.now);
      if Affects(h.runs, flag) then Goto(Do(h, flag), client, Announcing(id)) else Finish(h, client)
    case Announcing(id) => Finish(h.(alarms := h.alarms + [id]), client)
  }

  function Run(steps: seq<Step>): Host { RunFrom(INIT, steps) }

  function RunFrom(h: Host, steps: seq<Step>): Host {
    if steps == [] then h else Apply(RunFrom(h, steps[..|steps| - 1]), steps[|steps| - 1])
  }

  // ---------- Every step only grows the rows ----------

  lemma StepGrows(h: Host, step: Step, id: string)
    requires id in h.runs
    ensures id in Apply(h, step).runs && Grows(h.runs[id], Apply(h, step).runs[id])
  {
    match step
    case Heartbeat(i, org, now, phase) => StatementGrows(h.runs, Beat(i, org, now, phase), id);
    case Continue(client, c) =>
      if client in h.jobs {
        match h.jobs[client]
        case Storing(i, record) => StatementGrows(h.runs, Upsert(i, c.edit.(org := record.org)), id);
        case Updating(update) => StatementGrows(h.runs, update, id);
        case Flagging(i, org) => StatementGrows(h.runs, Flag(i, org, c.now), id);
        case _ =>
      }
    case _ =>
  }

  lemma {:induction false} RunGrows(h: Host, steps: seq<Step>, id: string)
    requires id in h.runs
    ensures id in RunFrom(h, steps).runs && Grows(h.runs[id], RunFrom(h, steps).runs[id])
  {
    if steps != [] {
      RunGrows(h, steps[..|steps| - 1], id);
      StepGrows(RunFrom(h, steps[..|steps| - 1]), steps[|steps| - 1], id);
    }
  }

  // ---------- One request wins ----------

  predicate Latched(runs: Runs, id: string) { id in runs && runs[id].counters.cancelRequested }

  function Wins(h: Host, id: string): nat { multiset(h.results)[Result(id, Requested)] }

  predicate WinsSound(h: Host, id: string) {
    Wins(h, id) <= 1 && (Wins(h, id) == 1 ==> Latched(h.runs, id))
  }

  lemma StepKeepsWins(h: Host, step: Step, id: string)
    requires WinsSound(h, id)
    ensures WinsSound(Apply(h, step), id)
  {
    if id in h.runs { StepGrows(h, step, id); }
  }

  /** However many callers ask to cancel a run, at most one is told REQUESTED,
      and once one was, the request is on record. */
  lemma {:induction false} RequestedAtMostOnce(steps: seq<Step>, id: string)
    ensures Wins(Run(steps), id) <= 1
    ensures Wins(Run(steps), id) == 1 ==> Latched(Run(steps).runs, id)
  {
    if steps != [] {
      RequestedAtMostOnce(steps[..|steps| - 1], id);
      StepKeepsWins(Run(steps[..|steps| - 1]), steps[|steps| - 1], id);
    }
  }

  // ---------- One stuck event ----------

  predicate Flagged(runs: Runs, id: string) { id in runs && StuckAt in runs[id].fields }

  predicate Announces(h: Host, client: nat, id: string) { client in h.jobs && h.jobs[client] == Announcing(id) }

  ghost predicate AlarmsSound(h: Host, id: string) {
    && multiset(h.alarms)[id] <= 1
    && (multiset(h.alarms)[id] == 1 ==> Flagged(h.runs, id))
    && (forall c :: Announces(h, c, id) ==> Flagged(h.runs, id) && multiset(h.alarms)[id] == 0)
    && (forall c, d :: Announces(h, c, id) && Announces(h, d, id) ==> c == d)
  }

  lemma FlagStays(h: Host, step: Step, id: string)
    requires Flagged(h.runs, id)
    ensures Flagged(Apply(h, step).runs, id)
  {
    StepGrows(h, step, id);
  }

  lemma OnlyTheMarkerAnnounces(h: Host, step: Step, client: nat, id: string)
    requires Announces(Apply(h, step), client, id)
    ensures if step.Continue? && step.client == client then !Flagged(h.runs, id) && Flagged(Apply(h, step).runs, id)
            else Announces(h, client, id)
  {
  }

  lemma AlarmsComeFromAnnouncers(h: Host, step: Step, id: string)
    ensures var a, b := multiset(h.alarms)[id], multiset(Apply(h, step).alarms)[id];
            if step.Continue? && Announces(h, step.client, id) then b == a + 1 else b == a
  {
  }

  lemma StepKeepsAlarms(h: Host, step: Step, id: string)
    requires AlarmsSound(h, id)
    ensures AlarmsSound(Apply(h, step), id)
  {
    var h' := Apply(h, step);
    if Flagged(h.runs, id) { FlagStays(h, step, id); }
    AlarmsComeFromAnnouncers(h, step, id);
    forall c | Announces(h', c, id)
      ensures if step.Continue? && step.client == c then !Flagged(h.runs, id) && Flagged(h'.runs, id)
              else Announces(h, c, id)
    {
      OnlyTheMarkerAnnounces(h, step, c, id);
    }
  }

  /** Any number of racing watchdogs emit at most one stuck event per run, and
      only for a run that is marked. */
  lemma {:induction false} OneStuckEvent(steps: seq<Step>, id: string)
    ensures AlarmsSound(Run(steps), id)
    ensures multiset(Run(steps).alarms)[id] <= 1
    ensures multiset(Run(steps).alarms)[id] == 1 ==> Flagged(Run(steps).runs, id)
  {
    if steps != [] {
      OneStuckEvent(steps[..|steps| - 1], id);
      StepKeepsAlarms(Run(steps[..|steps| - 1]), steps[|steps| - 1], id);
    }
  }

  // ---------- The check fires for good ----------

  /** The statement that a step sends to the store, if any. */
  function Sent(h: Host, step: Step): seq<Statement> {
    match step
    case Heartbeat(id, org, now, phase) => [Beat(id, org, now, phase)]
    case Continue(client, c) =>
      if client !in h.jobs then []
      else (match h.jobs[client]
            case Storing(id, record) => [Upsert(id, c.edit.(org := record.org))]
            case Updating(update) => [update]
            case Flagging(id, org) => [Flag(id, org, c.now)]
            case _ => [])
    case _ => []
  }

  function AllSent(h: Host, steps: seq<Step>): seq<Statement> {
    if steps == [] then []
    else
      var n := |steps| - 1;
      AllSent(h, steps[..n]) + Sent(RunFrom(h, steps[..n]), steps[n])
  }

  lemma StepSends(h: Host, step: Step)
    ensures var sent := Sent(h, step);
            |sent| <= 1 && Apply(h, step).runs == if sent == [] then h.runs else Execute(h.runs, sent[0])
  {
  }

  /** The table changes by the statements that were sent, one after another. */
  lemma {:induction false} RunsAreWhatWasSent(h: Host, steps: seq<Step>)
    ensures RunFrom(h, steps).runs == ExecuteAll(h.runs, AllSent(h, steps))
  {
    hide Apply, Sent, Execute;
    if steps != [] {
      var n := |steps| - 1;
      RunsAreWhatWasSent(h, steps[..n]);
      var before, sent := AllSent(h, steps[..n]), Sent(RunFrom(h, steps[..n]), steps[n]);
      StepSends(RunFrom(h, steps[..n]), steps[n]);
      if sent == [] {
        assert before + sent == before;
      } else {
        assert (before + sent)[..|before|] == before;
      }
    }
  }

  /** Once a request is on record, the scoped check fires after any interleaving
      of clients if and only if the caller gives no organization, or the one that
      the last collector to store the run had resolved (the recorded one before). */
  lemma LatchedCheckFiresExactlyWhen(h: Host, steps: seq<Step>, id: string, org: string)
    requires Latched(h.runs, id)
    ensures CancelRequested(RunFrom(h, steps).runs, id, org)
            <==> org == "" || org == LastOrg(AllSent(h, steps), id, h.runs[id].org)
  {
    RunsAreWhatWasSent(h, steps);
    RequestSeenExactlyWhen(h.runs, AllSent(h, steps), id, org);
  }

  /** The run is recorded under `org`, and so is every write on its way. */
  ghost predicate Homed(h: Host, id: string, org: string) {
    && id in h.runs && h.runs[id].org == org
    && forall c | c in h.jobs :: JobHomed(h.jobs[c], id, org)
  }

  predicate JobHomed(job: Job, id: string, org: string) {
    && (job.Reading? && job.id == id ==> job.org == org)
    && (job.Storing? && job.id == id ==> job.record.org == org)
    && (job.Updating? && job.update.Upsert? ==> job.update.id != id)
  }

  /** Callers name the run's own organization, or none. */
  predicate NamesHome(step: Step, id: string, org: string) {
    step.AskRecord? && step.id == id ==> step.given in {"", DEFAULT_ORG, org}
  }

  lemma StepKeepsHome(h: Host, step: Step, id: string, org: string)
    requires Homed(h, id, org) && NamesHome(step, id, org)
    ensures Homed(Apply(h, step), id, org)
  {
    var h' := Apply(h, step);
    forall c | c in h'.jobs ensures JobHomed(h'.jobs[c], id, org) {
      assert c in h.jobs ==> JobHomed(h.jobs[c], id, org);
    }
    if step.Continue? && step.client in h.jobs { assert JobHomed(h.jobs[step.client], id, org); }
  }

  lemma {:induction false} RunKeepsHome(h: Host, steps: seq<Step>, id: string, org: string)
    requires Homed(h, id, org) && forall i | 0 <= i < |steps| :: NamesHome(steps[i], id, org)
    ensures Homed(RunFrom(h, steps), id, org)
  {
    if steps != [] {
      RunKeepsHome(h, steps[..|steps| - 1], id, org);
      StepKeepsHome(RunFrom(h, steps[..|steps| - 1]), steps[|steps| - 1], id, org);
    }
  }

  /** Once a request is recorded, the check that every graph node makes fires
      in every continuation, stale writes of any status included. */
  lemma CheckKeepsFiring(h: Host, steps: seq<Step>, id: string, org: string)
    requires Homed(h, id, org) && forall i | 0 <= i < |steps| :: NamesHome(steps[i], id, org)
    requires Latched(h.runs, id)
    ensures var runs := RunFrom(h, steps).runs;
            Latched(runs, id) && CancelRequested(runs, id, org) && CancelRequested(runs, id, "")
  {
    RunKeepsHome(h, steps, id, org);
    RunGrows(h, steps, id);
  }

  // ---------- Undisturbed clients ----------

  lemma Extend(h: Host, steps: seq<Step>, step: Step)
    ensures RunFrom(h, steps + [step]) == Apply(RunFrom(h, steps), step)
  {
    assert (steps + [step])[..|steps|] == steps;
  }

  /** Nobody comes between: the read and the update of a cancellation are the whole call. */
  lemma UndisturbedCancel(h: Host, client: nat, id: string, org: string, now: string, actor: Option<string>,
                          reason: Option<string>, c: Choice)
    requires client !in h.jobs
    ensures var (after, o) := Cancel(h.runs, id, org, now, actor, reason);
            RunFrom(h, [AskCancel(client, id, org, now, actor, reason)] + [Continue(client, c)])
            == h.(runs := after, results := h.results + [Result(id, o)])
  {
    var ask := AskCancel(client, id, org, now, actor, reason);
    Extend(h, [], ask);
    assert [] + [ask] == [ask];
    Extend(h, [ask], Continue(client, c));
    if Admit(h.runs, id, org, now, actor, reason).Attempt? {
      assert h.jobs[client := Updating(Admit(h.runs, id, org, now, actor, reason).update)] - {client} == h.jobs;
    }
    hide RunFrom, Execute, Affects;
  }

  lemma UndisturbedFinalize(h: Host, client: nat, id: string, org: string, now: string, c: Choice)
    requires client !in h.jobs
    ensures RunFrom(h, [AskFinalize(client, id, org, now)] + [Continue(client, c)])
            == h.(runs := Stopped(h.runs, id, org, now))
  {
    var ask := AskFinalize(client, id, org, now);
    Extend(h, [], ask);
    assert [] + [ask] == [ask];
    Extend(h, [ask], Continue(client, c));
    var found := Lookup(h.runs, id, org);
    if found.Some? {
      assert h.jobs[client := Updating(Finalize(id, found.value.org, now))] - {client} == h.jobs;
    }
    hide RunFrom, Execute, Affects;
  }

  /** A collector stores what it makes of the record under the organization it resolved. */
  lemma UndisturbedRecord(h: Host, client: nat, id: string, given: string, read: Choice, write: Choice)
    requires client !in h.jobs
    ensures RunFrom(h, [AskRecord(client, id, given)] + [Continue(client, read)] + [Continue(client, write)])
            == h.(runs := Execute(h.runs, Upsert(id, write.edit.(org := Resolve(h.runs, id, given)))))
  {
    var ask, org := AskRecord(client, id, given), Resolve(h.runs, id, given);
    Extend(h, [], ask);
    assert [] + [ask] == [ask];
    Extend(h, [ask], Continue(client, read));
    Extend(h, [ask] + [Continue(client, read)], Continue(client, write));
    var held := RunFrom(h, [ask] + [Continue(client, read)]).jobs[client];
    assert held.Storing? && held.record.org == org;
    assert h.jobs[client := Reading(id, org)][client := held] - {client} == h.jobs;
    hide RunFrom, Execute, Resolve;
  }

  /** A watchdog marks a run that it finds under way and without a mark, and tells of it;
      it leaves every other one alone. */
  lemma UndisturbedWatch(h: Host, client: nat, id: string, c: Choice)
    requires client !in h.jobs
    ensures var go := Continue(client, c);
            RunFrom(h, [AskWatch(client, id)] + [go] + [go] + [go]) ==
              if id in h.runs && h.runs[id].status in {Running, Revising, WaitingApproval, Publishing, Cancelling}
                 && Cell(h.runs, id, StuckAt) == None
              then h.(runs := Execute(h.runs, Flag(id, h.runs[id].org, c.now)), alarms := h.alarms + [id])
              else h
  {
    var ask, go := AskWatch(client, id), Continue(client, c);
    Extend(h, [], ask);
    assert [] + [ask] == [ask];
    Extend(h, [ask], go);
    Extend(h, [ask] + [go], go);
    Extend(h, [ask] + [go] + [go], go);
    hide RunFrom;
    if id in h.runs && Tracked(h.runs[id].status) && StuckAt !in h.runs[id].fields {
      var org := h.runs[id].org;
      assert Affects(h.runs, Flag(id, org, c.now));
      hide Execute, Affects;
      assert h.jobs[client := Rechecking(id, org)][client := Flagging(id, org)][client := Announcing(id)] - {client}
             == h.jobs;
    }
  }

  // ---------- What does not survive ----------

  /** Three steps of one careless caller hide a recorded request from the run's
      own check: it reports under another organization, finds no row there,
      starts a new record and moves the row over. */
  lemma WrongOrganizationHidesTheRequest(h: Host, client: nat, id: string, wrong: string, c: Choice)
    requires Latched(h.runs, id) && client !in h.jobs && h.runs[id].org != ""
    requires wrong != "" && wrong != DEFAULT_ORG && wrong != h.runs[id].org
    ensures var runs := RunFrom(h, [AskRecord(client, id, wrong)] + [Continue(client, c)] + [Continue(client, c)]).runs;
            Latched(runs, id) && !CancelRequested(runs, id, h.runs[id].org)
  {
    var ask, go := AskRecord(client, id, wrong), Continue(client, c);
    Extend(h, [], ask);
    assert [] + [ask] == [ask];
    Extend(h, [ask], go);
    Extend(h, [ask] + [go], go);
    var asked := Apply(h, ask);
    assert asked.runs == h.runs && asked.jobs[client] == Reading(id, wrong);
    var read := Apply(asked, go);
    assert read.runs == h.runs && read.jobs[client] == Storing(id, c.edit.(org := wrong));
    RunGrows(h, [ask] + [go] + [go], id);
  }

  /** A run is cancelled and finalized while a collector holds a record read
      before. When the collector writes, the run has its old status again: a
      terminal status is not final, but the request stays on record. */
  lemma StaleWriteRevivesRun(h: Host, a: nat, b: nat, id: string, now: string) returns (steps: seq<Step>)
    requires id in h.runs && !Terminal(h.runs[id].status) && !h.runs[id].counters.cancelRequested
    requires a !in h.jobs && b !in h.jobs && a != b
    ensures |steps| == 6 && id in RunFrom(h, steps).runs && RunFrom(h, steps).runs[id].status == Cancelled
    ensures var write := Continue(a, Choice(now, h.runs[id], false)); var after := Apply(RunFrom(h, steps), write).runs;
            Latched(after, id) && after[id].status == h.runs[id].status
  {
    var r := h.runs[id];
    var c := Choice(now, r, false);
    var read := CollectorReads(h, a, id, c);
    var h2 := RunFrom(h, read);
    var cancel := CancelCompletes(h2, b, id, c);
    RunConcat(h, read, cancel);
    steps := read + cancel;
    var end := RunFrom(h2, cancel);
    assert a in end.jobs && end.jobs[a] == Storing(id, r);
    HeldRecordWins(end, a, id, r, now);
    hide Apply, RunFrom;
  }

  /** Whoever writes last decides on the status, and never on the latch. */
  lemma HeldRecordWins(h: Host, client: nat, id: string, held: Row, now: string)
    requires Latched(h.runs, id) && client in h.jobs && h.jobs[client] == Storing(id, held)
    ensures var after := Apply(h, Continue(client, Choice(now, held, false))).runs;
            Latched(after, id) && after[id].status == held.status
  {
  }

  lemma {:induction false} RunConcat(h: Host, first: seq<Step>, second: seq<Step>)
    ensures RunFrom(h, first + second) == RunFrom(RunFrom(h, first), second)
  {
    if second == [] {
      assert first + second == first;
    } else {
      RunConcat(h, first, second[..|second| - 1]);
      assert (first + second)[..|first + second| - 1] == first + second[..|second| - 1];
    }
  }

  lemma CollectorReads(h: Host, client: nat, id: string, c: Choice) returns (steps: seq<Step>)
    requires id in h.runs && client !in h.jobs && !c.creates
    ensures |steps| == 2 && RunFrom(h, steps) == h.(jobs := h.jobs[client := Storing(id, h.runs[id])])
  {
    var ask, go := AskRecord(client, id, ""), Continue(client, c);
    Extend(h, [], ask);
    assert [] + [ask] == [ask];
    Extend(h, [ask], go);
    steps := [ask] + [go];
  }

  lemma CancelCompletes(h: Host, client: nat, id: string, c: Choice) returns (steps: seq<Step>)
    requires id in h.runs && !Terminal(h.runs[id].status) && !h.runs[id].counters.cancelRequested
    requires client !in h.jobs
    ensures |steps| == 4 && var end := RunFrom(h, steps);
            end.jobs == h.jobs && Latched(end.runs, id) && end.runs[id].status == Cancelled
  {
    var ask, finish := AskCancel(client, id, "", c.now, None, None), AskFinalize(client, id, "", c.now);
    var go := Continue(client, c);
    Extend(h, [], ask);
    assert [] + [ask] == [ask];
    Extend(h, [ask], go);
    var requested := RunFrom(h, [ask] + [go]);
    assert requested.jobs == h.jobs && Latched(requested.runs, id);
    Extend(h, [ask] + [go], finish);
    Extend(h, [ask] + [go] + [finish], go);
    steps := [ask] + [go] + [finish] + [go];
    FinalizingCancels(requested, client, id, c);
  }

  lemma FinalizingCancels(h: Host, client: nat, id: string, c: Choice)
    requires Latched(h.runs, id) && client !in h.jobs
    requires h.runs[id].status == Cancelled || !Terminal(h.runs[id].status)
    ensures var end := Apply(Apply(h, AskFinalize(client, id, "", c.now)), Continue(client, c));
            end.jobs == h.jobs && Latched(end.runs, id) && end.runs[id].status == Cancelled
  {
    var asked := Apply(h, AskFinalize(client, id, "", c.now));
    assert asked.runs == h.runs && asked.jobs[client] == Updating(Finalize(id, h.runs[id].org, c.now));
  }

  /** Who can take a run out of a terminal status: a whole-record write, and only that. */
  lemma OnlyWritesLeaveTerminal(runs: Runs, st: Statement, id: string)
    requires id in runs && Terminal(runs[id].status)
    ensures Execute(runs, st)[id].status != runs[id].status
            <==> st.Upsert? && st.id == id && st.record.status != runs[id].status
  {
  }
}
