/** Starting and resuming runs: what the runner answers, what it leaves in its
    table of active runs, and what the durable record says afterwards. */
module AgentRunner {
  import opened Options
  import opened RunStore
  import opened Collector
  import DriftCheck
  import Sanitizer
  import StoreClients
  import Graph = RunGraph

  // ---------- One invocation of the graph ----------

  /** How the invocation ends: at the end of the graph, paused for approval,
      unwound by a cancellation, or with any other exception, a lock timeout included. */
  datatype Invocation =
    | Ended(values: Graph.Values, report: Report)
    | Paused(hash: Option<string>, risk: Option<string>)
    | Unwound
    | Broke(message: string)

  /** The status in the response. */
  function Response(inv: Invocation): Status {
    match inv
    case Ended(v, _) => if Graph.DerivedStatus(v) == Graph.FAILED then Failed else Completed
    case Paused(_, _) => WaitingApproval
    case Unwound => Cancelled
    case Broke(_) => Failed
  }

  /** What goes with an invocation: the collector's classification of messages,
      how long it took, and the time at its end. */
  datatype Context = Context(infer: string -> string, took: string, now: string)

  /** What `start_run` records after the invocation. */
  function StartRecords(runs: Runs, id: string, org: string, inv: Invocation, c: Context): Runs {
    match inv
    case Ended(_, r) => if Response(inv).Completed? then Finished(runs, id, org, r, c.took, c.now) else runs
    case Paused(hash, risk) => AwaitingApproval(runs, id, org, hash, risk)
    case Unwound => Stopped(runs, id, org, c.now)
    case Broke(m) => Broken(runs, id, org, m, c.infer(m), c.took, c.now)
  }

  predicate CommitBroke(v: Graph.Values) { v.status == Some(Graph.CommitFailed) }

  const COMMIT_FAILED := "COMMIT_FAILED"
  const COMMIT_FAILURE := "COMMIT_FAILURE"

  /** A failed commit is written to its own column, under exactly the organization of the call. */
  function CommitMarked(runs: Runs, id: string, org: string): Runs {
    match Lookup(runs, id, org)
    case None => runs
    case Some(rec) => Execute(runs, Upsert(id, rec.(fields := rec.fields[CommitStatus := COMMIT_FAILED])))
  }

  function FailureText(v: Graph.Values): string { if CommitBroke(v) then "Git commit failed" else "Run failed" }

  /** What `resume_run` records after the invocation. */
  function ResumeRecords(runs: Runs, id: string, org: string, inv: Invocation, c: Context): Runs {
    match inv
    case Ended(v, r) =>
      if Response(inv).Completed? then Finished(runs, id, org, r, c.took, c.now)
      else
        var kind := if CommitBroke(v) then COMMIT_FAILURE else c.infer(FailureText(v));
        var failed := Broken(runs, id, org, FailureText(v), kind, c.took, c.now);
        if CommitBroke(v) then CommitMarked(failed, id, org) else failed
    case Paused(_, _) => runs
    case Unwound => Stopped(runs, id, org, c.now)
    case Broke(m) => Broken(runs, id, org, m, c.infer(m), c.took, c.now)
  }

  lemma EndingsAreRecorded(runs: Runs, id: string, given: string, r: Report, m: string, kind: string, c: Context)
    ensures Recorded(Finished(runs, id, given, r, c.took, c.now), id, Completed)
    ensures Recorded(Broken(runs, id, given, m, kind, c.took, c.now), id, Failed)
  {
  }

  lemma PauseIsRecordedExactlyWhen(runs: Runs, id: string, given: string, hash: Option<string>, risk: Option<string>)
    ensures Recorded(AwaitingApproval(runs, id, given, hash, risk), id, WaitingApproval)
            <==> Lookup(runs, id, StoreClients.Resolve(runs, id, given)).Some? || Recorded(runs, id, WaitingApproval)
  {
  }

  /** When the durable record says what `start_run` answers: always after a
      success or an exception; after a pause if the row is found; after a
      cancellation if the row is found and had not ended otherwise. A run that
      ends FAILED without an exception is not recorded at all. */
  lemma StartAnswerIsRecordedExactlyWhen(runs: Runs, id: string, org: string, inv: Invocation, c: Context)
    ensures var after := StartRecords(runs, id, org, inv, c);
            Recorded(after, id, Response(inv)) <==>
              match inv
              case Ended(_, _) => Response(inv).Completed? || Recorded(runs, id, Failed)
              case Paused(_, _) => Lookup(runs, id, StoreClients.Resolve(runs, id, org)).Some?
                                   || Recorded(runs, id, WaitingApproval)
              case Unwound => Recorded(runs, id, Cancelled)
                              || (Lookup(runs, id, org).Some? && !Terminal(runs[id].status))
              case Broke(_) => true
  {
    match inv
    case Ended(_, r) =>
      hide Finished;
      EndingsAreRecorded(runs, id, org, r, "", "", c);
    case Paused(hash, risk) =>
      hide AwaitingApproval;
      PauseIsRecordedExactlyWhen(runs, id, org, hash, risk);
    case Unwound =>
    case Broke(m) =>
      hide Broken;
      EndingsAreRecorded(runs, id, org, Report(map[], None, None, None), m, c.infer(m), c);
  }

  lemma MarkingKeepsStatuses(runs: Runs, id: string, org: string, s: Status)
    requires Recorded(runs, id, s)
    ensures Recorded(CommitMarked(runs, id, org), id, s)
    ensures org in {"", runs[id].org} ==>
              var f := CommitMarked(runs, id, org)[id].fields; CommitStatus in f && f[CommitStatus] == COMMIT_FAILED
  {
    var rec := runs[id].(fields := runs[id].fields[CommitStatus := COMMIT_FAILED]);
    WriteStores(runs, id, rec, CommitStatus);
    WriteKeepsTheRest(runs, id, rec);
    hide Execute;
  }

  /** `resume_run` records every ending, and a failed commit in its own column
      too: for that the record must be under the organization of the call, which
      it is unless nobody named one and the record has another. */
  lemma ResumeRecordsEveryEnding(runs: Runs, id: string, org: string, inv: Invocation, c: Context)
    requires inv.Ended? || inv.Broke?
    ensures var after := ResumeRecords(runs, id, org, inv, c);
            && Recorded(after, id, Response(inv))
            && (inv.Ended? && CommitBroke(inv.values) && org in {"", StoreClients.Resolve(runs, id, org)} ==>
                  CommitStatus in after[id].fields && after[id].fields[CommitStatus] == COMMIT_FAILED)
  {
    match inv
    case Ended(v, r) =>
      var kind := if CommitBroke(v) then COMMIT_FAILURE else c.infer(FailureText(v));
      EndingsAreRecorded(runs, id, org, r, FailureText(v), kind, c);
      var failed := Broken(runs, id, org, FailureText(v), kind, c.took, c.now);
      BrokenStaysHome(runs, id, org, FailureText(v), kind, c);
      hide Broken, Finished, CommitMarked;
      MarkingKeepsStatuses(failed, id, org, Failed);
    case Broke(m) => EndingsAreRecorded(runs, id, org, Report(map[], None, None, None), m, c.infer(m), c);
  }

  /** When the record says what `resume_run` answers: after every ending; after another
      pause if it said so before, since the pause is not recorded; after a cancellation
      if the row is found and had not ended otherwise. */
  lemma ResumeAnswerIsRecordedExactlyWhen(runs: Runs, id: string, org: string, inv: Invocation, c: Context)
    ensures Recorded(ResumeRecords(runs, id, org, inv, c), id, Response(inv)) <==>
              match inv
              case Paused(_, _) => Recorded(runs, id, WaitingApproval)
              case Unwound => Recorded(runs, id, Cancelled)
                              || (Lookup(runs, id, org).Some? && !Terminal(runs[id].status))
              case _ => true
  {
    if inv.Ended? || inv.Broke? { ResumeRecordsEveryEnding(runs, id, org, inv, c); }
    hide Broken, Finished, CommitMarked;
  }

  /** A finished run is answered FAILED exactly when its revisions were exhausted or the
      commit itself failed, and COMPLETED otherwise. */
  lemma AnswerOfAFinishedRun(t: DriftCheck.Tools, hasProject: bool, inputs: seq<Graph.Input>, report: Report)
    requires Graph.After(t, hasProject, inputs).node.End?
    ensures var r := Graph.After(t, hasProject, inputs);
            Response(Ended(r.values, report)) ==
            if Graph.Last(r) == Graph.Qa || r.values.status == Some(Graph.CommitFailed) then Failed else Completed
  {
    Graph.FailedExactlyWhen(t, hasProject, inputs);
  }

  /** A run that ended FAILED is stored with a category and its words: those of a failed
      commit, which also has its own column, or the inferred one for any other failure. */
  lemma FailedEndingSaysWhy(runs: Runs, id: string, org: string, inv: Invocation, c: Context)
    requires inv.Ended? && Response(inv) == Failed && org in {"", StoreClients.Resolve(runs, id, org)}
    ensures var after, broke := ResumeRecords(runs, id, org, inv, c), inv.values.status == Some(Graph.CommitFailed);
            var words := if broke then "Git commit failed" else "Run failed";
            && Cell(after, id, FailureCategory) == Some(if broke then "COMMIT_FAILURE" else c.infer(words))
            && Cell(after, id, FailureMessage) == Some(Sanitizer.SanitizeText(words))
            && Cell(after, id, CommitStatus) == if broke then Some("COMMIT_FAILED") else Cell(runs, id, CommitStatus)
  {
    var v := inv.values;
    var words := if CommitBroke(v) then "Git commit failed" else "Run failed";
    var kind := if CommitBroke(v) then COMMIT_FAILURE else c.infer(words);
    FailureSays(runs, id, org, words, kind, c.took, c.now, FailureCategory);
    FailureSays(runs, id, org, words, kind, c.took, c.now, CommitStatus);
    FailureIsRecorded(runs, id, org, words, kind, c.took, c.now);
    var failed := Broken(runs, id, org, words, kind, c.took, c.now);
    BrokenStaysHome(runs, id, org, words, kind, c);
    assert Brief(words) == words && FailureText(v) == words;
    hide Broken, Execute, Sanitizer.SanitizeText, Brief, FailureText;
    if CommitBroke(v) { MarkingKeepsTheRest(failed, id, org, words); }
  }

  lemma MarkingKeepsTheRest(runs: Runs, id: string, org: string, words: string)
    requires id in runs && org in {"", runs[id].org}
    requires Cell(runs, id, FailureMessage) == Some(Sanitizer.SanitizeText(words))
    ensures var after := CommitMarked(runs, id, org);
            && Cell(after, id, FailureCategory) == Cell(runs, id, FailureCategory)
            && Cell(after, id, FailureMessage) == Cell(runs, id, FailureMessage)
            && Cell(after, id, CommitStatus) == Some(COMMIT_FAILED)
  {
    var marked := runs[id].(fields := runs[id].fields[CommitStatus := COMMIT_FAILED]);
    Sanitizer.SanitizeTextTwice(words);
    UpsertWrites(runs, id, marked, FailureCategory);
    UpsertWrites(runs, id, marked, FailureMessage);
    UpsertWrites(runs, id, marked, CommitStatus);
    hide Execute, Sanitizer.SanitizeText;
  }

  lemma BrokenStaysHome(runs: Runs, id: string, given: string, m: string, kind: string, c: Context)
    ensures id in Broken(runs, id, given, m, kind, c.took, c.now)
    ensures Broken(runs, id, given, m, kind, c.took, c.now)[id].org == StoreClients.Resolve(runs, id, given)
  {
  }

  /** A run that exhausts its revisions is answered FAILED by `start_run` and
      goes on as RUNNING in the durable record, if nobody else writes to it. */
  lemma ExhaustedRunIsRecordedAsRunning(t: DriftCheck.Tools, hasProject: bool, inputs: seq<Graph.Input>, report: Report,
                                        runs: Runs, id: string, org: string, facts: map<Column, string>, c: Context)
    requires Graph.After(t, hasProject, inputs).node.End? && Graph.Last(Graph.After(t, hasProject, inputs)).Qa?
    ensures var inv := Ended(Graph.After(t, hasProject, inputs).values, report);
            var started := Started(Created(runs, id, org, facts, c.now), id, org, c.now);
            Response(inv) == Failed && Recorded(StartRecords(started, id, org, inv, c), id, Running)
  {
    Graph.FailedExactlyWhen(t, hasProject, inputs);
    StartingKeepsWhatWasQueued(runs, id, org, facts, c.now);
  }

  // ---------- Resumption ----------

  datatype Refusal = UnknownRun | CancelledRun | TerminalRun | NotAwaiting

  /** The guards of `resume_run`: a run that is cancelled, ended, or has nothing
      pending is refused. */
  function Guard(runs: Runs, id: string, org: string, known: bool, pending: bool): Option<Refusal> {
    var found := Lookup(runs, id, org);
    if !known then Some(UnknownRun)
    else if found.Some? && found.value.status.Cancelled? then Some(CancelledRun)
    else if found.Some? && Terminal(found.value.status) then Some(TerminalRun)
    else if !pending then Some(NotAwaiting)
    else None
  }

  /** A terminal run keeps its status and its organization through any statements
      but whole-record writes of it. */
  lemma {:induction false} StaysTerminal(runs: Runs, sts: seq<Statement>, id: string)
    requires id in runs && Terminal(runs[id].status)
    requires forall i | 0 <= i < |sts| :: !(sts[i].Upsert? && sts[i].id == id)
    ensures id in ExecuteAll(runs, sts)
    ensures ExecuteAll(runs, sts)[id].status == runs[id].status && ExecuteAll(runs, sts)[id].org == runs[id].org
  {
    if sts != [] {
      StaysTerminal(runs, sts[..|sts| - 1], id);
      StoreClients.OnlyWritesLeaveTerminal(ExecuteAll(runs, sts[..|sts| - 1]), sts[|sts| - 1], id);
    }
  }

  /** The four statuses of a run that is over. */
  const OVER := {Status.Completed, Status.Failed, Status.Cancelled, Status.Blocked}

  /** The row that a call under this organization gets to see. */
  predicate Sees(runs: Runs, id: string, org: string) { id in runs && (org == "" || runs[id].org == org) }

  /** A call is accepted if and only if the run is known, something is pending, and
      there is no visible record or the recorded run is not over; and otherwise
      it is told why, a cancellation before any other ending. */
  lemma ResumedExactlyWhen(runs: Runs, id: string, org: string, known: bool, pending: bool)
    ensures var g, over := Guard(runs, id, org, known, pending), Sees(runs, id, org) && runs[id].status in OVER;
            && (g == None <==> known && pending && !over)
            && (g == Some(UnknownRun) <==> !known)
            && (g == Some(CancelledRun) <==> known && over && runs[id].status == Cancelled)
            && (g == Some(TerminalRun) <==> known && over && runs[id].status != Cancelled)
            && (g == Some(NotAwaiting) <==> known && !over && !pending)
  {
  }

  /** A run that is over, in whichever way, is refused from then on, until a
      whole-record write says otherwise: also one whose graph raised at a node
      and still looks as if it were waiting there. */
  lemma EndedRunIsRefused(runs: Runs, id: string, org: string, later: seq<Statement>, known: bool, pending: bool)
    requires Sees(runs, id, org) && runs[id].status in OVER
    requires forall i | 0 <= i < |later| :: !(later[i].Upsert? && later[i].id == id)
    ensures Guard(ExecuteAll(runs, later), id, org, known, pending).Some?
  {
    StaysTerminal(runs, later, id);
    ResumedExactlyWhen(ExecuteAll(runs, later), id, org, known, pending);
  }

  /** So a call of `start_run` that ended with an exception is never resumed. */
  lemma BrokenRunIsRefused(runs: Runs, id: string, org: string, message: string, c: Context, later: seq<Statement>,
                           known: bool, pending: bool)
    requires org in {"", StoreClients.Resolve(runs, id, org)}
    requires forall i | 0 <= i < |later| :: !(later[i].Upsert? && later[i].id == id)
    ensures Guard(ExecuteAll(StartRecords(runs, id, org, Broke(message), c), later), id, org, known, pending).Some?
  {
    hide Broken, Guard, ExecuteAll;
    var failed := StartRecords(runs, id, org, Broke(message), c);
    BrokenIsSeen(runs, id, org, message, c);
    EndedRunIsRefused(failed, id, org, later, known, pending);
  }

  lemma BrokenIsSeen(runs: Runs, id: string, org: string, message: string, c: Context)
    requires org in {"", StoreClients.Resolve(runs, id, org)}
    ensures var failed := Broken(runs, id, org, message, c.infer(message), c.took, c.now);
            Sees(failed, id, org) && failed[id].status in OVER
  {
    EndingsAreRecorded(runs, id, org, Report(map[], None, None, None), message, c.infer(message), c);
    BrokenStaysHome(runs, id, org, message, c.infer(message), c);
    hide Broken;
  }

  /** A run cancelled while it waits for approval is CANCELLED at once, and from
      then on refused, until a whole-record write says otherwise. */
  lemma CancelledWhileWaitingIsRefused(
      runs: Runs, id: string, org: string, now: string, actor: Option<string>, reason: Option<string>,
      later: seq<Statement>, known: bool, pending: bool)
    requires id in runs && runs[id].org == org && runs[id].status.WaitingApproval? && !runs[id].counters.cancelRequested
    requires forall i | 0 <= i < |later| :: !(later[i].Upsert? && later[i].id == id)
    ensures var (after, o) := Cancel(runs, id, org, now, actor, reason);
            o == Requested && Guard(ExecuteAll(after, later), id, org, known, pending).Some?
  {
    var (after, o) := Cancel(runs, id, org, now, actor, reason);
    assert after[id].status == Cancelled && after[id].org == org;
    EndedRunIsRefused(after, id, org, later, known, pending);
  }

  // ---------- The object ----------

  class Runner {
    const store: TelemetryStore
    const collector: TelemetryCollector
    var activeRuns: map<string, string>
    var runErrors: map<string, string>

    constructor (store: TelemetryStore, collector: TelemetryCollector)
      requires collector.store == store
      ensures this.store == store && this.collector == collector && activeRuns == map[] && runErrors == map[]
    {
      this.store, this.collector, activeRuns, runErrors := store, collector, map[], map[];
    }

    /** The end of an invocation: on every way out the run is no longer active,
        and an exception leaves its message. */
    method Leave(id: string, inv: Invocation)
      modifies this
      ensures activeRuns == old(activeRuns) - {id}
      ensures runErrors == if inv.Broke? then old(runErrors)[id := inv.message] else old(runErrors)
    {
      activeRuns := activeRuns - {id};
      if inv.Broke? { runErrors := runErrors[id := inv.message]; }
    }

    /** What the other clients of the store do meanwhile. */
    method Meanwhile(during: seq<Statement>)
      modifies store
      ensures store.runs == ExecuteAll(old(store.runs), during)
    {
      for i := 0 to |during|
        invariant store.runs == ExecuteAll(old(store.runs), during[..i])
      {
        assert during[..i + 1][..i] == during[..i];
        store.runs := Execute(store.runs, during[i]);
      }
      assert during[..|during|] == during;
    }

    /** One call of `start_run`; `during` are the statements that other clients
        execute while the graph runs. */
    method StartRun(id: string, org: string, facts: map<Column, string>, during: seq<Statement>, inv: Invocation,
                    took: string, now: string) returns (answer: Status)
      requires collector.store == store
      modifies this, store
      ensures answer == Response(inv)
      ensures var started := Started(Created(old(store.runs), id, org, facts, now), id, org, now);
              store.runs == StartRecords(ExecuteAll(started, during), id, org, inv, Context(collector.infer, took, now))
      ensures activeRuns == old(activeRuns) - {id}
      ensures runErrors == if inv.Broke? then old(runErrors)[id := inv.message] else old(runErrors)
    {
      hide Created, Started, Finished, Broken, AwaitingApproval, Stopped, ExecuteAll, Execute;
      activeRuns := activeRuns[id := "RUNNING"];
      var _ := collector.OnRunCreated(id, org, facts, now);
      collector.OnRunStarted(id, org, now);
      Meanwhile(during);
      Leave(id, inv);
      match inv {
        case Ended(values, report) =>
          answer := if Graph.DerivedStatus(values) == Graph.FAILED then Failed else Completed;
          if answer.Completed? { collector.OnRunCompleted(id, org, report, took, now); }
        case Paused(hash, risk) =>
          answer := WaitingApproval;
          collector.OnApprovalRequested(id, org, hash, risk);
        case Unwound =>
          answer := Cancelled;
          var won := store.MarkCancelled(id, org, now);
        case Broke(message) =>
          answer := Failed;
          collector.OnRunFailed(id, org, message, None, took, now);
      }
    }

    method MarkCommitFailed(id: string, org: string)
      modifies store
      ensures store.runs == CommitMarked(old(store.runs), id, org)
    {
      var rec := store.GetRun(id, org);
      if rec.Some? {
        store.CreateOrUpdateRun(id, rec.value.(fields := rec.value.fields[CommitStatus := COMMIT_FAILED]));
      }
    }

    /** What `resume_run` does with the end of the invocation. */
    method Conclude(id: string, org: string, inv: Invocation, took: string, now: string) returns (answer: Status)
      requires collector.store == store
      modifies store
      ensures answer == Response(inv)
      ensures store.runs == ResumeRecords(old(store.runs), id, org, inv, Context(collector.infer, took, now))
    {
      hide Finished, Broken, CommitMarked, Stopped;
      answer := Failed;
      match inv {
        case Ended(values, report) =>
          answer := if Graph.DerivedStatus(values) == Graph.FAILED then Failed else Completed;
          if answer.Completed? {
            collector.OnRunCompleted(id, org, report, took, now);
          } else if CommitBroke(values) {
            collector.OnRunFailed(id, org, "Git commit failed", Some(COMMIT_FAILURE), took, now);
            MarkCommitFailed(id, org);
          } else {
            collector.OnRunFailed(id, org, "Run failed", None, took, now);
          }
        case Paused(_, _) => answer := WaitingApproval;
        case Unwound =>
          answer := Cancelled;
          var won := store.MarkCancelled(id, org, now);
        case Broke(message) =>
          collector.OnRunFailed(id, org, message, None, took, now);
      }
    }

    /** One call of `resume_run`. A refused call changes nothing. */
    method ResumeRun(id: string, org: string, known: bool, pending: bool, approved: bool, reviewer: Option<string>,
                     latency: Option<string>, during: seq<Statement>, inv: Invocation, took: string, now: string)
      returns (answer: Status, refused: Option<Refusal>)
      requires collector.store == store
      modifies this, store
      ensures refused == Guard(old(store.runs), id, org, known, pending)
      ensures refused.Some? ==>
                store.runs == old(store.runs) && activeRuns == old(activeRuns) && runErrors == old(runErrors)
      ensures refused.None? ==> answer == Response(inv) && activeRuns == old(activeRuns) - {id}
      ensures refused.None? ==> runErrors == if inv.Broke? then old(runErrors)[id := inv.message] else old(runErrors)
      ensures var decided := Decided(old(store.runs), id, org, approved, reviewer, latency);
              var c := Context(collector.infer, took, now);
              refused.None? ==> store.runs == ResumeRecords(ExecuteAll(decided, during), id, org, inv, c)
    {
      hide Decided, ResumeRecords, ExecuteAll, Execute;
      answer := Failed;
      if !known { return answer, Some(UnknownRun); }
      var rec := store.GetRun(id, org);
      if rec.Some? && rec.value.status.Cancelled? { return answer, Some(CancelledRun); }
      if rec.Some? && Terminal(rec.value.status) { return answer, Some(TerminalRun); }
      if !pending { return answer, Some(NotAwaiting); }
      refused := None;
      collector.OnApprovalDecision(id, org, approved, reviewer, latency);
      activeRuns := activeRuns[id := "RUNNING"];
      Meanwhile(during);
      Leave(id, inv);
      answer := Conclude(id, org, inv, took, now);
    }
  }
}
