/** Cooperative cancellation: one run of the graph beside any number of store
    clients. Every node but cleanup checks the store when it is entered, and the
    commit node checks once more right before it commits. A node that raises, is
    interrupted, or dies with its process is entered again on resumption. */
module Cancellation {
  import opened Options
  import opened RunStore
  import opened StoreClients
  import DriftCheck
  import Graph = RunGraph

  /** How far the current node has come; the inputs are those of its verification. */
  datatype Phase =
    | Outside
    | Inside
    | Verified(input: Graph.Input)    // workspace verified, final check next
    | Sealed(input: Graph.Input)      // final check passed, commit next
    | Landed(input: Graph.Input)      // committed, result to be recorded

  datatype World = World(host: Host, run: Graph.Run, phase: Phase, commits: nat)

  /** The run's id and the organization it checks under, both empty when absent. */
  datatype Identity = Identity(id: string, scope: string)

  datatype Move =
    | Elsewhere(step: Step)           // a step of a store client
    | EnterNode
    | FinishNode(input: Graph.Input)
    | FinalCheck
    | CommitNow(works: bool)
    | Raise

  /** `check_cancelled` raises. A run without an id is never cancelled. */
  predicate Fires(me: Identity, runs: Runs) { me.id != "" && CancelRequested(runs, me.id, me.scope) }

  method CheckCancelled(me: Identity, store: TelemetryStore) returns (raises: bool)
    ensures raises <==> Fires(me, store.runs)
  {
    if me.id == "" { return false; }
    raises := store.IsCancelRequested(me.id, me.scope);
  }

  /** The heartbeat of a node, under the organization of the run: it moves no status and no latch. */
  method MarkActivity(me: Identity, store: TelemetryStore, now: string, phase: string)
    modifies store
    ensures store.runs ==
            if me.id == "" then old(store.runs) else Execute(old(store.runs), Beat(me.id, me.scope, now, Some(phase)))
    ensures store.runs.Keys == old(store.runs).Keys
    ensures forall i | i in store.runs :: store.runs[i].status == old(store.runs)[i].status
    ensures forall i | i in store.runs :: store.runs[i].counters == old(store.runs)[i].counters
  {
    if me.id != "" { store.UpdateActivity(me.id, me.scope, now, Some(phase)); }
  }

  ghost function Apply(t: DriftCheck.Tools, me: Identity, w: World, m: Move): World {
    match m
    case Elsewhere(step) => w.(host := StoreClients.Apply(w.host, step))
    case EnterNode =>
      if w.phase.Outside? && !w.run.node.Cleanup? && !w.run.node.End? && !Fires(me, w.host.runs)
      then w.(phase := Inside) else w
    case FinishNode(input) => Finish(t, w, input)
    case FinalCheck =>
      if w.phase.Verified? then w.(phase := if Fires(me, w.host.runs) then Outside else Sealed(w.phase.input)) else w
    case CommitNow(works) =>
      if w.phase.Sealed? then w.(phase := Landed(w.phase.input.(commitWorks := works)), commits := w.commits + 1) else w
    case Raise => w.(phase := Outside)
  }

  ghost function Finish(t: DriftCheck.Tools, w: World, input: Graph.Input): World {
    if w.phase.Landed? then w.(run := Graph.Complete(t, w.run, w.phase.input), phase := Outside)
    else if w.run.node.Cleanup? || (w.phase.Inside? && !w.run.node.GitCommit?) then
      w.(run := Graph.Complete(t, w.run, input), phase := Outside)
    else if w.phase.Inside? then
      if Graph.Verified(t, w.run.values.diff, input.workspace).None? then w.(phase := Verified(input))
      else w.(run := Graph.Complete(t, w.run, input), phase := Outside)
    else w
  }

  ghost function After(t: DriftCheck.Tools, me: Identity, w: World, moves: seq<Move>): World {
    if moves == [] then w else Apply(t, me, After(t, me, w, moves[..|moves| - 1]), moves[|moves| - 1])
  }

  function Begin(host: Host, hasProject: bool): World { World(host, Graph.Begin(hasProject), Outside, 0) }

  // ---------- An undisturbed node ----------

  lemma OneMove(t: DriftCheck.Tools, me: Identity, w: World, moves: seq<Move>, m: Move)
    ensures After(t, me, w, moves + [m]) == Apply(t, me, After(t, me, w, moves), m)
  {
    assert (moves + [m])[..|moves|] == moves;
  }

  /** Nobody asks to stop: a node that is entered and finished is one step of the graph.
      Cleanup is the one node that does not have to be let in. */
  lemma UndisturbedNode(t: DriftCheck.Tools, me: Identity, w: World, input: Graph.Input)
    requires w.phase == Outside && w.run.node != Graph.GitCommit && w.run.node != Graph.End
    requires w.run.node == Graph.Cleanup || !Fires(me, w.host.runs)
    ensures After(t, me, w, [EnterNode] + [FinishNode(input)]) == w.(run := Graph.Complete(t, w.run, input))
  {
    OneMove(t, me, w, [], EnterNode);
    assert [] + [EnterNode] == [EnterNode];
    OneMove(t, me, w, [EnterNode], FinishNode(input));
    hide After, Graph.Complete;
  }

  /** The commit node commits exactly when its workspace is verified, and records how the
      commit went; the graph sees one step of it either way. */
  lemma UndisturbedCommitNode(t: DriftCheck.Tools, me: Identity, w: World, input: Graph.Input, works: bool,
                              other: Graph.Input)
    requires w.phase == Outside && w.run.node == Graph.GitCommit && !Fires(me, w.host.runs)
    ensures var moves := [EnterNode] + [FinishNode(input)] + [FinalCheck] + [CommitNow(works)];
            if Graph.Verified(t, w.run.values.diff, input.workspace) == None then
              After(t, me, w, moves + [FinishNode(other)])
              == w.(run := Graph.Complete(t, w.run, input.(commitWorks := works)), commits := w.commits + 1)
            else After(t, me, w, moves) == w.(run := Graph.Complete(t, w.run, input))
  {
    var finish, commit := FinishNode(input), CommitNow(works);
    OneMove(t, me, w, [], EnterNode);
    assert [] + [EnterNode] == [EnterNode];
    OneMove(t, me, w, [EnterNode], finish);
    OneMove(t, me, w, [EnterNode] + [finish], FinalCheck);
    OneMove(t, me, w, [EnterNode] + [finish] + [FinalCheck], commit);
    OneMove(t, me, w, [EnterNode] + [finish] + [FinalCheck] + [commit], FinishNode(other));
    hide After, Graph.Complete, Graph.Verified;
  }

  /** A node that was asked to stop is not entered, and one that raises is left with
      nothing but what it committed. */
  lemma StoppedNode(t: DriftCheck.Tools, me: Identity, w: World, input: Graph.Input)
    requires w.phase == Outside && w.run.node != Graph.Cleanup && Fires(me, w.host.runs)
    ensures After(t, me, w, [EnterNode] + [FinishNode(input)]) == w
    ensures forall p: Phase :: Apply(t, me, w.(phase := p), Raise) == w
  {
    OneMove(t, me, w, [], EnterNode);
    assert [] + [EnterNode] == [EnterNode];
    OneMove(t, me, w, [EnterNode], FinishNode(input));
    hide After, Graph.Complete;
  }

  // ---------- Nothing is committed that is not gated ----------

  ghost predicate Consistent(t: DriftCheck.Tools, w: World) {
    && Graph.Sound(t, w.run)
    && (w.phase.Verified? || w.phase.Sealed? || w.phase.Landed? ==>
          w.run.node.GitCommit? && Graph.Verified(t, w.run.values.diff, w.phase.input.workspace).None?)
  }

  lemma MoveKeepsConsistent(t: DriftCheck.Tools, me: Identity, w: World, m: Move)
    requires Consistent(t, w)
    ensures Consistent(t, Apply(t, me, w, m))
  {
    if m.FinishNode? {
      Graph.StepIsSound(t, w.run, m.input);
      if w.phase.Landed? { Graph.StepIsSound(t, w.run, w.phase.input); }
    }
  }

  lemma {:induction false} AlwaysConsistent(t: DriftCheck.Tools, me: Identity, host: Host, hasProject: bool,
                                            moves: seq<Move>)
    ensures Consistent(t, After(t, me, Begin(host, hasProject), moves))
  {
    if moves != [] {
      AlwaysConsistent(t, me, host, hasProject, moves[..|moves| - 1]);
      MoveKeepsConsistent(t, me, After(t, me, Begin(host, hasProject), moves[..|moves| - 1]), moves[|moves| - 1]);
    }
  }

  /** Whatever is committed, in a run with any interruptions and crashes, has
      passed the whole gate and showed no drift when the workspace was verified. */
  lemma EveryCommitIsGated(t: DriftCheck.Tools, me: Identity, host: Host, hasProject: bool, moves: seq<Move>,
                           works: bool)
    requires var w := After(t, me, Begin(host, hasProject), moves);
             Apply(t, me, w, CommitNow(works)).commits != w.commits
    ensures var w := After(t, me, Begin(host, hasProject), moves);
            && Graph.Gated(t, w.run.values) && w.phase.Sealed?
            && var d, ws := w.run.values.diff.value, w.phase.input.workspace;
            DriftCheck.NoDrift(t, ws.present, ws.head, ws.disk, d.text, d.hash, d.files)
  {
    AlwaysConsistent(t, me, host, hasProject, moves);
  }

  // ---------- A recorded request stops the run ----------

  /** Moves in which the run looks for a request. */
  predicate Checks(m: Move) { m.EnterNode? || m.FinalCheck? }

  /** A request is on record for the run. */
  predicate Requested(me: Identity, w: World) { me.id != "" && Latched(w.host.runs, me.id) }

  /** Whenever the run checks, it does so under no organization or under the one
      that the last collector to store the run had resolved. */
  predicate ChecksWhereStored(me: Identity, w: World, moves: seq<Move>)
    requires Requested(me, w)
  {
    forall i | 0 <= i < |moves| && Checks(moves[i]) ::
      me.scope in {"", LastOrg(AllSent(w.host, Steps(moves[..i])), me.id, w.host.runs[me.id].org)}
  }

  /** The steps of the store's clients among some moves. */
  function Steps(moves: seq<Move>): seq<Step> {
    if moves == [] then []
    else
      var m := moves[|moves| - 1];
      Steps(moves[..|moves| - 1]) + if m.Elsewhere? then [m.step] else []
  }

  /** The run itself writes nothing to the store here: its clients decide. */
  lemma {:induction false} HostFollowsSteps(t: DriftCheck.Tools, me: Identity, w: World, moves: seq<Move>)
    ensures After(t, me, w, moves).host == RunFrom(w.host, Steps(moves))
  {
    if moves != [] {
      var before, m := moves[..|moves| - 1], moves[|moves| - 1];
      HostFollowsSteps(t, me, w, before);
      if m.Elsewhere? {
        Extend(w.host, Steps(before), m.step);
      } else {
        assert Steps(before) + [] == Steps(before);
      }
    }
  }

  /** A check after some moves fires exactly when it is made where the run is stored. */
  lemma FiresAfterExactlyWhen(t: DriftCheck.Tools, me: Identity, w: World, moves: seq<Move>)
    requires Requested(me, w)
    ensures Requested(me, After(t, me, w, moves))
    ensures Fires(me, After(t, me, w, moves).host.runs)
            <==> me.scope in {"", LastOrg(AllSent(w.host, Steps(moves)), me.id, w.host.runs[me.id].org)}
  {
    HostFollowsSteps(t, me, w, moves);
    LatchedCheckFiresExactlyWhen(w.host, Steps(moves), me.id, me.scope);
    RunGrows(w.host, Steps(moves), me.id);
  }

  lemma ShorterChecksWhereStored(t: DriftCheck.Tools, me: Identity, w: World, moves: seq<Move>)
    requires Requested(me, w) && moves != [] && ChecksWhereStored(me, w, moves)
    ensures ChecksWhereStored(me, w, moves[..|moves| - 1])
    ensures Checks(moves[|moves| - 1]) ==> Fires(me, After(t, me, w, moves[..|moves| - 1]).host.runs)
  {
    var n := |moves| - 1;
    FiresAfterExactlyWhen(t, me, w, moves[..n]);
    assert forall i | 0 <= i < n :: moves[..n][i] == moves[i] && moves[..n][..i] == moves[..i];
  }

  /** Once a request is on record and the commit node is not past its final
      check, nothing is ever committed: in every continuation in which the run
      checks where it is stored, whatever the status column says by then, and
      however often the run is resumed. */
  lemma {:induction false} RequestStopsCommits(t: DriftCheck.Tools, me: Identity, w: World, moves: seq<Move>)
    requires Requested(me, w) && !w.phase.Sealed? && ChecksWhereStored(me, w, moves)
    ensures var w' := After(t, me, w, moves); !w'.phase.Sealed? && w'.commits == w.commits
  {
    if moves != [] {
      ShorterChecksWhereStored(t, me, w, moves);
      RequestStopsCommits(t, me, w, moves[..|moves| - 1]);
    }
  }

  /** Between nodes it stops even sooner: no further node is entered, so the run
      stays where it is, except that a pending cleanup may still be done. */
  lemma {:induction false} RequestStopsNodes(t: DriftCheck.Tools, me: Identity, w: World, moves: seq<Move>)
    requires Requested(me, w) && w.phase.Outside? && ChecksWhereStored(me, w, moves)
    ensures var w' := After(t, me, w, moves);
            && w'.phase.Outside?
            && (w'.run == w.run || (w.run.node.Cleanup? && exists i :: w'.run == Graph.Complete(t, w.run, i)))
  {
    if moves != [] {
      ShorterChecksWhereStored(t, me, w, moves);
      RequestStopsNodes(t, me, w, moves[..|moves| - 1]);
    }
  }

  /** Where the checks stop helping: a request on record, a run stored under another
      organization than the one it checks under, and the final check lets a commit through. */
  lemma CheckElsewhereCommits(t: DriftCheck.Tools, me: Identity, w: World)
    requires Requested(me, w) && w.phase.Verified? && me.scope !in {"", w.host.runs[me.id].org}
    ensures After(t, me, w, [FinalCheck, CommitNow(true)]).commits == w.commits + 1
  {
    var moves := [FinalCheck, CommitNow(true)];
    assert moves[..1][..0] == [] && moves[..1][0] == FinalCheck;
    assert After(t, me, w, moves[..1]) == Apply(t, me, w, FinalCheck);
    LatchedCheckFiresExactlyWhen(w.host, [], me.id, me.scope);
  }

  predicate NamesHomeMove(m: Move, id: string, org: string) { m.Elsewhere? ==> NamesHome(m.step, id, org) }

  lemma {:induction false} StepsNameHome(moves: seq<Move>, id: string, org: string)
    requires forall i | 0 <= i < |moves| :: NamesHomeMove(moves[i], id, org)
    ensures forall i | 0 <= i < |Steps(moves)| :: NamesHome(Steps(moves)[i], id, org)
  {
    if moves != [] { StepsNameHome(moves[..|moves| - 1], id, org); }
  }

  /** A discipline that is enough: the run checks under its own organization or
      none, and all callers name that organization or none. */
  lemma HomeIsWhereItIsStored(t: DriftCheck.Tools, me: Identity, w: World, moves: seq<Move>, org: string)
    requires Requested(me, w) && me.scope in {"", org} && Homed(w.host, me.id, org)
    requires forall i | 0 <= i < |moves| :: NamesHomeMove(moves[i], me.id, org)
    ensures ChecksWhereStored(me, w, moves)
  {
    forall i | 0 <= i < |moves| && Checks(moves[i])
      ensures me.scope in {"", LastOrg(AllSent(w.host, Steps(moves[..i])), me.id, w.host.runs[me.id].org)}
    {
      StepsNameHome(moves[..i], me.id, org);
      CheckKeepsFiring(w.host, Steps(moves[..i]), me.id, org);
      LatchedCheckFiresExactlyWhen(w.host, Steps(moves[..i]), me.id, org);
      LatchedCheckFiresExactlyWhen(w.host, Steps(moves[..i]), me.id, me.scope);
    }
  }
}
