/** A run of the graph read off its log: which node follows which answer, and what
    a committed run was answered, in the words of its inputs alone. */
module RunAnswers {
  import opened Options
  import opened DriftCheck
  import opened RunGraph
  import Texts

  // ---------- Single answers ----------

  /** Nothing to commit: no file, or a diff of spaces. */
  lemma NoOpExactlyWhen(d: Diff)
    ensures NoOp(d) <==> d.files == [] || forall c | c in d.text :: Texts.IsSpace(c)
  {
    Texts.StripCuts(d.text);
    var r := Texts.Strip(d.text);
    if r != "" {
      var i := |d.text| - |Texts.StripLeft(d.text)|;
      assert r[0] == d.text[i] && d.text[i] in d.text;
    }
  }

  /** The word for an approval that cannot stand. */
  function Code(s: Status): string {
    match s
    case NoOpOrMissingDiff => "NO_OP_OR_MISSING_DIFF"
    case MissingDiffHash => "MISSING_DIFF_HASH"
    case MissingApprovalHash => "MISSING_APPROVAL_PATCH_HASH"
    case HashMismatch => "PATCH_HASH_MISMATCH"
    case Unauthorized => "APPROVAL_UNAUTHORIZED"
    case _ => ""
  }

  /** An approval is turned down for the first thing that is wrong with it, and says which. */
  lemma RefusalSaysWhy(diff: Option<Diff>, v: Verdict, roleKnown: bool, authorized: bool)
    requires v.approved
    ensures var (out, status) := Decide(diff, v, roleKnown, authorized);
            var missing := diff.None? || NoOp(diff.value);
            var hash := if diff.Some? then diff.value.hash else "";
            && (status == NoOpOrMissingDiff <==> missing)
            && (status == MissingDiffHash <==> !missing && hash == "")
            && (status == MissingApprovalHash <==> !missing && hash != "" && v.hash == "")
            && (status == HashMismatch <==> !missing && hash != "" && v.hash != "" && v.hash != hash)
            && (status == Unauthorized <==>
                  !missing && hash != "" && v.hash == hash && v.role != "" && roleKnown && !authorized)
            && (status != Approved ==> out.reason == Code(status) != "")
  {
    hide NoOp;
  }

  // ---------- Which node follows ----------

  function Prepared(t: Tools, i: Input): Diff { Diff(i.files, i.text, t.hash(i.text)) }

  /** The approval in one input stands for the diff prepared in another. */
  predicate Stands(t: Tools, prepared: Input, i: Input) {
    && i.verdict.approved && t.hash(prepared.text) != "" && i.verdict.hash == t.hash(prepared.text)
    && (i.verdict.role == "" || !i.roleKnown || i.authorized)
    && !NoOp(Prepared(t, prepared))
  }

  /** The node after a step, from what was answered up to there. */
  predicate Follows(t: Tools, hasProject: bool, log: seq<Entry>, k: nat, next: Node)
    requires k < |log|
  {
    var i, w := log[k].input, log[0].input.routing;
    match log[k].node
    case Router =>
      k == 0 && next == (if WantsPlanner(w) then Planner
                         else if WantsKnowledge(w, hasProject) then Knowledge
                         else if WantsDeveloper(w) then Developer else End)
    case Planner => next == if WantsKnowledge(w, hasProject) then Knowledge else Developer
    case Knowledge => next == if WantsDeveloper(w) then Developer else End
    case Developer => next == if i.recoverable then Revision else Qa
    case Qa =>
      next == if i.qa.passed then GitPrepare
              else if Visits(log[..k], Revision) < MAX_REVISIONS then Revision else End
    case Revision => next == Qa
    case GitPrepare => next == Policy
    case Policy =>
      k >= 1 && next == if NoOp(Prepared(t, log[k - 1].input)) || i.decision.Block? then Cleanup else Approval
    case Approval => k >= 2 && next == if Stands(t, log[k - 2].input, i) then GitCommit else Cleanup
    case GitCommit => next == End
    case Cleanup => next == End
    case End => false
  }

  /** The values that the routes read are those of the log. */
  ghost predicate Linked(t: Tools, hasProject: bool, r: Run) {
    var n, v := |r.log|, r.values;
    && v.hasProject == hasProject
    && Visits(r.log, Revision) == v.revisionCount
    && (if r.node.Router? then r.log == [] else n > 0 && v.routing == Some(r.log[0].input.routing))
    && (r.node.Policy? ==> v.diff == Some(Prepared(t, r.log[n - 1].input)))
    && (r.node.Approval? ==> n >= 2 && v.diff == Some(Prepared(t, r.log[n - 2].input)))
    && (r.node.GitCommit? ==> n >= 3 && v.diff == Some(Prepared(t, r.log[n - 3].input)))
    && (r.node.End? && Last(r).GitCommit? ==> n >= 4 && v.diff == Some(Prepared(t, r.log[n - 4].input)))
  }

  lemma StepKeepsLinked(t: Tools, hasProject: bool, r: Run, i: Input)
    requires Sound(t, r) && FrontSound(r) && Linked(t, hasProject, r)
    ensures Linked(t, hasProject, Complete(t, r, i))
  {
    hide Visits, NoOp, NoDrift, Decide, Verified, CleanupStatus, Gated, EndSound, LoopSound;
    if !r.node.End? {
      var e := Entry(r.node, i);
      VisitsOfExtended(r.log, e, Revision);
      assert (r.log + [e])[|r.log|] == e;
    }
  }

  lemma FrontStepFollows(t: Tools, hasProject: bool, r: Run, i: Input)
    requires NodeSound(t, r) && FrontSound(r) && Linked(t, hasProject, r)
    requires r.node in {Router, Planner, Knowledge, Developer}
    ensures Follows(t, hasProject, r.log + [Entry(r.node, i)], |r.log|, Complete(t, r, i).node)
  {
    hide Visits, NoOp, NoDrift, Decide, Verified, CleanupStatus, Gated;
  }

  lemma GateStepFollows(t: Tools, hasProject: bool, r: Run, i: Input)
    requires NodeSound(t, r) && Linked(t, hasProject, r)
    requires r.node in {Qa, Revision, GitPrepare, Policy, GitCommit, Cleanup}
    ensures Follows(t, hasProject, r.log + [Entry(r.node, i)], |r.log|, Complete(t, r, i).node)
  {
    var log := r.log + [Entry(r.node, i)];
    assert log[..|r.log|] == r.log;
    hide Visits, NoOp, NoDrift, Decide, Verified, CleanupStatus, Gated, NodeSound;
  }

  lemma ApprovalStepFollows(t: Tools, hasProject: bool, r: Run, i: Input)
    requires NodeSound(t, r) && Linked(t, hasProject, r) && r.node.Approval?
    ensures Follows(t, hasProject, r.log + [Entry(r.node, i)], |r.log|, Complete(t, r, i).node)
  {
    ApprovalStandsExactlyWhen(r.values.diff, i.verdict, i.roleKnown, i.authorized);
    hide Visits, NoOp, NoDrift, Decide, Verified, CleanupStatus, Gated;
  }

  lemma NewStepFollows(t: Tools, hasProject: bool, r: Run, i: Input)
    requires Sound(t, r) && FrontSound(r) && Linked(t, hasProject, r) && !r.node.End?
    ensures Follows(t, hasProject, r.log + [Entry(r.node, i)], |r.log|, Complete(t, r, i).node)
  {
    hide NodeSound, LoopSound, EndSound, FrontSound, Linked, Follows, Complete;
    if r.node in {Router, Planner, Knowledge, Developer} {
      FrontStepFollows(t, hasProject, r, i);
    } else if r.node.Approval? {
      ApprovalStepFollows(t, hasProject, r, i);
    } else {
      GateStepFollows(t, hasProject, r, i);
    }
  }

  lemma {:induction false} RunIsLinked(t: Tools, hasProject: bool, inputs: seq<Input>)
    ensures Linked(t, hasProject, After(t, hasProject, inputs))
  {
    if inputs != [] {
      var before := inputs[..|inputs| - 1];
      RunIsLinked(t, hasProject, before);
      RunIsSound(t, hasProject, before);
      RunHasItsFront(t, hasProject, before);
      StepKeepsLinked(t, hasProject, After(t, hasProject, before), inputs[|inputs| - 1]);
    }
  }

  /** The node that follows a step of a run, or the one where the run stands. */
  function NextNode(r: Run, k: nat): Node
    requires k < |r.log|
  {
    if k + 1 < |r.log| then r.log[k + 1].node else r.node
  }

  /** Every run goes from node to node as its answers say: through planning and knowledge as
      the routing asks, from QA to at most three revisions or to the preparation, and to the
      commit only past an approval that stands. */
  lemma {:induction false} EveryStepFollows(t: Tools, hasProject: bool, inputs: seq<Input>, k: nat)
    requires k < |After(t, hasProject, inputs).log|
    ensures var r := After(t, hasProject, inputs); Follows(t, hasProject, r.log, k, NextNode(r, k))
  {
    var before, i := inputs[..|inputs| - 1], inputs[|inputs| - 1];
    var r := After(t, hasProject, before);
    hide Follows, Complete, NoOp;
    CompleteAppends(t, r, i);
    if k < |r.log| {
      EveryStepFollows(t, hasProject, before, k);
      if !r.node.End? { FollowsReadsThePast(t, hasProject, r.log, Entry(r.node, i), k, NextNode(r, k)); }
    } else {
      RunIsLinked(t, hasProject, before);
      RunIsSound(t, hasProject, before);
      RunHasItsFront(t, hasProject, before);
      NewStepFollows(t, hasProject, r, i);
    }
  }

  lemma CompleteAppends(t: Tools, r: Run, i: Input)
    ensures Complete(t, r, i).log == if r.node.End? then r.log else r.log + [Entry(r.node, i)]
    ensures r.node.End? ==> Complete(t, r, i) == r
  {
  }

  lemma FollowsReadsThePast(t: Tools, hasProject: bool, log: seq<Entry>, e: Entry, k: nat, next: Node)
    requires k < |log| && Follows(t, hasProject, log, k, next)
    ensures Follows(t, hasProject, log + [e], k, next)
  {
    assert (log + [e])[..k] == log[..k];
    hide Visits, NoOp;
  }

  /** The log holds the answers in the order in which they came. */
  lemma {:induction false} LogHoldsTheAnswers(t: Tools, hasProject: bool, inputs: seq<Input>)
    ensures var r := After(t, hasProject, inputs);
            && |r.log| <= |inputs| && (|r.log| < |inputs| ==> r.node.End?)
            && forall k | 0 <= k < |r.log| :: r.log[k].input == inputs[k]
  {
    if inputs != [] {
      var before := inputs[..|inputs| - 1];
      LogHoldsTheAnswers(t, hasProject, before);
      CompleteAppends(t, After(t, hasProject, before), inputs[|inputs| - 1]);
      hide Complete;
    }
  }

  // ---------- What a committed run was answered ----------

  /** The last five steps of a log: QA passed, a diff with changes prepared, not blocked,
      approved by its hash, and committed from a workspace that shows that diff. */
  ghost predicate CommitAnswered(t: Tools, log: seq<Entry>) {
    var n := |log|;
    n >= 5 &&
    var qa, prepare, policy, approval, commit := log[n - 5], log[n - 4], log[n - 3], log[n - 2], log[n - 1];
    var d, w := Prepared(t, prepare.input), commit.input.workspace;
    && qa.node == Qa && prepare.node == GitPrepare && policy.node == Policy && approval.node == Approval
    && commit.node == GitCommit
    && qa.input.qa.passed && d.files != [] && (exists c | c in d.text :: !Texts.IsSpace(c))
    && policy.input.decision != Block && Stands(t, prepare.input, approval.input)
    && NoDrift(t, w.present, w.head, w.disk, d.text, d.hash, d.files) && commit.input.commitWorks
  }

  /** Who comes before a node past QA. */
  predicate ComesFrom(t: Tools, log: seq<Entry>, k: nat)
    requires 1 <= k < |log|
  {
    var e, p := log[k], log[k - 1];
    && (e.node == GitPrepare ==> p.node == Qa && p.input.qa.passed)
    && (e.node == Policy ==> p.node == GitPrepare)
    && (e.node == Approval ==> p.node == Policy && p.input.decision != Block)
    && (e.node == GitCommit ==> k >= 3 && p.node == Approval && Stands(t, log[k - 3].input, p.input))
  }

  lemma FollowsTellsWhence(t: Tools, hasProject: bool, log: seq<Entry>, k: nat)
    requires 1 <= k < |log| && Follows(t, hasProject, log, k - 1, log[k].node)
    ensures ComesFrom(t, log, k)
  {
    hide NoOp, Visits, WantsKnowledge, WantsDeveloper, WantsPlanner, Stands;
  }

  lemma Predecessor(t: Tools, hasProject: bool, inputs: seq<Input>, k: nat)
    requires k < |After(t, hasProject, inputs).log|
    ensures var log := After(t, hasProject, inputs).log;
            if k == 0 then log[0].node == Router else ComesFrom(t, log, k)
  {
    hide After, Follows, ComesFrom;
    if k == 0 {
      StartsWithTheRouter(t, hasProject, inputs);
    } else {
      EveryStepFollows(t, hasProject, inputs, k - 1);
      FollowsTellsWhence(t, hasProject, After(t, hasProject, inputs).log, k);
    }
  }

  lemma {:induction false} StartsWithTheRouter(t: Tools, hasProject: bool, inputs: seq<Input>)
    requires After(t, hasProject, inputs).log != []
    ensures After(t, hasProject, inputs).log[0].node == Router
  {
    var before := inputs[..|inputs| - 1];
    var r := After(t, hasProject, before);
    CompleteAppends(t, r, inputs[|inputs| - 1]);
    hide Complete;
    if r.log != [] {
      StartsWithTheRouter(t, hasProject, before);
    } else {
      EmptyLogStandsAtTheRouter(t, hasProject, before);
    }
  }

  lemma EmptyLogStandsAtTheRouter(t: Tools, hasProject: bool, inputs: seq<Input>)
    requires After(t, hasProject, inputs).log == []
    ensures After(t, hasProject, inputs).node == Router
  {
    RunIsLinked(t, hasProject, inputs);
  }

  lemma OnlyTheCommitNodeCommits(t: Tools, r: Run)
    requires Sound(t, r) && r.values.status == Some(Committed)
    ensures r.node == End && r.log != [] && r.log[|r.log| - 1].node == GitCommit
  {
    hide NoOp, NoDrift, LoopSound, Gated, ToBeCleaned;
  }

  lemma CommitNodeSays(t: Tools, hasProject: bool, r: Run)
    requires Sound(t, r) && Linked(t, hasProject, r) && r.node == End && r.log != [] && Last(r) == GitCommit
    ensures var n := |r.log|;
            && n >= 4
            && var d, i := Prepared(t, r.log[n - 4].input), r.log[n - 1].input;
               var w := i.workspace;
               r.values.status == Some(Committed)
               <==> NoDrift(t, w.present, w.head, w.disk, d.text, d.hash, d.files) && i.commitWorks
  {
    hide NoOp, NoDrift, LoopSound, NodeSound, Gated, ToBeCleaned, Visits;
  }

  lemma CommitNodeEnds(t: Tools, hasProject: bool, inputs: seq<Input>)
    requires var log := After(t, hasProject, inputs).log; log != [] && log[|log| - 1].node == GitCommit
    ensures After(t, hasProject, inputs).node == End
  {
    EveryStepFollows(t, hasProject, inputs, |After(t, hasProject, inputs).log| - 1);
    hide After, NoOp, Visits, WantsKnowledge, WantsDeveloper, WantsPlanner, Stands;
  }

  /** A run is COMMITTED if and only if its last five answers say so. */
  lemma CommittedExactlyWhen(t: Tools, hasProject: bool, inputs: seq<Input>)
    ensures var r := After(t, hasProject, inputs);
            r.values.status == Some(Committed) <==> CommitAnswered(t, r.log)
  {
    hide After, NoOp, NoDrift, Sound, Linked;
    var r := After(t, hasProject, inputs);
    var n := |r.log|;
    RunIsSound(t, hasProject, inputs);
    RunIsLinked(t, hasProject, inputs);
    if r.values.status == Some(Committed) { OnlyTheCommitNodeCommits(t, r); }
    if n > 0 && r.log[n - 1].node == GitCommit {
      CommitNodeEnds(t, hasProject, inputs);
      CommitNodeSays(t, hasProject, r);
      Predecessor(t, hasProject, inputs, n - 1);
      Predecessor(t, hasProject, inputs, n - 2);
      Predecessor(t, hasProject, inputs, n - 3);
      Predecessor(t, hasProject, inputs, n - 4);
      NoOpExactlyWhen(Prepared(t, r.log[n - 4].input));
    }
  }

  // ---------- What an open run has on record ----------

  /** The status of a run under way is that of the last gate it came to, if it was stopped
      or let through there. */
  ghost predicate StatusSaid(r: Run) {
    var v := r.values;
    match r.node
    case GitCommit => v.status == Some(Approved)
    case Cleanup =>
      r.log != [] &&
      var i := r.log[|r.log| - 1].input;
      if v.approval.Some? then v.status == Some(Decide(v.diff, i.verdict, i.roleKnown, i.authorized).1)
      else v.status == if v.policy == Some(Block) then Some(PolicyBlocked) else None
    case End => true
    case _ => v.status == None
  }

  lemma StepKeepsStatusSaid(t: Tools, r: Run, i: Input)
    requires StatusSaid(r) && NodeSound(t, r)
    ensures StatusSaid(Complete(t, r, i))
  {
    var e := Entry(r.node, i);
    assert (r.log + [e])[|r.log|] == e;
    if r.node.Approval? { ApprovalStandsExactlyWhen(r.values.diff, i.verdict, i.roleKnown, i.authorized); }
    hide NoOp, NoDrift, Verified, CleanupStatus, Gated, Decide;
  }

  lemma {:induction false} OpenRunHasItsStatus(t: Tools, hasProject: bool, inputs: seq<Input>)
    ensures StatusSaid(After(t, hasProject, inputs))
  {
    if inputs != [] {
      var before := inputs[..|inputs| - 1];
      OpenRunHasItsStatus(t, hasProject, before);
      RunIsSound(t, hasProject, before);
      StepKeepsStatusSaid(t, After(t, hasProject, before), inputs[|inputs| - 1]);
    }
    hide StatusSaid, Complete;
  }
}
