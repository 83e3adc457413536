/** The graph of one engineering run. Every answer that a node gets from outside
    (language model, quality checks, policy, approver, workspace) is an input of
    its step, so a theorem about all inputs is one about all runs. A node that
    raises leaves the run where it is. */
module RunGraph {
  import opened Options
  import opened RevisionLog
  import opened DriftCheck
  import Texts
  import GitWorkspace
  import Patcher

  datatype Node =
    | Router | Planner | Knowledge | Developer | Qa | Revision
    | GitPrepare | Policy | Approval | GitCommit | Cleanup
    | End

  datatype TaskType = General | KnowledgeSearch | Engineering

  datatype Routing = Routing(task: TaskType, planning: bool, knowledge: bool)

  /** The judged QA status; `patchFailure` marks the category PATCH_APPLICATION_FAILURE. */
  datatype QaResult = QaResult(passed: bool, patchFailure: bool)

  datatype Diff = Diff(files: seq<string>, text: string, hash: string)

  datatype Decision = Allow | Review | Block

  /** A person's decision on the diff. An empty hash or role counts as none. */
  datatype Verdict = Verdict(approved: bool, hash: string, role: string, reason: string)

  datatype Status =
    | PolicyBlocked | Approved | Rejected
    | NoOpOrMissingDiff | MissingDiffHash | MissingApprovalHash | HashMismatch | Unauthorized
    | NoChangesNeeded | Committed | CommitFailed | RejectedAndCleaned(reason: string)

  /** The checkpointed values that routing and the gates read. */
  datatype Values = Values(
    routing: Option<Routing>, hasProject: bool, qa: Option<QaResult>,
    revisionCount: nat, history: Option<History>,
    diff: Option<Diff>, policy: Option<Decision>, approval: Option<Verdict>, status: Option<Status>)

  /** The workspace a commit looks at: whether it exists, the committed tree, and
      the working tree as it is found under the listed paths. */
  datatype Workspace = Workspace(present: bool, head: GitWorkspace.Tree, disk: GitWorkspace.Tree)

  /** What the outside answers in one step; each node reads its own part. */
  datatype Input = Input(
    routing: Routing, recoverable: bool, qa: QaResult, attempt: Attempt,
    files: seq<string>, text: string, decision: Decision,
    verdict: Verdict, roleKnown: bool, authorized: bool,
    workspace: Workspace, commitWorks: bool)

  const MAX_REVISIONS: nat := 3

  // ---------- Nodes ----------

  predicate NoOp(d: Diff) { d.files == [] || Texts.Strip(d.text) == "" }

  /** The judgement of `approval_node` on a decision: an approval that cannot
      stand is turned into a rejection that says why. */
  function Decide(diff: Option<Diff>, v: Verdict, roleKnown: bool, authorized: bool): (Verdict, Status) {
    if !v.approved then (v, Rejected)
    else if diff.None? || NoOp(diff.value) then (Refused(v, "NO_OP_OR_MISSING_DIFF"), NoOpOrMissingDiff)
    else if diff.value.hash == "" then (Refused(v, "MISSING_DIFF_HASH"), MissingDiffHash)
    else if v.hash == "" then (Refused(v, "MISSING_APPROVAL_PATCH_HASH"), MissingApprovalHash)
    else if v.hash != diff.value.hash then (Refused(v, "PATCH_HASH_MISMATCH"), HashMismatch)
    else if v.role != "" && roleKnown && !authorized then (Refused(v, "APPROVAL_UNAUTHORIZED"), Unauthorized)
    else (v, Approved)
  }

  function Refused(v: Verdict, code: string): Verdict { v.(approved := false, reason := code) }

  /** What `git_commit_node` finds when it has verified the workspace: the status
      it ends with, or None when it goes on to commit. */
  ghost function Verified(t: Tools, diff: Option<Diff>, w: Workspace): Option<Status> {
    match diff
    case None => Some(NoChangesNeeded)
    case Some(d) =>
      if NoOp(d) then Some(NoChangesNeeded)
      else if d.hash != "" && !NoDrift(t, w.present, w.head, w.disk, d.text, d.hash, d.files) then Some(HashMismatch)
      else None
  }

  function CleanupStatus(v: Values): Status {
    if v.approval.None? && v.policy != Some(Block) && v.diff.Some? && NoOp(v.diff.value) then NoChangesNeeded
    else RejectedAndCleaned(if v.approval.Some? then v.approval.value.reason else "")
  }

  ghost function Updated(t: Tools, node: Node, v: Values, i: Input): Values {
    match node
    case Router => v.(routing := Some(i.routing))
    case Planner => v
    case Knowledge => v
    case Developer => if i.recoverable then v.(qa := Some(QaResult(false, true))) else v
    case Qa => v.(qa := Some(i.qa))
    case Revision =>
      v.(revisionCount := v.revisionCount + 1,
         history := Some(Add(if v.history.Some? then v.history.value else Start(MAX_REVISIONS), i.attempt)))
    case GitPrepare => v.(diff := Some(Diff(i.files, i.text, t.hash(i.text))))
    case Policy => v.(policy := Some(i.decision), status := if i.decision.Block? then Some(PolicyBlocked) else v.status)
    case Approval =>
      var (approval, status) := Decide(v.diff, i.verdict, i.roleKnown, i.authorized);
      v.(approval := Some(approval), status := Some(status))
    case GitCommit =>
      var found := Verified(t, v.diff, i.workspace);
      v.(status := Some(if found.Some? then found.value else if i.commitWorks then Committed else CommitFailed))
    case Cleanup => v.(status := Some(CleanupStatus(v)))
    case End => v
  }

  // ---------- Routes ----------

  function AfterQa(v: Values): Node {
    if v.qa.Some? && v.qa.value.passed then GitPrepare
    else if v.revisionCount >= MAX_REVISIONS then End
    else Revision
  }

  function AfterPolicy(v: Values): Node {
    if v.diff.Some? && NoOp(v.diff.value) then Cleanup
    else if v.policy == Some(Block) then Cleanup
    else Approval
  }

  function AfterApproval(v: Values): Node {
    if v.policy == Some(Block) then Cleanup
    else if v.approval.Some? && v.approval.value.approved then GitCommit
    else Cleanup
  }

  function Next(node: Node, v: Values): Node {
    match node
    case Router =>
      if v.routing.None? || v.routing.value.task.General? then End
      else if v.routing.value.planning then Planner
      else if v.routing.value.task.KnowledgeSearch? || v.routing.value.knowledge then Knowledge
      else Developer
    case Planner => if v.routing.Some? && v.routing.value.knowledge && v.hasProject then Knowledge else Developer
    case Knowledge =>
      if v.routing.Some? && v.routing.value.task.KnowledgeSearch? && !v.routing.value.planning then End else Developer
    case Developer => if v.qa.Some? && !v.qa.value.passed && v.qa.value.patchFailure then Revision else Qa
    case Qa => AfterQa(v)
    case Revision => Qa
    case GitPrepare => Policy
    case Policy => AfterPolicy(v)
    case Approval => AfterApproval(v)
    case GitCommit => End
    case Cleanup => End
    case End => End
  }

  // ---------- Runs ----------

  datatype Entry = Entry(node: Node, input: Input)

  /** Where the run stands, its values, and the steps completed so far. */
  datatype Run = Run(node: Node, values: Values, log: seq<Entry>)

  function Begin(hasProject: bool): Run {
    Run(Router, Values(None, hasProject, None, 0, None, None, None, None, None), [])
  }

  ghost function Complete(t: Tools, r: Run, i: Input): Run {
    if r.node.End? then r
    else
      var v := Updated(t, r.node, r.values, i);
      Run(Next(r.node, v), v, r.log + [Entry(r.node, i)])
  }

  ghost function After(t: Tools, hasProject: bool, inputs: seq<Input>): Run {
    if inputs == [] then Begin(hasProject)
    else Complete(t, After(t, hasProject, inputs[..|inputs| - 1]), inputs[|inputs| - 1])
  }

  function Last(r: Run): Node { if r.log == [] then End else r.log[|r.log| - 1].node }

  // ---------- The approval gate ----------

  /** An approval stands exactly when there is a real diff with a hash, the
      approver sent that hash, and no known role forbids it; otherwise the
      decision is turned into a rejection, and a rejection is left as it is. */
  lemma ApprovalStandsExactlyWhen(diff: Option<Diff>, v: Verdict, roleKnown: bool, authorized: bool)
    ensures var (out, status) := Decide(diff, v, roleKnown, authorized);
            && (out.approved <==> v.approved && diff.Some? && !NoOp(diff.value) && diff.value.hash != ""
                                  && v.hash == diff.value.hash && (v.role == "" || !roleKnown || authorized))
            && (out.approved <==> status == Approved)
            && (!v.approved ==> out == v && status == Rejected)
            && out.hash == v.hash && out.role == v.role && (out.approved ==> out == v)
  {
  }

  // ---------- The invariant of every run ----------

  predicate PastQa(n: Node) { n in {GitPrepare, Policy, Approval, GitCommit, Cleanup} }
  predicate PastPrepare(n: Node) { n in {Policy, Approval, GitCommit, Cleanup} }

  predicate CommittedOrFailed(v: Values) { v.status == Some(Committed) || v.status == Some(CommitFailed) }

  /** The revision loop: count, log and breaker agree. */
  predicate LoopSound(r: Run) {
    var v := r.values;
    && v.revisionCount <= MAX_REVISIONS && (r.node.Revision? ==> v.revisionCount < MAX_REVISIONS)
    && match v.history
       case None => v.revisionCount == 0
       case Some(h) => |h.attempts| == v.revisionCount && h.maxRetries == MAX_REVISIONS
                       && (h.exhausted <==> v.revisionCount >= MAX_REVISIONS)
  }

  /** What a diff must have come through before it can be committed. */
  predicate Gated(t: Tools, v: Values) {
    && v.qa.Some? && v.qa.value.passed
    && v.diff.Some? && !NoOp(v.diff.value)
    && v.diff.value.hash == t.hash(v.diff.value.text) && v.diff.value.hash != ""
    && v.policy.Some? && !v.policy.value.Block?
    && v.approval.Some? && v.approval.value.approved && v.approval.value.hash == v.diff.value.hash
  }

  /** The three ways to cleanup: nothing to change, blocked, or rejected by a person. */
  predicate ToBeCleaned(v: Values) {
    && v.diff.Some? && v.policy.Some?
    && if v.approval.Some? then !v.approval.value.approved && !NoOp(v.diff.value) && !v.policy.value.Block?
       else NoOp(v.diff.value) || v.policy.value.Block?
  }

  predicate NodeSound(t: Tools, r: Run) {
    var v := r.values;
    && (r.node in {Router, Planner, Knowledge, Developer} ==> v.qa.None? && v.revisionCount == 0)
    && (PastQa(r.node) ==> v.qa.Some? && v.qa.value.passed)
    && (PastPrepare(r.node) ==> v.diff.Some? && v.diff.value.hash == t.hash(v.diff.value.text))
    && (r.node.Approval? ==> !NoOp(v.diff.value) && v.policy.Some? && !v.policy.value.Block?)
    && (r.node.GitCommit? ==> Gated(t, v))
    && (r.node !in {GitCommit, Cleanup, End} ==> v.approval.None?)
    && (r.node.Cleanup? ==> ToBeCleaned(v))
    && (!r.node.End? ==> !CommittedOrFailed(v))
  }

  ghost predicate EndSound(t: Tools, r: Run) {
    r.node.End? ==>
      && r.log != []
      && (match Last(r)
          case Router => r.values.qa.None? && !CommittedOrFailed(r.values)
          case Knowledge => r.values.qa.None? && !CommittedOrFailed(r.values)
          case Qa => r.values.qa == Some(r.log[|r.log| - 1].input.qa) && !r.values.qa.value.passed
                     && r.values.revisionCount == MAX_REVISIONS && !CommittedOrFailed(r.values)
          case Cleanup => r.values.qa.Some? && r.values.qa.value.passed && !CommittedOrFailed(r.values)
                          && ToBeCleaned(r.values) && r.values.status == Some(CleanupStatus(r.values))
          case GitCommit => Gated(t, r.values) && CommitSound(t, r.values, r.log[|r.log| - 1].input)
          case _ => false)
  }

  /** The status after the commit node says what it found. */
  ghost predicate CommitSound(t: Tools, v: Values, i: Input) {
    v.diff.Some? &&
    var d, w := v.diff.value, i.workspace;
    var clean := NoDrift(t, w.present, w.head, w.disk, d.text, d.hash, d.files);
    v.status == Some(if !clean then HashMismatch else if i.commitWorks then Committed else CommitFailed)
  }

  ghost predicate Sound(t: Tools, r: Run) { LoopSound(r) && NodeSound(t, r) && EndSound(t, r) }

  lemma StepKeepsLoop(t: Tools, r: Run, i: Input)
    requires LoopSound(r) && NodeSound(t, r)
    ensures LoopSound(Complete(t, r, i))
  {
  }

  lemma StepKeepsNode(t: Tools, r: Run, i: Input)
    requires NodeSound(t, r)
    ensures NodeSound(t, Complete(t, r, i))
  {
    if r.node.Approval? { ApprovalStandsExactlyWhen(r.values.diff, i.verdict, i.roleKnown, i.authorized); }
  }

  lemma StepKeepsEnd(t: Tools, r: Run, i: Input)
    requires Sound(t, r)
    ensures EndSound(t, Complete(t, r, i))
  {
    if !r.node.End? {
      var e := Entry(r.node, i);
      assert (r.log + [e])[|r.log|] == e;
    }
  }

  lemma StepIsSound(t: Tools, r: Run, i: Input)
    requires Sound(t, r)
    ensures Sound(t, Complete(t, r, i))
  {
    StepKeepsLoop(t, r, i);
    StepKeepsNode(t, r, i);
    StepKeepsEnd(t, r, i);
  }

  lemma {:induction false} RunIsSound(t: Tools, hasProject: bool, inputs: seq<Input>)
    ensures Sound(t, After(t, hasProject, inputs))
  {
    if inputs != [] {
      RunIsSound(t, hasProject, inputs[..|inputs| - 1]);
      StepIsSound(t, After(t, hasProject, inputs[..|inputs| - 1]), inputs[|inputs| - 1]);
    }
  }

  /** A run is COMMITTED only if QA passed, the diff is real, policy did not
      block it, a person approved the hash of that very diff, and the
      workspace at the commit showed no drift from it. */
  lemma CommitGate(t: Tools, hasProject: bool, inputs: seq<Input>)
    requires After(t, hasProject, inputs).values.status == Some(Committed)
    ensures var r := After(t, hasProject, inputs); var v := r.values;
            && r.node.End? && Last(r).GitCommit? && Gated(t, v)
            && var d, w := v.diff.value, r.log[|r.log| - 1].input.workspace;
            NoDrift(t, w.present, w.head, w.disk, d.text, d.hash, d.files)
  {
    RunIsSound(t, hasProject, inputs);
  }

  // ---------- Bounds ----------

  /** Completed steps left at most. */
  function Remaining(n: Node, revisions: int): int {
    match n
    case Router => 15
    case Planner => 14
    case Knowledge => 13
    case Developer => 12
    case Qa => 5 + 2 * (MAX_REVISIONS - revisions)
    case Revision => 4 + 2 * (MAX_REVISIONS - revisions)
    case GitPrepare => 4
    case Policy => 3
    case Approval => 2
    case GitCommit => 1
    case Cleanup => 1
    case End => 0
  }

  function Visits(log: seq<Entry>, n: Node): nat {
    if log == [] then 0 else Visits(log[..|log| - 1], n) + if log[|log| - 1].node == n then 1 else 0
  }

  /** QA steps done so far, by where the run stands. */
  predicate QaBudget(r: Run) {
    var q, n := Visits(r.log, Qa), r.values.revisionCount;
    if r.node in {Router, Planner, Knowledge, Developer} then q == 0
    else if r.node.Qa? then q <= n
    else q <= n + 1
  }

  /** Every completed step lowers the number of steps left. */
  lemma EveryStepCountsDown(t: Tools, r: Run, i: Input)
    requires LoopSound(r) && !r.node.End?
    requires r.node in {Router, Planner, Knowledge, Developer} ==> r.values.revisionCount == 0
    ensures var r' := Complete(t, r, i);
            0 <= Remaining(r'.node, r'.values.revisionCount) < Remaining(r.node, r.values.revisionCount)
  {
  }

  lemma VisitsOfExtended(log: seq<Entry>, e: Entry, n: Node)
    ensures Visits(log + [e], n) == Visits(log, n) + if e.node == n then 1 else 0
  {
    assert (log + [e])[..|log|] == log;
  }

  lemma StepKeepsBudget(t: Tools, r: Run, i: Input)
    requires NodeSound(t, r) && QaBudget(r) && Visits(r.log, Revision) == r.values.revisionCount
    ensures var r' := Complete(t, r, i); QaBudget(r') && Visits(r'.log, Revision) == r'.values.revisionCount
  {
    VisitsOfExtended(r.log, Entry(r.node, i), Qa);
    VisitsOfExtended(r.log, Entry(r.node, i), Revision);
  }

  lemma {:induction false} RunIsBounded(t: Tools, hasProject: bool, inputs: seq<Input>)
    ensures var r := After(t, hasProject, inputs);
            |r.log| + Remaining(r.node, r.values.revisionCount) <= 15 && QaBudget(r)
            && Visits(r.log, Revision) == r.values.revisionCount
  {
    if inputs != [] {
      var before, i := inputs[..|inputs| - 1], inputs[|inputs| - 1];
      RunIsBounded(t, hasProject, before);
      RunIsSound(t, hasProject, before);
      var r := After(t, hasProject, before);
      StepKeepsBudget(t, r, i);
      if !r.node.End? { EveryStepCountsDown(t, r, i); }
    }
  }

  /** No run makes more than three revisions, four QA steps or fifteen steps in
      all, and the revision count, the attempt log and the revision steps agree. */
  lemma BoundedRuns(t: Tools, hasProject: bool, inputs: seq<Input>)
    ensures var r := After(t, hasProject, inputs);
            && |r.log| <= 15 && Visits(r.log, Qa) <= 4
            && Visits(r.log, Revision) == r.values.revisionCount <= 3
            && r.values.revisionCount == if r.values.history.Some? then |r.values.history.value.attempts| else 0
  {
    RunIsBounded(t, hasProject, inputs);
    RunIsSound(t, hasProject, inputs);
    hide After, Visits, NodeSound, EndSound;
  }

  // ---------- Which nodes a run visits ----------

  /** What the routing decision asks for, in the words of the request. */
  predicate WantsPlanner(r: Routing) { !r.task.General? && r.planning }

  predicate WantsKnowledge(r: Routing, hasProject: bool) {
    !r.task.General? && if r.planning then r.knowledge && hasProject else r.task.KnowledgeSearch? || r.knowledge
  }

  predicate WantsDeveloper(r: Routing) { !r.task.General? && (r.task.KnowledgeSearch? ==> r.planning) }

  function Once(b: bool): nat { if b then 1 else 0 }

  /** The steps before QA that the routing asks for are exactly those done, as far
      as the run has come. */
  predicate FrontSound(r: Run) {
    var v := r.values;
    var planners, knowledge, developers := Visits(r.log, Planner), Visits(r.log, Knowledge), Visits(r.log, Developer);
    if r.node.Router? then r.log == [] && v.routing.None?
    else
      v.routing.Some? &&
      var w := v.routing.value;
      Visits(r.log, Router) == 1 &&
      match r.node
      case Planner => WantsPlanner(w) && planners == knowledge == developers == 0
      case Knowledge => WantsKnowledge(w, v.hasProject) && planners == Once(w.planning) && knowledge == developers == 0
      case Developer =>
        WantsDeveloper(w) && planners == Once(WantsPlanner(w)) && knowledge == Once(WantsKnowledge(w, v.hasProject))
        && developers == 0
      case _ =>
        && planners == Once(WantsPlanner(w)) && knowledge == Once(WantsKnowledge(w, v.hasProject))
        && developers == Once(WantsDeveloper(w)) && (!r.node.End? ==> WantsDeveloper(w))
  }

  lemma StepKeepsFront(t: Tools, r: Run, i: Input)
    requires FrontSound(r)
    ensures FrontSound(Complete(t, r, i))
  {
    hide Visits, NoOp, NoDrift, Decide, Verified, CleanupStatus, Add;
    VisitsOfExtended(r.log, Entry(r.node, i), Router);
    VisitsOfExtended(r.log, Entry(r.node, i), Planner);
    VisitsOfExtended(r.log, Entry(r.node, i), Knowledge);
    VisitsOfExtended(r.log, Entry(r.node, i), Developer);
    NothingVisited();
  }

  lemma NothingVisited()
    ensures forall n :: Visits([], n) == 0
  {
  }

  lemma {:induction false} RunHasItsFront(t: Tools, hasProject: bool, inputs: seq<Input>)
    ensures var r := After(t, hasProject, inputs); FrontSound(r) && r.values.hasProject == hasProject
  {
    if inputs != [] {
      RunHasItsFront(t, hasProject, inputs[..|inputs| - 1]);
      StepKeepsFront(t, After(t, hasProject, inputs[..|inputs| - 1]), inputs[|inputs| - 1]);
    }
  }

  lemma OnlyTheRouterRoutes(t: Tools, r: Run, i: Input)
    ensures Complete(t, r, i).values.routing == if r.node.Router? then Some(i.routing) else r.values.routing
  {
    hide NoOp, NoDrift, Decide, Verified, CleanupStatus, Add, Next;
  }

  /** What was routed is what the first input said. */
  lemma {:induction false} RoutedByTheFirst(t: Tools, hasProject: bool, inputs: seq<Input>)
    requires inputs != []
    ensures After(t, hasProject, inputs).values.routing == Some(inputs[0].routing)
  {
    hide Complete, FrontSound;
    var before := inputs[..|inputs| - 1];
    OnlyTheRouterRoutes(t, After(t, hasProject, before), inputs[|inputs| - 1]);
    if before != [] {
      RoutedByTheFirst(t, hasProject, before);
      LeavesTheRouter(t, hasProject, before);
    } else {
      assert After(t, hasProject, before) == Begin(hasProject);
    }
  }

  lemma LeavesTheRouter(t: Tools, hasProject: bool, inputs: seq<Input>)
    requires After(t, hasProject, inputs).values.routing.Some?
    ensures !After(t, hasProject, inputs).node.Router?
  {
    RunHasItsFront(t, hasProject, inputs);
  }

  /** A run that only answers never reaches the node that writes files. */
  lemma ReadOnlyRunsDevelopNothing(t: Tools, hasProject: bool, inputs: seq<Input>)
    requires inputs != []
    requires inputs[0].routing.task.General? || (inputs[0].routing.task.KnowledgeSearch? && !inputs[0].routing.planning)
    ensures var r := After(t, hasProject, inputs);
            && Visits(r.log, Developer) == 0 && r.node in {Planner, Knowledge, End}
            && r.values.diff.None? && !CommittedOrFailed(r.values)
  {
    RunHasItsFront(t, hasProject, inputs);
    RoutedByTheFirst(t, hasProject, inputs);
    RunIsSound(t, hasProject, inputs);
  }

  /** A finished run has visited the planner, the knowledge node and the developer
      exactly as its routing and its project ask, each at most once. */
  lemma FinishedRunVisitedWhatItAskedFor(t: Tools, hasProject: bool, inputs: seq<Input>)
    requires After(t, hasProject, inputs).node.End?
    ensures inputs != []
    ensures var log, w := After(t, hasProject, inputs).log, inputs[0].routing;
            && Visits(log, Router) == 1
            && Visits(log, Planner) == (if !w.task.General? && w.planning then 1 else 0)
            && Visits(log, Knowledge) == (if w.task.General? then 0
                                          else if w.planning then (if w.knowledge && hasProject then 1 else 0)
                                          else if w.task.KnowledgeSearch? || w.knowledge then 1 else 0)
            && Visits(log, Developer) == (if w.task.General? || (w.task.KnowledgeSearch? && !w.planning) then 0 else 1)
  {
    RunHasItsFront(t, hasProject, inputs);
    RoutedByTheFirst(t, hasProject, inputs);
  }

  // ---------- The derived status ----------

  datatype RunStatus = COMPLETED | FAILED

  /** `_derive_status` of a run with nothing pending. */
  function DerivedStatus(v: Values): RunStatus {
    if v.status == Some(CommitFailed) then FAILED
    else if v.qa.Some? && !v.qa.value.passed && v.status != Some(Committed) then FAILED
    else COMPLETED
  }

  /** A finished run derives FAILED exactly when the revisions were exhausted or
      the commit itself failed. Rejected, blocked and drifted runs derive COMPLETED. */
  lemma FailedExactlyWhen(t: Tools, hasProject: bool, inputs: seq<Input>)
    requires After(t, hasProject, inputs).node.End?
    ensures var r := After(t, hasProject, inputs);
            && (DerivedStatus(r.values) == FAILED <==> Last(r).Qa? || r.values.status == Some(CommitFailed))
            && (Last(r).Qa? ==> r.values.revisionCount == MAX_REVISIONS && r.values.history.Some?
                                && r.values.history.value.exhausted)
  {
    RunIsSound(t, hasProject, inputs);
  }

  lemma OneMoreStep(t: Tools, hasProject: bool, inputs: seq<Input>, i: Input)
    ensures After(t, hasProject, inputs + [i]) == Complete(t, After(t, hasProject, inputs), i)
  {
    assert (inputs + [i])[..|inputs|] == inputs;
  }

  /** Four steps of a plain run: its diff is prepared, policy is next. */
  lemma PlainRunIsPrepared(t: Tools, r: Run, i: Input)
    requires r.node.Router? && r.values.qa.None?
    requires i.routing == Routing(Engineering, false, false) && !i.recoverable && i.qa.passed
    ensures var prepared := Complete(t, Complete(t, Complete(t, Complete(t, r, i), i), i), i);
            prepared.node.Policy? && prepared.values.diff == Some(Diff(i.files, i.text, t.hash(i.text)))
  {
    hide Decide, NoOp, NoDrift, Verified, CleanupStatus;
    var routed := Complete(t, r, i);
    assert routed.node == Developer && routed.values.qa.None?;
    var developed := Complete(t, routed, i);
    assert developed.node == Qa;
    var judged := Complete(t, developed, i);
    assert judged.node == GitPrepare;
  }

  lemma StepsFromTheStart(t: Tools, hasProject: bool, i: Input)
    ensures After(t, hasProject, [] + [i] + [i] + [i] + [i])
         == Complete(t, Complete(t, Complete(t, Complete(t, Begin(hasProject), i), i), i), i)
  {
    hide Complete;
    OneMoreStep(t, hasProject, [], i);
    OneMoreStep(t, hasProject, [] + [i], i);
    OneMoreStep(t, hasProject, [] + [i] + [i], i);
    OneMoreStep(t, hasProject, [] + [i] + [i] + [i], i);
  }

  lemma PreparedRunCommits(t: Tools, r: Run, i: Input)
    requires r.node.Policy? && r.values.diff == Some(Diff(i.files, i.text, t.hash(i.text)))
    requires i.decision.Allow? && !NoOp(Diff(i.files, i.text, t.hash(i.text))) && t.hash(i.text) != ""
    requires i.verdict.approved && i.verdict.hash == t.hash(i.text) && i.verdict.role == ""
    requires NoDrift(t, i.workspace.present, i.workspace.head, i.workspace.disk, i.text, t.hash(i.text), i.files)
    requires i.commitWorks
    ensures Complete(t, Complete(t, Complete(t, r, i), i), i).values.status == Some(Committed)
  {
    hide NoOp, NoDrift, CleanupStatus;
    var decided := Complete(t, r, i);
    assert decided.node == Approval && decided.values.diff == r.values.diff && decided.values.policy == Some(Allow);
    var approved := Complete(t, decided, i);
    assert approved.node == GitCommit && approved.values.diff == r.values.diff;
  }

  /** The gate can be passed: a plain run whose diff is approved commits in seven steps. */
  lemma ApprovedRunCommits(t: Tools, hasProject: bool, i: Input) returns (inputs: seq<Input>)
    requires i.routing == Routing(Engineering, false, false) && !i.recoverable && i.qa.passed && i.decision.Allow?
    requires !NoOp(Diff(i.files, i.text, t.hash(i.text))) && t.hash(i.text) != ""
    requires i.verdict.approved && i.verdict.hash == t.hash(i.text) && i.verdict.role == ""
    requires NoDrift(t, i.workspace.present, i.workspace.head, i.workspace.disk, i.text, t.hash(i.text), i.files)
    requires i.commitWorks
    ensures |inputs| == 7 && After(t, hasProject, inputs).values.status == Some(Committed)
  {
    hide After, Complete, NoOp, NoDrift;
    StepsFromTheStart(t, hasProject, i);
    PlainRunIsPrepared(t, Begin(hasProject), i);
    var prepared := [] + [i] + [i] + [i] + [i];
    PreparedRunCommits(t, After(t, hasProject, prepared), i);
    OneMoreStep(t, hasProject, prepared, i);
    OneMoreStep(t, hasProject, prepared + [i], i);
    OneMoreStep(t, hasProject, prepared + [i] + [i], i);
    inputs := prepared + [i] + [i] + [i];
  }

  /** A run that stands before a revision which QA will not pass either. */
  predicate ToBeRevised(r: Run, revisions: nat) {
    r.node == (if revisions < MAX_REVISIONS then Revision else End) && r.values.revisionCount == revisions
    && r.values.status.None? && r.values.qa.Some? && !r.values.qa.value.passed && Last(r).Qa?
  }

  lemma FirstQaFails(t: Tools, hasProject: bool, i: Input) returns (inputs: seq<Input>)
    requires i.routing == Routing(Engineering, false, false) && !i.recoverable && !i.qa.passed
    ensures |inputs| == 3 && ToBeRevised(After(t, hasProject, inputs), 0)
  {
    hide Decide, NoDrift, NoOp, CleanupStatus, Verified, Add;
    OneMoreStep(t, hasProject, [], i);
    var routed := [] + [i];
    assert After(t, hasProject, routed).node == Developer && After(t, hasProject, routed).values.qa.None?;
    OneMoreStep(t, hasProject, routed, i);
    var developed := routed + [i];
    assert After(t, hasProject, developed).node == Qa && After(t, hasProject, developed).values.revisionCount == 0;
    OneMoreStep(t, hasProject, developed, i);
    inputs := developed + [i];
  }

  lemma RevisionFails(t: Tools, hasProject: bool, before: seq<Input>, i: Input, revisions: nat)
    returns (inputs: seq<Input>)
    requires ToBeRevised(After(t, hasProject, before), revisions) && revisions < MAX_REVISIONS && !i.qa.passed
    ensures |inputs| == |before| + 2 && ToBeRevised(After(t, hasProject, inputs), revisions + 1)
  {
    OneMoreStep(t, hasProject, before, i);
    OneMoreStep(t, hasProject, before + [i], i);
    inputs := before + [i] + [i];
  }

  /** The revisions can be exhausted: a run whose QA never passes ends after four
      QA steps, three revisions and nine steps in all, and derives FAILED. */
  lemma UnfixableRunIsExhausted(t: Tools, hasProject: bool, i: Input)
    requires i.routing == Routing(Engineering, false, false) && !i.recoverable && !i.qa.passed
    ensures exists inputs :: |inputs| == 9 && var r := After(t, hasProject, inputs);
              r.node.End? && Last(r).Qa? && r.values.revisionCount == MAX_REVISIONS && DerivedStatus(r.values) == FAILED
  {
    var inputs := FirstQaFails(t, hasProject, i);
    for n := 0 to 3
      invariant |inputs| == 3 + 2 * n && ToBeRevised(After(t, hasProject, inputs), n)
    {
      inputs := RevisionFails(t, hasProject, inputs, i, n);
    }
    assert |inputs| == 9 && After(t, hasProject, inputs).node.End?;
  }

  /** A run that ends in cleanup says why: nothing to change, which no person was
      asked about; a policy block; or a person's rejection with its reason. */
  lemma CleanupSaysWhy(t: Tools, hasProject: bool, inputs: seq<Input>)
    requires After(t, hasProject, inputs).node.End? && Last(After(t, hasProject, inputs)).Cleanup?
    ensures var v := After(t, hasProject, inputs).values;
            && v.diff.Some? && v.policy.Some?
            && if v.approval.Some? then
                 !v.approval.value.approved && !NoOp(v.diff.value) && !v.policy.value.Block?
                 && v.status == Some(RejectedAndCleaned(v.approval.value.reason))
               else if v.policy.value.Block? then v.status == Some(RejectedAndCleaned(""))
               else NoOp(v.diff.value) && v.status == Some(NoChangesNeeded)
  {
    RunIsSound(t, hasProject, inputs);
  }

  // ---------- Preparation and commit ----------

  /** A diff prepared from patches with plain paths, with the workspace left alone
      until the commit and no exceptional file: the commit node finds nothing against it. */
  lemma PreparedDiffIsCommitted(t: Tools, env: GitWorkspace.Env, head: GitWorkspace.Tree, disk: GitWorkspace.Tree,
                                patches: seq<Patcher.FilePatch>, files: seq<string>)
    requires Collisionless(t.hash) && Plain(env, files)
    requires ListsThePairs(GitWorkspace.ApplyAll(env, head, disk, patches), files)
    requires !HasBaseline(head, files) || forall f :: f in files ==> !GitWorkspace.Exceptional(head, patches, f)
    ensures var r := GitWorkspace.ApplyAll(env, head, disk, patches);
            var text := DiffText(t, r.pairs);
            var d := Diff(files, text, t.hash(text));
            Verified(t, Some(d), Workspace(true, head, Seen(env, r.disk, files)))
            == if NoOp(d) then Some(NoChangesNeeded) else None
  {
    UntouchedWorkspacePasses(t, env, head, disk, patches, files);
  }

  /** The other side of it: a diff with changes and plain paths, in a workspace nobody touched, is
      refused as drifted if and only if a listed file is exceptional while some
      listed file has a committed version. */
  lemma PreparedDiffIsRefusedExactlyWhen(t: Tools, env: GitWorkspace.Env, head: GitWorkspace.Tree,
                                         disk: GitWorkspace.Tree, patches: seq<Patcher.FilePatch>, files: seq<string>)
    requires Collisionless(t.hash) && ReadsBack(t) && Plain(env, files)
    requires ListsThePairs(GitWorkspace.ApplyAll(env, head, disk, patches), files)
    ensures var r := GitWorkspace.ApplyAll(env, head, disk, patches);
            var text := DiffText(t, r.pairs);
            var d := Diff(files, text, t.hash(text));
            Verified(t, Some(d), Workspace(true, head, Seen(env, r.disk, files))) == Some(HashMismatch)
            <==> !NoOp(d) && HasBaseline(head, files)
                 && exists f :: f in files && GitWorkspace.Exceptional(head, patches, f)
  {
    UntouchedPassesExactlyWhen(t, env, head, disk, patches, files);
  }
}
