/** The quality pipeline and the judge over its findings. Confidence is counted
    in hundredths. */
module QualityGate {
  import opened Options
  import RunGraph

  datatype Status = PASS | FAIL | SKIPPED | ERROR

  datatype Name = Ast | PatchScope | Security | Pytest | Lint | Typecheck | Named(name: string)

  /** `patchFailure` marks the category PATCH_APPLICATION_FAILURE, `timeout` a
      failure text that mentions a timeout. */
  datatype Check = Check(name: Name, status: Status, patchFailure: bool, timeout: bool)

  datatype Category =
    | SecurityFailure | AstFailure | PatchApplicationFailure | Timeout | TestFailure | LintFailure | TypecheckFailure
    | FromReview(category: string)

  datatype Risk = LOW | MEDIUM | HIGH | CRITICAL

  /** The advisory review: whether it says FAIL, and for each issue whether it is HIGH. */
  datatype Review = Review(fails: bool, issues: seq<bool>, category: string)

  /** The patch set as far as it is weighed: how many patches and how many lines. */
  datatype Change = Change(patches: nat, lines: nat)

  datatype Verdict = Verdict(passed: bool, confidence: int, risk: Risk, category: Option<Category>, highIssues: nat)

  // ---------- The judge, said directly ----------

  /** The last check of a name, as the name table keeps it. */
  function Find(checks: seq<Check>, name: Name): Option<Check> {
    if checks == [] then None
    else if checks[|checks| - 1].name == name then Some(checks[|checks| - 1])
    else Find(checks[..|checks| - 1], name)
  }

  predicate Fails(checks: seq<Check>, name: Name) {
    var c := Find(checks, name);
    c.Some? && c.value.status.FAIL?
  }

  const OBJECTIVE := [Security, Ast, PatchScope, Pytest, Lint, Typecheck]

  /** The first objective check that failed, in order of priority. */
  function FirstFailure(checks: seq<Check>): Option<Name> {
    if Fails(checks, Security) then Some(Security)
    else if Fails(checks, Ast) then Some(Ast)
    else if Fails(checks, PatchScope) then Some(PatchScope)
    else if Fails(checks, Pytest) then Some(Pytest)
    else if Fails(checks, Lint) then Some(Lint)
    else if Fails(checks, Typecheck) then Some(Typecheck)
    else None
  }

  function Blocked(checks: seq<Check>, name: Name): Verdict
    requires Fails(checks, name)
  {
    var c := Find(checks, name).value;
    match name
    case Security => Verdict(false, 10, CRITICAL, Some(SecurityFailure), 1)
    case Ast => Verdict(false, 15, HIGH, Some(if c.patchFailure then PatchApplicationFailure else AstFailure), 1)
    case PatchScope => Verdict(false, 15, HIGH, Some(PatchApplicationFailure), 1)
    case Pytest => Verdict(false, 25, HIGH, Some(if c.timeout then Timeout else TestFailure), 1)
    case Lint => Verdict(false, 45, MEDIUM, Some(LintFailure), 0)
    case _ => Verdict(false, 50, MEDIUM, Some(TypecheckFailure), 0)
  }

  function CountStatus(checks: seq<Check>, s: Status): nat {
    if checks == [] then 0
    else CountStatus(checks[..|checks| - 1], s) + if checks[|checks| - 1].status == s then 1 else 0
  }

  function Highs(issues: seq<bool>): nat {
    if issues == [] then 0 else Highs(issues[..|issues| - 1]) + if issues[|issues| - 1] then 1 else 0
  }

  function Min(a: int, b: int): int { if a < b then a else b }
  function Max(a: int, b: int): int { if a < b then b else a }

  /** Confidence in a change that nothing speaks against. */
  function CleanConfidence(checks: seq<Check>, testsPassed: Option<int>): int {
    var skipped := CountStatus(checks, SKIPPED);
    var base := if testsPassed.Some? && testsPassed.value > 0 then Min(99, 92 + Min(testsPassed.value, 7)) else 95;
    if skipped > 0 then Max(85, base - 3 * skipped) else base
  }

  function CleanRisk(change: Change): Risk { if change.patches > 4 || change.lines > 150 then MEDIUM else LOW }

  /** What the judge decides. */
  function Judge(checks: seq<Check>, testsPassed: Option<int>, change: Change, review: Option<Review>): Verdict {
    match FirstFailure(checks)
    case Some(name) => Blocked(checks, name)
    case None =>
      var highs := if review.Some? then Highs(review.value.issues) else 0;
      var risk := if highs > 0 then HIGH else CleanRisk(change);
      if review.Some? && (review.value.fails || highs > 0) then
        Verdict(false, 40, risk, Some(FromReview(review.value.category)), highs)
      else Verdict(true, CleanConfidence(checks, testsPassed), risk, None, 0)
  }

  /** The judge as it is written: lists, confidence and risk updated on the way. */
  method Evaluate(checks: seq<Check>, testsPassed: Option<int>, change: Change, review: Option<Review>)
    returns (v: Verdict)
    ensures v == Judge(checks, testsPassed, change, review)
  {
    if Fails(checks, Security) { return Verdict(false, 10, CRITICAL, Some(SecurityFailure), 1); }
    if Fails(checks, Ast) {
      var c := Find(checks, Ast).value;
      return Verdict(false, 15, HIGH, Some(if c.patchFailure then PatchApplicationFailure else AstFailure), 1);
    }
    if Fails(checks, PatchScope) { return Verdict(false, 15, HIGH, Some(PatchApplicationFailure), 1); }
    if Fails(checks, Pytest) {
      var c := Find(checks, Pytest).value;
      return Verdict(false, 25, HIGH, Some(if c.timeout then Timeout else TestFailure), 1);
    }
    if Fails(checks, Lint) { return Verdict(false, 45, MEDIUM, Some(LintFailure), 0); }
    if Fails(checks, Typecheck) { return Verdict(false, 50, MEDIUM, Some(TypecheckFailure), 0); }

    var confidence, risk := 95, LOW;
    if testsPassed.Some? && testsPassed.value > 0 { confidence := Min(99, 92 + Min(testsPassed.value, 7)); }
    var skipped := CountStatus(checks, SKIPPED);
    if skipped > 0 { confidence := Max(85, confidence - 3 * skipped); }
    if change.patches > 4 || change.lines > 150 { risk := MEDIUM; }
    if review.None? { return Verdict(true, confidence, risk, None, 0); }

    var issues, start := review.value.issues, confidence;
    var highs := 0;
    for i := 0 to |issues|
      invariant highs == Highs(issues[..i])
      invariant if highs == 0 then confidence == start && risk == CleanRisk(change)
                else confidence >= 40 && risk == HIGH
    {
      assert issues[..i + 1][..i] == issues[..i];
      if issues[i] {
        highs := highs + 1;
        risk := HIGH;
        confidence := Max(40, confidence - 30);
      }
    }
    assert issues[..|issues|] == issues;
    if review.value.fails || highs > 0 {
      return Verdict(false, Min(confidence, 40), risk, Some(FromReview(review.value.category)), highs);
    }
    return Verdict(true, confidence, risk, None, 0);
  }

  // ---------- What a verdict means ----------

  lemma {:induction false} HighsCount(issues: seq<bool>)
    ensures Highs(issues) > 0 <==> exists i :: 0 <= i < |issues| && issues[i]
  {
    if issues != [] {
      var n := |issues| - 1;
      HighsCount(issues[..n]);
      if exists i :: 0 <= i < |issues| && issues[i] {
        var i :| 0 <= i < |issues| && issues[i];
        assert i < n ==> issues[..n][i];
      }
    }
  }

  /** PASS says that no objective check failed and that the review neither says
      FAIL nor has a HIGH issue, and FAIL says the opposite: no review, however
      favourable, outweighs a failed check. */
  lemma PassesExactlyWhen(checks: seq<Check>, testsPassed: Option<int>, change: Change, review: Option<Review>)
    ensures Judge(checks, testsPassed, change, review).passed
            <==> (forall name :: name in OBJECTIVE ==> !Fails(checks, name))
                 && (review.Some? ==> !review.value.fails
                                      && forall i | 0 <= i < |review.value.issues| :: !review.value.issues[i])
  {
    if review.Some? { HighsCount(review.value.issues); }
  }

  /** Every PASS has a confidence from 0.85 to 0.99, every FAIL one of at most
      0.5, and a FAIL for the review alone exactly 0.4. */
  lemma ConfidenceIsCalibrated(checks: seq<Check>, testsPassed: Option<int>, change: Change, review: Option<Review>)
    ensures var v := Judge(checks, testsPassed, change, review);
            && (v.passed ==> 85 <= v.confidence <= 99)
            && (!v.passed ==> 10 <= v.confidence <= 50)
            && (!v.passed && FirstFailure(checks).None? ==> v.confidence == 40)
  {
  }

  /** The check with a property, in a table that has it. */
  predicate FailsAs(checks: seq<Check>, name: Name, property: Check -> bool) {
    Fails(checks, name) && property(Find(checks, name).value)
  }

  predicate AnyFails(checks: seq<Check>, names: seq<Name>) { exists name :: name in names && Fails(checks, name) }

  /** The category names the most serious cause: a check of lower priority, or the
      review, is named only when none above it failed. */
  lemma CategorySaysWhy(checks: seq<Check>, testsPassed: Option<int>, change: Change, review: Option<Review>)
    ensures var c := Judge(checks, testsPassed, change, review).category;
            && (c == Some(SecurityFailure) <==> Fails(checks, Security))
            && (c == Some(AstFailure) <==>
                  !AnyFails(checks, [Security]) && FailsAs(checks, Ast, (x: Check) => !x.patchFailure))
            && (c == Some(PatchApplicationFailure) <==>
                  !AnyFails(checks, [Security])
                  && if Fails(checks, Ast) then Find(checks, Ast).value.patchFailure else Fails(checks, PatchScope))
            && (c == Some(Timeout) <==>
                  !AnyFails(checks, [Security, Ast, PatchScope]) && FailsAs(checks, Pytest, (x: Check) => x.timeout))
            && (c == Some(TestFailure) <==>
                  !AnyFails(checks, [Security, Ast, PatchScope]) && FailsAs(checks, Pytest, (x: Check) => !x.timeout))
            && (c == Some(LintFailure) <==>
                  !AnyFails(checks, [Security, Ast, PatchScope, Pytest]) && Fails(checks, Lint))
            && (c == Some(TypecheckFailure) <==>
                  !AnyFails(checks, [Security, Ast, PatchScope, Pytest, Lint]) && Fails(checks, Typecheck))
            && (c.Some? && c.value.FromReview? ==>
                  !AnyFails(checks, OBJECTIVE) && review.Some? && c.value.category == review.value.category)
            && (c == None <==> Judge(checks, testsPassed, change, review).passed)
  {
    hide Find, Highs, CleanConfidence, CleanRisk;
    ListedFail(checks, [Security]);
    ListedFail(checks, [Security, Ast, PatchScope]);
    ListedFail(checks, [Security, Ast, PatchScope, Pytest]);
    ListedFail(checks, [Security, Ast, PatchScope, Pytest, Lint]);
    ListedFail(checks, OBJECTIVE);
  }

  lemma ListedFail(checks: seq<Check>, names: seq<Name>)
    ensures AnyFails(checks, names) <==> exists i :: 0 <= i < |names| && Fails(checks, names[i])
  {
    hide Fails;
    if AnyFails(checks, names) {
      var name :| name in names && Fails(checks, name);
      var i :| 0 <= i < |names| && names[i] == name;
    }
  }

  lemma {:induction false} HighsAre(issues: seq<bool>)
    ensures Highs(issues) == multiset(issues)[true]
  {
    if issues != [] {
      var n := |issues| - 1;
      HighsAre(issues[..n]);
      assert issues == issues[..n] + [issues[n]];
    }
  }

  /** How sure and how grave a failed verdict is follows from its cause alone: the graver
      the cause, the surer the FAIL. */
  lemma SeverityFollowsTheCause(checks: seq<Check>, testsPassed: Option<int>, change: Change, review: Option<Review>)
    requires !Judge(checks, testsPassed, change, review).passed
    ensures var v := Judge(checks, testsPassed, change, review);
            v.category.Some? && (v.confidence, v.risk, v.highIssues) ==
              match v.category.value
              case SecurityFailure => (10, CRITICAL, 1)
              case AstFailure => (15, HIGH, 1)
              case PatchApplicationFailure => (15, HIGH, 1)
              case Timeout => (25, HIGH, 1)
              case TestFailure => (25, HIGH, 1)
              case LintFailure => (45, MEDIUM, 0)
              case TypecheckFailure => (50, MEDIUM, 0)
              case FromReview(_) => (40, if true in review.value.issues then HIGH
                                         else if change.patches > 4 || change.lines > 150 then MEDIUM else LOW,
                                     multiset(review.value.issues)[true])
  {
    if review.Some? {
      HighsCount(review.value.issues);
      HighsAre(review.value.issues);
    }
    hide Find, CleanConfidence;
  }

  lemma {:induction false} StatusesAreCounted(checks: seq<Check>, s: Status)
    ensures CountStatus(checks, s) == |set i | 0 <= i < |checks| && checks[i].status == s|
  {
    var all := set i | 0 <= i < |checks| && checks[i].status == s;
    if checks != [] {
      var n := |checks| - 1;
      StatusesAreCounted(checks[..n], s);
      var before := set i | 0 <= i < |checks[..n]| && checks[..n][i].status == s;
      assert all == if checks[n].status == s then before + {n} else before;
    }
  }

  /** A PASS starts from 0.95, or from 0.92 and a hundredth for each of up to seven passing
      tests, and loses three hundredths for every skipped check, down to 0.85. */
  lemma SkippedChecksCostConfidence(checks: seq<Check>, testsPassed: Option<int>, change: Change,
                                    review: Option<Review>)
    requires Judge(checks, testsPassed, change, review).passed
    ensures var v, skipped := Judge(checks, testsPassed, change, review),
                              |set i | 0 <= i < |checks| && checks[i].status == SKIPPED|;
            var start := if testsPassed.None? || testsPassed.value <= 0 then 95
                         else if testsPassed.value >= 7 then 99 else 92 + testsPassed.value;
            && v.confidence == (if start - 3 * skipped < 85 then 85 else start - 3 * skipped)
            && v.risk == if change.patches > 4 || change.lines > 150 then MEDIUM else LOW
  {
    StatusesAreCounted(checks, SKIPPED);
    hide Find, CountStatus;
  }

  // ---------- The pipeline ----------

  /** What each stage finds when it is run; `tests` counts the passing ones. */
  datatype Finding = Finding(status: Status, patchFailure: bool, timeout: bool)

  datatype Stages = Stages(ast: Finding, scope: Finding, security: Finding,
                           pytest: Finding, lint: Finding, typecheck: Finding, tests: Option<int>)

  function Ran(name: Name, f: Finding): Check { Check(name, f.status, f.patchFailure, f.timeout) }

  function Skip(name: Name): Check { Check(name, SKIPPED, false, false) }

  /** The order matters: what executes code comes after the static security scan,
      and only if that passes. `executed` lists the executing stages that ran. */
  method RunAll(s: Stages) returns (checks: seq<Check>, tests: Option<int>, executed: seq<Name>)
    ensures (checks, tests, executed) == Pipeline(s)
  {
    var ast := Ran(Ast, s.ast);
    var scope := Ran(PatchScope, s.scope);
    var security := Ran(Security, s.security);
    if security.status.FAIL? {
      return [ast, Skip(Pytest), security, Skip(Lint), Skip(Typecheck), scope], None, [];
    }
    executed := [];
    var pytest := Ran(Pytest, s.pytest);
    tests := s.tests;
    executed := executed + [Pytest];
    var lint := Ran(Lint, s.lint);
    executed := executed + [Lint];
    var typecheck := Ran(Typecheck, s.typecheck);
    executed := executed + [Typecheck];
    checks := [ast, pytest, security, lint, typecheck, scope];
    assert executed == [Pytest, Lint, Typecheck];
  }

  function Pipeline(s: Stages): (seq<Check>, Option<int>, seq<Name>) {
    if s.security.status.FAIL? then
      ([Ran(Ast, s.ast), Skip(Pytest), Ran(Security, s.security), Skip(Lint), Skip(Typecheck),
        Ran(PatchScope, s.scope)],
       None, [])
    else
      ([Ran(Ast, s.ast), Ran(Pytest, s.pytest), Ran(Security, s.security), Ran(Lint, s.lint),
        Ran(Typecheck, s.typecheck),
        Ran(PatchScope, s.scope)],
       s.tests, [Pytest, Lint, Typecheck])
  }

  /** A failed security scan means that nothing was executed, that the three
      executing stages are reported as skipped, and that the verdict is the security one. */
  lemma SecurityFailureStopsExecution(s: Stages, change: Change, review: Option<Review>)
    requires s.security.status.FAIL?
    ensures var (checks, tests, executed) := Pipeline(s); var v := Judge(checks, tests, change, review);
            && executed == [] && tests == None && !v.passed && v.category == Some(SecurityFailure) && v.risk == CRITICAL
            && Find(checks, Pytest) == Some(Skip(Pytest)) && Find(checks, Lint) == Some(Skip(Lint))
            && Find(checks, Typecheck) == Some(Skip(Typecheck))
  {
    FindInSix(Pipeline(s).0);
  }

  /** Pipeline and judge together, for every set of findings and every review:
      PASS means that all three executing stages ran, that none of the six
      failed, and that the review does not object. */
  lemma GateOverThePipeline(s: Stages, change: Change, review: Option<Review>)
    ensures var (checks, tests, executed) := Pipeline(s);
            Judge(checks, tests, change, review).passed
            <==> executed == [Pytest, Lint, Typecheck]
                 && (forall f :: f in [s.ast, s.scope, s.security, s.pytest, s.lint, s.typecheck] ==> !f.status.FAIL?)
                 && (review.Some? ==> !review.value.fails
                                      && forall i | 0 <= i < |review.value.issues| :: !review.value.issues[i])
  {
    var (checks, tests, executed) := Pipeline(s);
    PassesExactlyWhen(checks, tests, change, review);
    ObjectiveInSix(checks);
    hide Judge, Fails;
  }

  /** The named checks of a pipeline are its six checks. */
  lemma ObjectiveInSix(checks: seq<Check>)
    requires |checks| == 6 && checks[0].name == Ast && checks[1].name == Pytest && checks[2].name == Security
    requires checks[3].name == Lint && checks[4].name == Typecheck && checks[5].name == PatchScope
    ensures (forall name :: name in OBJECTIVE ==> !Fails(checks, name))
            <==> !checks[0].status.FAIL? && !checks[1].status.FAIL? && !checks[2].status.FAIL?
                 && !checks[3].status.FAIL? && !checks[4].status.FAIL? && !checks[5].status.FAIL?
  {
    FindInSix(checks);
    hide Find;
    assert forall name :: name in OBJECTIVE <==> name in {Security, Ast, PatchScope, Pytest, Lint, Typecheck};
    assert Fails(checks, Ast) <==> checks[0].status.FAIL?;
    assert Fails(checks, Pytest) <==> checks[1].status.FAIL?;
    assert Fails(checks, Security) <==> checks[2].status.FAIL?;
    assert Fails(checks, Lint) <==> checks[3].status.FAIL?;
    assert Fails(checks, Typecheck) <==> checks[4].status.FAIL?;
    assert Fails(checks, PatchScope) <==> checks[5].status.FAIL?;
  }

  lemma FindInSix(checks: seq<Check>)
    requires |checks| == 6 && checks[0].name == Ast && checks[1].name == Pytest && checks[2].name == Security
    requires checks[3].name == Lint && checks[4].name == Typecheck && checks[5].name == PatchScope
    ensures Find(checks, Ast) == Some(checks[0]) && Find(checks, Pytest) == Some(checks[1])
    ensures Find(checks, Security) == Some(checks[2]) && Find(checks, Lint) == Some(checks[3])
    ensures Find(checks, Typecheck) == Some(checks[4]) && Find(checks, PatchScope) == Some(checks[5])
  {
    FindAt(checks, 0); FindAt(checks, 1); FindAt(checks, 2);
    FindAt(checks, 3); FindAt(checks, 4); FindAt(checks, 5);
  }

  lemma {:induction false} FindAt(checks: seq<Check>, i: nat)
    requires i < |checks| && forall j | i < j < |checks| :: checks[j].name != checks[i].name
    ensures Find(checks, checks[i].name) == Some(checks[i])
  {
    if i < |checks| - 1 { FindAt(checks[..|checks| - 1], i); }
  }

  // ---------- The graph ----------

  /** The verdict as the graph routes on it. */
  function Routed(v: Verdict): RunGraph.QaResult {
    RunGraph.QaResult(v.passed,
                      v.category == Some(PatchApplicationFailure)
                      || v.category == Some(FromReview("PATCH_APPLICATION_FAILURE")))
  }

  /** After the developer, exactly a FAIL of this category, from the checks or from the
      review, goes to a revision; every other verdict goes to QA. */
  lemma RevisedExactlyWhen(t: RunGraph.Values, v: Verdict)
    ensures RunGraph.Next(RunGraph.Developer, t.(qa := Some(Routed(v)))) ==
            if !v.passed && v.category in {Some(PatchApplicationFailure), Some(FromReview("PATCH_APPLICATION_FAILURE"))}
            then RunGraph.Revision else RunGraph.Qa
  {
  }

  /** The one failed check the developer node reports for an unusable patch makes
      the graph revise instead of running QA. */
  lemma UnusablePatchIsRevised(t: RunGraph.Values)
    ensures var v := Judge([Check(Ast, FAIL, true, false)], None, Change(0, 0), None);
            RunGraph.Next(RunGraph.Developer, t.(qa := Some(Routed(v)))) == RunGraph.Revision
  {
    assert [Check(Ast, FAIL, true, false)][..0] == [];
  }
}
