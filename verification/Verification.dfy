// Platform verification: plan order, merged policy, the step loop, and the evidence it leaves behind
// (src/verify/plan.js, detect.js, pipeline.js; src/runtime/pipeline.js:269-308; src/visual/pipeline.js:210-247).
module Verification {
  import opened Text
  import opened Records

  datatype Planned = Planned(id: string, kind: Kind, required: bool)
  datatype Executed = Executed(timedOut: bool, missingExecutable: bool, exitCode: int)

  // ---- The plan ----

  function Order(k: Kind): nat {
    match k
    case DependencyInstall => 0
    case Build => 1
    case StaticAnalysis => 2
    case Test => 3
    case Lint => 4
    case SecurityCheck => 5
  }

  predicate InOrder(steps: seq<Planned>) {
    forall i, j :: 0 <= i < j < |steps| ==> Order(steps[i].kind) <= Order(steps[j].kind)
  }

  function OfKind(steps: seq<Planned>, k: Kind): seq<Planned> {
    if steps == [] then []
    else (if steps[0].kind == k then [steps[0]] else []) + OfKind(steps[1..], k)
  }

  // Array.prototype.sort is stable; this is a stable sort by Order.
  function InsertStep(s: Planned, sorted: seq<Planned>): (r: seq<Planned>)
    ensures |r| == |sorted| + 1
  {
    if sorted == [] || Order(s.kind) <= Order(sorted[0].kind) then [s] + sorted
    else [sorted[0]] + InsertStep(s, sorted[1..])
  }

  function SortSteps(steps: seq<Planned>): (r: seq<Planned>)
    ensures |r| == |steps|
  {
    if steps == [] then [] else InsertStep(steps[0], SortSteps(steps[1..]))
  }

  lemma {:induction false} InsertStepSorts(s: Planned, sorted: seq<Planned>)
    requires InOrder(sorted)
    ensures InOrder(InsertStep(s, sorted))
    ensures forall x :: x in InsertStep(s, sorted) <==> x == s || x in sorted
  {
    if sorted != [] && Order(s.kind) > Order(sorted[0].kind) {
      InsertStepSorts(s, sorted[1..]);
      var rest := InsertStep(s, sorted[1..]);
      assert sorted == [sorted[0]] + sorted[1..];
      forall i | 0 <= i < |rest| ensures Order(sorted[0].kind) <= Order(rest[i].kind) {
        assert rest[i] in rest;
      }
    }
  }

  lemma {:induction false} InsertStepIsStable(s: Planned, sorted: seq<Planned>, k: Kind)
    requires InOrder(sorted)
    ensures OfKind(InsertStep(s, sorted), k) == (if s.kind == k then [s] else []) + OfKind(sorted, k)
  {
    if sorted != [] && Order(s.kind) > Order(sorted[0].kind) {
      InsertStepIsStable(s, sorted[1..], k);
      hide InOrder;
      assert InsertStep(s, sorted)[1..] == InsertStep(s, sorted[1..]);
      assert s.kind == k ==> sorted[0].kind != k && OfKind(sorted, k) == OfKind(sorted[1..], k);
    } else {
      assert ([s] + sorted)[1..] == sorted;
    }
  }

  // The plan is in ORDER, and within one kind the steps keep the order in which the tool chains produced them.
  lemma {:induction false} SortStepsIsAStableSort(steps: seq<Planned>)
    ensures InOrder(SortSteps(steps))
    ensures forall k :: OfKind(SortSteps(steps), k) == OfKind(steps, k)
  {
    if steps != [] {
      SortStepsIsAStableSort(steps[1..]);
      InsertStepSorts(steps[0], SortSteps(steps[1..]));
      forall k ensures OfKind(SortSteps(steps), k) == OfKind(steps, k) {
        InsertStepIsStable(steps[0], SortSteps(steps[1..]), k);
      }
    }
  }

  // ---- The merged policy ----

  function Rank(l: PolicyLevel): nat {
    match l
    case Required => 3
    case Optional => 2
    case Inapplicable => 1
  }

  function Stronger(a: PolicyLevel, b: PolicyLevel): PolicyLevel {
    if Rank(b) > Rank(a) then b else a
  }

  const EMPTY_POLICY := Policy(Inapplicable, Inapplicable, Inapplicable, Inapplicable, Optional)

  function Join(a: Policy, b: Policy): Policy {
    Policy(Stronger(a.build, b.build), Stronger(a.tests, b.tests), Stronger(a.lint, b.lint),
           Stronger(a.staticAnalysis, b.staticAnalysis), Stronger(a.security, b.security))
  }

  function FoldPolicies(acc: Policy, policies: seq<Policy>): Policy
    decreases |policies|
  {
    if policies == [] then acc else FoldPolicies(Join(acc, policies[0]), policies[1..])
  }

  function MergePolicy(policies: seq<Policy>): Policy {
    FoldPolicies(EMPTY_POLICY, policies)
  }

  datatype PolicyAspect = BuildPolicy | TestsPolicy | LintPolicy | StaticAnalysisPolicy | SecurityPolicy

  function LevelOf(p: Policy, aspect: PolicyAspect): PolicyLevel {
    match aspect
    case BuildPolicy => p.build
    case TestsPolicy => p.tests
    case LintPolicy => p.lint
    case StaticAnalysisPolicy => p.staticAnalysis
    case SecurityPolicy => p.security
  }

  predicate SomeRequires(policies: seq<Policy>, aspect: PolicyAspect) {
    exists p :: p in policies && LevelOf(p, aspect) == Required
  }

  lemma {:induction false} FoldRequires(acc: Policy, policies: seq<Policy>, aspect: PolicyAspect)
    ensures LevelOf(FoldPolicies(acc, policies), aspect) == Required
            <==> LevelOf(acc, aspect) == Required || SomeRequires(policies, aspect)
    decreases |policies|
  {
    if policies != [] {
      var next := Join(acc, policies[0]);
      FoldRequires(next, policies[1..], aspect);
      assert LevelOf(next, aspect) == Stronger(LevelOf(acc, aspect), LevelOf(policies[0], aspect));
      assert forall p :: p in policies <==> p == policies[0] || p in policies[1..];
      assert policies[0] in policies;
    }
  }

  // Merging the policies of all detected tool chains makes an aspect REQUIRED exactly when one of them does.
  lemma {:induction false} MergeRequiresIffSomeToolchainDoes(policies: seq<Policy>, aspect: PolicyAspect)
    ensures LevelOf(MergePolicy(policies), aspect) == Required <==> SomeRequires(policies, aspect)
  {
    FoldRequires(EMPTY_POLICY, policies, aspect);
  }

  lemma {:induction false} FoldWaives(acc: Policy, policies: seq<Policy>, aspect: PolicyAspect)
    ensures LevelOf(FoldPolicies(acc, policies), aspect) == Inapplicable
            <==> LevelOf(acc, aspect) == Inapplicable && forall p :: p in policies ==> LevelOf(p, aspect) == Inapplicable
    decreases |policies|
  {
    if policies != [] {
      var next := Join(acc, policies[0]);
      FoldWaives(next, policies[1..], aspect);
      assert LevelOf(next, aspect) == Stronger(LevelOf(acc, aspect), LevelOf(policies[0], aspect));
      assert forall p :: p in policies <==> p == policies[0] || p in policies[1..];
    }
  }

  // It calls an aspect inapplicable exactly when every tool chain does, and security never.
  lemma {:induction false} MergeWaivesIffEveryToolchainDoes(policies: seq<Policy>, aspect: PolicyAspect)
    ensures LevelOf(MergePolicy(policies), aspect) == Inapplicable
            <==> aspect != SecurityPolicy && forall p :: p in policies ==> LevelOf(p, aspect) == Inapplicable
  {
    FoldWaives(EMPTY_POLICY, policies, aspect);
  }

  // ---- The step loop ----

  function PolicyForKind(policy: Policy, k: Kind): PolicyLevel {
    match k
    case Build => policy.build
    case Test => policy.tests
    case Lint => policy.lint
    case StaticAnalysis => policy.staticAnalysis
    case SecurityCheck => policy.security
    case DependencyInstall => Required
  }

  predicate CommandFailed(e: Executed) {
    e.timedOut || e.missingExecutable || e.exitCode != 0
  }

  function StepFor(s: Planned, policy: Policy, e: Executed): Step {
    Step(s.id, s.kind, s.required && PolicyForKind(policy, s.kind) == Required, CommandFailed(e))
  }

  predicate Stops(s: Step) {
    s.kind == DependencyInstall && s.failed && s.required
  }

  predicate Halted(steps: seq<Step>) {
    steps != [] && Stops(steps[|steps| - 1])
  }

  // The steps executed among the first n planned ones; results[i] is what the i-th command does if it is run.
  function StepsAfter(plan: seq<Planned>, policy: Policy, results: seq<Executed>, n: nat): (r: seq<Step>)
    requires n <= |plan| == |results|
    ensures |r| <= n
  {
    if n == 0 then []
    else
      var before := StepsAfter(plan, policy, results, n - 1);
      if Halted(before) then before else before + [StepFor(plan[n - 1], policy, results[n - 1])]
  }

  function StepsRun(plan: seq<Planned>, policy: Policy, results: seq<Executed>): seq<Step>
    requires |plan| == |results|
  {
    StepsAfter(plan, policy, results, |plan|)
  }

  // Nothing is executed after a required installation failed; otherwise every planned step is.
  lemma {:induction false} OnlyTheLastStepStops(plan: seq<Planned>, policy: Policy, results: seq<Executed>, n: nat)
    requires n <= |plan| == |results|
    ensures var r := StepsAfter(plan, policy, results, n);
            && (forall i :: 0 <= i < |r| ==> r[i] == StepFor(plan[i], policy, results[i]))
            && (forall i :: 0 <= i < |r| - 1 ==> !Stops(r[i]))
            && (|r| == n || Halted(r))
  {
    if n > 0 {
      OnlyTheLastStepStops(plan, policy, results, n - 1);
    }
  }

  lemma {:induction false} HaltedStays(plan: seq<Planned>, policy: Policy, results: seq<Executed>, i: nat, n: nat)
    requires i <= n <= |plan| == |results| && Halted(StepsAfter(plan, policy, results, i))
    ensures StepsAfter(plan, policy, results, n) == StepsAfter(plan, policy, results, i)
  {
    if i < n {
      HaltedStays(plan, policy, results, i, n - 1);
    }
  }

  function FailureCode(e: Executed): string {
    if e.timedOut then "TIMEOUT" else if e.missingExecutable then "MISSING_EXECUTABLE" else "COMMAND_FAILED"
  }

  predicate NoneBlocks(steps: seq<Step>) {
    forall s :: s in steps ==> !(s.failed && s.required)
  }

  predicate AnyFailed(steps: seq<Step>) {
    exists s :: s in steps && s.failed
  }

  // The given codes followed by those of the required steps that failed, in the order they ran.
  function Blocking(base: seq<string>, steps: seq<Step>, results: seq<Executed>): seq<string>
    requires |steps| <= |results|
  {
    if steps == [] then base
    else
      var n := |steps| - 1;
      Blocking(base, steps[..n], results) + (if steps[n].failed && steps[n].required then [FailureCode(results[n])] else [])
  }

  predicate SomeFailed(steps: seq<Step>) {
    steps != [] && (steps[|steps| - 1].failed || SomeFailed(steps[..|steps| - 1]))
  }

  lemma {:induction false} BlockingAndFailing(base: seq<string>, steps: seq<Step>, results: seq<Executed>)
    requires |steps| <= |results|
    ensures Blocking(base, steps, results) == [] <==> base == [] && NoneBlocks(steps)
    ensures SomeFailed(steps) <==> AnyFailed(steps)
    ensures !SomeFailed(steps) ==> Blocking(base, steps, results) == base
  {
    if steps != [] {
      var n := |steps| - 1;
      BlockingAndFailing(base, steps[..n], results);
      assert steps == steps[..n] + [steps[n]];
    }
  }

  lemma {:induction false} BlockingAppend(base: seq<string>, steps: seq<Step>, s: Step, results: seq<Executed>)
    requires |steps| < |results|
    ensures Blocking(base, steps + [s], results)
            == Blocking(base, steps, results) + (if s.failed && s.required then [FailureCode(results[|steps|])] else [])
    ensures SomeFailed(steps + [s]) <==> SomeFailed(steps) || s.failed
  {
    assert (steps + [s])[..|steps|] == steps;
  }

  // The loop of runPlatformVerification (pipeline.js:140-204): commands run in plan order until a required
  // installation fails.
  method ExecutePlan(plan: seq<Planned>, policy: Policy, base: seq<string>, results: seq<Executed>)
    returns (steps: seq<Step>, blocking: seq<string>, anyFailed: bool)
    requires |results| == |plan|
    ensures steps == StepsRun(plan, policy, results)
    ensures blocking == Blocking(base, steps, results)
    ensures anyFailed <==> SomeFailed(steps)
  {
    steps, blocking, anyFailed := [], base, false;
    var i: nat, stopped := 0, false;
    while i < |plan| && !stopped
      invariant i <= |plan| && steps == StepsAfter(plan, policy, results, i)
      invariant if stopped then Halted(steps) else |steps| == i && !Halted(steps)
      invariant blocking == Blocking(base, steps, results)
      invariant anyFailed <==> SomeFailed(steps)
      decreases |plan| - i
    {
      var step := StepFor(plan[i], policy, results[i]);
      BlockingAppend(base, steps, step, results);
      if step.failed && step.required {
        blocking := blocking + [FailureCode(results[i])];
      }
      steps := steps + [step];
      anyFailed := anyFailed || step.failed;
      stopped := step.kind == DependencyInstall && step.failed && step.required;
      i := i + 1;
    }
    if stopped { HaltedStays(plan, policy, results, i, |plan|); }
  }

  // The verdict of a run (pipeline.js:136-212), whatever the commands did.
  method RunSteps(plan: seq<Planned>, policy: Policy, lockfileConflict: bool, results: seq<Executed>)
    returns (steps: seq<Step>, blocking: seq<string>, status: RunStatus)
    requires |results| == |plan|
    ensures steps == StepsRun(plan, policy, results)
    ensures blocking == Blocking(if lockfileConflict then ["CONFLICTING_LOCKFILES"] else [], steps, results)
    ensures status == RunFail <==> lockfileConflict || !NoneBlocks(steps)
    ensures status == RunPass <==> !lockfileConflict && !AnyFailed(steps)
    ensures status in {RunPass, RunFail, RunPartial}
  {
    var base := if lockfileConflict then ["CONFLICTING_LOCKFILES"] else [];
    var anyFailed;
    steps, blocking, anyFailed := ExecutePlan(plan, policy, base, results);
    BlockingAndFailing(base, steps, results);
    status := if blocking != [] then RunFail else if anyFailed then RunPartial else RunPass;
  }

  // In a sorted plan a failed required installation is the last step, and only installations ran before it.
  lemma {:induction false} FailedInstallStopsEverything(plan: seq<Planned>, policy: Policy, results: seq<Executed>, i: nat)
    requires |results| == |plan| && InOrder(plan)
    requires i < |StepsRun(plan, policy, results)| && Stops(StepsRun(plan, policy, results)[i])
    ensures i == |StepsRun(plan, policy, results)| - 1
    ensures forall j :: 0 <= j <= i ==> StepsRun(plan, policy, results)[j].kind == DependencyInstall
  {
    OnlyTheLastStepStops(plan, policy, results, |plan|);
    forall j | 0 <= j <= i ensures StepsRun(plan, policy, results)[j].kind == DependencyInstall {
      assert Order(plan[j].kind) <= Order(plan[i].kind);
    }
  }

  // ---- Evidence ----

  function Matching(steps: seq<Step>, kinds: set<Kind>): seq<Step> {
    if steps == [] then []
    else (if steps[0].kind in kinds then [steps[0]] else []) + Matching(steps[1..], kinds)
  }

  function AspectFor(steps: seq<Step>, kinds: set<Kind>, policy: PolicyLevel): Aspect {
    var matching := Matching(steps, kinds);
    if matching == [] then
      Aspect(if policy == Inapplicable then NotApplicable else NotRun, PlatformVerified)
    else
      Aspect(if AnyFailed(matching) then Fail else Pass, PlatformVerified)
  }

  predicate Ran(steps: seq<Step>, kinds: set<Kind>) {
    exists s :: s in steps && s.kind in kinds
  }

  predicate FailedIn(steps: seq<Step>, kinds: set<Kind>) {
    exists s :: s in steps && s.kind in kinds && s.failed
  }

  lemma {:induction false} MatchingIsFilter(steps: seq<Step>, kinds: set<Kind>)
    ensures forall s :: s in Matching(steps, kinds) <==> s in steps && s.kind in kinds
  {
    if steps != [] {
      MatchingIsFilter(steps[1..], kinds);
      assert steps == [steps[0]] + steps[1..];
    }
  }

  // What each status of an aspect says about the steps that were really executed.
  lemma {:induction false} AspectTellsTheTruth(steps: seq<Step>, kinds: set<Kind>, policy: PolicyLevel)
    ensures var status := AspectFor(steps, kinds, policy).status;
            && (status == Pass <==> Ran(steps, kinds) && !FailedIn(steps, kinds))
            && (status == Fail <==> FailedIn(steps, kinds))
            && (status == NotApplicable <==> policy == Inapplicable && !Ran(steps, kinds))
            && (status == NotRun <==> policy != Inapplicable && !Ran(steps, kinds))
            && status != Unknown
  {
    MatchingIsFilter(steps, kinds);
    var matching := Matching(steps, kinds);
    if matching != [] {
      assert matching[0] in matching;
    }
  }

  const BUILD_KINDS := {Build}
  const TEST_KINDS := {Test}
  const LINT_KINDS := {Lint, StaticAnalysis}

  const UNTOUCHED := Aspect(NotRun, CursorReported)
  // createEvidence({}): every aspect at its default.
  const BLANK_EVIDENCE := Evidence(
      SelfReportedLevel, Aspect(Unknown, CursorReported), UNTOUCHED, UNTOUCHED, UNTOUCHED, UNTOUCHED,
      UNTOUCHED, UNTOUCHED, UNTOUCHED, UNTOUCHED, UNTOUCHED, UNTOUCHED)
  const MOCK_ASPECT := Aspect(NotRun, MockReported)
  const MOCK_EVIDENCE := Evidence(
      MockLevel, Aspect(Pass, MockReported), MOCK_ASPECT, MOCK_ASPECT, MOCK_ASPECT, MOCK_ASPECT,
      MOCK_ASPECT, MOCK_ASPECT, MOCK_ASPECT, MOCK_ASPECT, MOCK_ASPECT, Aspect(NotApplicable, MockReported))

  // The project's own evidence, or else its latest Cursor run's.
  function PreviousEvidence(p: Project): Option<Evidence> {
    if p.evidence.Some? then p.evidence
    else match LatestCursorRun(p) case Some(r) => r.evidence case None => None
  }

  // pipeline.js:276-313; the security aspect is an input.
  function EvidenceFromVerification(p: Project, run: VerificationRun, security: Aspect): Evidence {
    if p.demo || run.mock then MOCK_EVIDENCE
    else
      var build := AspectFor(run.steps, BUILD_KINDS, run.policy.build);
      var tests := AspectFor(run.steps, TEST_KINDS, run.policy.tests);
      var lint := AspectFor(run.steps, LINT_KINDS, run.policy.lint);
      var executed := exists a :: a in {build, tests, lint} && a.status in {Pass, Fail};
      var previous := PreviousEvidence(p);
      var base := if previous.Some? then previous.value else BLANK_EVIDENCE;
      base.(level := if executed then PlatformVerifiedLevel else base.level,
            execution := if previous.None? && executed then Aspect(Unknown, PlatformVerified) else base.execution,
            build := build, tests := tests, lint := lint, security := security)
  }

  // runtime/pipeline.js:269-308. run.accessibility is None when no automated check ran, else whether one failed.
  function EvidenceFromRuntime(p: Project, run: RuntimeRun): Evidence {
    if p.demo || run.mock then MOCK_EVIDENCE
    else
      var previous := PreviousEvidence(p);
      var base := if previous.Some? then previous.value else BLANK_EVIDENCE;
      var status := match run.status
        case RunPass => Pass
        case RunNotApplicable => NotApplicable
        case RunNotRun => NotRun
        case _ => Fail;
      base.(runtime := Aspect(status, PlatformVerified),
            functional := Aspect(if run.scenarioFailed then Fail else status, PlatformVerified),
            accessibility := Aspect(
              match run.accessibility
              case None => if run.policy.accessibility == Inapplicable then NotApplicable else NotRun
              case Some(failed) => if failed then Fail else Pass,
              PlatformVerified))
  }

  // visual/pipeline.js:210-247
  function EvidenceFromVisual(p: Project, run: VisualRun): Evidence {
    if p.demo || run.mock then MOCK_EVIDENCE
    else
      var previous := PreviousEvidence(p);
      var base := if previous.Some? then previous.value else BLANK_EVIDENCE;
      var status :=
        if run.decision == VisualNotApplicable then NotApplicable
        else if run.blockingFindings != [] || run.decision == VisualChangesRequired then Fail
        else if run.heuristic then NotRun
        else if run.decision == VisualComplete then Pass
        else NotRun;
      base.(visual := Aspect(status,
              if run.decision == VisualNotApplicable || run.heuristic then PlatformVerified else AiReviewed))
  }

  // ---- What a step and a plan are ----

  // A step blocks when its plan and the policy for what it does both require it; installations are always required of
  // the policy. It failed when it timed out, its program was missing or it did not exit with 0.
  lemma {:induction false} StepTellsTheTruth(s: Planned, policy: Policy, e: Executed)
    ensures var r := StepFor(s, policy, e);
            && r.id == s.id && r.kind == s.kind
            && (r.failed <==> e.timedOut || e.missingExecutable || e.exitCode != 0)
            && (r.required ==> s.required)
            && (s.required && s.kind == DependencyInstall ==> r.required)
            && (s.required && s.kind == Build ==> (r.required <==> policy.build == Required))
            && (s.required && s.kind == StaticAnalysis ==> (r.required <==> policy.staticAnalysis == Required))
            && (s.required && s.kind == Test ==> (r.required <==> policy.tests == Required))
            && (s.required && s.kind == Lint ==> (r.required <==> policy.lint == Required))
            && (s.required && s.kind == SecurityCheck ==> (r.required <==> policy.security == Required))
    ensures FailureCode(e) == "TIMEOUT" <==> e.timedOut
    ensures FailureCode(e) == "MISSING_EXECUTABLE" <==> !e.timedOut && e.missingExecutable
    ensures FailureCode(e) == "COMMAND_FAILED" <==> !e.timedOut && !e.missingExecutable
  {
    assert |"TIMEOUT"| == 7 && |"MISSING_EXECUTABLE"| == 18 && |"COMMAND_FAILED"| == 14;
  }

  // Whatever the tool chains contribute, installations run before builds, these before static analysis, tests, lint and
  // security checks, in this order.
  lemma {:induction false} PlanRunsInStages(steps: seq<Planned>, i: nat, j: nat)
    requires i < j < |SortSteps(steps)|
    ensures var a, b := SortSteps(steps)[i].kind, SortSteps(steps)[j].kind;
            && (b == DependencyInstall ==> a == DependencyInstall)
            && (b == Build ==> a in {DependencyInstall, Build})
            && (b == StaticAnalysis ==> a in {DependencyInstall, Build, StaticAnalysis})
            && (b == Test ==> a in {DependencyInstall, Build, StaticAnalysis, Test})
            && (b == Lint ==> a in {DependencyInstall, Build, StaticAnalysis, Test, Lint})
  {
    SortStepsIsAStableSort(steps);
    assert Order(SortSteps(steps)[i].kind) <= Order(SortSteps(steps)[j].kind);
  }
}
