// What the lookups over a project's records find, said without the lookups: the run that a stage reads for an
// iteration, and the checkpoint that a Cursor run names (src/verify/pipeline.js:22-25, src/runtime/pipeline.js:16-44,
// src/visual/pipeline.js:16-19, src/delivery/lineage.js:13-24).
module Lookups {
  import opened Text
  import opened Records
  import Lineage

  // A specification that work can start from.
  predicate HasSpec(p: Project) {
    p.spec.Some? && !Blank(p.spec.value.cursorPrompt) && p.spec.value.productName != ""
  }

  lemma {:induction false} SpecIsValid(p: Project)
    ensures HasValidSpec(p) <==> HasSpec(p)
  {
    if p.spec.Some? { TrimIsEmptyIffBlank(p.spec.value.cursorPrompt); }
  }

  // ---- The run read for an iteration ----

  // The last run of the iteration, or the last run of all when the iteration has none.
  predicate ReadAt<T>(runs: seq<T>, iterationOf: T -> nat, iteration: nat, i: nat)
    requires i < |runs|
  {
    && (forall j :: i < j < |runs| ==> iterationOf(runs[j]) != iteration)
    && (iterationOf(runs[i]) != iteration ==>
          i == |runs| - 1 && forall j :: 0 <= j < |runs| ==> iterationOf(runs[j]) != iteration)
  }

  predicate Reads<T(==)>(runs: seq<T>, iterationOf: T -> nat, iteration: nat, run: T) {
    exists i :: 0 <= i < |runs| && runs[i] == run && ReadAt(runs, iterationOf, iteration, i)
  }

  lemma {:induction false} LatestIsRead<T>(runs: seq<T>, iterationOf: T -> nat, iteration: nat, run: T)
    ensures LatestAt(runs, iterationOf, iteration) == Some(run) <==> Reads(runs, iterationOf, iteration, run)
    ensures LatestAt(runs, iterationOf, iteration).None? <==> runs == []
  {
    if runs != [] {
      var at := LastIndexAt(runs, iterationOf, iteration);
      var i := if at.Some? then at.value else |runs| - 1;
      assert ReadAt(runs, iterationOf, iteration, i) && LatestAt(runs, iterationOf, iteration) == Some(runs[i]);
      assert forall k :: 0 <= k < |runs| && ReadAt(runs, iterationOf, iteration, k) ==> k == i;
    }
  }

  predicate ReadsVerification(p: Project, iteration: nat, run: VerificationRun) {
    Reads(p.verificationRuns, (r: VerificationRun) => r.iteration, iteration, run)
  }

  predicate ReadsRuntime(p: Project, iteration: nat, run: RuntimeRun) {
    Reads(p.runtimeRuns, (r: RuntimeRun) => r.iteration, iteration, run)
  }

  predicate ReadsVisual(p: Project, iteration: nat, run: VisualRun) {
    Reads(p.visualRuns, (r: VisualRun) => r.iteration, iteration, run)
  }

  lemma {:induction false} VerificationIsRead(p: Project, iteration: nat)
    ensures forall run :: LatestVerification(p, iteration) == Some(run) <==> ReadsVerification(p, iteration, run)
    ensures LatestVerification(p, iteration).None? <==> p.verificationRuns == []
  {
    forall run ensures LatestVerification(p, iteration) == Some(run) <==> ReadsVerification(p, iteration, run) {
      LatestIsRead(p.verificationRuns, (r: VerificationRun) => r.iteration, iteration, run);
    }
  }

  lemma {:induction false} RuntimeIsRead(p: Project, iteration: nat)
    ensures forall run :: LatestRuntime(p, iteration) == Some(run) <==> ReadsRuntime(p, iteration, run)
    ensures LatestRuntime(p, iteration).None? <==> p.runtimeRuns == []
  {
    forall run ensures LatestRuntime(p, iteration) == Some(run) <==> ReadsRuntime(p, iteration, run) {
      LatestIsRead(p.runtimeRuns, (r: RuntimeRun) => r.iteration, iteration, run);
    }
  }

  lemma {:induction false} VisualIsRead(p: Project, iteration: nat)
    ensures forall run :: LatestVisual(p, iteration) == Some(run) <==> ReadsVisual(p, iteration, run)
    ensures LatestVisual(p, iteration).None? <==> p.visualRuns == []
  {
    forall run ensures LatestVisual(p, iteration) == Some(run) <==> ReadsVisual(p, iteration, run) {
      LatestIsRead(p.visualRuns, (r: VisualRun) => r.iteration, iteration, run);
    }
  }

  // The iteration that the gate and the delivery ask about: that of the last Cursor run, or without one the project's.
  function AskedIteration(p: Project): nat {
    if p.cursorRuns == [] then p.iteration else p.cursorRuns[|p.cursorRuns| - 1].iteration
  }

  // ---- The delivery an owner is shown ----

  // The first delivery that is current, or the last one of all when none is.
  predicate StandsAt(ds: seq<Delivery>, i: nat)
    requires i < |ds|
  {
    if ds[i].current then forall j :: 0 <= j < i ==> !ds[j].current
    else i == |ds| - 1 && forall j :: 0 <= j < |ds| ==> !ds[j].current
  }

  predicate Stands(ds: seq<Delivery>, d: Delivery) {
    exists i :: 0 <= i < |ds| && ds[i] == d && StandsAt(ds, i)
  }

  lemma {:induction false} CurrentStands(ds: seq<Delivery>)
    ensures Lineage.CurrentIndex(ds).None? <==> ds == []
    ensures forall i :: 0 <= i < |ds| ==> (StandsAt(ds, i) <==> Lineage.CurrentIndex(ds) == Some(i))
  {
  }

  lemma {:induction false} CurrentDeliveryStands(p: Project, d: Delivery)
    ensures Lineage.CurrentDelivery(p) == Some(d) <==> Stands(p.deliveries, d)
  {
    CurrentStands(p.deliveries);
    hide Lineage.CurrentIndex, StandsAt;
    if p.deliveries != [] {
      var i := Lineage.CurrentIndex(p.deliveries).value;
      assert StandsAt(p.deliveries, i);
    }
  }

  // ---- Checkpoints ----

  // The first text of the list that is present.
  predicate FirstPresent(names: seq<string>, name: string) {
    exists i :: 0 <= i < |names| && names[i] == name != "" && forall j :: 0 <= j < i ==> names[j] == ""
  }

  predicate AllAbsent(names: seq<string>) {
    forall i :: 0 <= i < |names| ==> names[i] == ""
  }

  // Every checkpoint that a Cursor run may name, the most authoritative first.
  function CheckpointNames(r: CursorRun): seq<string> {
    [r.checkpointSha, r.gitCheckpointSha, r.gitAfterSha, r.resultSha, r.resultGitSha]
  }

  // The final checkpoint is the first one the last Cursor run names. Without any it is synthetic, and says so.
  lemma {:induction false} FinalCheckpointIsFirstNamed(p: Project)
    ensures p.cursorRuns != [] && !AllAbsent(CheckpointNames(p.cursorRuns[|p.cursorRuns| - 1])) ==>
              FirstPresent(CheckpointNames(p.cursorRuns[|p.cursorRuns| - 1]), FinalCheckpoint(p))
    ensures p.cursorRuns == [] || AllAbsent(CheckpointNames(p.cursorRuns[|p.cursorRuns| - 1])) ==>
              && FinalCheckpoint(p) != ""
              && Lineage.IsSyntheticCheckpoint(FinalCheckpoint(p))
              && (Lineage.IsMockCheckpoint(FinalCheckpoint(p)) <==> p.demo)
  {
    if p.cursorRuns != [] && !AllAbsent(CheckpointNames(p.cursorRuns[|p.cursorRuns| - 1])) {
      FirstOfNames(CheckpointNames(p.cursorRuns[|p.cursorRuns| - 1]), FinalCheckpoint(p));
    } else {
      var own := Decimal(if p.iteration == 0 then 1 else p.iteration);
      var last := Decimal(if RunIteration(p) == 0 then 1 else RunIteration(p));
      SyntheticText("mock:", p.id, own);
      SyntheticText("unverified:", p.id, last);
      if p.cursorRuns != [] {
        var names := CheckpointNames(p.cursorRuns[|p.cursorRuns| - 1]);
        assert names[0] == names[1] == names[2] == names[3] == names[4] == "";
      }
      assert FinalCheckpoint(p) == if p.demo then "mock:" + p.id + ":" + own else "unverified:" + p.id + ":" + last;
    }
  }

  lemma {:induction false} SyntheticText(mark: string, id: string, n: string)
    requires mark == "mock:" || mark == "unverified:"
    ensures StartsWith(mark + id + ":" + n, mark) && (StartsWith(mark + id + ":" + n, "mock:") <==> mark == "mock:")
  {
    assert mark + id + ":" + n == mark + (id + ":" + n);
    assert (mark + id + ":" + n)[0] == mark[0] && "mock:"[0] != "unverified:"[0];
  }

  lemma {:induction false} FirstOfNames(names: seq<string>, name: string)
    requires |names| == 5 && name == Or(names[0], Or(names[1], Or(names[2], Or(names[3], names[4])))) && name != ""
    ensures FirstPresent(names, name)
  {
    if names[0] != "" { assert names[0] == name; }
    else if names[1] != "" { assert names[1] == name; }
    else if names[2] != "" { assert names[2] == name; }
    else if names[3] != "" { assert names[3] == name; }
    else { assert names[4] == name; }
  }

  // The stages before delivery look at the first three only, and have none when those are absent.
  lemma {:induction false} StageCheckpointIsFirstNamed(p: Project)
    ensures p.cursorRuns == [] ==> StageCheckpoint(p) == ""
    ensures p.cursorRuns != [] ==>
              var names := CheckpointNames(p.cursorRuns[|p.cursorRuns| - 1])[..3];
              if AllAbsent(names) then StageCheckpoint(p) == "" else FirstPresent(names, StageCheckpoint(p))
  {
    if p.cursorRuns != [] {
      var names := CheckpointNames(p.cursorRuns[|p.cursorRuns| - 1])[..3];
      if names[0] != "" { assert FirstPresent(names, names[0]); }
      else if names[1] != "" { assert FirstPresent(names, names[1]); }
      else if names[2] != "" { assert FirstPresent(names, names[2]); }
    }
  }
}
