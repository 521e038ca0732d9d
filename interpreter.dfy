/** Running a whole workflow: the steps in list order, stopping at the first
    step that fails, and closing the browser once after the last step when
    none failed.
 */
module Interpreter {
  import opened Workflow

  /** How a run ended. */
  datatype Outcome = Completed | Failed(error: Error)

  /** The commands issued, in order, and how the run ended.  A failed run
      keeps the commands issued before the failing step: they have already
      taken effect. */
  datatype Execution = Execution(trace: seq<Command>, outcome: Outcome)

  /** The steps of `steps` run in order, without the final close.  Defined
      on the last step so that it follows a loop over the list's prefixes. */
  function RunSteps(steps: seq<Step>, data: Identity): (e: Execution)
    ensures |e.trace| <= |steps|
    ensures e.outcome.Completed? ==> |e.trace| == |steps|
    ensures e.outcome.Failed? ==> |e.trace| < |steps| && e.outcome.error.index == |e.trace|
    ensures Close !in e.trace
  {
    if |steps| == 0 then Execution([], Completed)
    else
      var before := RunSteps(steps[..|steps| - 1], data);
      if before.outcome.Failed? then before
      else match StepCommand(steps[|steps| - 1], |steps| - 1, data)
        case Emit(c) => Execution(before.trace + [c], Completed)
        case Fail(e) => Execution(before.trace, Failed(e))
  }

  /** The whole run: the steps, then one close on the normal path. */
  function Interpret(steps: seq<Step>, data: Identity): (e: Execution)
    ensures Close in e.trace <==> e.outcome.Completed?
    ensures e.outcome.Completed? ==> |e.trace| == |steps| + 1 && e.trace[|steps|] == Close
    ensures e.outcome.Failed? ==> |e.trace| < |steps| && e.outcome.error.index == |e.trace|
  {
    var run := RunSteps(steps, data);
    if run.outcome.Completed? then Execution(run.trace + [Close], Completed)
    else run
  }

  /** Every step before `n` can be carried out. */
  ghost predicate AllDispatchable(steps: seq<Step>, data: Identity, n: nat)
    requires n <= |steps|
  {
    forall i :: 0 <= i < n ==> Dispatchable(steps[i], data)
  }

  /** The trace issues, position by position, the command of each step. */
  ghost predicate TraceFollowsSteps(steps: seq<Step>, data: Identity, trace: seq<Command>)
  {
    && |trace| <= |steps|
    && forall i :: 0 <= i < |trace| ==> StepCommand(steps[i], i, data) == Emit(trace[i])
  }

  /** The inductive core of RunStepsCharacterized: the trace issues each
      step's command in turn, and a failure carries the error of the step
      just after the trace. */
  lemma {:induction false} RunStepsFollowsSteps(steps: seq<Step>, data: Identity)
    ensures TraceFollowsSteps(steps, data, RunSteps(steps, data).trace)
    ensures RunSteps(steps, data).outcome.Failed? ==>
              var k := |RunSteps(steps, data).trace|;
              k < |steps| && StepCommand(steps[k], k, data) == Fail(RunSteps(steps, data).outcome.error)
  {
    if |steps| > 0 {
      var n := |steps| - 1;
      var init := steps[..n];
      RunStepsFollowsSteps(init, data);
      var before := RunSteps(init, data);
      var run := RunSteps(steps, data);
      if before.outcome.Failed? {
        assert run == before;
        assert steps[|run.trace|] == init[|run.trace|];
      } else {
        var r := StepCommand(steps[n], n, data);
        if r.Emit? {
          assert run.trace == before.trace + [r.command];
        } else {
          assert run == Execution(before.trace, Failed(r.error));
        }
      }
      forall i | 0 <= i < |run.trace| && i < n
        ensures StepCommand(steps[i], i, data) == Emit(run.trace[i])
      {
        assert init[i] == steps[i];
        assert run.trace[i] == before.trace[i];
      }
    }
  }

  /** RunSteps issues the commands of the longest prefix of dispatchable
      steps; it completes exactly when every step is dispatchable, and
      otherwise fails with the error of the first step that is not. */
  lemma RunStepsCharacterized(steps: seq<Step>, data: Identity)
    ensures TraceFollowsSteps(steps, data, RunSteps(steps, data).trace)
    ensures AllDispatchable(steps, data, |RunSteps(steps, data).trace|)
    ensures RunSteps(steps, data).outcome.Completed? <==> AllDispatchable(steps, data, |steps|)
    ensures RunSteps(steps, data).outcome.Failed? ==>
              var k := |RunSteps(steps, data).trace|;
              k < |steps| && StepCommand(steps[k], k, data) == Fail(RunSteps(steps, data).outcome.error)
  {
    RunStepsFollowsSteps(steps, data);
    var run := RunSteps(steps, data);
    forall i | 0 <= i < |run.trace|
      ensures Dispatchable(steps[i], data)
    {
      StepDispatchTable(steps[i], i, data);
    }
    if run.outcome.Failed? {
      StepDispatchTable(steps[|run.trace|], |run.trace|, data);
    }
  }

  /** Once a prefix of the workflow has failed, no later step runs: the
      whole run is that prefix's run. */
  lemma {:induction false} FailureIsFinal(steps: seq<Step>, data: Identity, k: nat)
    requires k <= |steps|
    requires RunSteps(steps[..k], data).outcome.Failed?
    ensures RunSteps(steps, data) == RunSteps(steps[..k], data)
  {
    if k < |steps| {
      var n := |steps| - 1;
      assert steps[..n][..k] == steps[..k];
      FailureIsFinal(steps[..n], data, k);
    } else {
      assert steps[..k] == steps;
    }
  }

  /** Running more steps only appends to the trace: the commands issued for
      a prefix of the workflow come first, in the same order. */
  lemma {:induction false} TraceExtendsPrefix(steps: seq<Step>, data: Identity, k: nat)
    requires k <= |steps|
    ensures RunSteps(steps[..k], data).trace <= RunSteps(steps, data).trace
  {
    if k < |steps| {
      var n := |steps| - 1;
      assert steps[..n][..k] == steps[..k];
      TraceExtendsPrefix(steps[..n], data, k);
    } else {
      assert steps[..k] == steps;
    }
  }

  /** A single loop iteration: running one more step after a prefix that
      completed appends that step's command, or fails with its error. */
  lemma NextStep(steps: seq<Step>, data: Identity, i: nat)
    requires i < |steps|
    requires RunSteps(steps[..i], data).outcome.Completed?
    ensures RunSteps(steps[..i + 1], data) ==
              match StepCommand(steps[i], i, data)
              case Emit(c) => Execution(RunSteps(steps[..i], data).trace + [c], Completed)
              case Fail(e) => Execution(RunSteps(steps[..i], data).trace, Failed(e))
  {
    assert steps[..i + 1][..i] == steps[..i];
  }

  /** The whole run, stated without reference to how it is computed: the
      trace is the commands of the steps in order, followed by exactly one
      close when every step could be carried out; otherwise it stops before
      the first step that could not, with that step's error. */
  lemma InterpretCharacterized(steps: seq<Step>, data: Identity)
    ensures Interpret(steps, data).outcome.Completed? <==> AllDispatchable(steps, data, |steps|)
    ensures Interpret(steps, data).outcome.Completed? ==>
              var t := Interpret(steps, data).trace;
              && |t| == |steps| + 1
              && t[|steps|] == Close
              && Close !in t[..|steps|]
              && TraceFollowsSteps(steps, data, t[..|steps|])
    ensures Interpret(steps, data).outcome.Failed? ==>
              var t := Interpret(steps, data).trace;
              && |t| < |steps|
              && Close !in t
              && TraceFollowsSteps(steps, data, t)
              && StepCommand(steps[|t|], |t|, data) == Fail(Interpret(steps, data).outcome.error)
  {
    RunStepsCharacterized(steps, data);
    var run := RunSteps(steps, data);
    if run.outcome.Completed? {
      assert (run.trace + [Close])[..|steps|] == run.trace;
    }
  }

  /** A workflow without fill steps never reads the identity bundle: its
      run is the same for every identity. */
  lemma {:induction false} WithoutFillIdentityIsIrrelevant(steps: seq<Step>, d1: Identity, d2: Identity)
    requires forall i :: 0 <= i < |steps| && steps[i].Mapping? && "action" in steps[i].fields ==>
               Classify(steps[i].fields["action"]) != FillStep
    ensures RunSteps(steps, d1) == RunSteps(steps, d2)
    ensures Interpret(steps, d1) == Interpret(steps, d2)
  {
    if |steps| > 0 {
      var n := |steps| - 1;
      WithoutFillIdentityIsIrrelevant(steps[..n], d1, d2);
      OnlyFillReadsIdentity(steps[n], n, d1, d2);
    }
  }
}
