/** What every path of moves from a fresh execution keeps. */
module Traces {
  import opened Base
  import opened Identity
  import opened Effects
  import opened Records
  import opened Checkpoint
  import opened Capacity
  import opened Replay
  import opened Steps
  import opened ObservationSteps

  /** The checkpoint of an execution before its first accepted write. */
  ghost predicate Fresh(payload: CheckpointPayload)
  {
    payload.state == Active([])
  }

  /** A path of accepted moves from a fresh execution. */
  ghost predicate Trace(program: Program, base: CheckpointPayload, trace: seq<Step>, end: CheckpointPayload)
  {
    Fresh(base) && Path(program, base, trace, end)
  }

  lemma {:induction false} PathPrefix(program: Program, base: CheckpointPayload, trace: seq<Step>, end: CheckpointPayload, i: nat)
    requires Path(program, base, trace, end) && i < |trace|
    ensures ValidStep(program, trace[i])
    ensures Path(program, base, trace[..i], trace[i].before)
    ensures Path(program, base, trace[..i + 1], trace[i].after)
  {
    hide ValidStep;
    var n := |trace| - 1;
    if i < n {
      PathPrefix(program, base, trace[..n], trace[n].before, i);
      assert trace[..n][..i] == trace[..i] && trace[..n][..i + 1] == trace[..i + 1];
    } else {
      assert trace[..i + 1] == trace;
    }
  }

  /** A path that moves at all starts from an active checkpoint. */
  lemma {:induction false} FirstActive(program: Program, base: CheckpointPayload, steps: seq<Step>, end: CheckpointPayload)
    requires Path(program, base, steps, end) && steps != []
    ensures base.state.Active? && steps[0].before == base
  {
    hide Moves;
    hide EncodeWithLimits;
    var n := |steps| - 1;
    if n > 0 { FirstActive(program, base, steps[..n], steps[n].before); }
  }

  /** Every reached checkpoint belongs to the same execution and is a valid history while active. */
  lemma {:induction false} TraceValid(program: Program, base: CheckpointPayload, trace: seq<Step>, end: CheckpointPayload)
    requires Trace(program, base, trace, end)
    ensures end.execution == base.execution
    ensures end.state.Active? ==> HistoryError(end.state.activities, 0).None?
    ensures trace != [] ==> EncodeWithLimits(end, trace[|trace| - 1].limits).Ok?
  {
    hide EncodeWithLimits;
    hide Moves;
    if trace != [] {
      var n := |trace| - 1;
      TraceValid(program, base, trace[..n], trace[n].before);
      EncodedFacts(end, trace[n].limits);
    }
  }

  // ---------------------------------------------------------------- what one move does to a position

  /** The move acts on the record at this position. */
  ghost predicate At(step: Step, q: nat)
  {
    step.before.state.Active? && |step.before.state.activities| == q + 1
  }

  ghost predicate Exposing(step: Step, q: nat)
  {
    step.move.Expose? && At(step, q)
  }

  /** Durable identity of a record: everything but its attempt, ledger, failure and state. */
  ghost predicate SameIdentity(a: ActivityRecord, b: ActivityRecord)
  {
    a.sequence == b.sequence && a.spec == b.spec && a.prepared == b.prepared && a.completionClass == b.completionClass
  }

  /** A move keeps every record it does not act on, and never touches a completed one. */
  lemma StepKeeps(program: Program, step: Step, k: nat)
    requires ValidStep(program, step) && step.after.state.Active? && k < |step.before.state.activities|
    ensures k < |step.after.state.activities|
    ensures step.before.state.activities[k].state.Completed? ==>
      step.after.state.activities[k] == step.before.state.activities[k]
    ensures !At(step, k) ==> step.after.state.activities[k] == step.before.state.activities[k]
    ensures SameIdentity(step.before.state.activities[k], step.after.state.activities[k])
    ensures step.move.Append? ==> step.after.state.activities[k] == step.before.state.activities[k]
  {
    hide EncodeWithLimits;
    hide Reserved;
    hide RecordFor;
    hide ValidateEffectAttempts;
  }

  /** Completed records never change, no record disappears and none changes its identity. */
  lemma {:induction false} PathKeeps(program: Program, start: CheckpointPayload, steps: seq<Step>, end: CheckpointPayload, k: nat)
    requires Path(program, start, steps, end) && start.state.Active? && end.state.Active? && k < |start.state.activities|
    ensures k < |end.state.activities|
    ensures start.state.activities[k].state.Completed? ==> end.state.activities[k] == start.state.activities[k]
    ensures SameIdentity(start.state.activities[k], end.state.activities[k])
  {
    hide Moves;
    hide EncodeWithLimits;
    if steps != [] {
      var n := |steps| - 1;
      PathKeeps(program, start, steps[..n], steps[n].before, k);
      StepKeeps(program, steps[n], k);
    }
  }

  // ---------------------------------------------------------------- accepted results

  function CompletedPrefix(activities: seq<ActivityRecord>): (r: seq<ActivityRecord>)
  {
    if activities == [] || Last(activities).state.Completed? then activities else activities[..|activities| - 1]
  }

  lemma ResultsExtend(activities: seq<ActivityRecord>, record: ActivityRecord)
    requires AllCompleted(activities) && record.state.Completed?
    ensures AllCompleted(activities + [record])
    ensures Results(activities + [record]) == Results(activities) + [ResultOf(record)]
  {
  }

  /** One move against the completed prefix: only a completion extends it. */
  lemma StepPrefix(program: Program, step: Step)
    requires ValidStep(program, step) && step.after.state.Active?
    requires AllCompleted(CompletedPrefix(step.before.state.activities))
    ensures
      var before := CompletedPrefix(step.before.state.activities);
      var after := CompletedPrefix(step.after.state.activities);
      if step.move.Complete? then step.move.completed.state.Completed? && after == before + [step.move.completed]
      else after == before
  {
    hide EncodeWithLimits;
    hide Reserved;
    hide ValidateEffectAttempts;
    var before := step.before.state.activities;
    var after := step.after.state.activities;
    if step.move.Append? {
      assert after[..|after| - 1] == before;
    } else {
      assert after[..|after| - 1] == before[..|before| - 1];
      if step.move.Complete? {
        assert after == after[..|after| - 1] + [Last(after)];
      }
    }
  }

  /** Compaction answers the results of a fully completed history. */
  lemma StepCompacts(program: Program, step: Step)
    requires ValidStep(program, step) && step.after.state.Terminal?
    ensures
      var activities := step.before.state.activities;
      && step.move == Compact(step.after.state.outcome)
      && AllCompleted(activities)
      && CompletedPrefix(activities) == activities
      && step.after.state.completedCount == |activities|
      && program.workflow(InputOf(step.before), Results(activities)) == Done(step.after.state.outcome)
  {
    hide EncodeWithLimits;
    hide IntoTerminal;
    hide Reserved;
    hide Advances;
    var activities := step.before.state.activities;
    if activities != [] { assert activities[|activities| - 1].state.Completed?; }
  }

  /**
   * The accepted results are exactly those of the completed records, and a terminal outcome is the
   * workflow's own answer to them.
   */
  lemma {:induction false} AcceptedResults(program: Program, base: CheckpointPayload, trace: seq<Step>, end: CheckpointPayload)
    requires Trace(program, base, trace, end)
    ensures end.state.Active? ==>
      && AllCompleted(CompletedPrefix(end.state.activities))
      && AcceptedAlong(trace) == Results(CompletedPrefix(end.state.activities))
    ensures end.state.Terminal? ==>
      && end.state.completedCount == |AcceptedAlong(trace)|
      && program.workflow(InputOf(base), AcceptedAlong(trace)) == Done(end.state.outcome)
  {
    hide EncodeWithLimits;
    hide Moves;
    if trace != [] {
      var n := |trace| - 1;
      AcceptedResults(program, base, trace[..n], trace[n].before);
      TraceValid(program, base, trace[..n], trace[n].before);
      if end.state.Active? {
        StepPrefix(program, trace[n]);
        if trace[n].move.Complete? {
          ResultsExtend(CompletedPrefix(trace[n].before.state.activities), trace[n].move.completed);
        }
      } else {
        StepCompacts(program, trace[n]);
        assert AcceptedAlong(trace) == AcceptedAlong(trace[..n]);
      }
    }
  }

  // ---------------------------------------------------------------- agreement with the workflow

  /** The record is an advanced form of the one this call asks for. */
  ghost predicate Answers(prepared: Preparation, executionId: ExecutionId, call: Call, record: ActivityRecord)
  {
    match call
    case ActivityCall(spec, class_) =>
      record.prepared.None? && record.completionClass == class_ && prepared.activity(spec, record.spec)
    case EffectCall(spec, bound, class_) =>
      && record.spec == spec
      && record.prepared.Some?
      && record.prepared.value.maxBytes == bound
      && |record.prepared.value.bytes| <= bound
      && record.completionClass == Some(class_)
      && prepared.effect(executionId, spec, bound, class_, record.prepared.value)
  }

  /** At every position the workflow, fed the earlier results, asks for the recorded call. */
  ghost predicate Requested(program: Program, payload: CheckpointPayload, k: nat)
    requires payload.state.Active? && k < |payload.state.activities|
  {
    var earlier := payload.state.activities[..k];
    && AllCompleted(earlier)
    && program.workflow(InputOf(payload), Results(earlier)).Request?
    && Answers(program.prepared, payload.execution.spec.executionId,
               program.workflow(InputOf(payload), Results(earlier)).call, payload.state.activities[k])
  }

  lemma RequestedKept(program: Program, before: CheckpointPayload, after: CheckpointPayload, k: nat)
    requires before.state.Active? && after.state.Active? && before.execution == after.execution
    requires k < |before.state.activities| && k < |after.state.activities|
    requires Requested(program, before, k)
    requires before.state.activities[..k] == after.state.activities[..k]
    requires SameIdentity(before.state.activities[k], after.state.activities[k])
    ensures Requested(program, after, k)
  {
  }

  lemma {:induction false} TraceRequested(program: Program, base: CheckpointPayload, trace: seq<Step>, end: CheckpointPayload, k: nat)
    requires Trace(program, base, trace, end) && end.state.Active? && k < |end.state.activities|
    ensures Requested(program, end, k)
  {
    hide EncodeWithLimits;
    hide Reserved;
    hide Advances;
    if trace != [] {
      var n := |trace| - 1;
      var before := trace[n].before;
      TraceValid(program, base, trace[..n], before);
      if k < |before.state.activities| {
        TraceRequested(program, base, trace[..n], before, k);
        StepKeeps(program, trace[n], k);
        assert end.state.activities[..k] == before.state.activities[..k];
        RequestedKept(program, before, end, k);
      } else {
        assert end.state.activities[..k] == before.state.activities;
      }
    }
  }

  /** Feed a workflow its results one by one until it stops asking. */
  function RunStraight(workflow: Workflow, input: Bytes, feed: seq<ActivityResult>, consumed: nat): (r: Option<(TerminalOutcome, nat)>)
    requires consumed <= |feed|
    decreases |feed| - consumed
  {
    match workflow(input, feed[..consumed])
    case Done(outcome) => Some((outcome, consumed))
    case Stall => None
    case Request(_) => if consumed == |feed| then None else RunStraight(workflow, input, feed, consumed + 1)
  }

  lemma {:induction false} StraightReaches(workflow: Workflow, input: Bytes, feed: seq<ActivityResult>, consumed: nat, outcome: TerminalOutcome)
    requires consumed <= |feed|
    requires forall k :: consumed <= k < |feed| ==> workflow(input, feed[..k]).Request?
    requires workflow(input, feed) == Done(outcome)
    ensures RunStraight(workflow, input, feed, consumed) == Some((outcome, |feed|))
    decreases |feed| - consumed
  {
    if consumed == |feed| {
      assert feed[..consumed] == feed;
    } else {
      StraightReaches(workflow, input, feed, consumed + 1, outcome);
    }
  }

  /**
   * Meaning preservation: whatever hosts, crashes and lost writes produced the trace, a terminal
   * outcome and its count are what one straight run of the workflow gives on the accepted results.
   */
  lemma TerminalMeaning(program: Program, base: CheckpointPayload, trace: seq<Step>, end: CheckpointPayload)
    requires Trace(program, base, trace, end) && end.state.Terminal?
    ensures RunStraight(program.workflow, InputOf(base), AcceptedAlong(trace), 0)
         == Some((end.state.outcome, end.state.completedCount))
  {
    hide EncodeWithLimits;
    hide Moves;
    var n := |trace| - 1;
    var before := trace[n].before;
    StepCompacts(program, trace[n]);
    var feed := AcceptedAlong(trace);
    AcceptedResults(program, base, trace, end);
    AcceptedResults(program, base, trace[..n], before);
    TraceValid(program, base, trace[..n], before);
    assert feed == Results(before.state.activities);
    forall k | 0 <= k < |feed| ensures program.workflow(InputOf(base), feed[..k]).Request? {
      TraceRequested(program, base, trace[..n], before, k);
      assert Results(before.state.activities[..k]) == feed[..k];
    }
    StraightReaches(program.workflow, InputOf(base), feed, 0, end.state.outcome);
  }
}
