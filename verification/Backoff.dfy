/** Spacing of consecutive attempts under a clocked runner. */
module Backoff {
  import opened Base
  import opened Identity
  import opened Effects
  import opened Records
  import opened Checkpoint
  import opened Capacity
  import opened Replay
  import opened Store
  import opened Host
  import opened Steps
  import opened Derivation
  import opened ObservationSteps
  import opened Traces
  import opened Exposures
  import opened Runs
  import opened RunTheorems
  import opened RunPermits

  // ---------------------------------------------------------------- attempts along a trace

  /** Only a retry changes the ordinal or the retry gate of a record. */
  lemma StepAttempt(program: Program, step: Step, q: nat)
    requires ValidStep(program, step) && step.after.state.Active? && q < |step.before.state.activities|
    ensures q < |step.after.state.activities|
    ensures
      var before, after := step.before.state.activities[q].attempt, step.after.state.activities[q].attempt;
      if step.move.Retry? && At(step, q) then
        after.ordinal == before.ordinal + 1 && after.retryNotBefore == Some(step.move.retryAt)
      else after.ordinal == before.ordinal && after.retryNotBefore == before.retryNotBefore
  {
    hide EncodeWithLimits;
    hide Reserved;
    hide RecordFor;
    hide ValidateEffectAttempts;
    StepKeeps(program, step, q);
  }

  lemma {:induction false} OrdinalGrows(program: Program, start: CheckpointPayload, steps: seq<Step>, end: CheckpointPayload, q: nat)
    requires Path(program, start, steps, end) && start.state.Active? && end.state.Active? && q < |start.state.activities|
    ensures q < |end.state.activities|
    ensures start.state.activities[q].attempt.ordinal <= end.state.activities[q].attempt.ordinal
  {
    hide Moves;
    hide EncodeWithLimits;
    if steps != [] {
      var n := |steps| - 1;
      OrdinalGrows(program, start, steps[..n], steps[n].before, q);
      StepAttempt(program, steps[n], q);
    }
  }

  /** The step retried the record at `q` from `ordinal`, gating it until `at`. */
  ghost predicate Retried(step: Step, q: nat, ordinal: int, at: Option<i64>)
  {
    && step.move.Retry? && At(step, q)
    && Target(step).attempt.ordinal == ordinal
    && at == Some(step.move.retryAt)
  }

  /** Every later attempt goes back to the retry that set its gate. */
  lemma {:induction false} RetryOrigin(program: Program, base: CheckpointPayload, trace: seq<Step>, end: CheckpointPayload, q: nat) returns (r: nat)
    requires Trace(program, base, trace, end) && end.state.Active? && q < |end.state.activities|
    requires end.state.activities[q].attempt.ordinal != 1
    ensures r < |trace|
    ensures Retried(trace[r], q, end.state.activities[q].attempt.ordinal - 1, end.state.activities[q].attempt.retryNotBefore)
  {
    hide EncodeWithLimits;
    hide Advances;
    hide Reserved;
    var n := |trace| - 1;
    var step := trace[n];
    if q < |step.before.state.activities| {
      StepAttempt(program, step, q);
      if step.move.Retry? && At(step, q) {
        r := n;
      } else {
        r := RetryOrigin(program, base, trace[..n], step.before, q);
        assert trace[..n][r] == trace[r];
      }
    }
  }

  /** Between exposures of attempts `k` and `k + 1` lies the retry that gates the later one. */
  lemma RetryBetween(program: Program, base: CheckpointPayload, trace: seq<Step>, end: CheckpointPayload, q: nat, i: nat, j: nat) returns (r: nat)
    requires Trace(program, base, trace, end) && i < j < |trace|
    requires Exposing(trace[i], q) && Exposing(trace[j], q)
    requires Target(trace[j]).attempt.ordinal == Target(trace[i]).attempt.ordinal + 1
    ensures i < r < j
    ensures Retried(trace[r], q, Target(trace[i]).attempt.ordinal, Target(trace[j]).attempt.retryNotBefore)
    ensures Target(trace[r]).spec == Target(trace[j]).spec
  {
    hide Moves;
    hide EncodeWithLimits;
    PathPrefix(program, base, trace, end, j);
    var before := trace[j].before;
    FirstOrdinal(program, base, trace, end, q, i);
    r := RetryOrigin(program, base, trace[..j], before, q);
    assert trace[..j][r] == trace[r];
    PathSuffix(program, base, trace[..j], before, r);
    PathPrefix(program, base, trace[..j], before, r);
    PathKeeps(program, trace[r].before, trace[..j][r..], before, q);
    if r < i {
      PathPrefix(program, base, trace, end, i);
      PathSuffix(program, base, trace[..i], trace[i].before, r);
      assert trace[..i][r] == trace[r];
      RetriedThenGrows(program, trace[r], trace[..i][r..], trace[i].before, q);
    }
  }

  /** An exposed record is at its first attempt or a later one. */
  lemma FirstOrdinal(program: Program, base: CheckpointPayload, trace: seq<Step>, end: CheckpointPayload, q: nat, i: nat)
    requires Trace(program, base, trace, end) && i < |trace| && Exposing(trace[i], q)
    ensures Target(trace[i]).attempt.ordinal >= 1
  {
    hide Moves;
    hide EncodeWithLimits;
    hide HistoryError;
    PathPrefix(program, base, trace, end, i);
    TraceValid(program, base, trace[..i], trace[i].before);
    ValidSequence(trace[i].before.state.activities, q);
  }

  /** Exposures of one record never go back to an earlier attempt. */
  lemma OrdinalOrder(program: Program, base: CheckpointPayload, trace: seq<Step>, end: CheckpointPayload, q: nat, i: nat, j: nat)
    requires Trace(program, base, trace, end) && i < j < |trace|
    requires Exposing(trace[i], q) && Exposing(trace[j], q)
    ensures Target(trace[i]).attempt.ordinal <= Target(trace[j]).attempt.ordinal
  {
    hide Moves;
    hide EncodeWithLimits;
    PathPrefix(program, base, trace, end, j);
    PathSuffix(program, base, trace[..j], trace[j].before, i);
    assert trace[..j][i] == trace[i];
    OrdinalGrows(program, trace[i].before, trace[..j][i..], trace[j].before, q);
  }

  /** After a retry the ordinal stays above the retried one. */
  lemma RetriedThenGrows(program: Program, step: Step, steps: seq<Step>, end: CheckpointPayload, q: nat)
    requires steps != [] && steps[0] == step && step.move.Retry? && At(step, q)
    requires Path(program, step.before, steps, end) && end.state.Active?
    ensures q < |end.state.activities|
    ensures Target(step).attempt.ordinal < end.state.activities[q].attempt.ordinal
  {
    hide EncodeWithLimits;
    hide Moves;
    PathPrefix(program, step.before, steps, end, 0);
    RetryKeepsActive(program, step);
    StepAttempt(program, step, q);
    if |steps| > 1 {
      PathTail(program, step.before, steps, end);
      OrdinalGrows(program, step.after, steps[1..], end, q);
    } else {
      assert steps[..0 + 1] == steps;
    }
  }

  lemma RetryKeepsActive(program: Program, step: Step)
    requires ValidStep(program, step) && step.move.Retry?
    ensures step.after.state.Active?
  {
    hide EncodeWithLimits;
    hide Reserved;
    hide Advances;
  }

  lemma {:induction false} PathTail(program: Program, base: CheckpointPayload, steps: seq<Step>, end: CheckpointPayload)
    requires Path(program, base, steps, end) && |steps| >= 1
    ensures Path(program, steps[0].after, steps[1..], end)
  {
    hide ValidStep;
    var n := |steps| - 1;
    if n > 0 {
      PathTail(program, base, steps[..n], steps[n].before);
      assert steps[1..][..|steps[1..]| - 1] == steps[..n][1..];
    }
  }

  // ---------------------------------------------------------------- times of accepted writes

  /** The clock reading a runner operation carries. */
  function TimeOf(op: Op): (t: Option<i64>)
  {
    match op
    case OpTurnAndExpose(_, now) => now
    case OpRetry(_, observedAt) => Some(observedAt)
    case _ => None
  }

  /** Exposures are made by clocked turns, and clock readings never go back along the accepted writes. */
  ghost predicate Clocked(log: seq<Write>)
  {
    && (forall i :: 0 <= i < |log| && log[i].acceptance.AcceptExposure? ==>
          log[i].request.op.OpTurnAndExpose? && log[i].request.op.now.Some?)
    && (forall i, j :: 0 <= i < j < |log| && TimeOf(log[i].request.op).Some? && TimeOf(log[j].request.op).Some? ==>
          TimeOf(log[i].request.op).value <= TimeOf(log[j].request.op).value)
  }

  lemma GateElapsed(record: ActivityRecord, now: i64)
    requires Gate(record, now).None?
    ensures record.attempt.retryNotBefore.Some? ==> record.attempt.retryNotBefore.value <= now
  {
  }

  /** A prepared exposure carries the retry gate of the record it exposes. */
  lemma PreparedGate(execution: ExecutionSpec, expected: Option<Revision>, candidate: Envelope, activity: LogicalActivityId,
                     boundary: Boundary, host: HostState)
    requires PrepareExposure(execution, expected, candidate, activity, boundary, host).Propose?
    ensures
      var c := PrepareExposure(execution, expected, candidate, activity, boundary, host);
      var decoded := DecodeAndValidate(candidate, execution, host.limits);
      && decoded.Ok? && LastActive(decoded.value).Some? && c.acceptance.AcceptExposure?
      && c.acceptance.permit.retryNotBefore == LastActive(decoded.value).value.attempt.retryNotBefore
  {
    hide DecodeAndValidate;
    hide EncodeWithLimits;
    hide MaximumActivityCompletedLen;
    hide ExposeAttempt;
  }

  lemma CompletionExposesNothing(expected: Option<Revision>, execution: ExecutionSpec, outcome: TerminalOutcome, count: u64, active: Envelope,
                                 boundary: Boundary, host: HostState)
    ensures
      var c := CommitCompletion(expected, execution, outcome, count, active, boundary, host);
      c.Propose? ==> !c.acceptance.AcceptExposure?
  {
    hide IntoTerminal;
    hide DecodeAndValidate;
    hide EncodeWithLimits;
  }

  /** A clocked exposure never precedes the retry gate its permit carries. */
  lemma ExposureRespectsGate(workflow: Workflow, execution: ExecutionSpec, resolver: ExposureResolver, now: i64, loaded: Option<Stored>, host: HostState)
    requires TurnAndExpose(workflow, execution, resolver, Some(now), loaded, host).Propose?
    ensures
      var c := TurnAndExpose(workflow, execution, resolver, Some(now), loaded, host);
      c.acceptance.AcceptExposure? && c.acceptance.permit.retryNotBefore.Some? ==> c.acceptance.permit.retryNotBefore.value <= now
  {
    hide Evaluate;
    hide InternalError;
    hide DecodeAndValidate;
    hide PrepareExposure;
    hide CommitCompletion;
    hide StoredAnswer;
    hide Start;
    hide Gate;
    hide ValidStep;
    var program := Program(workflow, AnyPreparation);
    EvaluateMeaning(program, execution, StoredEnvelope(loaded), host.limits, ToResolver(resolver));
    var e := Evaluate(workflow, execution, StoredEnvelope(loaded), host.limits, ToResolver(resolver));
    if e.EvaluatedPending? {
      StartDecodes(execution, loaded.value, host.limits);
      var record := LastActive(Start(execution, StoredEnvelope(loaded), host.limits).value).value;
      if Gate(record, now).None? { GateElapsed(record, now); }
      PreparedGate(execution, StoredRevision(loaded), loaded.value.checkpoint, e.activity, AtScheduleExposure, host);
    } else if e.EvaluatedScheduled? {
      PreparedGate(execution, StoredRevision(loaded), Encode(e.payload), LogicalId(e.record, execution.executionId), AtScheduleExposure, host);
      DecodedFacts(Encode(e.payload), execution, host.limits);
      AppendedFirst(program, Step(Start(execution, StoredEnvelope(loaded), host.limits).value, Append(e.record), e.payload, host.limits));
    } else if e.EvaluatedComplete? {
      CompletionExposesNothing(StoredRevision(loaded), execution, e.outcome, e.count, Encode(e.payload), AtCompletion, host);
    }
  }

  lemma AppendedFirst(program: Program, step: Step)
    requires ValidStep(program, step) && step.move.Append?
    ensures step.move.record.attempt == FirstAttempt
  {
    hide EncodeWithLimits;
  }

  /** An accepted retry was asked for at a time its options turned into the recorded gate. */
  lemma RetryTime(program: Program, id: ExecutionId, write: Write)
    requires Faithful(program, id, write) && write.acceptance.AcceptRetry?
    ensures write.request.op.OpRetry?
    ensures
      var steps := StepsOf(program, id, write);
      && |steps| == 1 && steps[0].before.state.Active? && steps[0].before.state.activities != []
      && var record := Target(steps[0]);
         RetryNotBefore(record.spec.options, record.attempt.ordinal, write.request.op.observedAt) == Some(write.acceptance.at)
  {
    hide Faithful;
    hide StepsFor;
    hide Start;
    hide InternalError;
    hide EncodeWithLimits;
    hide Moves;
    hide RetryNotBefore;
    StepsPath(program, id, write);
    RetryAcceptance(program, id, write);
    var request := write.request;
    LocatedFacts(request.execution, request.op.activity, request.loaded, request.host.limits);
  }

  lemma RetryAcceptance(program: Program, id: ExecutionId, write: Write)
    requires Faithful(program, id, write) && write.acceptance.AcceptRetry?
    ensures write.request.op.OpRetry?
    ensures
      var request := write.request;
      var located := Locate(request.execution, request.op.activity, request.loaded, request.host.limits);
      && located.Ok?
      && RetryNotBefore(located.value.record.spec.options, located.value.record.attempt.ordinal, request.op.observedAt) == Some(write.acceptance.at)
  {
    hide Locate;
    hide DecodeAndValidate;
    hide EncodeWithLimits;
    hide Evaluate;
    hide IntoTerminal;
    hide MaximumActivityCompletedLen;
    hide Gate;
    hide RetryNotBefore;
    hide Produces;
    hide ObserveEffectAttempt;
  }

  /** The move of a retry inside the trace belongs to an accepted retry. */
  lemma RetryOwner(steps: seq<Step>, payload: CheckpointPayload, acceptance: Acceptance, id: ExecutionId, j: nat)
    requires Means(steps, payload, acceptance, id) && j < |steps| && steps[j].move.Retry?
    ensures |steps| == 1 && acceptance.AcceptRetry? && acceptance.at == steps[0].move.retryAt
  {
    hide PermitNames;
  }

  /**
   * Backoff spacing: with clocked exposures and a clock that never goes back, every permit of attempt
   * `k + 1` is accepted after every permit of attempt `k`, and no earlier than its time plus the exact
   * exponential delay, whenever that delay fits a signed 64-bit integer.
   */
  lemma BackoffSpacing(program: Program, id: ExecutionId, s: System, q: nat, a: nat, b: nat)
    requires Reachable(program, id, s) && Clocked(s.log)
    requires a < |s.log| && b < |s.log| && ExposureWrite(s.log[a], q) && ExposureWrite(s.log[b], q)
    requires s.log[b].acceptance.permit.ordinal == s.log[a].acceptance.permit.ordinal + 1
    ensures a < b && s.log[a].acceptance.permit.ordinal >= 1
    ensures s.log[a].request.op.OpTurnAndExpose? && s.log[a].request.op.now.Some?
    ensures s.log[b].request.op.OpTurnAndExpose? && s.log[b].request.op.now.Some?
    ensures
      var delay := ExactBackoff(s.log[b].acceptance.permit.activity.spec.options, s.log[a].acceptance.permit.ordinal);
      delay <= I64_MAX ==> s.log[b].request.op.now.value >= s.log[a].request.op.now.value + delay
  {
    hide Reachable;
    hide Chain;
    hide ExactBackoff;
    ReachableLog(program, id, s);
    AttemptOrder(program, id, s.log, q, a, b);
    PermitOrdinal(program, id, s.log, q, a);
    if ExactBackoff(s.log[b].acceptance.permit.activity.spec.options, s.log[a].acceptance.permit.ordinal) <= I64_MAX {
      SpacedWrites(program, id, s.log, q, a, b);
    }
  }

  lemma PermitOrdinal(program: Program, id: ExecutionId, log: seq<Write>, q: nat, a: nat)
    requires Chain(program, id, log) && a < |log| && ExposureWrite(log[a], q)
    ensures log[a].acceptance.permit.ordinal >= 1
  {
    hide Chain;
    hide Faithful;
    hide StepsFor;
    hide Trace;
    hide ValidStep;
    LogIsTrace(program, id, log);
    var i := PermitIndex(program, id, log, q, a);
    FirstOrdinal(program, Origin(log), TraceOf(program, id, log), log[|log| - 1].payload, q, i);
  }

  /** A later attempt is accepted later. */
  lemma AttemptOrder(program: Program, id: ExecutionId, log: seq<Write>, q: nat, a: nat, b: nat)
    requires Chain(program, id, log)
    requires a < |log| && b < |log| && ExposureWrite(log[a], q) && ExposureWrite(log[b], q)
    requires log[a].acceptance.permit.ordinal < log[b].acceptance.permit.ordinal
    ensures a < b
  {
    hide Chain;
    hide Faithful;
    hide StepsFor;
    hide Trace;
    hide ValidStep;
    if b < a {
      LogIsTrace(program, id, log);
      var i := PermitIndex(program, id, log, q, a);
      var j := PermitIndex(program, id, log, q, b);
      IndexIncreases(program, id, log, b, a);
      OrdinalOrder(program, Origin(log), TraceOf(program, id, log), log[|log| - 1].payload, q, j, i);
    }
  }

  lemma SpacedWrites(program: Program, id: ExecutionId, log: seq<Write>, q: nat, a: nat, b: nat)
    requires Chain(program, id, log) && Clocked(log)
    requires a < b < |log| && ExposureWrite(log[a], q) && ExposureWrite(log[b], q)
    requires log[a].acceptance.permit.ordinal >= 1
    requires log[b].acceptance.permit.ordinal == log[a].acceptance.permit.ordinal + 1
    requires ExactBackoff(log[b].acceptance.permit.activity.spec.options, log[a].acceptance.permit.ordinal) <= I64_MAX
    ensures log[a].request.op.OpTurnAndExpose? && log[a].request.op.now.Some?
    ensures log[b].request.op.OpTurnAndExpose? && log[b].request.op.now.Some?
    ensures log[b].request.op.now.value >= log[a].request.op.now.value
              + ExactBackoff(log[b].acceptance.permit.activity.spec.options, log[a].acceptance.permit.ordinal)
  {
    hide Chain;
    hide Faithful;
    hide StepsFor;
    hide ExactBackoff;
    hide RetryNotBefore;
    var options := log[b].acceptance.permit.activity.spec.options;
    var ordinal := log[a].acceptance.permit.ordinal;
    var c := RetryWriteBetween(program, id, log, q, a, b);
    GatedExposure(program, id, log, b);
    var observedAt := log[c].request.op.observedAt;
    ExactRetry(options, ordinal, observedAt);
    assert TimeOf(log[a].request.op).Some? && TimeOf(log[c].request.op).Some?;
  }

  /** A retry that was granted, with a representable product, is exact. */
  lemma ExactRetry(options: ActivityOptions, ordinal: u32, observedAt: i64)
    requires ordinal >= 1 && ExactBackoff(options, ordinal) <= I64_MAX
    requires RetryNotBefore(options, ordinal, observedAt).Some?
    ensures RetryNotBefore(options, ordinal, observedAt) == Some(observedAt + ExactBackoff(options, ordinal))
  {
    var exact := ExactBackoff(options, ordinal);
    RetryIsExact(options, ordinal, observedAt);
    if ordinal - 1 < 63 {
      assert exact % (U64_MAX + 1) == exact;
    } else {
      PowAtLeast(ordinal - 1);
      if options.initialBackoff == 0 {
        assert options.initialBackoff * Pow(2, 63) == 0;
      } else {
        MulAtLeast(options.initialBackoff, Pow(2, ordinal - 1));
      }
    }
  }

  lemma GatedExposure(program: Program, id: ExecutionId, log: seq<Write>, b: nat)
    requires Chain(program, id, log) && Clocked(log) && b < |log| && log[b].acceptance.AcceptExposure?
    ensures log[b].request.op.OpTurnAndExpose? && log[b].request.op.now.Some?
    ensures log[b].acceptance.permit.retryNotBefore.Some? ==>
      log[b].acceptance.permit.retryNotBefore.value <= log[b].request.op.now.value
  {
    hide TurnAndExpose;
    hide Produces;
    var request := log[b].request;
    assert Faithful(program, id, log[b]);
    ExposureRespectsGate(program.workflow, request.execution, request.op.resolver, request.op.now.value, request.loaded, request.host);
  }

  lemma RetryWriteBetween(program: Program, id: ExecutionId, log: seq<Write>, q: nat, a: nat, b: nat) returns (c: nat)
    requires Chain(program, id, log)
    requires a < b < |log| && ExposureWrite(log[a], q) && ExposureWrite(log[b], q)
    requires log[b].acceptance.permit.ordinal == log[a].acceptance.permit.ordinal + 1
    requires log[a].acceptance.permit.ordinal >= 1
    ensures a < c < b && log[c].request.op.OpRetry?
    ensures log[b].acceptance.permit.retryNotBefore.Some?
    ensures RetryNotBefore(log[b].acceptance.permit.activity.spec.options, log[a].acceptance.permit.ordinal, log[c].request.op.observedAt)
         == log[b].acceptance.permit.retryNotBefore
  {
    hide Chain;
    hide Faithful;
    hide StepsFor;
    hide Start;
    hide InternalError;
    hide ValidStep;
    hide RetryNotBefore;
    hide Trace;
    hide Means;
    var trace := TraceOf(program, id, log);
    LogIsTrace(program, id, log);
    var i := PermitIndex(program, id, log, q, a);
    var j := PermitIndex(program, id, log, q, b);
    IndexIncreases(program, id, log, a, b);
    var r := RetryBetween(program, Origin(log), trace, log[|log| - 1].payload, q, i, j);
    var k: nat;
    c, k := OwnerOf(program, id, log, r);
    StepsPath(program, id, log[c]);
    RetryOwner(StepsOf(program, id, log[c]), log[c].payload, log[c].acceptance, id, k);
    RetryTime(program, id, log[c]);
    if c < a { IndexIncreases(program, id, log, c, a); }
    if b < c { if b < c - 1 { IndexIncreases(program, id, log, b, c - 1); } }
  }

  /** The trace index of an exposing write, with the attempt its permit reports. */
  lemma PermitIndex(program: Program, id: ExecutionId, log: seq<Write>, q: nat, i: nat) returns (x: nat)
    requires Chain(program, id, log) && i < |log| && ExposureWrite(log[i], q)
    ensures x == LastIndex(program, id, log, i) && x < |TraceOf(program, id, log)|
    ensures
      var step := TraceOf(program, id, log)[x];
      && Exposing(step, q)
      && Target(step).attempt.ordinal == log[i].acceptance.permit.ordinal
      && Target(step).attempt.retryNotBefore == log[i].acceptance.permit.retryNotBefore
      && Target(step).spec == log[i].acceptance.permit.activity.spec
  {
    hide Chain;
    hide Faithful;
    hide StepsFor;
    hide Start;
    hide InternalError;
    hide EncodeWithLimits;
    hide Reserved;
    ExposureLast(program, id, log, i);
    LastStep(program, id, log, i);
    StepsPath(program, id, log[i]);
    x := LastIndex(program, id, log, i);
    ExposedTarget(program, StepsOf(program, id, log[i])[|StepsOf(program, id, log[i])| - 1]);
  }

  lemma ExposedTarget(program: Program, step: Step)
    requires ValidStep(program, step) && step.move.Expose?
    ensures step.before.state.Active? && step.before.state.activities != []
    ensures step.after.state.Active? && step.after.state.activities != []
    ensures
      var before, after := Target(step), Last(step.after.state.activities);
      && before.attempt.ordinal == after.attempt.ordinal
      && before.attempt.retryNotBefore == after.attempt.retryNotBefore
      && before.spec == after.spec
  {
    hide EncodeWithLimits;
    hide Reserved;
    hide ValidateEffectAttempts;
  }
}
