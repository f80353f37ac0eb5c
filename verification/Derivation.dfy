/** Every proposal a host computes is a path of elementary moves from the checkpoint it loaded. */
module Derivation {
  import opened Base
  import opened Identity
  import opened Effects
  import opened Records
  import opened Checkpoint
  import opened Replay
  import opened Store
  import opened Host
  import opened Steps

  /** The permit names this exposed record, attempt by attempt and byte by byte. */
  ghost predicate PermitNames(permit: DispatchPermit, record: ActivityRecord, executionId: ExecutionId)
  {
    && record.state == DispatchExposed(permit.attemptId)
    && permit.activity == LogicalId(record, executionId)
    && permit.ordinal == record.attempt.ordinal
    && permit.retryNotBefore == record.attempt.retryNotBefore
    && permit.preparedCommand == record.prepared
  }

  /** What may precede the final move of a fused write: completing a record and appending the next. */
  ghost predicate OnlyLeads(steps: seq<Step>)
  {
    forall i :: 0 <= i < |steps| ==> steps[i].move.Complete? || steps[i].move.Append?
  }

  ghost predicate NoCompletion(steps: seq<Step>)
  {
    forall i :: 0 <= i < |steps| ==> !steps[i].move.Complete?
  }

  /** What the caller is told on acceptance is what the moves did. */
  ghost predicate Means(steps: seq<Step>, payload: CheckpointPayload, acceptance: Acceptance, executionId: ExecutionId)
  {
    && steps != []
    && var move := steps[|steps| - 1].move;
       match acceptance
       case AcceptSchedule(activity) => |steps| == 1 && move.Append? && activity == LogicalId(move.record, executionId)
       case AcceptExposure(permit, _) =>
         && OnlyLeads(steps[..|steps| - 1])
         && move == Expose(permit.attemptId)
         && LastActive(payload).Some?
         && PermitNames(permit, LastActive(payload).value, executionId)
       case AcceptObservation(activity) =>
         && |steps| == 1
         && (move.Complete? || move.NoAdmission?)
         && LastActive(payload).Some?
         && activity == LogicalId(LastActive(payload).value, executionId)
       case AcceptRetry(activity, at) =>
         |steps| == 1 && move == Retry(at) && LastActive(payload).Some? && activity == LogicalId(LastActive(payload).value, executionId)
       case AcceptWait(activity, at) =>
         |steps| == 1 && move == Wait(at) && LastActive(payload).Some? && activity == LogicalId(LastActive(payload).value, executionId)
       case AcceptCompletion(outcome, count, metadata, _) =>
         && OnlyLeads(steps[..|steps| - 1])
         && move == Compact(outcome)
         && payload.state == Terminal(outcome, count, metadata)
  }

  /** Every move was encoded under the limits of the host that made the proposal. */
  ghost predicate UnderLimits(steps: seq<Step>, limits: CheckpointLimits)
  {
    forall i :: 0 <= i < |steps| ==> steps[i].limits == limits
  }

  ghost predicate Derived(program: Program, execution: ExecutionSpec, loaded: Option<Stored>, limits: CheckpointLimits,
                          c: Computed, steps: seq<Step>)
    requires c.Propose?
  {
    var start := Start(execution, StoredEnvelope(loaded), limits);
    && start.Ok?
    && c.expected == StoredRevision(loaded)
    && Path(program, start.value, steps, c.payload)
    && Means(steps, c.payload, c.acceptance, execution.executionId)
    && UnderLimits(steps, limits)
  }

  // ---------------------------------------------------------------- building blocks

  lemma EvaluateMeaning(program: Program, execution: ExecutionSpec, checkpoint: Option<Envelope>, limits: CheckpointLimits, resolver: Resolver)
    requires Produces(program.prepared, resolver)
    ensures
      var e := Evaluate(program.workflow, execution, checkpoint, limits, resolver);
      var start := Start(execution, checkpoint, limits);
      && (e.EvaluatedScheduled? ==>
            && start.Ok? && start.value.state.Active?
            && e.payload == Push(start.value, e.record)
            && ValidStep(program, Step(start.value, Append(e.record), e.payload, limits))
            && e.record.sequence == |start.value.state.activities| && e.record.state.Scheduled?)
      && (e.EvaluatedPending? ==>
            && start.Ok? && checkpoint.Some? && LastActive(start.value).Some?
            && !LastActive(start.value).value.state.Completed?
            && e.state == LastActive(start.value).value.state
            && e.activity == LogicalId(LastActive(start.value).value, execution.executionId))
      && (e.EvaluatedComplete? ==>
            && start.Ok? && start.value.state.Active? && e.payload == start.value
            && AllCompleted(start.value.state.activities)
            && e.count == |start.value.state.activities|
            && program.workflow(InputOf(start.value), Results(start.value.state.activities)) == Done(e.outcome))
      && (e.EvaluatedTerminal? ==> start.Ok? && start.value.state.Terminal? && checkpoint.Some?)
  {
    hide InternalError;
    hide EncodeWithLimits;
    hide DecodeAndValidate;
    var start := Start(execution, checkpoint, limits);
    if start.Ok? && start.value.state.Active? {
      var history := start.value.state.activities;
      InternalFacts(start.value, limits);
      assert Prefix(history, []);
      ReplayMeaning(program, execution.workflowInput, execution.executionId, history, resolver, []);
      var end := ReplayFrom(program.workflow, execution.workflowInput, execution.executionId, history, resolver, []);
      if end.Decided? && end.decision.ExistingPending? {
        var k :| 0 <= k < |history| && PendingAt(history, k, execution.executionId, end.decision);
        PendingIsLast(history, k);
        ValidSequence(history, k);
      }
    }
  }

  /** Exposing the scheduled final record of a decodable candidate is a valid exposure step. */
  lemma ExposureDerives(program: Program, execution: ExecutionSpec, expected: Option<Revision>, candidate: Envelope,
                        activity: LogicalActivityId, boundary: Boundary, host: HostState)
    requires PrepareExposure(execution, expected, candidate, activity, boundary, host).Propose?
    requires
      var decoded := DecodeAndValidate(candidate, execution, host.limits);
      && decoded.Ok? && LastActive(decoded.value).Some? && LastActive(decoded.value).value.state.Scheduled?
      && activity == LogicalId(LastActive(decoded.value).value, execution.executionId)
    ensures
      var c := PrepareExposure(execution, expected, candidate, activity, boundary, host);
      var decoded := DecodeAndValidate(candidate, execution, host.limits).value;
      && c.expected == expected
      && c.acceptance.AcceptExposure?
      && var permit := c.acceptance.permit;
         && permit.attemptId == AttemptId(host.epoch, host.counter)
         && ValidStep(program, Step(decoded, Expose(permit.attemptId), c.payload, host.limits))
         && LastActive(c.payload).Some?
         && PermitNames(permit, LastActive(c.payload).value, execution.executionId)
  {
    hide InternalError;
    hide EncodeWithLimits;
    hide DecodeAndValidate;
    hide MaximumActivityCompletedLen;
    DecodedFacts(candidate, execution, host.limits);
    InternalFacts(DecodeAndValidate(candidate, execution, host.limits).value, host.limits);
  }

  lemma CompletionDerives(program: Program, expected: Option<Revision>, execution: ExecutionSpec, outcome: TerminalOutcome,
                          count: u64, active: CheckpointPayload, boundary: Boundary, host: HostState)
    requires CommitCompletion(expected, execution, outcome, count, Encode(active), boundary, host).Propose?
    requires active.state.Active? && AllCompleted(active.state.activities) && count == |active.state.activities|
    requires program.workflow(InputOf(active), Results(active.state.activities)) == Done(outcome)
    ensures
      var c := CommitCompletion(expected, execution, outcome, count, Encode(active), boundary, host);
      var step := Step(active, Compact(outcome), c.payload, host.limits);
      && c.expected == expected
      && c.acceptance.AcceptCompletion?
      && ValidStep(program, step)
      && Means([step], c.payload, c.acceptance, execution.executionId)
  {
    hide InternalError;
    hide EncodeWithLimits;
    hide DecodeAndValidate;
    hide IntoTerminal;
    DecodedFacts(Encode(active), execution, host.limits);
  }

  lemma OneStepDerived(program: Program, execution: ExecutionSpec, loaded: Option<Stored>, limits: CheckpointLimits,
                       c: Computed, step: Step)
    requires c.Propose? && c.expected == StoredRevision(loaded)
    requires Start(execution, StoredEnvelope(loaded), limits) == Ok(step.before)
    requires ValidStep(program, step) && step.after == c.payload && step.limits == limits
    requires Means([step], c.payload, c.acceptance, execution.executionId)
    ensures Derived(program, execution, loaded, limits, c, [step])
  {
    hide Start;
    hide InternalError;
    hide ValidStep;
    hide Means;
    PathOne(program, step);
  }

  lemma PathDerived(program: Program, execution: ExecutionSpec, loaded: Option<Stored>, limits: CheckpointLimits,
                    c: Computed, steps: seq<Step>)
    requires c.Propose? && c.expected == StoredRevision(loaded)
    requires
      var start := Start(execution, StoredEnvelope(loaded), limits);
      start.Ok? && Path(program, start.value, steps, c.payload)
    requires Means(steps, c.payload, c.acceptance, execution.executionId)
    requires UnderLimits(steps, limits)
    ensures Derived(program, execution, loaded, limits, c, steps)
  {
    hide Start;
    hide InternalError;
    hide Path;
    hide Means;
  }

  lemma ScheduleDerives(program: Program, execution: ExecutionSpec, loaded: Option<Stored>, record: ActivityRecord,
                        payload: CheckpointPayload, host: HostState)
    returns (steps: seq<Step>)
    requires
      var start := Start(execution, StoredEnvelope(loaded), host.limits);
      start.Ok? && ValidStep(program, Step(start.value, Append(record), payload, host.limits))
    ensures
      var c := Propose(StoredRevision(loaded), payload, AcceptSchedule(LogicalId(record, execution.executionId)), host.counter);
      Derived(program, execution, loaded, host.limits, c, steps)
    ensures NoCompletion(steps)
  {
    hide Start;
    hide InternalError;
    hide ValidStep;
    hide Derived;
    var step := Step(Start(execution, StoredEnvelope(loaded), host.limits).value, Append(record), payload, host.limits);
    var c := Propose(StoredRevision(loaded), payload, AcceptSchedule(LogicalId(record, execution.executionId)), host.counter);
    steps := [step];
    assert Means(steps, payload, c.acceptance, execution.executionId);
    OneStepDerived(program, execution, loaded, host.limits, c, step);
  }

  /** The stored checkpoint a turn evaluates decodes to the payload replay starts from. */
  lemma StartDecodes(execution: ExecutionSpec, stored: Stored, limits: CheckpointLimits)
    ensures Start(execution, Some(stored.checkpoint), limits) == DecodeAndValidate(stored.checkpoint, execution, limits)
  {
    hide DecodeAndValidate;
  }

  lemma PendingExposureDerives(program: Program, execution: ExecutionSpec, stored: Stored, activity: LogicalActivityId,
                               boundary: Boundary, host: HostState)
    returns (steps: seq<Step>)
    requires PrepareExposure(execution, Some(stored.revision), stored.checkpoint, activity, boundary, host).Propose?
    requires
      var start := Start(execution, Some(stored.checkpoint), host.limits);
      && start.Ok? && LastActive(start.value).Some? && LastActive(start.value).value.state.Scheduled?
      && activity == LogicalId(LastActive(start.value).value, execution.executionId)
    ensures
      var c := PrepareExposure(execution, Some(stored.revision), stored.checkpoint, activity, boundary, host);
      Derived(program, execution, Some(stored), host.limits, c, steps)
    ensures NoCompletion(steps)
  {
    hide DecodeAndValidate;
    hide PrepareExposure;
    hide Start;
    hide InternalError;
    hide ValidStep;
    hide Derived;
    StartDecodes(execution, stored, host.limits);
    ExposureDerives(program, execution, Some(stored.revision), stored.checkpoint, activity, boundary, host);
    var c := PrepareExposure(execution, Some(stored.revision), stored.checkpoint, activity, boundary, host);
    var step := Step(Start(execution, Some(stored.checkpoint), host.limits).value, Expose(c.acceptance.permit.attemptId),
                     c.payload, host.limits);
    OneStepDerived(program, execution, Some(stored), host.limits, c, step);
    steps := [step];
  }

  // ---------------------------------------------------------------- turns

  lemma TurnDerives(program: Program, execution: ExecutionSpec, loaded: Option<Stored>, host: HostState)
    returns (steps: seq<Step>)
    requires Produces(program.prepared, IdentityResolver)
    requires Turn(program.workflow, execution, loaded, host).Propose?
    ensures Derived(program, execution, loaded, host.limits, Turn(program.workflow, execution, loaded, host), steps)
    ensures NoCompletion(steps)
  {
    hide Start;
    hide InternalError;
    hide Derived;
    hide Means;
    hide Path;
    hide Evaluate;
    hide ValidStep;
    hide DecodeAndValidate;
    hide PrepareExposure;
    hide CommitCompletion;
    var c := Turn(program.workflow, execution, loaded, host);
    EvaluateMeaning(program, execution, StoredEnvelope(loaded), host.limits, IdentityResolver);
    var e := Evaluate(program.workflow, execution, StoredEnvelope(loaded), host.limits, IdentityResolver);
    var start := Start(execution, StoredEnvelope(loaded), host.limits).value;
    match e {
      case EvaluatedScheduled(record, payload) =>
        steps := ScheduleDerives(program, execution, loaded, record, payload, host);
      case EvaluatedPending(activity, state) =>
        steps := PendingExposureDerives(program, execution, loaded.value, activity, AtExposure, host);
      case EvaluatedComplete(outcome, count, payload) =>
        CompletionDerives(program, StoredRevision(loaded), execution, outcome, count, payload, AtCompletion, host);
        steps := [Step(start, Compact(outcome), c.payload, host.limits)];
        OneStepDerived(program, execution, loaded, host.limits, c, steps[0]);
    }
  }

  /** A freshly scheduled candidate is exposed in the same write: append, then expose. */
  lemma ScheduleExposureDerives(program: Program, execution: ExecutionSpec, expected: Option<Revision>, start: CheckpointPayload,
                                record: ActivityRecord, boundary: Boundary, host: HostState)
    returns (steps: seq<Step>)
    requires start.state.Active?
    requires ValidStep(program, Step(start, Append(record), Push(start, record), host.limits))
    requires record.state.Scheduled?
    requires PrepareExposure(execution, expected, Encode(Push(start, record)), LogicalId(record, execution.executionId), boundary, host).Propose?
    ensures
      var c := PrepareExposure(execution, expected, Encode(Push(start, record)), LogicalId(record, execution.executionId), boundary, host);
      && c.expected == expected
      && c.acceptance.AcceptExposure?
      && |steps| == 2
      && steps[0] == Step(start, Append(record), Push(start, record), host.limits)
      && steps[1] == Step(Push(start, record), Expose(c.acceptance.permit.attemptId), c.payload, host.limits)
      && Path(program, start, steps, c.payload)
      && Means(steps, c.payload, c.acceptance, execution.executionId)
  {
    hide ValidStep;
    hide InternalError;
    var candidate := Encode(Push(start, record));
    var activity := LogicalId(record, execution.executionId);
    var c := PrepareExposure(execution, expected, candidate, activity, boundary, host);
    DecodedFacts(candidate, execution, host.limits);
    ExposureDerives(program, execution, expected, candidate, activity, boundary, host);
    var first := Step(start, Append(record), Push(start, record), host.limits);
    var second := Step(Push(start, record), Expose(c.acceptance.permit.attemptId), c.payload, host.limits);
    steps := [first, second];
    PathTwo(program, first, second);
  }

  lemma TurnAndExposeDerives(program: Program, execution: ExecutionSpec, resolver: ExposureResolver, now: Option<i64>,
                             loaded: Option<Stored>, host: HostState)
    returns (steps: seq<Step>)
    requires Produces(program.prepared, ToResolver(resolver))
    requires TurnAndExpose(program.workflow, execution, resolver, now, loaded, host).Propose?
    ensures Derived(program, execution, loaded, host.limits, TurnAndExpose(program.workflow, execution, resolver, now, loaded, host), steps)
    ensures NoCompletion(steps)
  {
    hide Start;
    hide InternalError;
    hide Derived;
    hide Means;
    hide Path;
    hide Evaluate;
    hide ValidStep;
    hide DecodeAndValidate;
    hide PrepareExposure;
    hide CommitCompletion;
    var c := TurnAndExpose(program.workflow, execution, resolver, now, loaded, host);
    EvaluateMeaning(program, execution, StoredEnvelope(loaded), host.limits, ToResolver(resolver));
    var e := Evaluate(program.workflow, execution, StoredEnvelope(loaded), host.limits, ToResolver(resolver));
    var start := Start(execution, StoredEnvelope(loaded), host.limits).value;
    match e {
      case EvaluatedScheduled(record, payload) =>
        steps := ScheduleExposureDerives(program, execution, StoredRevision(loaded), start, record, AtScheduleExposure, host);
        PathDerived(program, execution, loaded, host.limits, c, steps);
      case EvaluatedPending(activity, state) =>
        steps := PendingExposureDerives(program, execution, loaded.value, activity, AtScheduleExposure, host);
      case EvaluatedComplete(outcome, count, payload) =>
        CompletionDerives(program, StoredRevision(loaded), execution, outcome, count, payload, AtCompletion, host);
        steps := [Step(start, Compact(outcome), c.payload, host.limits)];
        OneStepDerived(program, execution, loaded, host.limits, c, steps[0]);
    }
  }
}
