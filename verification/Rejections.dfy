/** Why a host rejects a checkpoint: with a workflow that keeps its own declared bounds, only for want of records or capacity. */
module Rejections {
  import opened Base
  import opened Identity
  import opened Effects
  import opened Records
  import opened EncodedSize
  import opened Checkpoint
  import opened Capacity
  import opened Replay
  import opened Store
  import opened Host
  import opened Steps
  import opened Derivation
  import opened ObservationSteps
  import opened Traces
  import opened Progress

  /** The record limit, an encoding beyond a size limit, or limits too small for the declared outcome. */
  predicate IsCapacity(e: CheckpointError)
  {
    || e == ActivityRecordLimitExceeded
    || e == EncodedCheckpointLimitExceeded
    || e == EncodedLengthOverflow
    || e == AdmittedTerminalCapacityInsufficient
  }

  /** The workflow asks for ordinary activities within their own declared bounds, and its outcome is within the execution's. */
  ghost predicate Declared(workflow: Workflow, execution: ExecutionSpec)
  {
    forall results: seq<ActivityResult> ::
      match workflow(execution.workflowInput, results)
      case Stall => true
      case Done(outcome) => |outcome.payload| <= execution.maxTerminalPayload
      case Request(call) => call.ActivityCall? && call.spec.options.maxAttempts >= 1 && |call.spec.input| <= call.spec.maxInput
  }

  /** Identity preparation: a recorded specification is the requested one, and there are no commands. */
  const IdentityPreparation := Preparation((logical, spec) => logical == spec, (id, spec, bound, class_, command) => false)

  lemma IdentityProduces()
    ensures Produces(IdentityPreparation, IdentityResolver)
  {
  }

  // ---------------------------------------------------------------- encodings

  /** A valid active payload is refused only for its size. */
  lemma ActiveRejects(payload: CheckpointPayload, limits: CheckpointLimits)
    requires payload.state.Active? && InternalError(payload, limits).None?
    ensures EncodeWithLimits(payload, limits).Err? ==> IsCapacity(EncodeWithLimits(payload, limits).error)
  {
    hide InternalError;
    hide PayloadLen;
  }

  /** So is a valid replacement of the final record. */
  lemma ReplacedRejects(payload: CheckpointPayload, record: ActivityRecord, limits: CheckpointLimits)
    requires payload.state.Active? && payload.state.activities != [] && InternalError(payload, limits).None?
    requires RecordError(record, |payload.state.activities| - 1, true).None?
    ensures
      var encoded := EncodeWithLimits(WithLast(payload, record), limits);
      encoded.Err? ==> IsCapacity(encoded.error)
  {
    hide InternalError;
    hide RecordError;
    hide EncodeWithLimits;
    InternalReplaceLast(payload, record, limits);
    ActiveRejects(WithLast(payload, record), limits);
  }

  /** A valid record appended to a completed history is refused only for the record limit or its size. */
  lemma PushRejects(payload: CheckpointPayload, record: ActivityRecord, limits: CheckpointLimits)
    requires payload.state.Active? && InternalError(payload, limits).None? && AllCompleted(payload.state.activities)
    requires RecordError(record, |payload.state.activities|, true).None?
    ensures
      var encoded := EncodeWithLimits(Push(payload, record), limits);
      encoded.Err? ==> IsCapacity(encoded.error)
  {
    hide CapacityError;
    hide RecordError;
    hide PayloadLen;
    var activities := payload.state.activities;
    var longer := activities + [record];
    HistoryErrorFrom(activities, 0);
    HistoryErrorFrom(longer, 0);
    forall i | 0 <= i < |longer| ensures RecordError(longer[i], i, i + 1 == |longer|).None? {
      if i < |activities| {
        assert RecordError(activities[i], i, i + 1 == |activities|).None?;
        FinalOrNot(activities[i], i, i + 1 == |activities|);
      }
    }
  }

  /** A completed record is as valid inside a history as at its end. */
  lemma FinalOrNot(record: ActivityRecord, index: nat, final: bool)
    requires record.state.Completed? && RecordError(record, index, final).None?
    ensures RecordError(record, index, false).None?
  {
  }

  /** A freshly scheduled ordinary activity within its bounds is valid. */
  lemma FreshRecordValid(position: nat, spec: ActivitySpec, class_: Option<CompletionClass>)
    requires spec.options.maxAttempts >= 1 && |spec.input| <= spec.maxInput
    ensures RecordError(NewRecord(position, spec, class_), position, true).None?
  {
  }

  lemma {:induction false} ProjectionRejects(contract: ExecutionContract, forms: seq<CheckpointState>, extra: nat)
    ensures
      var r := LargestProjection(contract, forms, extra);
      r.Err? ==> r.error == EncodedLengthOverflow
  {
    hide PayloadLen;
    if forms != [] { ProjectionRejects(contract, forms[..|forms| - 1], extra); }
  }

  /** A fresh execution is refused only when its declared outcome cannot be held. */
  lemma InitialRejects(execution: ExecutionSpec, limits: CheckpointLimits)
    ensures
      var start := Start(execution, None, limits);
      start.Err? ==> IsCapacity(start.error)
  {
    hide LargestProjection;
    var contract := Initial(execution, limits).execution;
    ProjectionRejects(contract, TerminalForms(), Base64Len(contract.spec.maxTerminalPayload));
  }

  /** A checkpoint of this execution under these limits decodes, unless it is a terminal one beyond the active limit. */
  lemma AdmittedDecodes(execution: ExecutionSpec, stored: Stored, limits: CheckpointLimits)
    requires Admitted(execution, Some(stored), limits)
    ensures
      var payload := stored.checkpoint.body.payload;
      var decoded := DecodeAndValidate(stored.checkpoint, execution, limits);
      && (decoded.Ok? ==> decoded.value == payload)
      && (decoded.Err? ==> decoded.error == EncodedCheckpointLimitExceeded && payload.state.Terminal?)
  {
    hide InternalError;
    hide EncodedLen;
  }

  lemma StartRejects(execution: ExecutionSpec, loaded: Option<Stored>, limits: CheckpointLimits)
    requires Admitted(execution, loaded, limits)
    ensures
      var start := Start(execution, StoredEnvelope(loaded), limits);
      start.Err? ==> IsCapacity(start.error)
  {
    hide DecodeAndValidate;
    hide EncodeWithLimits;
    hide InternalError;
    if loaded.None? { InitialRejects(execution, limits); } else { AdmittedDecodes(execution, loaded.value, limits); }
  }

  // ---------------------------------------------------------------- replay

  /** Replay of a declared workflow never refuses a preparation, and schedules only valid records. */
  lemma {:induction false} DeclaredReplay(workflow: Workflow, execution: ExecutionSpec, history: seq<ActivityRecord>, results: seq<ActivityResult>)
    requires Declared(workflow, execution) && |results| <= |history|
    ensures
      var end := ReplayFrom(workflow, execution.workflowInput, execution.executionId, history, IdentityResolver, results);
      && (end.Decided? ==> !end.decision.Refused?)
      && (end.Decided? && end.decision.Schedule? ==> RecordError(end.decision.record, |history|, true).None? && end.decision.record.prepared.None?)
      && (end.Returned? ==> |end.outcome.payload| <= execution.maxTerminalPayload)
    decreases |history| - |results|
  {
    hide RecordError;
    hide ResultOf;
    var step := workflow(execution.workflowInput, results);
    if step.Request? {
      var poll := PollCall(execution.executionId, history, IdentityResolver, |results|, step.call);
      if poll.Ready? {
        DeclaredReplay(workflow, execution, history, results + [poll.result]);
      } else if |results| == |history| {
        FreshRecordValid(|results|, step.call.spec, step.call.completionClass);
      }
    }
  }

  /** What an evaluation under these limits can reject, and what it hands on. */
  lemma EvaluateRejects(workflow: Workflow, execution: ExecutionSpec, loaded: Option<Stored>, limits: CheckpointLimits)
    requires Declared(workflow, execution) && Admitted(execution, loaded, limits)
    ensures
      var e := Evaluate(workflow, execution, StoredEnvelope(loaded), limits, IdentityResolver);
      && !e.EvaluatedPreparation?
      && (e.EvaluatedRejected? ==> IsCapacity(e.error))
      && (e.EvaluatedScheduled? ==>
            && e.payload.state.Active? && e.payload.execution.spec == execution && EncodeWithLimits(e.payload, limits).Ok?
            && LastActive(e.payload) == Some(e.record) && e.record.prepared.None?)
      && (e.EvaluatedComplete? ==>
            && e.payload.state.Active? && e.payload.execution.spec == execution && EncodeWithLimits(e.payload, limits).Ok?
            && |e.outcome.payload| <= execution.maxTerminalPayload && e.count == |e.payload.state.activities|)
  {
    hide Start;
    hide InternalError;
    hide EncodeWithLimits;
    hide DecodeAndValidate;
    hide RecordError;
    hide ReplayFrom;
    hide Declared;
    StartRejects(execution, loaded, limits);
    var start := Start(execution, StoredEnvelope(loaded), limits);
    if start.Ok? && start.value.state.Active? {
      var history := start.value.state.activities;
      IdentityProduces();
      ReplayMeaning(Program(workflow, IdentityPreparation), execution.workflowInput, execution.executionId, history, IdentityResolver, []);
      DeclaredReplay(workflow, execution, history, []);
      InternalFacts(start.value, limits);
      var end := ReplayFrom(workflow, execution.workflowInput, execution.executionId, history, IdentityResolver, []);
      if end.Decided? && end.decision.Schedule? {
        PushRejects(start.value, end.decision.record, limits);
      } else if end.Returned? {
        ActiveRejects(start.value, limits);
      }
    }
  }

  // ---------------------------------------------------------------- proposals

  /** Exposing an ordinary record of an encodable checkpoint is refused only for capacity. */
  lemma ExposureRejects(execution: ExecutionSpec, expected: Option<Revision>, payload: CheckpointPayload, activity: LogicalActivityId,
                        boundary: Boundary, host: HostState)
    requires payload.state.Active? && payload.execution.spec == execution && EncodeWithLimits(payload, host.limits).Ok?
    requires LastActive(payload).Some? && LastActive(payload).value.prepared.None? && LastActive(payload).value.state.Scheduled?
    ensures
      var c := PrepareExposure(execution, expected, Encode(payload), activity, boundary, host);
      c.Finished? ==> c.outcome.CheckpointRejected? && IsCapacity(c.outcome.error)
  {
    hide InternalError;
    hide DecodeAndValidate;
    hide EncodeWithLimits;
    hide PayloadLen;
    hide RecordError;
    EncodedFacts(payload, host.limits);
    LastRecordValid(payload, host.limits);
    var record := LastActive(payload).value;
    var exposed := ExposeAttempt(record, AttemptId(host.epoch, host.counter));
    ExposedValid(record, |payload.state.activities| - 1, AttemptId(host.epoch, host.counter));
    ReplacedRejects(payload, exposed.value, host.limits);
  }

  lemma ExposedValid(record: ActivityRecord, index: nat, attemptId: AttemptId)
    requires RecordError(record, index, true).None? && record.prepared.None? && record.state.Scheduled?
    ensures ExposeAttempt(record, attemptId).Ok? && RecordError(ExposeAttempt(record, attemptId).value, index, true).None?
  {
  }

  /** Completing within the declared bound is never refused. */
  lemma CompletionAccepted(expected: Option<Revision>, execution: ExecutionSpec, outcome: TerminalOutcome, payload: CheckpointPayload,
                           boundary: Boundary, host: HostState)
    requires payload.state.Active? && payload.execution.spec == execution && EncodeWithLimits(payload, host.limits).Ok?
    requires |outcome.payload| <= execution.maxTerminalPayload && |payload.state.activities| <= U64_MAX
    ensures CommitCompletion(expected, execution, outcome, |payload.state.activities|, Encode(payload), boundary, host).Propose?
  {
    hide InternalError;
    hide DecodeAndValidate;
    hide EncodeWithLimits;
    hide IntoTerminal;
    EncodedFacts(payload, host.limits);
    AdmittedTerminalizes(payload, outcome, host.limits);
  }

  /** The pending record of a declared workflow's history is an ordinary activity. */
  lemma PendingOrdinary(program: Program, execution: ExecutionSpec, loaded: Option<Stored>, limits: CheckpointLimits)
    requires Declared(program.workflow, execution) && Traced(program, loaded) && Admitted(execution, loaded, limits)
    requires loaded.Some? && LastActive(loaded.value.checkpoint.body.payload).Some?
    ensures LastActive(loaded.value.checkpoint.body.payload).value.prepared.None?
  {
    hide Trace;
    hide EncodeWithLimits;
    hide InternalError;
    var base, trace, end :| loaded.value.checkpoint == Encode(end) && Trace(program, base, trace, end);
    var k := |end.state.activities| - 1;
    TraceRequested(program, base, trace, end, k);
    var call := program.workflow(InputOf(end), Results(end.state.activities[..k])).call;
    assert Answers(program.prepared, end.execution.spec.executionId, call, end.state.activities[k]);
  }

  /** A fused turn of the runner rejects only for capacity. */
  lemma TurnRejects(program: Program, execution: ExecutionSpec, now: Option<i64>, loaded: Option<Stored>, host: HostState)
    requires Declared(program.workflow, execution) && Traced(program, loaded) && Admitted(execution, loaded, host.limits)
    ensures
      var c := TurnAndExpose(program.workflow, execution, ForActivities(IdentityActivity), now, loaded, host);
      c.Finished? && c.outcome.CheckpointRejected? ==> IsCapacity(c.outcome.error)
  {
    hide Evaluate;
    hide PrepareExposure;
    hide CommitCompletion;
    hide DecodeAndValidate;
    hide EncodeWithLimits;
    hide InternalError;
    hide Start;
    hide Gate;
    hide Traced;
    hide Declared;
    if loaded.Some? {
      AdmittedDecodes(execution, loaded.value, host.limits);
      StartDecodes(execution, loaded.value, host.limits);
    }
    EvaluateRejects(program.workflow, execution, loaded, host.limits);
    IdentityProduces();
    EvaluateMeaning(Program(program.workflow, IdentityPreparation), execution, StoredEnvelope(loaded), host.limits, IdentityResolver);
    var e := Evaluate(program.workflow, execution, StoredEnvelope(loaded), host.limits, IdentityResolver);
    if e.EvaluatedScheduled? {
      ExposureRejects(execution, StoredRevision(loaded), e.payload, LogicalId(e.record, execution.executionId), AtScheduleExposure, host);
    } else if e.EvaluatedPending? && e.state.Scheduled? {
      PendingOrdinary(program, execution, loaded, host.limits);
      ExposureRejects(execution, StoredRevision(loaded), loaded.value.checkpoint.body.payload, e.activity, AtScheduleExposure, host);
    } else if e.EvaluatedComplete? {
      CompletionAccepted(StoredRevision(loaded), execution, e.outcome, e.payload, AtCompletion, host);
    }
  }

  // ---------------------------------------------------------------- recovery

  lemma RetriedValid(record: ActivityRecord, index: nat, at: i64)
    requires RecordError(record, index, true).None? && record.prepared.None? && ScheduleRetry(record, at).Ok?
    ensures RecordError(ScheduleRetry(record, at).value, index, true).None?
  {
  }

  lemma FailedValid(record: ActivityRecord, index: nat, failure: ActivityFailure)
    requires RecordError(record, index, true).None? && record.prepared.None?
    requires FailurePayloadLen(Some(failure)) <= record.spec.maxResult
    ensures RecordError(WithFailure(record, failure), index, true).None?
  {
  }

  /** Retrying an exposed ordinary activity is refused only for its attempts or for capacity. */
  lemma RetryRejects(execution: ExecutionSpec, activity: LogicalActivityId, observedAt: i64, loaded: Option<Stored>, host: HostState)
    requires Locate(execution, activity, loaded, host.limits).Ok?
    requires
      var record := Locate(execution, activity, loaded, host.limits).value.record;
      record.state.DispatchExposed? && record.prepared.None?
    ensures
      var c := RetryActivity(execution, activity, observedAt, loaded, host);
      c.Finished? ==> c.outcome.CheckpointRejected? && (c.outcome.error == ActivityAttemptLimitExceeded || IsCapacity(c.outcome.error))
  {
    hide Locate;
    hide DecodeAndValidate;
    hide EncodeWithLimits;
    hide RetryNotBefore;
    hide RecordError;
    hide InternalError;
    hide HistoryError;
    hide Start;
    LocatedFacts(execution, activity, loaded, host.limits);
    var located := Locate(execution, activity, loaded, host.limits).value;
    LastRecordValid(located.payload, host.limits);
    var at := RetryNotBefore(located.record.spec.options, located.record.attempt.ordinal, observedAt);
    if at.Some? && ScheduleRetry(located.record, at.value).Ok? {
      RetriedValid(located.record, |located.payload.state.activities| - 1, at.value);
      ReplacedRejects(located.payload, ScheduleRetry(located.record, at.value).value, host.limits);
    }
  }

  /** A failure within the bound of an exposed ordinary activity is refused only for capacity. */
  lemma FailureRejects(execution: ExecutionSpec, activity: LogicalActivityId, failure: ActivityFailure, loaded: Option<Stored>, host: HostState)
    requires Locate(execution, activity, loaded, host.limits).Ok?
    requires
      var record := Locate(execution, activity, loaded, host.limits).value.record;
      record.state.DispatchExposed? && record.prepared.None? && FailurePayloadLen(Some(failure)) <= record.spec.maxResult
    ensures
      var c := ObserveFailure(execution, activity, failure, loaded, host);
      c.Finished? ==> c.outcome.CheckpointRejected? && IsCapacity(c.outcome.error)
  {
    hide Locate;
    hide DecodeAndValidate;
    hide EncodeWithLimits;
    hide RecordError;
    hide InternalError;
    hide HistoryError;
    hide Start;
    LocatedFacts(execution, activity, loaded, host.limits);
    var located := Locate(execution, activity, loaded, host.limits).value;
    LastRecordValid(located.payload, host.limits);
    FailedValid(located.record, |located.payload.state.activities| - 1, failure);
    ReplacedRejects(located.payload, WithFailure(located.record, failure), host.limits);
  }
}
