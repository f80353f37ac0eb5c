/** Activity records and checkpoint payloads of `kuberic-dex/src/checkpoint.rs`. */
module Records {
  import opened Base
  import opened Identity
  import opened Effects

  datatype ActivityState =
    | Scheduled
    | DispatchExposed(attemptId: AttemptId)
    | Completed(result: Bytes)

  datatype ActivityFailure = Application(payload: Bytes) | TimedOut | ActionDeadlineExceeded

  datatype AttemptState = AttemptState(ordinal: u32, retryNotBefore: Option<i64>, handlerWait: Option<i64>)

  const FirstAttempt := AttemptState(1, None, None)

  datatype ActivityRecord = ActivityRecord(
    sequence: nat,
    spec: ActivitySpec,
    attempt: AttemptState,
    prepared: Option<PreparedCommand>,
    completionClass: Option<CompletionClass>,
    attempts: seq<EffectAttempt>,
    failure: Option<ActivityFailure>,
    state: ActivityState)

  datatype TerminalOutcome = Succeeded(payload: Bytes) | Failed(payload: Bytes)

  datatype ExecutionContract = ExecutionContract(
    spec: ExecutionSpec,
    admittedActive: u64,
    admittedTerminal: Option<u64>)

  datatype CheckpointState =
    | Active(activities: seq<ActivityRecord>)
    | Terminal(outcome: TerminalOutcome, completedCount: u64, metadata: Option<CompletionMetadata>)

  datatype CheckpointPayload = CheckpointPayload(execution: ExecutionContract, state: CheckpointState)

  datatype CheckpointLimits = CheckpointLimits(maxRecords: u64, maxActive: u64, maxTerminal: u64)

  datatype PreparedActivityError =
    | Derivation
    | Validation
    | Encoding
    | InputTooLarge
    | ResultBoundTooLarge
    | PreparedCommandTooLarge
    | CommandBoundMismatch

  datatype CheckpointError =
    | PreparedActivityRejected(reason: PreparedActivityError)
    | UnsupportedFormat
    | InvalidJson
    | ExecutionMismatch
    | WorkflowInputMismatch
    | TerminalPayloadBoundMismatch
    | ActivityRecordLimitExceeded
    | ActivityAttemptLimitExceeded
    | RetryRequiresExposedActivity
    | FailureRequiresCompletedActivity
    | EncodedCheckpointLimitExceeded
    | TerminalEncodedCheckpointLimitExceeded
    | ConfiguredCapacityBelowAdmission
    | ConfiguredCapacityAboveAdmission
    | TerminalEncodedCheckpointCapacityMismatch
    | AdmittedTerminalCapacityInsufficient
    | EncodedLengthOverflow
    | MissingPendingActivity
    | ExpectedActiveCheckpoint
    | CompletedResultExceedsDeclared
    | ActivityInputExceedsDeclared
    | TerminalPayloadExceedsDeclared
    | HistoryTooLong
    | NonContiguousSequence
    | PendingActivityNotFinal
    | EffectContract(violation: EffectContractError)
    | MissingPreparedCommand
    | MissingCompletionClass

  function NewRecord(sequence: nat, spec: ActivitySpec, completionClass: Option<CompletionClass>): (r: ActivityRecord)
  {
    ActivityRecord(sequence, spec, FirstAttempt, None, completionClass, [], None, Scheduled)
  }

  function NewEffect(sequence: nat, spec: ActivitySpec, command: PreparedCommand, class_: CompletionClass): (r: ActivityRecord)
  {
    ActivityRecord(sequence, spec, FirstAttempt, Some(command), Some(class_), [], None, Scheduled)
  }

  function LogicalId(record: ActivityRecord, executionId: ExecutionId): (id: LogicalActivityId)
  {
    LogicalActivityId(executionId, record.sequence, record.spec)
  }

  function WithState(record: ActivityRecord, state: ActivityState): (r: ActivityRecord)
  {
    record.(failure := None, state := state)
  }

  function WithFailure(record: ActivityRecord, failure: ActivityFailure): (r: ActivityRecord)
  {
    record.(failure := Some(failure), state := Completed([]))
  }

  function ScheduleRetry(record: ActivityRecord, retryNotBefore: i64): (r: Result<ActivityRecord, CheckpointError>)
  {
    if !record.state.DispatchExposed? then Err(RetryRequiresExposedActivity)
    else if record.attempt.ordinal == U32_MAX then Err(ActivityAttemptLimitExceeded)
    else if record.attempt.ordinal + 1 > record.spec.options.maxAttempts then Err(ActivityAttemptLimitExceeded)
    else Ok(record.(attempt := AttemptState(record.attempt.ordinal + 1, Some(retryNotBefore), None), state := Scheduled))
  }

  function DeferWait(record: ActivityRecord, waitUntil: i64): (r: Result<ActivityRecord, CheckpointError>)
  {
    if !record.state.DispatchExposed? then Err(RetryRequiresExposedActivity)
    else Ok(record.(attempt := record.attempt.(handlerWait := Some(waitUntil)), state := Scheduled))
  }

  function ExposeAttempt(record: ActivityRecord, attemptId: AttemptId): (r: Result<ActivityRecord, CheckpointError>)
  {
    var attempts := if record.prepared.Some? then record.attempts + [EffectAttempt(attemptId, Exposed)] else record.attempts;
    var refused := if record.prepared.Some? then ValidateEffectAttempts(attempts) else None;
    if refused.Some? then Err(EffectContract(refused.value))
    else
      Ok(record.(attempt := record.attempt.(handlerWait := None), attempts := attempts,
                 state := DispatchExposed(attemptId)))
  }

  function ObserveEffectAttempt(record: ActivityRecord, attemptId: AttemptId, disposition: Disposition,
                                result: Bytes, failure: Option<ActivityFailure>): (r: Result<ActivityRecord, CheckpointError>)
  {
    var n := |record.attempts|;
    if n == 0 then Err(EffectContract(NoRecordedAttempt))
    else if record.attempts[n - 1] != EffectAttempt(attemptId, Exposed) then Err(EffectContract(AttemptMismatch))
    else
      var reopens := disposition == DispositionProvenNoAdmission && n == 1;
      var attempts := record.attempts[n - 1 := EffectAttempt(attemptId, if reopens then ProvenNoAdmission else Observed)];
      var updated :=
        if reopens then record.(attempts := attempts, state := Scheduled)
        else if failure.Some? then WithFailure(record.(attempts := attempts), failure.value)
        else record.(attempts := attempts, state := Completed(result));
      var refused := ValidateEffectAttempts(attempts);
      if refused.Some? then Err(EffectContract(refused.value)) else Ok(updated)
  }

  /** The workflow-visible value of a completed record. */
  datatype ActivityResult = Delivered(bytes: Bytes) | Failure(failure: ActivityFailure)

  function ResultOf(record: ActivityRecord): (r: ActivityResult)
    requires record.state.Completed?
  {
    if record.failure.Some? then Failure(record.failure.value) else Delivered(record.state.result)
  }

  predicate AllCompleted(activities: seq<ActivityRecord>)
  {
    forall i :: 0 <= i < |activities| ==> activities[i].state.Completed?
  }

  function Results(activities: seq<ActivityRecord>): (r: seq<ActivityResult>)
    requires AllCompleted(activities)
    ensures |r| == |activities|
    ensures forall i :: 0 <= i < |r| ==> r[i] == ResultOf(activities[i])
  {
    seq(|activities|, i requires 0 <= i < |activities| => ResultOf(activities[i]))
  }

  function Last(activities: seq<ActivityRecord>): (r: ActivityRecord)
    requires activities != []
  {
    activities[|activities| - 1]
  }

  function ReplaceLast(activities: seq<ActivityRecord>, record: ActivityRecord): (r: seq<ActivityRecord>)
    requires activities != []
    ensures |r| == |activities| && Last(r) == record
    ensures r[..|r| - 1] == activities[..|activities| - 1]
  {
    activities[|activities| - 1 := record]
  }

  /** The checkpoint after the final record is replaced. */
  function WithLast(payload: CheckpointPayload, record: ActivityRecord): (p: CheckpointPayload)
    requires payload.state.Active? && payload.state.activities != []
  {
    payload.(state := Active(ReplaceLast(payload.state.activities, record)))
  }
}
