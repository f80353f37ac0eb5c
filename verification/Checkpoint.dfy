/** Validation, encoding and terminal compaction of `kuberic-dex/src/checkpoint.rs`. */
module Checkpoint {
  import opened Base
  import opened Identity
  import opened Effects
  import opened Records
  import opened EncodedSize

  const CHECKPOINT_FORMAT_VERSION: u32 := 4

  /** Stored bytes either decode to a payload or are malformed text of some length. */
  datatype Body = Json(payload: CheckpointPayload) | Malformed(length: nat)

  datatype Envelope = Envelope(version: u32, body: Body)

  function BodyLen(body: Body): (n: nat)
  {
    match body
    case Json(payload) => PayloadLen(payload)
    case Malformed(length) => length
  }

  function EncodedLen(envelope: Envelope): (r: Result<nat, CheckpointError>)
  {
    EnvelopeLen(envelope.version, BodyLen(envelope.body))
  }

  function AdmittedTerminalBytes(contract: ExecutionContract): (n: u64)
  {
    if contract.admittedTerminal.Some? then contract.admittedTerminal.value else contract.admittedActive
  }

  // ---------------------------------------------------------------- capacity projections

  const MAXIMUM_SPLIT: u64 := 10_000_000_000_000_000_000

  const MaximumMetadata := CompletionMetadata(U64_MAX, U64_MAX, 0)

  const MaximumSplitMetadata := CompletionMetadata(U64_MAX, MAXIMUM_SPLIT, U64_MAX - MAXIMUM_SPLIT)

  /** The empty-payload terminal forms whose sizes bound every terminal checkpoint. */
  function TerminalForms(): (forms: seq<CheckpointState>)
  {
    [Terminal(Succeeded([]), U64_MAX, None),
     Terminal(Failed([]), U64_MAX, None),
     Terminal(Succeeded([]), U64_MAX, Some(MaximumMetadata)),
     Terminal(Failed([]), U64_MAX, Some(MaximumMetadata)),
     Terminal(Succeeded([]), U64_MAX, Some(MaximumSplitMetadata)),
     Terminal(Failed([]), U64_MAX, Some(MaximumSplitMetadata))]
  }

  /** Envelope size of a payload once `extra` more base64 characters are added to it. */
  function Projected(payload: CheckpointPayload, extra: nat): (r: Result<nat, CheckpointError>)
  {
    EnvelopeLen(CHECKPOINT_FORMAT_VERSION, PayloadLen(payload) + extra)
  }

  function LargestProjection(contract: ExecutionContract, forms: seq<CheckpointState>, extra: nat): (r: Result<nat, CheckpointError>)
    ensures r.Ok? ==> forall i :: 0 <= i < |forms| ==>
      var p := Projected(CheckpointPayload(contract, forms[i]), extra); p.Ok? && p.value <= r.value
  {
    if forms == [] then Ok(0)
    else
      var rest := LargestProjection(contract, forms[..|forms| - 1], extra);
      var last := Projected(CheckpointPayload(contract, forms[|forms| - 1]), extra);
      if rest.Err? then rest
      else if last.Err? then last
      else Ok(if rest.value < last.value then last.value else rest.value)
  }

  function MaximumTerminalEncodedLen(contract: ExecutionContract): (r: Result<nat, CheckpointError>)
  {
    LargestProjection(contract, TerminalForms(), Base64Len(contract.spec.maxTerminalPayload))
  }

  /** Size of the checkpoint once its final record completes with a result at the declared bound. */
  function MaximumActivityCompletedLen(payload: CheckpointPayload): (r: Result<nat, CheckpointError>)
  {
    if payload.state.Terminal? then Err(ExpectedActiveCheckpoint)
    else if payload.state.activities == [] then Err(MissingPendingActivity)
    else
      var record := Last(payload.state.activities);
      Projected(WithLast(payload, record.(state := Completed([]))), Base64Len(record.spec.maxResult))
  }

  // ---------------------------------------------------------------- validation

  /** The two-attempt ledger agrees with the persisted activity state. */
  predicate LedgerMatchesState(record: ActivityRecord)
  {
    var a := record.attempts;
    match record.state
    case Scheduled => a == [] || (|a| == 1 && a[0].state == ProvenNoAdmission)
    case DispatchExposed(id) =>
      || (|a| == 1 && a[0] == EffectAttempt(id, Exposed))
      || (|a| == 2 && a[0].state == ProvenNoAdmission && a[1] == EffectAttempt(id, Exposed))
    case Completed(_) =>
      || (|a| == 1 && a[0].state == Observed)
      || (|a| == 2 && a[0].state == ProvenNoAdmission && a[1].state == Observed)
  }

  function EffectError(record: ActivityRecord): (e: Option<CheckpointError>)
  {
    match (record.prepared, record.completionClass)
    case (Some(command), Some(_)) =>
      if |command.bytes| > command.maxBytes then Some(EffectContract(CommandTooLarge))
      else
        var ledger := ValidateEffectAttempts(record.attempts);
        if ledger.Some? then Some(EffectContract(ledger.value))
        else if !LedgerMatchesState(record) then Some(EffectContract(LedgerMismatch))
        else None
    case (None, _) => if record.attempts == [] then None else Some(MissingPreparedCommand)
    case (Some(_), None) => Some(MissingCompletionClass)
  }

  function FailureError(record: ActivityRecord): (e: Option<CheckpointError>)
  {
    if record.failure.None? then None
    else if !record.state.Completed? then Some(FailureRequiresCompletedActivity)
    else if record.failure.value.Application? && |record.failure.value.payload| > record.spec.maxResult then
      Some(CompletedResultExceedsDeclared)
    else None
  }

  /** The first violation of one record at position `index`, in the order the loop checks them. */
  function RecordError(record: ActivityRecord, index: nat, final: bool): (e: Option<CheckpointError>)
  {
    if record.sequence != index then Some(NonContiguousSequence)
    else if record.attempt.ordinal == 0 || record.attempt.ordinal > record.spec.options.maxAttempts then
      Some(ActivityAttemptLimitExceeded)
    else if record.attempt.ordinal == 1 && record.attempt.retryNotBefore.Some? then Some(RetryRequiresExposedActivity)
    else if |record.spec.input| > record.spec.maxInput then Some(ActivityInputExceedsDeclared)
    else if EffectError(record).Some? then EffectError(record)
    else if FailureError(record).Some? then FailureError(record)
    else if record.state.Completed? then
      if |record.state.result| > record.spec.maxResult then Some(CompletedResultExceedsDeclared) else None
    else if !final then Some(PendingActivityNotFinal)
    else None
  }

  function HistoryError(activities: seq<ActivityRecord>, index: nat): (e: Option<CheckpointError>)
    requires index <= |activities|
    decreases |activities| - index
  {
    if index == |activities| then None
    else
      var e := RecordError(activities[index], index, index + 1 == |activities|);
      if e.Some? then e else HistoryError(activities, index + 1)
  }

  method ValidateActiveHistory(activities: seq<ActivityRecord>) returns (e: Option<CheckpointError>)
    ensures e == HistoryError(activities, 0)
  {
    var index := 0;
    while index < |activities|
      invariant 0 <= index <= |activities|
      invariant HistoryError(activities, 0) == HistoryError(activities, index)
    {
      e := RecordError(activities[index], index, index + 1 == |activities|);
      if e.Some? { return; }
      index := index + 1;
    }
    e := None;
  }

  /** Every record of the history is acceptable at its own position. */
  ghost predicate ValidHistory(activities: seq<ActivityRecord>)
  {
    forall i :: 0 <= i < |activities| ==> RecordError(activities[i], i, i + 1 == |activities|).None?
  }

  lemma {:induction false} HistoryErrorFrom(activities: seq<ActivityRecord>, index: nat)
    requires index <= |activities|
    ensures HistoryError(activities, index).None? <==>
      forall i :: index <= i < |activities| ==> RecordError(activities[i], i, i + 1 == |activities|).None?
    decreases |activities| - index
  {
    if index < |activities| { HistoryErrorFrom(activities, index + 1); }
  }

  /**
   * What the validation loop accepts, said without the loop: sequences are contiguous from zero,
   * every record but the last is completed, attempts stay within their limit, strict effects keep a
   * consistent ledger of at most two distinct attempts, ordinary records keep none, and inputs,
   * results and failures respect their declared bounds.
   */
  ghost predicate WellFormedHistory(activities: seq<ActivityRecord>)
  {
    && (forall i :: 0 <= i < |activities| ==> activities[i].sequence == i)
    && (forall i :: 0 <= i < |activities| - 1 ==> activities[i].state.Completed?)
    && (forall i :: 0 <= i < |activities| ==> 1 <= activities[i].attempt.ordinal <= activities[i].spec.options.maxAttempts)
    && (forall i :: 0 <= i < |activities| && activities[i].attempt.ordinal == 1 ==> activities[i].attempt.retryNotBefore.None?)
    && (forall i :: 0 <= i < |activities| ==> WellFormedLedger(activities[i]))
    && (forall i :: 0 <= i < |activities| ==> WithinBounds(activities[i]))
  }

  ghost predicate WellFormedLedger(record: ActivityRecord)
  {
    if record.prepared.None? then record.attempts == []
    else
      && record.completionClass.Some?
      && |record.prepared.value.bytes| <= record.prepared.value.maxBytes
      && |record.attempts| <= 2
      && (|record.attempts| == 2 ==> record.attempts[0].attemptId != record.attempts[1].attemptId)
      && LedgerMatchesState(record)
  }

  ghost predicate WithinBounds(record: ActivityRecord)
  {
    && |record.spec.input| <= record.spec.maxInput
    && (record.failure.Some? ==> record.state.Completed?)
    && (record.failure.Some? && record.failure.value.Application? ==> |record.failure.value.payload| <= record.spec.maxResult)
    && (record.state.Completed? ==> |record.state.result| <= record.spec.maxResult)
  }

  /** The validation loop accepts exactly the well-formed histories. */
  lemma HistoryAcceptedIff(activities: seq<ActivityRecord>)
    ensures HistoryError(activities, 0).None? <==> WellFormedHistory(activities)
    ensures HistoryError(activities, 0).None? <==> ValidHistory(activities)
  {
    HistoryErrorFrom(activities, 0);
    if ValidHistory(activities) {
      forall i | 0 <= i < |activities|
        ensures WellFormedLedger(activities[i]) && WithinBounds(activities[i]) && activities[i].sequence == i
        ensures i < |activities| - 1 ==> activities[i].state.Completed?
      {
        assert RecordError(activities[i], i, i + 1 == |activities|).None?;
      }
    }
    if WellFormedHistory(activities) {
      forall i | 0 <= i < |activities|
        ensures RecordError(activities[i], i, i + 1 == |activities|).None?
      {
        assert WellFormedLedger(activities[i]) && WithinBounds(activities[i]);
      }
    }
  }

  function CapacityError(contract: ExecutionContract, limits: CheckpointLimits): (e: Option<CheckpointError>)
  {
    var required := MaximumTerminalEncodedLen(contract);
    if required.Err? then Some(required.error)
    else if required.value > AdmittedTerminalBytes(contract) then Some(AdmittedTerminalCapacityInsufficient)
    else if limits.maxTerminal != AdmittedTerminalBytes(contract) then Some(TerminalEncodedCheckpointCapacityMismatch)
    else if limits.maxActive < contract.admittedActive then Some(ConfiguredCapacityBelowAdmission)
    else if limits.maxActive > contract.admittedActive then Some(ConfiguredCapacityAboveAdmission)
    else None
  }

  function TerminalError(contract: ExecutionContract, outcome: TerminalOutcome, count: u64,
                         metadata: Option<CompletionMetadata>): (e: Option<CheckpointError>)
  {
    if |outcome.payload| > contract.spec.maxTerminalPayload then Some(TerminalPayloadExceedsDeclared)
    else if metadata.None? then None
    else
      var m := metadata.value;
      var checked := FromCounts(m.completed, m.external, m.passive);
      if checked.Err? then Some(EffectContract(checked.error))
      else if m.completed != count then Some(EffectContract(TerminalCountMismatch))
      else None
  }

  function InternalError(payload: CheckpointPayload, limits: CheckpointLimits): (e: Option<CheckpointError>)
  {
    var capacity := CapacityError(payload.execution, limits);
    if capacity.Some? then capacity
    else
      match payload.state
      case Active(activities) =>
        if |activities| > limits.maxRecords then Some(ActivityRecordLimitExceeded) else HistoryError(activities, 0)
      case Terminal(outcome, count, metadata) => TerminalError(payload.execution, outcome, count, metadata)
  }

  function PayloadError(payload: CheckpointPayload, expected: ExecutionSpec, limits: CheckpointLimits): (e: Option<CheckpointError>)
  {
    if payload.execution.spec.executionId != expected.executionId then Some(ExecutionMismatch)
    else if payload.execution.spec.workflowInput != expected.workflowInput then Some(WorkflowInputMismatch)
    else if payload.execution.spec.maxTerminalPayload != expected.maxTerminalPayload then Some(TerminalPayloadBoundMismatch)
    else InternalError(payload, limits)
  }

  function LifecycleSizeError(envelope: Envelope, state: CheckpointState, limits: CheckpointLimits): (e: Option<CheckpointError>)
  {
    var len := EncodedLen(envelope);
    if len.Err? then Some(len.error)
    else if state.Active? && len.value > limits.maxActive then Some(EncodedCheckpointLimitExceeded)
    else if state.Terminal? && len.value > limits.maxTerminal then Some(TerminalEncodedCheckpointLimitExceeded)
    else None
  }

  function Encode(payload: CheckpointPayload): (e: Envelope)
  {
    Envelope(CHECKPOINT_FORMAT_VERSION, Json(payload))
  }

  function EncodeWithLimits(payload: CheckpointPayload, limits: CheckpointLimits): (r: Result<Envelope, CheckpointError>)
  {
    var internal := InternalError(payload, limits);
    if internal.Some? then Err(internal.value)
    else
      var size := LifecycleSizeError(Encode(payload), payload.state, limits);
      if size.Some? then Err(size.value) else Ok(Encode(payload))
  }

  function DecodeAndValidate(envelope: Envelope, expected: ExecutionSpec, limits: CheckpointLimits): (r: Result<CheckpointPayload, CheckpointError>)
  {
    if envelope.version != CHECKPOINT_FORMAT_VERSION then Err(UnsupportedFormat)
    else
      var len := EncodedLen(envelope);
      if len.Err? then Err(len.error)
      else if len.value > limits.maxActive then Err(EncodedCheckpointLimitExceeded)
      else if envelope.body.Malformed? then Err(InvalidJson)
      else
        var payload := envelope.body.payload;
        var size := LifecycleSizeError(envelope, payload.state, limits);
        if size.Some? then Err(size.value)
        else
          var invalid := PayloadError(payload, expected, limits);
          if invalid.Some? then Err(invalid.value) else Ok(payload)
  }

  /**
   * A payload this host accepted for writing decodes back to itself exactly when it also fits the
   * active limit, which decoding applies to terminal checkpoints as well.
   */
  lemma EncodedDecodes(payload: CheckpointPayload, limits: CheckpointLimits)
    requires EncodeWithLimits(payload, limits).Ok?
    ensures DecodeAndValidate(Encode(payload), payload.execution.spec, limits) == Ok(payload)
      <==> EncodedLen(Encode(payload)).value <= limits.maxActive
    ensures payload.state.Active? ==> DecodeAndValidate(Encode(payload), payload.execution.spec, limits) == Ok(payload)
  {
  }

  // ---------------------------------------------------------------- terminal compaction

  predicate AllClassified(activities: seq<ActivityRecord>)
  {
    forall i :: 0 <= i < |activities| ==> activities[i].completionClass.Some?
  }

  function Classes(activities: seq<ActivityRecord>): (c: seq<CompletionClass>)
    requires AllClassified(activities)
    ensures |c| == |activities|
  {
    seq(|activities|, i requires 0 <= i < |activities| => activities[i].completionClass.value)
  }

  function IntoTerminal(payload: CheckpointPayload, outcome: TerminalOutcome, count: u64): (r: Result<CheckpointPayload, CheckpointError>)
    ensures r.Ok? ==>
      && payload.state.Active?
      && r.value.execution == payload.execution
      && r.value.state.Terminal? && r.value.state.outcome == outcome && r.value.state.completedCount == count
      && (r.value.state.metadata.Some? <==> payload.state.activities != [] && AllClassified(payload.state.activities))
      && (r.value.state.metadata.Some? ==>
            && r.value.state.metadata.value.completed == count == |payload.state.activities|
            && r.value.state.metadata.value.external == CountOf(Classes(payload.state.activities), ExternalEffect)
            && r.value.state.metadata.value.passive == CountOf(Classes(payload.state.activities), PassiveObservation))
    ensures payload.state.Active? && count == |payload.state.activities| ==>
      (r.Ok? <==> |outcome.payload| <= payload.execution.spec.maxTerminalPayload)
    ensures payload.state.Terminal? ==> r == Err(ExpectedActiveCheckpoint)
  {
    if payload.state.Terminal? then Err(ExpectedActiveCheckpoint)
    else if |outcome.payload| > payload.execution.spec.maxTerminalPayload then Err(TerminalPayloadExceedsDeclared)
    else
      var activities := payload.state.activities;
      if activities != [] && AllClassified(activities) then
        var metadata := Summary(Classes(activities));
        if metadata.Err? then Err(EffectContract(metadata.error))
        else if metadata.value.completed != count then Err(EffectContract(ReplayCountMismatch))
        else Ok(CheckpointPayload(payload.execution, Terminal(outcome, count, Some(metadata.value))))
      else Ok(CheckpointPayload(payload.execution, Terminal(outcome, count, None)))
  }
}
