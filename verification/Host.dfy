/**
 * The durable host of `kuberic-dex/src/host.rs`. Every operation loads the stored checkpoint,
 * computes at most one proposal from it and offers that proposal to one compare-and-swap; the
 * functions below are the computing part; `HostProcess.DurableHost` is the host itself.
 */
module Host {
  import opened Base
  import opened Identity
  import opened Effects
  import opened Records
  import opened Checkpoint
  import opened Replay
  import opened Store

  datatype Boundary =
    | AtSchedule
    | AtExposure
    | AtScheduleExposure
    | AtObservation
    | AtObservationProgression
    | AtRetry
    | AtWait
    | AtCompletion

  datatype ReloadReason = ReloadConflict | ReloadUnknown

  datatype StoreOperation = LoadOperation | CasOperation(boundary: Boundary)

  datatype TerminalStatus = JustAccepted | Reloaded

  datatype ObservationRejection =
    | CheckpointMissing
    | ActivityNotExposed
    | LogicalActivityMismatch(expected: LogicalActivityId, observed: LogicalActivityId)
    | ResultExceedsDeclaredBound(actual: nat, maximum: nat)

  datatype DispatchPermit = DispatchPermit(
    activity: LogicalActivityId,
    attemptId: AttemptId,
    ordinal: u32,
    retryNotBefore: Option<i64>,
    preparedCommand: Option<PreparedCommand>)

  datatype HostOutcome =
    | ScheduleAccepted(activity: LogicalActivityId, revision: Revision)
    | DispatchPermitted(permit: DispatchPermit, revision: Revision, boundary: Boundary)
    | ObservationAccepted(activity: LogicalActivityId, revision: Revision)
    | RetryScheduled(activity: LogicalActivityId, retryAt: i64, revision: Revision)
    | Waiting(activity: LogicalActivityId, wakeAt: i64)
    | WorkflowCompleted(outcome: TerminalOutcome, count: u64, metadata: Option<CompletionMetadata>,
                        revision: Revision, boundary: Boundary, status: TerminalStatus)
    | Quarantined(activity: LogicalActivityId, attemptId: AttemptId, ordinal: u32, retryNotBefore: Option<i64>,
                  preparedCommand: Option<PreparedCommand>, completionClass: Option<CompletionClass>)
    | Nondeterministic(mismatch: Nondeterminism)
    | CheckpointRejected(error: CheckpointError)
    | ObservationRejected(rejection: ObservationRejection)
    | ReloadRequired(boundary: Boundary, reason: ReloadReason)
    | StoreFailed(operation: StoreOperation, storeError: StoreError)

  /** What an accepted proposal means to the caller. */
  datatype Acceptance =
    | AcceptSchedule(activity: LogicalActivityId)
    | AcceptExposure(permit: DispatchPermit, boundary: Boundary)
    | AcceptObservation(activity: LogicalActivityId)
    | AcceptRetry(activity: LogicalActivityId, at: i64)
    | AcceptWait(activity: LogicalActivityId, at: i64)
    | AcceptCompletion(outcome: TerminalOutcome, count: u64, metadata: Option<CompletionMetadata>, boundary: Boundary)

  function OnAccept(acceptance: Acceptance, revision: Revision): (o: HostOutcome)
  {
    match acceptance
    case AcceptSchedule(activity) => ScheduleAccepted(activity, revision)
    case AcceptExposure(permit, boundary) => DispatchPermitted(permit, revision, boundary)
    case AcceptObservation(activity) => ObservationAccepted(activity, revision)
    case AcceptRetry(activity, at) => RetryScheduled(activity, at, revision)
    case AcceptWait(activity, at) => Waiting(activity, at)
    case AcceptCompletion(outcome, count, metadata, boundary) =>
      WorkflowCompleted(outcome, count, metadata, revision, boundary, JustAccepted)
  }

  function BoundaryOf(acceptance: Acceptance): (b: Boundary)
  {
    match acceptance
    case AcceptSchedule(_) => AtSchedule
    case AcceptExposure(_, boundary) => boundary
    case AcceptObservation(_) => AtObservation
    case AcceptRetry(_, _) => AtRetry
    case AcceptWait(_, _) => AtWait
    case AcceptCompletion(_, _, _, boundary) => boundary
  }

  /** The host's answer to the result of its compare-and-swap. */
  function OnCas(acceptance: Acceptance, result: Result<CasOutcome, StoreError>): (o: HostOutcome)
  {
    match result
    case Ok(Accepted(revision)) => OnAccept(acceptance, revision)
    case Ok(Conflict) => ReloadRequired(BoundaryOf(acceptance), ReloadConflict)
    case Ok(OutcomeUnknown) => ReloadRequired(BoundaryOf(acceptance), ReloadUnknown)
    case Err(error) => StoreFailed(CasOperation(BoundaryOf(acceptance)), error)
  }

  datatype HostState = HostState(epoch: HostEpoch, counter: u64, limits: CheckpointLimits)

  /** Either a final answer, one proposal for the store, or a panic of the host process. */
  datatype Computed =
    | Finished(outcome: HostOutcome, counter: u64)
    | Propose(expected: Option<Revision>, payload: CheckpointPayload, acceptance: Acceptance, counter: u64)
    | Panicked

  function LastActive(payload: CheckpointPayload): (r: Option<ActivityRecord>)
  {
    if payload.state.Active? && payload.state.activities != [] then Some(Last(payload.state.activities)) else None
  }

  function Reject(error: CheckpointError, host: HostState): (c: Computed)
  {
    Finished(CheckpointRejected(error), host.counter)
  }

  /** Encode a replacement of the final record and offer it against the loaded revision. */
  function ProposeLast(payload: CheckpointPayload, record: ActivityRecord, revision: Revision, acceptance: Acceptance,
                       host: HostState): (c: Computed)
    requires payload.state.Active? && payload.state.activities != []
  {
    var encoded := EncodeWithLimits(WithLast(payload, record), host.limits);
    if encoded.Err? then Reject(encoded.error, host)
    else Propose(Some(revision), WithLast(payload, record), acceptance, host.counter)
  }

  function PermitFor(record: ActivityRecord, activity: LogicalActivityId, attemptId: AttemptId): (p: DispatchPermit)
  {
    DispatchPermit(activity, attemptId, record.attempt.ordinal, record.attempt.retryNotBefore, record.prepared)
  }

  /** Reserve the declared result, take the next attempt identity and expose the final record. */
  function PrepareExposure(execution: ExecutionSpec, expected: Option<Revision>, candidate: Envelope,
                           activity: LogicalActivityId, boundary: Boundary, host: HostState): (c: Computed)
  {
    var decoded := DecodeAndValidate(candidate, execution, host.limits);
    if decoded.Err? then Reject(decoded.error, host)
    else
      var payload := decoded.value;
      if LastActive(payload).None? then Panicked
      else
        var record := LastActive(payload).value;
        var reserved := MaximumActivityCompletedLen(payload);
        if reserved.Err? then Reject(reserved.error, host)
        else if reserved.value > host.limits.maxActive then Reject(EncodedCheckpointLimitExceeded, host)
        else if host.counter == U64_MAX then Panicked
        else
          var attemptId := AttemptId(host.epoch, host.counter);
          var next := host.(counter := host.counter + 1);
          var exposed := ExposeAttempt(record, attemptId);
          if exposed.Err? then Reject(exposed.error, next)
          else
            var encoded := EncodeWithLimits(WithLast(payload, exposed.value), host.limits);
            if encoded.Err? then Reject(encoded.error, next)
            else Propose(expected, WithLast(payload, exposed.value),
                         AcceptExposure(PermitFor(record, activity, attemptId), boundary), next.counter)
  }

  /** Compact a finished execution and offer the terminal checkpoint. */
  function CommitCompletion(expected: Option<Revision>, execution: ExecutionSpec, outcome: TerminalOutcome, count: u64,
                            active: Envelope, boundary: Boundary, host: HostState): (c: Computed)
  {
    hide IntoTerminal;
    hide EncodeWithLimits;
    hide DecodeAndValidate;
    var decoded := DecodeAndValidate(active, execution, host.limits);
    if decoded.Err? then Reject(decoded.error, host)
    else
      var terminal := IntoTerminal(decoded.value, outcome, count);
      if terminal.Err? then Reject(terminal.error, host)
      else
        var encoded := EncodeWithLimits(terminal.value, host.limits);
        if encoded.Err? then Reject(encoded.error, host)
        else Propose(expected, terminal.value,
                     AcceptCompletion(outcome, count, terminal.value.state.metadata, boundary), host.counter)
  }

  // ---------------------------------------------------------------- turns

  /** Answers given straight from the stored checkpoint: rejection, a terminal reload, or quarantine. */
  function StoredAnswer(execution: ExecutionSpec, stored: Stored, limits: CheckpointLimits): (o: Option<HostOutcome>)
  {
    var decoded := DecodeAndValidate(stored.checkpoint, execution, limits);
    if decoded.Err? then Some(CheckpointRejected(decoded.error))
    else
      var payload := decoded.value;
      if payload.state.Terminal? then
        Some(WorkflowCompleted(payload.state.outcome, payload.state.completedCount, payload.state.metadata,
                               stored.revision, AtCompletion, Reloaded))
      else if LastActive(payload).Some? && LastActive(payload).value.state.DispatchExposed? then
        Some(QuarantineOf(LastActive(payload).value, execution.executionId))
      else None
  }

  function QuarantineOf(record: ActivityRecord, executionId: ExecutionId): (o: HostOutcome)
    requires record.state.DispatchExposed?
  {
    Quarantined(LogicalId(record, executionId), record.state.attemptId, record.attempt.ordinal,
                record.attempt.retryNotBefore, record.prepared, record.completionClass)
  }

  function StoredEnvelope(loaded: Option<Stored>): (e: Option<Envelope>)
  {
    if loaded.Some? then Some(loaded.value.checkpoint) else None
  }

  function StoredRevision(loaded: Option<Stored>): (r: Option<Revision>)
  {
    if loaded.Some? then Some(loaded.value.revision) else None
  }

  /** The evaluation outcomes every turn reports without touching the store. */
  function Unproductive(evaluation: Evaluation, loaded: Option<Stored>, host: HostState): (c: Computed)
  {
    match evaluation
    case EvaluatedTerminal(outcome, count) =>
      if loaded.None? then Panicked
      else Finished(WorkflowCompleted(outcome, count, None, loaded.value.revision, AtCompletion, Reloaded), host.counter)
    case EvaluatedNondeterminism(reason) => Finished(Nondeterministic(reason), host.counter)
    case EvaluatedRejected(error) => Reject(error, host)
    case EvaluatedPreparation(refusal) => Reject(PreparedActivityRejected(refusal), host)
    case EvaluatedStalled => Finished(Nondeterministic(UnsupportedSuspension), host.counter)
    case _ => Panicked
  }

  /** A pending record that a turn finds exposed although the stored answer did not. */
  function PendingQuarantine(activity: LogicalActivityId, attemptId: AttemptId, loaded: Option<Stored>,
                             execution: ExecutionSpec, detailed: bool, host: HostState): (c: Computed)
  {
    if loaded.None? then Panicked
    else
      var decoded := DecodeAndValidate(loaded.value.checkpoint, execution, host.limits);
      if decoded.Err? || LastActive(decoded.value).None? then Panicked
      else
        var record := LastActive(decoded.value).value;
        Finished(Quarantined(activity, attemptId, record.attempt.ordinal, record.attempt.retryNotBefore,
                             if detailed then record.prepared else None,
                             if detailed then record.completionClass else None), host.counter)
  }

  function Turn(workflow: Workflow, execution: ExecutionSpec, loaded: Option<Stored>, host: HostState): (c: Computed)
  {
    var answer := if loaded.Some? then StoredAnswer(execution, loaded.value, host.limits) else None;
    if answer.Some? then Finished(answer.value, host.counter)
    else
      var evaluation := Evaluate(workflow, execution, StoredEnvelope(loaded), host.limits, IdentityResolver);
      match evaluation
      case EvaluatedScheduled(record, payload) =>
        Propose(StoredRevision(loaded), payload, AcceptSchedule(LogicalId(record, execution.executionId)), host.counter)
      case EvaluatedPending(activity, state) =>
        (match state
         case Scheduled =>
           if loaded.None? then Panicked
           else PrepareExposure(execution, StoredRevision(loaded), loaded.value.checkpoint, activity, AtExposure, host)
         case DispatchExposed(attemptId) => PendingQuarantine(activity, attemptId, loaded, execution, false, host)
         case Completed(_) => Panicked)
      case EvaluatedComplete(outcome, count, payload) =>
        CommitCompletion(StoredRevision(loaded), execution, outcome, count, Encode(payload), AtCompletion, host)
      case _ => Unproductive(evaluation, loaded, host)
  }

  /** The latest gate of a scheduled record that has not elapsed, shortened by the action deadline. */
  function Gate(record: ActivityRecord, now: i64): (wake: Option<i64>)
  {
    var retry := if record.attempt.retryNotBefore.Some? && record.attempt.retryNotBefore.value > now
                 then record.attempt.retryNotBefore else None;
    var wait := if record.attempt.handlerWait.Some? && record.attempt.handlerWait.value > now
                then record.attempt.handlerWait else None;
    var gate := if retry.None? then wait else if wait.None? then retry
                else Some(if retry.value < wait.value then wait.value else retry.value);
    if gate.None? then None
    else
      var deadline := record.spec.options.actionDeadline;
      if deadline.Some? && deadline.value < gate.value then deadline else gate
  }

  /** The wakeup reported instead of exposing a gated record. */
  function GatedWait(execution: ExecutionSpec, loaded: Option<Stored>, now: Option<i64>, limits: CheckpointLimits): (o: Option<HostOutcome>)
  {
    if now.None? || loaded.None? then None
    else
      var decoded := DecodeAndValidate(loaded.value.checkpoint, execution, limits);
      if decoded.Err? || LastActive(decoded.value).None? then None
      else
        var record := LastActive(decoded.value).value;
        if !record.state.Scheduled? || Gate(record, now.value).None? then None
        else Some(Waiting(LogicalId(record, execution.executionId), Gate(record, now.value).value))
  }

  /** Fused turns resolve either prepared ordinary activities or strict effects. */
  datatype ExposureResolver = ForActivities(activities: ActivityResolver) | ForEffects(effects: EffectResolver)

  function ToResolver(resolver: ExposureResolver): (r: Resolver)
  {
    match resolver
    case ForActivities(activities) => Resolver(activities, None)
    case ForEffects(effects) => Resolver(IdentityActivity, Some(effects))
  }

  function TurnAndExpose(workflow: Workflow, execution: ExecutionSpec, resolver: ExposureResolver, now: Option<i64>,
                         loaded: Option<Stored>, host: HostState): (c: Computed)
  {
    var answer := if loaded.Some? then StoredAnswer(execution, loaded.value, host.limits) else None;
    if answer.Some? then Finished(answer.value, host.counter)
    else if GatedWait(execution, loaded, now, host.limits).Some? then
      Finished(GatedWait(execution, loaded, now, host.limits).value, host.counter)
    else
      var evaluation := Evaluate(workflow, execution, StoredEnvelope(loaded), host.limits, ToResolver(resolver));
      match evaluation
      case EvaluatedScheduled(record, payload) =>
        PrepareExposure(execution, StoredRevision(loaded), Encode(payload), LogicalId(record, execution.executionId),
                        AtScheduleExposure, host)
      case EvaluatedPending(activity, state) =>
        (match state
         case Scheduled =>
           if loaded.None? then Panicked
           else PrepareExposure(execution, StoredRevision(loaded), loaded.value.checkpoint, activity, AtScheduleExposure, host)
         case DispatchExposed(attemptId) => PendingQuarantine(activity, attemptId, loaded, execution, true, host)
         case Completed(_) => Panicked)
      case EvaluatedComplete(outcome, count, payload) =>
        CommitCompletion(StoredRevision(loaded), execution, outcome, count, Encode(payload), AtCompletion, host)
      case _ => Unproductive(evaluation, loaded, host)
  }

  // ---------------------------------------------------------------- observations

  datatype Located = Located(revision: Revision, payload: CheckpointPayload, record: ActivityRecord)

  /** The checks every observation starts with: a stored, valid, active checkpoint that ends in the named activity. */
  function Locate(execution: ExecutionSpec, activity: LogicalActivityId, loaded: Option<Stored>, limits: CheckpointLimits): (r: Result<Located, HostOutcome>)
    ensures r.Ok? ==>
      && loaded.Some? && loaded.value.revision == r.value.revision
      && loaded.value.checkpoint == Encode(r.value.payload)
      && LastActive(r.value.payload) == Some(r.value.record)
      && DecodeAndValidate(loaded.value.checkpoint, execution, limits) == Ok(r.value.payload)
      && LogicalId(r.value.record, execution.executionId) == activity
    ensures r.Err? ==> r.error.ObservationRejected? || r.error.CheckpointRejected?
  {
    hide InternalError;
    if loaded.None? then Err(ObservationRejected(CheckpointMissing))
    else
      var decoded := DecodeAndValidate(loaded.value.checkpoint, execution, limits);
      if decoded.Err? then Err(CheckpointRejected(decoded.error))
      else if LastActive(decoded.value).None? then Err(ObservationRejected(ActivityNotExposed))
      else
        var record := LastActive(decoded.value).value;
        var expected := LogicalId(record, execution.executionId);
        if expected != activity then Err(ObservationRejected(LogicalActivityMismatch(expected, activity)))
        else Ok(Located(loaded.value.revision, decoded.value, record))
  }

  function TooLong(actual: nat, maximum: nat): (o: HostOutcome)
  {
    ObservationRejected(ResultExceedsDeclaredBound(if actual > U64_MAX then U64_MAX else actual, maximum))
  }

  function Observe(execution: ExecutionSpec, activity: LogicalActivityId, result: Bytes, loaded: Option<Stored>, host: HostState): (c: Computed)
  {
    var located := Locate(execution, activity, loaded, host.limits);
    if located.Err? then Finished(located.error, host.counter)
    else
      var Located(revision, payload, record) := located.value;
      if !record.state.DispatchExposed? then Finished(ObservationRejected(ActivityNotExposed), host.counter)
      else if |result| > record.spec.maxResult then Finished(TooLong(|result|, record.spec.maxResult), host.counter)
      else ProposeLast(payload, WithState(record, Completed(result)), revision, AcceptObservation(activity), host)
  }

  function RetryActivity(execution: ExecutionSpec, activity: LogicalActivityId, observedAt: i64, loaded: Option<Stored>, host: HostState): (c: Computed)
  {
    var located := Locate(execution, activity, loaded, host.limits);
    if located.Err? then Finished(located.error, host.counter)
    else
      var Located(revision, payload, record) := located.value;
      if !record.state.DispatchExposed? then Finished(ObservationRejected(ActivityNotExposed), host.counter)
      else
        var at := RetryNotBefore(record.spec.options, record.attempt.ordinal, observedAt);
        if at.None? then Reject(ActivityAttemptLimitExceeded, host)
        else
          var retried := ScheduleRetry(record, at.value);
          if retried.Err? then Reject(retried.error, host)
          else ProposeLast(payload, retried.value, revision, AcceptRetry(activity, at.value), host)
  }

  function FailurePayloadLen(failure: Option<ActivityFailure>): (n: nat)
  {
    if failure.Some? && failure.value.Application? then |failure.value.payload| else 0
  }

  function ObserveFailure(execution: ExecutionSpec, activity: LogicalActivityId, failure: ActivityFailure, loaded: Option<Stored>, host: HostState): (c: Computed)
  {
    var located := Locate(execution, activity, loaded, host.limits);
    if located.Err? then Finished(located.error, host.counter)
    else
      var Located(revision, payload, record) := located.value;
      var actual := FailurePayloadLen(Some(failure));
      if !record.state.DispatchExposed? then Finished(ObservationRejected(ActivityNotExposed), host.counter)
      else if actual > record.spec.maxResult then Finished(TooLong(actual, record.spec.maxResult), host.counter)
      else ProposeLast(payload, WithFailure(record, failure), revision, AcceptObservation(activity), host)
  }

  function DeferActivity(execution: ExecutionSpec, activity: LogicalActivityId, waitUntil: i64, loaded: Option<Stored>, host: HostState): (c: Computed)
  {
    var located := Locate(execution, activity, loaded, host.limits);
    if located.Err? then Finished(located.error, host.counter)
    else
      var Located(revision, payload, record) := located.value;
      var deferred := DeferWait(record, waitUntil);
      if deferred.Err? then Reject(deferred.error, host)
      else ProposeLast(payload, deferred.value, revision, AcceptWait(activity, waitUntil), host)
  }

  /** An authoritative strict-effect observation for one exact attempt. */
  datatype EffectObservation = EffectObservation(
    activity: LogicalActivityId,
    attemptId: AttemptId,
    result: Bytes,
    failure: Option<ActivityFailure>,
    disposition: Disposition)

  function ObserveEffect(execution: ExecutionSpec, observation: EffectObservation, allowRedelivery: bool, loaded: Option<Stored>, host: HostState): (c: Computed)
  {
    var disposition := if allowRedelivery then observation.disposition else DispositionCompleted;
    var located := Locate(execution, observation.activity, loaded, host.limits);
    if located.Err? then Finished(located.error, host.counter)
    else
      var Located(revision, payload, record) := located.value;
      var failed := FailurePayloadLen(observation.failure);
      var actual := if |observation.result| < failed then failed else |observation.result|;
      if record.state != DispatchExposed(observation.attemptId) then Finished(ObservationRejected(ActivityNotExposed), host.counter)
      else if actual > record.spec.maxResult then Finished(TooLong(actual, record.spec.maxResult), host.counter)
      else
        var observed := ObserveEffectAttempt(record, observation.attemptId, disposition, observation.result, observation.failure);
        if observed.Err? then Reject(observed.error, host)
        else ProposeLast(payload, observed.value, revision, AcceptObservation(observation.activity), host)
  }

  function ObserveAndTurn(workflow: Workflow, execution: ExecutionSpec, activity: LogicalActivityId, result: Bytes,
                          resolver: ActivityResolver, loaded: Option<Stored>, host: HostState): (c: Computed)
  {
    var located := Locate(execution, activity, loaded, host.limits);
    if located.Err? then Finished(located.error, host.counter)
    else
      var Located(revision, payload, record) := located.value;
      if !record.state.DispatchExposed? then Finished(ObservationRejected(ActivityNotExposed), host.counter)
      else if |result| > record.spec.maxResult then Finished(TooLong(|result|, record.spec.maxResult), host.counter)
      else
        var completed := WithLast(payload, WithState(record, Completed(result)));
        var encoded := EncodeWithLimits(completed, host.limits);
        if encoded.Err? then Reject(encoded.error, host)
        else
          var evaluation := Evaluate(workflow, execution, Some(Encode(completed)), host.limits, Resolver(resolver, None));
          match evaluation
          case EvaluatedScheduled(next, scheduled) =>
            PrepareExposure(execution, Some(revision), Encode(scheduled), LogicalId(next, execution.executionId),
                            AtObservationProgression, host)
          case EvaluatedComplete(outcome, count, active) =>
            CommitCompletion(Some(revision), execution, outcome, count, Encode(active), AtObservationProgression, host)
          case EvaluatedPending(pending, state) =>
            if state.DispatchExposed? then
              Finished(Quarantined(pending, state.attemptId, record.attempt.ordinal, record.attempt.retryNotBefore, None, None), host.counter)
            else Finished(Nondeterministic(UnsupportedSuspension), host.counter)
          case _ => Unproductive(evaluation, loaded, host)
  }

  // ---------------------------------------------------------------- operations

  datatype Op =
    | OpTurn
    | OpTurnAndExpose(resolver: ExposureResolver, now: Option<i64>)
    | OpObserve(activity: LogicalActivityId, result: Bytes)
    | OpRetry(activity: LogicalActivityId, observedAt: i64)
    | OpFailure(activity: LogicalActivityId, failure: ActivityFailure)
    | OpWait(activity: LogicalActivityId, waitUntil: i64)
    | OpEffect(observation: EffectObservation, allowRedelivery: bool)
    | OpObserveAndTurn(activity: LogicalActivityId, result: Bytes, activities: ActivityResolver)

  function Compute(workflow: Workflow, execution: ExecutionSpec, op: Op, loaded: Option<Stored>, host: HostState): (c: Computed)
  {
    match op
    case OpTurn => Turn(workflow, execution, loaded, host)
    case OpTurnAndExpose(resolver, now) => TurnAndExpose(workflow, execution, resolver, now, loaded, host)
    case OpObserve(activity, result) => Observe(execution, activity, result, loaded, host)
    case OpRetry(activity, observedAt) => RetryActivity(execution, activity, observedAt, loaded, host)
    case OpFailure(activity, failure) => ObserveFailure(execution, activity, failure, loaded, host)
    case OpWait(activity, waitUntil) => DeferActivity(execution, activity, waitUntil, loaded, host)
    case OpEffect(observation, allow) => ObserveEffect(execution, observation, allow, loaded, host)
    case OpObserveAndTurn(activity, result, activities) =>
      ObserveAndTurn(workflow, execution, activity, result, activities, loaded, host)
  }
}
