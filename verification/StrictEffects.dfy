/** Ledger validation keeps ordinary observations away from strict effects. */
module StrictEffects {
  import opened Base
  import opened Identity
  import opened Effects
  import opened Records
  import opened Checkpoint
  import opened Replay
  import opened Store
  import opened Host
  import opened Steps

  /** Replacing the final record of a valid history leaves only that record to object. */
  lemma {:induction false} ReplacedError(activities: seq<ActivityRecord>, record: ActivityRecord, index: nat)
    requires activities != [] && HistoryError(activities, 0).None? && index < |activities|
    ensures HistoryError(ReplaceLast(activities, record), index) == RecordError(record, |activities| - 1, true)
    decreases |activities| - index
  {
    hide RecordError;
    var replaced := ReplaceLast(activities, record);
    if index == |activities| - 1 {
      assert HistoryError(replaced, |replaced|) == None;
    } else {
      HistoryErrorFrom(activities, 0);
      assert RecordError(activities[index], index, index + 1 == |activities|).None?;
      ReplacedError(activities, record, index + 1);
    }
  }

  /** An exposed strict effect whose ledger still says `exposed` cannot be stored in any other state. */
  lemma LedgerRefuses(payload: CheckpointPayload, record: ActivityRecord, limits: CheckpointLimits)
    requires payload.state.Active? && payload.state.activities != [] && InternalError(payload, limits).None?
    requires
      var last := Last(payload.state.activities);
      && last.prepared.Some? && last.state.DispatchExposed? && !record.state.DispatchExposed?
      && record == last.(attempt := record.attempt, failure := record.failure, state := record.state)
      && 1 <= record.attempt.ordinal <= record.spec.options.maxAttempts
      && (record.attempt.ordinal == 1 ==> record.attempt.retryNotBefore.None?)
    ensures EncodeWithLimits(WithLast(payload, record), limits) == Err(EffectContract(LedgerMismatch))
  {
    hide CapacityError;
    hide HistoryError;
    hide EncodedLen;
    var activities := payload.state.activities;
    ReplacedError(activities, record, 0);
    InternalFacts(payload, limits);
    ValidSequence(activities, |activities| - 1);
    assert RecordError(record, |activities| - 1, true) == Some(EffectContract(LedgerMismatch));
  }

  /** The stored checkpoint of `located` ends in an exposed strict effect. */
  ghost predicate LocatesStrict(execution: ExecutionSpec, activity: LogicalActivityId, loaded: Option<Stored>, limits: CheckpointLimits)
  {
    var located := Locate(execution, activity, loaded, limits);
    located.Ok? && located.value.record.prepared.Some? && located.value.record.state.DispatchExposed?
  }

  ghost predicate RefusedByLedger(c: Computed, host: HostState)
  {
    c == Finished(CheckpointRejected(EffectContract(LedgerMismatch)), host.counter)
  }

  lemma StrictReplacementRefused(execution: ExecutionSpec, activity: LogicalActivityId, loaded: Option<Stored>, record: ActivityRecord,
                                 acceptance: Acceptance, host: HostState)
    requires LocatesStrict(execution, activity, loaded, host.limits)
    requires
      var last := Locate(execution, activity, loaded, host.limits).value.record;
      && !record.state.DispatchExposed?
      && record == last.(attempt := record.attempt, failure := record.failure, state := record.state)
      && last.attempt.ordinal <= record.attempt.ordinal <= record.spec.options.maxAttempts
      && (record.attempt.ordinal == last.attempt.ordinal ==> record.attempt.retryNotBefore == last.attempt.retryNotBefore)
    ensures
      var located := Locate(execution, activity, loaded, host.limits).value;
      RefusedByLedger(ProposeLast(located.payload, record, located.revision, acceptance, host), host)
  {
    hide InternalError;
    hide EncodeWithLimits;
    hide DecodeAndValidate;
    var located := Locate(execution, activity, loaded, host.limits).value;
    DecodedFacts(loaded.value.checkpoint, execution, host.limits);
    InternalFacts(located.payload, host.limits);
    HistoryAcceptedIff(located.payload.state.activities);
    LedgerRefuses(located.payload, record, host.limits);
  }

  /**
   * On an exposed strict effect the ordinary observations are refused by ledger validation, whatever
   * they carry: a result within its bound, a failure within its bound, a wait, or a retry that the
   * options would otherwise still allow.
   */
  lemma StrictRefusesObservation(execution: ExecutionSpec, activity: LogicalActivityId, result: Bytes, loaded: Option<Stored>, host: HostState)
    requires LocatesStrict(execution, activity, loaded, host.limits)
    requires |result| <= Locate(execution, activity, loaded, host.limits).value.record.spec.maxResult
    ensures RefusedByLedger(Observe(execution, activity, result, loaded, host), host)
  {
    hide InternalError;
    hide ProposeLast;
    var located := Locate(execution, activity, loaded, host.limits).value;
    var next := WithState(located.record, Completed(result));
    StrictKeepsValidAttempt(execution, activity, loaded, host.limits);
    StrictReplacementRefused(execution, activity, loaded, next, AcceptObservation(activity), host);
  }

  lemma StrictRefusesFailure(execution: ExecutionSpec, activity: LogicalActivityId, failure: ActivityFailure, loaded: Option<Stored>, host: HostState)
    requires LocatesStrict(execution, activity, loaded, host.limits)
    requires FailurePayloadLen(Some(failure)) <= Locate(execution, activity, loaded, host.limits).value.record.spec.maxResult
    ensures RefusedByLedger(ObserveFailure(execution, activity, failure, loaded, host), host)
  {
    hide InternalError;
    hide ProposeLast;
    var located := Locate(execution, activity, loaded, host.limits).value;
    var next := WithFailure(located.record, failure);
    StrictKeepsValidAttempt(execution, activity, loaded, host.limits);
    StrictReplacementRefused(execution, activity, loaded, next, AcceptObservation(activity), host);
  }

  lemma StrictRefusesWait(execution: ExecutionSpec, activity: LogicalActivityId, waitUntil: i64, loaded: Option<Stored>, host: HostState)
    requires LocatesStrict(execution, activity, loaded, host.limits)
    ensures RefusedByLedger(DeferActivity(execution, activity, waitUntil, loaded, host), host)
  {
    hide InternalError;
    hide ProposeLast;
    var located := Locate(execution, activity, loaded, host.limits).value;
    var next := DeferWait(located.record, waitUntil).value;
    StrictKeepsValidAttempt(execution, activity, loaded, host.limits);
    StrictReplacementRefused(execution, activity, loaded, next, AcceptWait(activity, waitUntil), host);
  }

  lemma StrictRefusesRetry(execution: ExecutionSpec, activity: LogicalActivityId, observedAt: i64, loaded: Option<Stored>, host: HostState)
    requires LocatesStrict(execution, activity, loaded, host.limits)
    ensures
      var record := Locate(execution, activity, loaded, host.limits).value.record;
      var c := RetryActivity(execution, activity, observedAt, loaded, host);
      if RetryNotBefore(record.spec.options, record.attempt.ordinal, observedAt).Some? then RefusedByLedger(c, host)
      else c == Finished(CheckpointRejected(ActivityAttemptLimitExceeded), host.counter)
  {
    hide InternalError;
    hide ProposeLast;
    hide ShiftLeft;
    var located := Locate(execution, activity, loaded, host.limits).value;
    var record := located.record;
    var at := RetryNotBefore(record.spec.options, record.attempt.ordinal, observedAt);
    if at.Some? {
      var next := ScheduleRetry(record, at.value).value;
      StrictKeepsValidAttempt(execution, activity, loaded, host.limits);
      StrictReplacementRefused(execution, activity, loaded, next, AcceptRetry(activity, at.value), host);
    }
  }

  lemma StrictRefusesFusedObservation(workflow: Workflow, execution: ExecutionSpec, activity: LogicalActivityId, result: Bytes,
                                      resolver: ActivityResolver, loaded: Option<Stored>, host: HostState)
    requires LocatesStrict(execution, activity, loaded, host.limits)
    requires |result| <= Locate(execution, activity, loaded, host.limits).value.record.spec.maxResult
    ensures RefusedByLedger(ObserveAndTurn(workflow, execution, activity, result, resolver, loaded, host), host)
  {
    hide InternalError;
    hide Evaluate;
    hide PrepareExposure;
    hide CommitCompletion;
    hide EncodeWithLimits;
    var located := Locate(execution, activity, loaded, host.limits).value;
    StrictKeepsValidAttempt(execution, activity, loaded, host.limits);
    StrictReplacementRefused(execution, activity, loaded, WithState(located.record, Completed(result)), AcceptObservation(activity), host);
  }

  lemma StrictKeepsValidAttempt(execution: ExecutionSpec, activity: LogicalActivityId, loaded: Option<Stored>, limits: CheckpointLimits)
    requires LocatesStrict(execution, activity, loaded, limits)
    ensures
      var record := Locate(execution, activity, loaded, limits).value.record;
      && record.attempt.ordinal <= record.spec.options.maxAttempts
      && record.failure.None?
  {
    hide InternalError;
    hide DecodeAndValidate;
    var located := Locate(execution, activity, loaded, limits).value;
    DecodedFacts(loaded.value.checkpoint, execution, limits);
    InternalFacts(located.payload, limits);
    HistoryAcceptedIff(located.payload.state.activities);
  }

  /** A quarantine resolution never reopens the effect: what it proposes is completed. */
  lemma QuarantineNeverReopens(execution: ExecutionSpec, observation: EffectObservation, loaded: Option<Stored>, host: HostState)
    requires ObserveEffect(execution, observation, false, loaded, host).Propose?
    ensures
      var c := ObserveEffect(execution, observation, false, loaded, host);
      LastActive(c.payload).Some? && LastActive(c.payload).value.state.Completed?
  {
    hide InternalError;
    hide EncodeWithLimits;
    hide DecodeAndValidate;
  }

  /** With redelivery allowed, the effect is reopened exactly when its only attempt is proven not admitted. */
  lemma RedeliveryIff(execution: ExecutionSpec, observation: EffectObservation, loaded: Option<Stored>, host: HostState)
    requires ObserveEffect(execution, observation, true, loaded, host).Propose?
    ensures
      var c := ObserveEffect(execution, observation, true, loaded, host);
      var record := Locate(execution, observation.activity, loaded, host.limits).value.record;
      && LastActive(c.payload).Some?
      && (LastActive(c.payload).value.state.Scheduled? <==>
            observation.disposition == DispositionProvenNoAdmission && |record.attempts| == 1)
      && (LastActive(c.payload).value.state.Scheduled? || LastActive(c.payload).value.state.Completed?)
  {
    hide InternalError;
    hide EncodeWithLimits;
    hide DecodeAndValidate;
  }

  /**
   * A result or failure beyond the declared bound is answered with the bound, and nothing is proposed: by an ordinary
   * observation, by a failure, and by a strict observation of either kind.
   */
  lemma OversizedRefused(execution: ExecutionSpec, activity: LogicalActivityId, result: Bytes, failure: ActivityFailure, observation: EffectObservation,
                         allow: bool, loaded: Option<Stored>, host: HostState)
    requires Locate(execution, activity, loaded, host.limits).Ok? && observation.activity == activity
    requires Locate(execution, activity, loaded, host.limits).value.record.state == DispatchExposed(observation.attemptId)
    ensures
      var bound := Locate(execution, activity, loaded, host.limits).value.record.spec.maxResult;
      && (|result| > bound ==> Observe(execution, activity, result, loaded, host) == Finished(TooLong(|result|, bound), host.counter))
      && (FailurePayloadLen(Some(failure)) > bound ==>
            ObserveFailure(execution, activity, failure, loaded, host) == Finished(TooLong(FailurePayloadLen(Some(failure)), bound), host.counter))
      && (|observation.result| > bound || FailurePayloadLen(observation.failure) > bound ==>
            ObserveEffect(execution, observation, allow, loaded, host)
            == Finished(TooLong(if |observation.result| < FailurePayloadLen(observation.failure) then FailurePayloadLen(observation.failure)
                                else |observation.result|, bound), host.counter))
  {
    hide Locate;
    hide EncodeWithLimits;
    hide DecodeAndValidate;
    hide ObserveEffectAttempt;
  }
}
