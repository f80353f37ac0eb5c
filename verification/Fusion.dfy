/** The fused one-write turns agree with their two-step forms, rejections included. */
module Fusion {
  import opened Base
  import opened Identity
  import opened Records
  import opened Checkpoint
  import opened Replay
  import opened Store
  import opened Host
  import opened Steps
  import opened Derivation
  import opened ObservationSteps

  /** The same computation offered against another revision and reported at another boundary. */
  function Retarget(c: Computed, expected: Option<Revision>, boundary: Boundary): (r: Computed)
  {
    match c
    case Propose(_, payload, AcceptExposure(permit, _), counter) => Propose(expected, payload, AcceptExposure(permit, boundary), counter)
    case Propose(_, payload, AcceptCompletion(outcome, count, metadata, _), counter) =>
      Propose(expected, payload, AcceptCompletion(outcome, count, metadata, boundary), counter)
    case _ => c
  }

  /** Retarget exposures only; completions keep their own boundary. */
  function RetargetExposure(c: Computed, expected: Option<Revision>, boundary: Boundary): (r: Computed)
  {
    if c.Propose? && c.acceptance.AcceptExposure? then Retarget(c, expected, boundary) else c
  }

  lemma ExposureRetargets(execution: ExecutionSpec, e1: Option<Revision>, e2: Option<Revision>, candidate: Envelope,
                          activity: LogicalActivityId, b1: Boundary, b2: Boundary, host: HostState)
    ensures
      var c := PrepareExposure(execution, e1, candidate, activity, b1, host);
      && PrepareExposure(execution, e2, candidate, activity, b2, host) == Retarget(c, e2, b2)
      && (c.Propose? ==> c.acceptance.AcceptExposure?)
  {
    hide DecodeAndValidate;
    hide EncodeWithLimits;
    hide MaximumActivityCompletedLen;
  }

  lemma CompletionRetargets(e1: Option<Revision>, e2: Option<Revision>, execution: ExecutionSpec, outcome: TerminalOutcome, count: u64,
                            active: Envelope, b1: Boundary, b2: Boundary, host: HostState)
    ensures CommitCompletion(e2, execution, outcome, count, active, b2, host)
         == Retarget(CommitCompletion(e1, execution, outcome, count, active, b1, host), e2, b2)
  {
    hide DecodeAndValidate;
    hide EncodeWithLimits;
    hide IntoTerminal;
  }

  // ---------------------------------------------------------------- turn and expose

  /** A scheduled record, once stored, is what the next replay finds pending. */
  lemma {:induction false} ReplayPushed(workflow: Workflow, input: Bytes, id: ExecutionId, history: seq<ActivityRecord>,
                                        record: ActivityRecord, results: seq<ActivityResult>)
    requires |results| <= |history|
    requires ReplayFrom(workflow, input, id, history, IdentityResolver, results) == Decided(Schedule(record))
    ensures |results| <= |history + [record]|
    ensures ReplayFrom(workflow, input, id, history + [record], IdentityResolver, results)
         == Decided(ExistingPending(LogicalActivityId(id, |history|, record.spec), Scheduled))
    decreases |history| - |results|
  {
    var call := workflow(input, results).call;
    var poll := PollCall(id, history, IdentityResolver, |results|, call);
    if poll.Ready? {
      ReplayPushed(workflow, input, id, history, record, results + [poll.result]);
    }
  }

  /** After an accepted schedule, the next turn evaluates to the scheduled record itself. */
  lemma EvaluatePushed(workflow: Workflow, execution: ExecutionSpec, checkpoint: Option<Envelope>, limits: CheckpointLimits)
    requires Evaluate(workflow, execution, checkpoint, limits, IdentityResolver).EvaluatedScheduled?
    ensures
      var e := Evaluate(workflow, execution, checkpoint, limits, IdentityResolver);
      && Evaluate(workflow, execution, Some(Encode(e.payload)), limits, IdentityResolver)
         == EvaluatedPending(LogicalId(e.record, execution.executionId), Scheduled)
      && DecodeAndValidate(Encode(e.payload), execution, limits) == Ok(e.payload)
      && LastActive(e.payload) == Some(e.record) && e.record.state.Scheduled?
  {
    hide InternalError;
    hide EncodeWithLimits;
    hide DecodeAndValidate;
    hide ReplayFrom;
    var e := Evaluate(workflow, execution, checkpoint, limits, IdentityResolver);
    var start := Start(execution, checkpoint, limits).value;
    var program := Program(workflow, AnyPreparation);
    EvaluateMeaning(program, execution, checkpoint, limits, IdentityResolver);
    EncodedFacts(e.payload, limits);
    ReplayPushed(workflow, execution.workflowInput, execution.executionId, start.state.activities, e.record, []);
  }

  /**
   * When a turn would only schedule, `turn_and_expose` computes exactly what the following turn
   * computes once that schedule is stored: same checkpoint, same permit, same rejection.
   */
  lemma FusedScheduleExposure(workflow: Workflow, execution: ExecutionSpec, loaded: Option<Stored>, host: HostState, accepted: Revision)
    requires
      var first := Turn(workflow, execution, loaded, host);
      first.Propose? && first.acceptance.AcceptSchedule?
    ensures
      var first := Turn(workflow, execution, loaded, host);
      var second := Turn(workflow, execution, Some(Stored(accepted, Encode(first.payload))), host.(counter := first.counter));
      TurnAndExpose(workflow, execution, ForActivities(IdentityActivity), None, loaded, host)
      == RetargetExposure(second, StoredRevision(loaded), AtScheduleExposure)
  {
    hide Evaluate;
    hide InternalError;
    hide DecodeAndValidate;
    hide PrepareExposure;
    hide CommitCompletion;
    TurnSchedules(workflow, execution, loaded, host);
    var first := Turn(workflow, execution, loaded, host);
    EvaluatePushed(workflow, execution, StoredEnvelope(loaded), host.limits);
    var e := Evaluate(workflow, execution, StoredEnvelope(loaded), host.limits, IdentityResolver);
    ExposureRetargets(execution, Some(accepted), StoredRevision(loaded), Encode(e.payload),
                      LogicalId(e.record, execution.executionId), AtExposure, AtScheduleExposure, host);
  }

  lemma TurnSchedules(workflow: Workflow, execution: ExecutionSpec, loaded: Option<Stored>, host: HostState)
    requires
      var first := Turn(workflow, execution, loaded, host);
      first.Propose? && first.acceptance.AcceptSchedule?
    ensures Evaluate(workflow, execution, StoredEnvelope(loaded), host.limits, IdentityResolver).EvaluatedScheduled?
  {
    hide Evaluate;
    hide DecodeAndValidate;
    hide EncodeWithLimits;
    hide MaximumActivityCompletedLen;
    hide IntoTerminal;
  }

  /** In every other case one `turn_and_expose` is one turn, reported at the fused boundary. */
  lemma FusedTurn(workflow: Workflow, execution: ExecutionSpec, loaded: Option<Stored>, host: HostState)
    requires
      var single := Turn(workflow, execution, loaded, host);
      !(single.Propose? && single.acceptance.AcceptSchedule?)
    ensures TurnAndExpose(workflow, execution, ForActivities(IdentityActivity), None, loaded, host)
         == RetargetExposure(Turn(workflow, execution, loaded, host), StoredRevision(loaded), AtScheduleExposure)
  {
    hide Evaluate;
    hide InternalError;
    hide DecodeAndValidate;
    hide PrepareExposure;
    hide CommitCompletion;
    hide Start;
    var program := Program(workflow, AnyPreparation);
    EvaluateMeaning(program, execution, StoredEnvelope(loaded), host.limits, IdentityResolver);
    var e := Evaluate(workflow, execution, StoredEnvelope(loaded), host.limits, IdentityResolver);
    if e.EvaluatedPending? {
      StartDecodes(execution, loaded.value, host.limits);
      ExposureRetargets(execution, StoredRevision(loaded), StoredRevision(loaded), loaded.value.checkpoint, e.activity,
                        AtExposure, AtScheduleExposure, host);
    } else if e.EvaluatedComplete? {
      CompletionIsCompletion(StoredRevision(loaded), execution, e.outcome, e.count, Encode(e.payload), AtCompletion, host);
    }
  }

  lemma CompletionIsCompletion(expected: Option<Revision>, execution: ExecutionSpec, outcome: TerminalOutcome, count: u64,
                               active: Envelope, boundary: Boundary, host: HostState)
    ensures
      var c := CommitCompletion(expected, execution, outcome, count, active, boundary, host);
      c.Propose? ==> c.acceptance.AcceptCompletion?
  {
    hide DecodeAndValidate;
    hide EncodeWithLimits;
    hide IntoTerminal;
  }

  // ---------------------------------------------------------------- observe and turn

  /** The observation checks come first and fail alike. */
  lemma FusedObservationRefused(workflow: Workflow, execution: ExecutionSpec, activity: LogicalActivityId, result: Bytes,
                                resolver: ActivityResolver, loaded: Option<Stored>, host: HostState)
    requires !Observe(execution, activity, result, loaded, host).Propose?
    ensures ObserveAndTurn(workflow, execution, activity, result, resolver, loaded, host)
         == Observe(execution, activity, result, loaded, host)
  {
    hide Locate;
    hide DecodeAndValidate;
    hide EncodeWithLimits;
    hide Evaluate;
    hide PrepareExposure;
    hide CommitCompletion;
  }

  /**
   * When the observation alone would be stored, `observe_and_turn` computes exactly what
   * `turn_and_expose` computes on the observed checkpoint: same checkpoint, same permit or terminal
   * state, same rejection.
   */
  lemma FusedObservation(workflow: Workflow, execution: ExecutionSpec, activity: LogicalActivityId, result: Bytes,
                         resolver: ActivityResolver, loaded: Option<Stored>, host: HostState, accepted: Revision)
    requires Observe(execution, activity, result, loaded, host).Propose?
    ensures
      var observed := Observe(execution, activity, result, loaded, host);
      var second := TurnAndExpose(workflow, execution, ForActivities(resolver), None,
                                  Some(Stored(accepted, Encode(observed.payload))), host.(counter := observed.counter));
      ObserveAndTurn(workflow, execution, activity, result, resolver, loaded, host)
      == Retarget(second, StoredRevision(loaded), AtObservationProgression)
  {
    hide Locate;
    hide InternalError;
    hide DecodeAndValidate;
    hide EncodeWithLimits;
    hide Evaluate;
    hide PrepareExposure;
    hide CommitCompletion;
    hide HistoryError;
    hide WellFormedLedger;
    hide Start;
    hide Retarget;
    var located := Locate(execution, activity, loaded, host.limits).value;
    LocatedFacts(execution, activity, loaded, host.limits);
    var completed := WithLast(located.payload, WithState(located.record, Completed(result)));
    EncodedFacts(completed, host.limits);
    CompletedHistory(located.payload, WithState(located.record, Completed(result)));
    var e := Evaluate(workflow, execution, Some(Encode(completed)), host.limits, Resolver(resolver, None));
    EvaluateObserved(workflow, execution, completed, host.limits, Resolver(resolver, None));
    if e.EvaluatedScheduled? {
      ExposureRetargets(execution, Some(accepted), StoredRevision(loaded), Encode(e.payload),
                        LogicalId(e.record, execution.executionId), AtScheduleExposure, AtObservationProgression, host);
    } else if e.EvaluatedComplete? {
      CompletionRetargets(Some(accepted), StoredRevision(loaded), execution, e.outcome, e.count, Encode(e.payload),
                          AtCompletion, AtObservationProgression, host);
    } else {
      UnproductiveFinishes(e, loaded, Some(Stored(accepted, Encode(completed))), host, StoredRevision(loaded));
    }
  }

  lemma CompletedHistory(payload: CheckpointPayload, record: ActivityRecord)
    requires payload.state.Active? && payload.state.activities != [] && HistoryError(payload.state.activities, 0).None?
    requires record.state.Completed?
    ensures AllCompleted(WithLast(payload, record).state.activities)
  {
    HistoryAcceptedIff(payload.state.activities);
  }

  lemma EvaluateObserved(workflow: Workflow, execution: ExecutionSpec, completed: CheckpointPayload, limits: CheckpointLimits, resolver: Resolver)
    requires completed.state.Active? && AllCompleted(completed.state.activities)
    ensures
      var e := Evaluate(workflow, execution, Some(Encode(completed)), limits, resolver);
      !e.EvaluatedPending? && !e.EvaluatedTerminal?
  {
    hide InternalError;
    hide DecodeAndValidate;
    hide EncodeWithLimits;
    DecodedFacts(Encode(completed), execution, limits);
    var history := completed.state.activities;
    assert Prefix(history, []);
    ReplayMeaningAny(workflow, execution.workflowInput, execution.executionId, history, resolver);
  }

  /** On a fully completed history replay finds nothing pending. */
  lemma ReplayMeaningAny(workflow: Workflow, input: Bytes, id: ExecutionId, history: seq<ActivityRecord>, resolver: Resolver)
    requires AllCompleted(history)
    ensures
      var end := ReplayFrom(workflow, input, id, history, resolver, []);
      !(end.Decided? && end.decision.ExistingPending?)
  {
    var program := Program(workflow, AnyPreparation);
    assert Prefix(history, []);
    ReplayMeaning(program, input, id, history, resolver, []);
  }

  lemma UnproductiveFinishes(e: Evaluation, first: Option<Stored>, second: Option<Stored>, host: HostState, expected: Option<Revision>)
    requires !e.EvaluatedTerminal?
    ensures Unproductive(e, first, host) == Retarget(Unproductive(e, second, host), expected, AtObservationProgression)
  {
  }
}
