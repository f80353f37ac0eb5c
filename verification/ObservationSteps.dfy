/** Observations, retries and waits are single moves of the pending final record, or a move fused with a turn. */
module ObservationSteps {
  import opened Base
  import opened Identity
  import opened Effects
  import opened Records
  import opened Checkpoint
  import opened Replay
  import opened Store
  import opened Host
  import opened Steps
  import opened Derivation
  import opened StrictEffects

  /** The results accepted along a path, in order. */
  ghost function AcceptedAlong(steps: seq<Step>): (r: seq<ActivityResult>)
  {
    if steps == [] then []
    else
      var move := steps[|steps| - 1].move;
      AcceptedAlong(steps[..|steps| - 1])
      + (if move.Complete? && move.completed.state.Completed? then [ResultOf(move.completed)] else [])
  }

  lemma AcceptedOne(step: Step)
    ensures AcceptedAlong([step]) ==
      (if step.move.Complete? && step.move.completed.state.Completed? then [ResultOf(step.move.completed)] else [])
  {
    assert [step][..0] == [];
    assert AcceptedAlong([step][..0]) == [];
  }

  lemma {:induction false} NothingAccepted(steps: seq<Step>)
    requires NoCompletion(steps)
    ensures AcceptedAlong(steps) == []
  {
    if steps != [] { NothingAccepted(steps[..|steps| - 1]); }
  }

  lemma {:induction false} AcceptedJoin(left: seq<Step>, right: seq<Step>)
    ensures AcceptedAlong(left + right) == AcceptedAlong(left) + AcceptedAlong(right)
  {
    if right == [] {
      assert left + right == left;
    } else {
      AcceptedJoin(left, right[..|right| - 1]);
      assert (left + right)[..|left + right| - 1] == left + right[..|right| - 1];
    }
  }

  /** How many attempts the ledger of the loaded final record holds. */
  function LoadedAttempts(loaded: Option<Stored>): (n: nat)
  {
    if loaded.Some? && loaded.value.checkpoint.body.Json? && LastActive(loaded.value.checkpoint.body.payload).Some?
    then |LastActive(loaded.value.checkpoint.body.payload).value.attempts| else 0
  }

  /** The observation proves that the only attempt was not admitted, and may be redelivered. */
  predicate Reopens(observation: EffectObservation, allow: bool, loaded: Option<Stored>)
  {
    allow && observation.disposition == DispositionProvenNoAdmission && LoadedAttempts(loaded) == 1
  }

  /** What an observation of a strict effect delivers: nothing when it reopens it, else the failure or the result it carries. */
  function ObservedResult(observation: EffectObservation, allow: bool, loaded: Option<Stored>): (r: seq<ActivityResult>)
  {
    if Reopens(observation, allow, loaded) then []
    else if observation.failure.Some? then [Failure(observation.failure.value)]
    else [Delivered(observation.result)]
  }

  lemma LocatedFacts(execution: ExecutionSpec, activity: LogicalActivityId, loaded: Option<Stored>, limits: CheckpointLimits)
    requires Locate(execution, activity, loaded, limits).Ok?
    ensures
      var located := Locate(execution, activity, loaded, limits).value;
      && loaded.Some?
      && Start(execution, StoredEnvelope(loaded), limits) == Ok(located.payload)
      && StoredRevision(loaded) == Some(located.revision)
      && LastActive(located.payload) == Some(located.record)
      && activity == LogicalId(located.record, execution.executionId)
      && InternalError(located.payload, limits).None?
      && located.payload.execution.spec == execution
      && HistoryError(located.payload.state.activities, 0).None?
      && WellFormedLedger(located.record) && WithinBounds(located.record)
  {
    hide InternalError;
    hide DecodeAndValidate;
    var located := Locate(execution, activity, loaded, limits).value;
    DecodedFacts(loaded.value.checkpoint, execution, limits);
    InternalFacts(located.payload, limits);
    ValidSequence(located.payload.state.activities, |located.payload.state.activities| - 1);
    StartDecodes(execution, loaded.value, limits);
  }

  /** A replacement the store is offered is one valid advance of the final record. */
  lemma AdvanceDerives(program: Program, execution: ExecutionSpec, activity: LogicalActivityId, loaded: Option<Stored>,
                       move: Move, next: ActivityRecord, acceptance: Acceptance, host: HostState)
    returns (steps: seq<Step>)
    requires Locate(execution, activity, loaded, host.limits).Ok?
    requires
      var located := Locate(execution, activity, loaded, host.limits).value;
      && ProposeLast(located.payload, next, located.revision, acceptance, host).Propose?
      && !move.Append? && !move.Compact? && !move.Expose?
      && Advances(located.record, move, next)
      && Means([Step(located.payload, move, WithLast(located.payload, next), host.limits)],
               WithLast(located.payload, next), acceptance, execution.executionId)
    ensures
      var located := Locate(execution, activity, loaded, host.limits).value;
      Derived(program, execution, loaded, host.limits,
              ProposeLast(located.payload, next, located.revision, acceptance, host), steps)
    ensures |steps| == 1 && steps[0].move == move
    ensures
      var located := Locate(execution, activity, loaded, host.limits).value;
      ProposeLast(located.payload, next, located.revision, acceptance, host).payload == WithLast(located.payload, next)
  {
    hide InternalError;
    hide EncodeWithLimits;
    hide Locate;
    hide DecodeAndValidate;
    hide Start;
    hide Derived;
    hide Means;
    hide Advances;
    LocatedFacts(execution, activity, loaded, host.limits);
    var located := Locate(execution, activity, loaded, host.limits).value;
    var step := Step(located.payload, move, WithLast(located.payload, next), host.limits);
    var c := ProposeLast(located.payload, next, located.revision, acceptance, host);
    OneStepDerived(program, execution, loaded, host.limits, c, step);
    steps := [step];
  }

  /** Whatever is proposed for a strict effect by an ordinary observation would have been refused. */
  lemma ProposedIsOrdinary(execution: ExecutionSpec, activity: LogicalActivityId, loaded: Option<Stored>, next: ActivityRecord,
                           acceptance: Acceptance, host: HostState)
    requires Locate(execution, activity, loaded, host.limits).Ok?
    requires
      var located := Locate(execution, activity, loaded, host.limits).value;
      && located.record.state.DispatchExposed? && !next.state.DispatchExposed?
      && next == located.record.(attempt := next.attempt, failure := next.failure, state := next.state)
      && located.record.attempt.ordinal <= next.attempt.ordinal <= next.spec.options.maxAttempts
      && (next.attempt.ordinal == located.record.attempt.ordinal ==>
            next.attempt.retryNotBefore == located.record.attempt.retryNotBefore)
      && ProposeLast(located.payload, next, located.revision, acceptance, host).Propose?
    ensures Locate(execution, activity, loaded, host.limits).value.record.prepared.None?
  {
    hide Locate;
    hide DecodeAndValidate;
    hide ProposeLast;
    if Locate(execution, activity, loaded, host.limits).value.record.prepared.Some? {
      StrictReplacementRefused(execution, activity, loaded, next, acceptance, host);
    }
  }

  lemma LocatedAttempt(execution: ExecutionSpec, activity: LogicalActivityId, loaded: Option<Stored>, limits: CheckpointLimits)
    requires Locate(execution, activity, loaded, limits).Ok?
    ensures
      var record := Locate(execution, activity, loaded, limits).value.record;
      1 <= record.attempt.ordinal <= record.spec.options.maxAttempts
  {
    hide Locate;
    hide DecodeAndValidate;
    hide Start;
    hide InternalError;
    hide HistoryError;
    LocatedFacts(execution, activity, loaded, limits);
    var located := Locate(execution, activity, loaded, limits).value;
    ValidSequence(located.payload.state.activities, |located.payload.state.activities| - 1);
  }

  lemma ObserveDerives(program: Program, execution: ExecutionSpec, activity: LogicalActivityId, result: Bytes, loaded: Option<Stored>, host: HostState)
    returns (steps: seq<Step>)
    requires Observe(execution, activity, result, loaded, host).Propose?
    ensures Derived(program, execution, loaded, host.limits, Observe(execution, activity, result, loaded, host), steps)
    ensures AcceptedAlong(steps) == [Delivered(result)]
  {
    hide Locate;
    hide DecodeAndValidate;
    hide ProposeLast;
    hide Derived;
    LocatedAttempt(execution, activity, loaded, host.limits);
    var located := Locate(execution, activity, loaded, host.limits).value;
    var next := WithState(located.record, Completed(result));
    ProposedIsOrdinary(execution, activity, loaded, next, AcceptObservation(activity), host);
    steps := AdvanceDerives(program, execution, activity, loaded, Complete(next), next, AcceptObservation(activity), host);
    AcceptedOne(steps[0]);
  }

  lemma FailureDerives(program: Program, execution: ExecutionSpec, activity: LogicalActivityId, failure: ActivityFailure, loaded: Option<Stored>, host: HostState)
    returns (steps: seq<Step>)
    requires ObserveFailure(execution, activity, failure, loaded, host).Propose?
    ensures Derived(program, execution, loaded, host.limits, ObserveFailure(execution, activity, failure, loaded, host), steps)
    ensures AcceptedAlong(steps) == [Failure(failure)]
  {
    hide Locate;
    hide DecodeAndValidate;
    hide ProposeLast;
    hide Derived;
    LocatedAttempt(execution, activity, loaded, host.limits);
    var located := Locate(execution, activity, loaded, host.limits).value;
    var next := WithFailure(located.record, failure);
    ProposedIsOrdinary(execution, activity, loaded, next, AcceptObservation(activity), host);
    steps := AdvanceDerives(program, execution, activity, loaded, Complete(next), next, AcceptObservation(activity), host);
    AcceptedOne(steps[0]);
  }

  lemma RetryDerives(program: Program, execution: ExecutionSpec, activity: LogicalActivityId, observedAt: i64, loaded: Option<Stored>, host: HostState)
    returns (steps: seq<Step>)
    requires RetryActivity(execution, activity, observedAt, loaded, host).Propose?
    ensures Derived(program, execution, loaded, host.limits, RetryActivity(execution, activity, observedAt, loaded, host), steps)
    ensures AcceptedAlong(steps) == []
  {
    hide Locate;
    hide DecodeAndValidate;
    hide ProposeLast;
    hide Derived;
    hide RetryNotBefore;
    LocatedAttempt(execution, activity, loaded, host.limits);
    var located := Locate(execution, activity, loaded, host.limits).value;
    var at := RetryNotBefore(located.record.spec.options, located.record.attempt.ordinal, observedAt).value;
    var next := ScheduleRetry(located.record, at).value;
    ProposedIsOrdinary(execution, activity, loaded, next, AcceptRetry(activity, at), host);
    steps := AdvanceDerives(program, execution, activity, loaded, Retry(at), next, AcceptRetry(activity, at), host);
    AcceptedOne(steps[0]);
  }

  lemma WaitDerives(program: Program, execution: ExecutionSpec, activity: LogicalActivityId, waitUntil: i64, loaded: Option<Stored>, host: HostState)
    returns (steps: seq<Step>)
    requires DeferActivity(execution, activity, waitUntil, loaded, host).Propose?
    ensures Derived(program, execution, loaded, host.limits, DeferActivity(execution, activity, waitUntil, loaded, host), steps)
    ensures AcceptedAlong(steps) == []
  {
    hide Locate;
    hide DecodeAndValidate;
    hide ProposeLast;
    hide Derived;
    LocatedAttempt(execution, activity, loaded, host.limits);
    var located := Locate(execution, activity, loaded, host.limits).value;
    var next := DeferWait(located.record, waitUntil).value;
    ProposedIsOrdinary(execution, activity, loaded, next, AcceptWait(activity, waitUntil), host);
    steps := AdvanceDerives(program, execution, activity, loaded, Wait(waitUntil), next, AcceptWait(activity, waitUntil), host);
    AcceptedOne(steps[0]);
  }

  /** A strict observation either completes the record or records the single proven non-admission. */
  lemma EffectMove(record: ActivityRecord, attemptId: AttemptId, disposition: Disposition, result: Bytes, failure: Option<ActivityFailure>)
    returns (move: Move)
    requires WellFormedLedger(record) && WithinBounds(record)
    requires record.state == DispatchExposed(attemptId)
    requires ObserveEffectAttempt(record, attemptId, disposition, result, failure).Ok?
    ensures move.Complete? || move.NoAdmission?
    ensures
      var next := ObserveEffectAttempt(record, attemptId, disposition, result, failure).value;
      && Advances(record, move, next)
      && (if move.Complete? then move.completed == next && next.state.Completed? else next.state.Scheduled?)
      && (move.NoAdmission? <==> disposition == DispositionProvenNoAdmission && |record.attempts| == 1)
      && (move.Complete? ==> ResultOf(next) == if failure.Some? then Failure(failure.value) else Delivered(result))
  {
    var next := ObserveEffectAttempt(record, attemptId, disposition, result, failure).value;
    if next.state.Scheduled? {
      move := NoAdmission(attemptId);
      assert record.attempts == [EffectAttempt(attemptId, Exposed)];
    } else {
      move := Complete(next);
    }
  }

  lemma EffectDerives(program: Program, execution: ExecutionSpec, observation: EffectObservation, allow: bool, loaded: Option<Stored>, host: HostState)
    returns (steps: seq<Step>)
    requires ObserveEffect(execution, observation, allow, loaded, host).Propose?
    ensures Derived(program, execution, loaded, host.limits, ObserveEffect(execution, observation, allow, loaded, host), steps)
    ensures AcceptedAlong(steps) == ObservedResult(observation, allow, loaded)
  {
    hide Locate;
    hide DecodeAndValidate;
    hide ProposeLast;
    hide Derived;
    hide InternalError;
    hide HistoryError;
    hide Start;
    hide Advances;
    LocatedFacts(execution, observation.activity, loaded, host.limits);
    var located := Locate(execution, observation.activity, loaded, host.limits).value;
    var disposition := if allow then observation.disposition else DispositionCompleted;
    var move := EffectMove(located.record, observation.attemptId, disposition, observation.result, observation.failure);
    var next := ObserveEffectAttempt(located.record, observation.attemptId, disposition, observation.result, observation.failure).value;
    steps := AdvanceDerives(program, execution, observation.activity, loaded, move, next, AcceptObservation(observation.activity), host);
    AcceptedOne(steps[0]);
  }

  /** A leading completion in front of a path that already means what the caller is told. */
  lemma CompletionLeads(program: Program, execution: ExecutionSpec, loaded: Option<Stored>, limits: CheckpointLimits, c: Computed,
                        first: Step, rest: seq<Step>)
    returns (steps: seq<Step>)
    requires c.Propose? && c.expected == StoredRevision(loaded)
    requires Start(execution, StoredEnvelope(loaded), limits) == Ok(first.before)
    requires ValidStep(program, first) && first.move.Complete?
    requires Path(program, first.after, rest, c.payload)
    requires c.acceptance.AcceptExposure? || c.acceptance.AcceptCompletion?
    requires Means(rest, c.payload, c.acceptance, execution.executionId)
    requires first.limits == limits && UnderLimits(rest, limits)
    ensures Derived(program, execution, loaded, limits, c, steps)
    ensures steps == [first] + rest
  {
    hide Start;
    hide InternalError;
    hide ValidStep;
    hide Path;
    hide PermitNames;
    steps := [first] + rest;
    PathOne(program, first);
    PathJoin(program, first.before, [first], first.after, rest, c.payload);
    assert steps[..|steps| - 1] == [first] + rest[..|rest| - 1];
    assert Means(steps, c.payload, c.acceptance, execution.executionId);
  }

  /** The completed checkpoint of a fused observation is one valid completion of the loaded one. */
  lemma FusedCompletion(program: Program, execution: ExecutionSpec, activity: LogicalActivityId, result: Bytes,
                        loaded: Option<Stored>, host: HostState)
    requires Locate(execution, activity, loaded, host.limits).Ok?
    requires
      var located := Locate(execution, activity, loaded, host.limits).value;
      && located.record.state.DispatchExposed?
      && EncodeWithLimits(WithLast(located.payload, WithState(located.record, Completed(result))), host.limits).Ok?
    ensures
      var located := Locate(execution, activity, loaded, host.limits).value;
      var next := WithState(located.record, Completed(result));
      ValidStep(program, Step(located.payload, Complete(next), WithLast(located.payload, next), host.limits))
  {
    hide Locate;
    hide DecodeAndValidate;
    hide InternalError;
    hide Start;
    hide HistoryError;
    hide EncodeWithLimits;
    LocatedFacts(execution, activity, loaded, host.limits);
    LocatedAttempt(execution, activity, loaded, host.limits);
    var located := Locate(execution, activity, loaded, host.limits).value;
    var next := WithState(located.record, Completed(result));
    ProposedIsOrdinary(execution, activity, loaded, next, AcceptObservation(activity), host);
  }

  lemma ObserveAndTurnDerives(program: Program, execution: ExecutionSpec, activity: LogicalActivityId, result: Bytes,
                              resolver: ActivityResolver, loaded: Option<Stored>, host: HostState)
    returns (steps: seq<Step>)
    requires Produces(program.prepared, Resolver(resolver, None))
    requires ObserveAndTurn(program.workflow, execution, activity, result, resolver, loaded, host).Propose?
    ensures Derived(program, execution, loaded, host.limits,
                    ObserveAndTurn(program.workflow, execution, activity, result, resolver, loaded, host), steps)
    ensures AcceptedAlong(steps) == [Delivered(result)]
  {
    hide Locate;
    hide DecodeAndValidate;
    hide InternalError;
    hide EncodeWithLimits;
    hide Evaluate;
    hide PrepareExposure;
    hide CommitCompletion;
    hide Start;
    hide Derived;
    hide ValidStep;
    hide HistoryError;
    hide WellFormedLedger;
    hide Means;
    hide Path;
    var c := ObserveAndTurn(program.workflow, execution, activity, result, resolver, loaded, host);
    var located := Locate(execution, activity, loaded, host.limits).value;
    LocatedFacts(execution, activity, loaded, host.limits);
    FusedCompletion(program, execution, activity, result, loaded, host);
    var next := WithState(located.record, Completed(result));
    var completed := WithLast(located.payload, next);
    var first := Step(located.payload, Complete(next), completed, host.limits);
    AcceptedOne(first);
    EvaluateMeaning(program, execution, Some(Encode(completed)), host.limits, Resolver(resolver, None));
    var e := Evaluate(program.workflow, execution, Some(Encode(completed)), host.limits, Resolver(resolver, None));
    match e {
      case EvaluatedScheduled(record, payload) =>
        var rest := ScheduleExposureDerives(program, execution, Some(located.revision), completed, record, AtObservationProgression, host);
        steps := CompletionLeads(program, execution, loaded, host.limits, c, first, rest);
        NothingAccepted(rest);
        AcceptedJoin([first], rest);
      case EvaluatedComplete(outcome, count, payload) =>
        CompletionDerives(program, Some(located.revision), execution, outcome, count, payload, AtObservationProgression, host);
        var last := Step(completed, Compact(outcome), c.payload, host.limits);
        PathOne(program, last);
        steps := CompletionLeads(program, execution, loaded, host.limits, c, first, [last]);
        NothingAccepted([last]);
        AcceptedJoin([first], [last]);
    }
  }

  /** The result an operation delivers, from its own arguments and, for a strict effect, the ledger it loaded. */
  function AcceptedBy(op: Op, loaded: Option<Stored>): (r: seq<ActivityResult>)
  {
    match op
    case OpObserve(_, result) => [Delivered(result)]
    case OpObserveAndTurn(_, result, _) => [Delivered(result)]
    case OpFailure(_, failure) => [Failure(failure)]
    case OpEffect(observation, allow) => ObservedResult(observation, allow, loaded)
    case _ => []
  }

  /** The resolver an operation replays with. */
  function ResolverOf(op: Op): (r: Resolver)
  {
    match op
    case OpTurnAndExpose(resolver, _) => ToResolver(resolver)
    case OpObserveAndTurn(_, _, activities) => Resolver(activities, None)
    case _ => IdentityResolver
  }

  /** Observations never replay, so only turns constrain their resolver. */
  predicate ReplaysHistory(op: Op)
  {
    op.OpTurn? || op.OpTurnAndExpose? || op.OpObserveAndTurn?
  }

  /** Every proposal of every operation is a path of valid moves from the checkpoint it loaded. */
  lemma ComputeDerives(program: Program, execution: ExecutionSpec, op: Op, loaded: Option<Stored>, host: HostState)
    returns (steps: seq<Step>)
    requires ReplaysHistory(op) ==> Produces(program.prepared, ResolverOf(op))
    requires Compute(program.workflow, execution, op, loaded, host).Propose?
    ensures Derived(program, execution, loaded, host.limits, Compute(program.workflow, execution, op, loaded, host), steps)
    ensures AcceptedAlong(steps) == AcceptedBy(op, loaded)
  {
    hide Turn;
    hide TurnAndExpose;
    hide Observe;
    hide RetryActivity;
    hide ObserveFailure;
    hide DeferActivity;
    hide ObserveEffect;
    hide ObserveAndTurn;
    hide Derived;
    match op
    case OpTurn =>
      steps := TurnDerives(program, execution, loaded, host);
      NothingAccepted(steps);
    case OpTurnAndExpose(resolver, now) =>
      steps := TurnAndExposeDerives(program, execution, resolver, now, loaded, host);
      NothingAccepted(steps);
    case OpObserve(activity, result) => steps := ObserveDerives(program, execution, activity, result, loaded, host);
    case OpRetry(activity, at) => steps := RetryDerives(program, execution, activity, at, loaded, host);
    case OpFailure(activity, failure) => steps := FailureDerives(program, execution, activity, failure, loaded, host);
    case OpWait(activity, until) => steps := WaitDerives(program, execution, activity, until, loaded, host);
    case OpEffect(observation, allow) => steps := EffectDerives(program, execution, observation, allow, loaded, host);
    case OpObserveAndTurn(activity, result, activities) =>
      steps := ObserveAndTurnDerives(program, execution, activity, result, activities, loaded, host);
  }
}
