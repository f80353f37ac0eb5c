/** Repeated runner steps on a fault-free store reach a terminal state or run out of records or capacity. */
module BoundedCompletion {
  import opened Base
  import opened Identity
  import opened Records
  import opened Checkpoint
  import opened Replay
  import opened Store
  import opened Host
  import opened Steps
  import opened Derivation
  import opened Traces
  import opened Determinism
  import opened HostProcess
  import opened Runner
  import opened Progress
  import opened Rejections

  // ---------------------------------------------------------------- answers without a write

  /** A fused turn reports quarantine exactly for the exposed final record it could locate. */
  lemma TurnQuarantine(workflow: Workflow, execution: ExecutionSpec, resolver: ExposureResolver, now: Option<i64>, loaded: Option<Stored>, host: HostState)
    ensures
      var c := TurnAndExpose(workflow, execution, resolver, now, loaded, host);
      c.Finished? ==>
        && (c.outcome.CheckpointRejected? || c.outcome.WorkflowCompleted? || c.outcome.Quarantined? || c.outcome.Waiting? || c.outcome.Nondeterministic?)
        && (c.outcome.Quarantined? ==>
              && Locate(execution, c.outcome.activity, loaded, host.limits).Ok?
              && var record := Locate(execution, c.outcome.activity, loaded, host.limits).value.record;
                 record.state.DispatchExposed? && record.prepared == c.outcome.preparedCommand)
        && (c.outcome.Waiting? ==>
              && now.Some? && loaded.Some?
              && var decoded := DecodeAndValidate(loaded.value.checkpoint, execution, host.limits);
                 decoded.Ok? && LastActive(decoded.value).Some? && Gate(LastActive(decoded.value).value, now.value).Some?)
  {
    hide PrepareExposure;
    hide CommitCompletion;
    hide Evaluate;
    hide InternalError;
    hide DecodeAndValidate;
    hide EncodeWithLimits;
    hide IntoTerminal;
    hide MaximumActivityCompletedLen;
    hide Start;
    hide Gate;
    var program := Program(workflow, AnyPreparation);
    EvaluateMeaning(program, execution, StoredEnvelope(loaded), host.limits, ToResolver(resolver));
    if loaded.Some? { StartDecodes(execution, loaded.value, host.limits); }
    var e := Evaluate(workflow, execution, StoredEnvelope(loaded), host.limits, ToResolver(resolver));
    if e.EvaluatedScheduled? {
      ExposureAnswers(execution, StoredRevision(loaded), Encode(e.payload), LogicalId(e.record, execution.executionId), AtScheduleExposure, host);
    } else if e.EvaluatedPending? {
      ExposureAnswers(execution, StoredRevision(loaded), loaded.value.checkpoint, e.activity, AtScheduleExposure, host);
    } else if e.EvaluatedComplete? {
      CompletionAnswers(StoredRevision(loaded), execution, e.outcome, e.count, Encode(e.payload), AtCompletion, host);
    }
  }

  lemma ExposureAnswers(execution: ExecutionSpec, expected: Option<Revision>, candidate: Envelope, activity: LogicalActivityId,
                        boundary: Boundary, host: HostState)
    ensures
      var c := PrepareExposure(execution, expected, candidate, activity, boundary, host);
      c.Finished? ==> c.outcome.CheckpointRejected?
  {
    hide DecodeAndValidate;
    hide EncodeWithLimits;
    hide MaximumActivityCompletedLen;
  }

  lemma CompletionAnswers(expected: Option<Revision>, execution: ExecutionSpec, outcome: TerminalOutcome, count: u64,
                          active: Envelope, boundary: Boundary, host: HostState)
    ensures
      var c := CommitCompletion(expected, execution, outcome, count, active, boundary, host);
      c.Finished? ==> c.outcome.CheckpointRejected?
  {
    hide DecodeAndValidate;
    hide EncodeWithLimits;
    hide IntoTerminal;
  }

  /** An exposed record that can be located is retried or rejected as a checkpoint. */
  lemma RetryAnswers(execution: ExecutionSpec, activity: LogicalActivityId, observedAt: i64, loaded: Option<Stored>, host: HostState)
    requires Locate(execution, activity, loaded, host.limits).Ok?
    requires Locate(execution, activity, loaded, host.limits).value.record.state.DispatchExposed?
    ensures
      var c := RetryActivity(execution, activity, observedAt, loaded, host);
      c.Propose? || (c.Finished? && c.outcome.CheckpointRejected?)
  {
    hide Locate;
    hide DecodeAndValidate;
    hide EncodeWithLimits;
    hide RetryNotBefore;
  }

  lemma FailureAnswers(execution: ExecutionSpec, activity: LogicalActivityId, failure: ActivityFailure, loaded: Option<Stored>, host: HostState)
    requires Locate(execution, activity, loaded, host.limits).Ok?
    requires Locate(execution, activity, loaded, host.limits).value.record.state.DispatchExposed?
    ensures
      var c := ObserveFailure(execution, activity, failure, loaded, host);
      || c.Propose?
      || (c.Finished? && c.outcome.CheckpointRejected?)
      || (c.Finished? && Locate(execution, activity, loaded, host.limits).value.record.spec.maxResult < FailurePayloadLen(Some(failure)))
  {
    hide Locate;
    hide DecodeAndValidate;
    hide EncodeWithLimits;
  }

  // ---------------------------------------------------------------- one step

  /** The handler never asks to wait. */
  ghost predicate NeverWaits(handler: Handler)
  {
    forall activity, attempt, ordinal ::
      var r := handler(activity, attempt, ordinal); r.Some? ==> !r.value.HandlerWaitUntil?
  }

  /** The execution is over, or the stored checkpoint has a lower measure than before. */
  ghost predicate Advanced(execution: ExecutionSpec, before: Option<Stored>, after: Option<Stored>, limits: CheckpointLimits)
  {
    after.Some? && after.value.checkpoint.body.Json? &&
    (|| after.value.checkpoint.body.payload.state.Terminal?
     || StoreMeasure(execution, after, limits) < StoreMeasure(execution, before, limits))
  }

  /** The store stays fault-free, traced and encoded under these limits, and the host keeps them. */
  ghost predicate Healthy(program: Program, execution: ExecutionSpec, store: StoreState, p: Performed, host: HostState, tokens: nat)
  {
    && p.store.nextCasFault.None? && p.store.nextLoadError.None?
    && store.revisionCounter <= p.store.revisionCounter <= store.revisionCounter + tokens
    && Traced(program, Lookup(p.store, execution.executionId))
    && Admitted(execution, Lookup(p.store, execution.executionId), host.limits)
    && p.host.limits == host.limits
  }

  /** An operation writes nothing, ends the execution, or lowers the measure. */
  ghost predicate Moved(execution: ExecutionSpec, store: StoreState, p: Performed, limits: CheckpointLimits)
  {
    var id := execution.executionId;
    Lookup(p.store, id) == Lookup(store, id) || Advanced(execution, Lookup(store, id), Lookup(p.store, id), limits)
  }

  lemma OperationMoves(program: Program, execution: ExecutionSpec, op: Op, store: StoreState, host: HostState)
    requires RunnerOp(op) && Produces(program.prepared, IdentityResolver)
    requires op.OpTurnAndExpose? ==> op.resolver == ForActivities(IdentityActivity)
    requires Clean(store, 1) && Traced(program, Lookup(store, execution.executionId)) && Admitted(execution, Lookup(store, execution.executionId), host.limits)
    ensures
      var p := Perform(program.workflow, execution, op, store, host);
      Healthy(program, execution, store, p, host, 1) && Moved(execution, store, p, host.limits)
  {
    hide Perform;
    hide Compute;
    hide Traced;
    hide Produces;
    hide StoreMeasure;
    hide DecodeAndValidate;
    PerformProgress(program, execution, op, store, host);
  }

  /** Two operations in a row move at least as far as the first. */
  lemma MovesCompose(execution: ExecutionSpec, first: StoreState, second: StoreState, third: StoreState, limits: CheckpointLimits,
                     p: Performed, q: Performed)
    requires p.store == second && q.store == third
    requires Advanced(execution, Lookup(first, execution.executionId), Lookup(second, execution.executionId), limits)
    requires !Lookup(second, execution.executionId).value.checkpoint.body.payload.state.Terminal?
    requires Moved(execution, second, q, limits)
    ensures Advanced(execution, Lookup(first, execution.executionId), Lookup(third, execution.executionId), limits)
  {
    hide StoreMeasure;
  }

  lemma FollowUpOp(env: Environment, context: InvocationContext, handled: HandlerResult, activity: LogicalActivityId)
    requires !handled.HandlerWaitUntil?
    ensures
      var op := FollowUp(Invoke(context, env.now, env.timeoutRuntime, handled), activity, env.now);
      op.Some? ==> RunnerOp(op.value) && !op.value.OpTurnAndExpose?
  {
    InvokeMeaning(context, env.now, env.timeoutRuntime, handled);
  }

  /** Whatever happens after a permit, the accepted exposure already moved the execution. */
  lemma DispatchMoves(program: Program, env: Environment, permit: DispatchPermit, store: StoreState, host: HostState)
    requires env.workflow == program.workflow && Produces(program.prepared, IdentityResolver) && NeverWaits(env.handler)
    requires Clean(store, 1) && Traced(program, Lookup(store, env.execution.executionId))
    requires Admitted(env.execution, Lookup(store, env.execution.executionId), host.limits)
    ensures
      var p := Dispatch(env, permit, store, host);
      Healthy(program, env.execution, store, p, host, 1) && Moved(env.execution, store, p, host.limits)
  {
    hide Perform;
    hide Traced;
    hide Produces;
    hide StoreMeasure;
    hide DecodeAndValidate;
    hide Invoke;
    hide RunnerOp;
    var id := env.execution.executionId;
    var after := AfterLoad(store);
    assert after == store;
    var loaded := Lookup(store, id);
    if loaded.Some? {
      var decoded := DecodeAndValidate(loaded.value.checkpoint, env.execution, host.limits);
      if decoded.Ok? && LastActive(decoded.value).Some? {
        var ordinal := LastActive(decoded.value).value.attempt.ordinal;
        var handled := env.handler(permit.activity, permit.attemptId, ordinal);
        if handled.Some? {
          var context := InvocationContext(permit.activity.spec.options, ordinal, true);
          var op := FollowUp(Invoke(context, env.now, env.timeoutRuntime, handled.value), permit.activity, env.now);
          FollowUpOp(env, context, handled.value, permit.activity);
          if op.Some? { OperationMoves(program, env.execution, op.value, store, host); }
        }
      }
    }
  }

  /** Recovery of a lost result moves the execution, is refused for capacity, or meets a bound below 27 bytes. */
  lemma RecoverMoves(program: Program, env: Environment, activity: LogicalActivityId, store: StoreState, host: HostState)
    requires env.workflow == program.workflow && Produces(program.prepared, IdentityResolver)
    requires Clean(store, 2) && Traced(program, Lookup(store, env.execution.executionId))
    requires Admitted(env.execution, Lookup(store, env.execution.executionId), host.limits)
    requires Locate(env.execution, activity, Lookup(store, env.execution.executionId), host.limits).Ok?
    requires
      var record := Locate(env.execution, activity, Lookup(store, env.execution.executionId), host.limits).value.record;
      record.state.DispatchExposed? && record.prepared.None?
    ensures
      var id := env.execution.executionId;
      var p := Recover(env, activity, store, host);
      && Healthy(program, env.execution, store, p, host, 2)
      && Moved(env.execution, store, p, host.limits)
      && p.outcome.Some?
      && (Lookup(p.store, id) == Lookup(store, id) ==>
            || (p.outcome.value.CheckpointRejected? && IsCapacity(p.outcome.value.error))
            || Locate(env.execution, activity, Lookup(store, id), host.limits).value.record.spec.maxResult < |LOST_RESULT|)
  {
    hide Perform;
    hide Locate;
    hide DecodeAndValidate;
    hide Traced;
    hide Produces;
    hide StoreMeasure;
    hide RetryActivity;
    hide ObserveFailure;
    hide Admitted;
    hide IsCapacity;
    hide EncodeWithLimits;
    hide InternalError;
    hide LOST_RESULT;
    var id := env.execution.executionId;
    var loaded := Lookup(store, id);
    RetryAnswers(env.execution, activity, env.now, loaded, host);
    RetryRejects(env.execution, activity, env.now, loaded, host);
    var retry := Perform(env.workflow, env.execution, OpRetry(activity, env.now), store, host);
    PerformProgress(program, env.execution, OpRetry(activity, env.now), store, host);
    if retry.outcome == Some(CheckpointRejected(ActivityAttemptLimitExceeded)) {
      var failure := Application(LOST_RESULT);
      FailureAnswers(env.execution, activity, failure, loaded, retry.host);
      if |LOST_RESULT| <= Locate(env.execution, activity, loaded, host.limits).value.record.spec.maxResult {
        FailureRejects(env.execution, activity, failure, loaded, retry.host);
      }
      PerformProgress(program, env.execution, OpFailure(activity, failure), retry.store, retry.host);
    }
  }

  /** Why a step may leave the stored checkpoint as it is. */
  ghost predicate Settled(program: Program, env: Environment, loaded: Option<Stored>, limits: CheckpointLimits, outcome: Option<HostOutcome>)
  {
    outcome.Some? &&
    (|| outcome.value.WorkflowCompleted?
     || (outcome.value.CheckpointRejected? && (IsCapacity(outcome.value.error) || !Declared(program.workflow, env.execution)))
     || (outcome.value.Nondeterministic? && StalledAt(program, env, loaded, limits))
     || (outcome.value.Waiting? && PendingGated(env, loaded, limits))
     || PendingStrict(env, loaded, limits)
     || PendingTiny(env, loaded, limits))
  }

  /** The workflow stalls on the history the step replays. */
  ghost predicate StalledAt(program: Program, env: Environment, loaded: Option<Stored>, limits: CheckpointLimits)
  {
    var start := Start(env.execution, StoredEnvelope(loaded), limits);
    start.Ok? && StallsAt(program, start.value)
  }

  ghost predicate PendingWith(env: Environment, loaded: Option<Stored>, limits: CheckpointLimits, record: ActivityRecord)
  {
    && loaded.Some?
    && var decoded := DecodeAndValidate(loaded.value.checkpoint, env.execution, limits);
       decoded.Ok? && LastActive(decoded.value) == Some(record)
  }

  ghost predicate PendingGated(env: Environment, loaded: Option<Stored>, limits: CheckpointLimits)
  {
    exists record :: PendingWith(env, loaded, limits, record) && Gate(record, env.now).Some?
  }

  ghost predicate PendingStrict(env: Environment, loaded: Option<Stored>, limits: CheckpointLimits)
  {
    exists record :: PendingWith(env, loaded, limits, record) && !record.state.Completed? && record.prepared.Some?
  }

  ghost predicate PendingTiny(env: Environment, loaded: Option<Stored>, limits: CheckpointLimits)
  {
    exists record :: PendingWith(env, loaded, limits, record) && !record.state.Completed? && record.spec.maxResult < |LOST_RESULT|
  }

  lemma LocatedPending(env: Environment, activity: LogicalActivityId, loaded: Option<Stored>, limits: CheckpointLimits)
    requires Locate(env.execution, activity, loaded, limits).Ok?
    ensures PendingWith(env, loaded, limits, Locate(env.execution, activity, loaded, limits).value.record)
  {
    hide Locate;
    hide DecodeAndValidate;
  }

  /** One runner step moves the execution, or says why it cannot. */
  lemma StepMoves(program: Program, env: Environment, store: StoreState, host: HostState)
    requires env.workflow == program.workflow && NeverWaits(env.handler)
    requires Produces(program.prepared, IdentityResolver) && Replays(program.prepared, IdentityResolver)
    requires Clean(store, 3) && Traced(program, Lookup(store, env.execution.executionId)) && host.counter < U64_MAX
    requires Admitted(env.execution, Lookup(store, env.execution.executionId), host.limits)
    ensures
      var id := env.execution.executionId;
      var p := RunOnce(env, store, host);
      && Healthy(program, env.execution, store, p, host, 3)
      && Moved(env.execution, store, p, host.limits)
      && (Lookup(p.store, id) == Lookup(store, id) ==> Settled(program, env, Lookup(store, id), host.limits, p.outcome))
      && (Lookup(p.store, id) != Lookup(store, id) && Lookup(store, id).Some? ==> EnvelopeActive(Lookup(store, id).value.checkpoint))
  {
    hide Perform;
    hide Recover;
    hide Dispatch;
    hide Locate;
    hide DecodeAndValidate;
    hide Traced;
    hide Produces;
    hide StoreMeasure;
    hide TurnAndExpose;
    hide Gate;
    hide Replays;
    hide StallsAt;
    hide Start;
    hide InternalError;
    hide EncodeWithLimits;
    hide Admitted;
    hide Declared;
    hide IsCapacity;
    var id := env.execution.executionId;
    var loaded := Lookup(store, id);
    var op := ExposeOp(env);
    var c := TurnAndExpose(env.workflow, env.execution, op.resolver, op.now, loaded, host);
    PerformProgress(program, env.execution, op, store, host);
    var first := Perform(env.workflow, env.execution, op, store, host);
    TurnQuarantine(env.workflow, env.execution, op.resolver, op.now, loaded, host);
    ComputeNeverPermits(env.workflow, env.execution, op, loaded, host);
    StepAgrees(program, env, loaded, host);
    if Declared(program.workflow, env.execution) { TurnRejects(program, env.execution, op.now, loaded, host); }
    if c.Propose? {
      if first.outcome.value.DispatchPermitted? {
        DispatchMoves(program, env, first.outcome.value.permit, first.store, first.host);
        MovesCompose(env.execution, store, first.store, RunOnce(env, store, host).store, host.limits, first, RunOnce(env, store, host));
      }
    } else if c.outcome.Quarantined? {
      LocatedPending(env, c.outcome.activity, loaded, host.limits);
      LocatedActive(env.execution, c.outcome.activity, loaded, host.limits);
      if c.outcome.preparedCommand.None? {
        RecoverMoves(program, env, c.outcome.activity, first.store, first.host);
      }
    }
  }

  lemma LocatedActive(execution: ExecutionSpec, activity: LogicalActivityId, loaded: Option<Stored>, limits: CheckpointLimits)
    requires Locate(execution, activity, loaded, limits).Ok?
    ensures loaded.Some? && EnvelopeActive(loaded.value.checkpoint)
  {
    hide Locate;
    hide DecodeAndValidate;
  }

  /** A runner step reports nondeterminism only for a workflow that stalls. */
  lemma StepAgrees(program: Program, env: Environment, loaded: Option<Stored>, host: HostState)
    requires env.workflow == program.workflow && Replays(program.prepared, IdentityResolver) && Traced(program, loaded)
    ensures
      var op := ExposeOp(env);
      var c := TurnAndExpose(env.workflow, env.execution, op.resolver, op.now, loaded, host);
      c.Finished? && c.outcome.Nondeterministic? ==> StalledAt(program, env, loaded, host.limits)
  {
    hide TurnAndExpose;
    hide Replays;
    hide StallsAt;
    hide Start;
    hide InternalError;
    hide EncodeWithLimits;
    hide Trace;
    var op := ExposeOp(env);
    if loaded.Some? {
      var base, trace, end :| loaded.value.checkpoint == Encode(end) && Trace(program, base, trace, end);
      assert Reached(program, base, trace, loaded);
      TurnAndExposeAgrees(program, base, trace, env.execution, op.resolver, op.now, loaded, host);
    } else {
      var base := Initial(env.execution, host.limits);
      assert Reached(program, base, [], loaded);
      TurnAndExposeAgrees(program, base, [], env.execution, op.resolver, op.now, loaded, host);
    }
  }

  // ---------------------------------------------------------------- whole drives

  /** One runner step of a drive: its surroundings and the host that performs it. */
  datatype Drive = Drive(env: Environment, host: HostState)

  /** A declared workflow that never stalls and whose activities can hold the lost-result failure. */
  ghost predicate Favourable(workflow: Workflow, execution: ExecutionSpec)
  {
    && Declared(workflow, execution)
    && forall results: seq<ActivityResult> ::
         var step := workflow(execution.workflowInput, results);
         !step.Stall? && (step.Request? ==> |LOST_RESULT| <= step.call.spec.maxResult)
  }

  /** Steps of any hosts with the same limits, each from the store its predecessor left, with elapsed gates. */
  ghost predicate Drives(workflow: Workflow, execution: ExecutionSpec, limits: CheckpointLimits, drives: seq<Drive>, stores: seq<StoreState>)
  {
    && |stores| == |drives| + 1
    && Lookup(stores[0], execution.executionId).None?
    && Clean(stores[0], 3 * |drives|)
    && forall i :: 0 <= i < |drives| ==>
         && drives[i].env.workflow == workflow && drives[i].env.execution == execution
         && drives[i].host.limits == limits && drives[i].host.counter < U64_MAX
         && NeverWaits(drives[i].env.handler)
         && !PendingGated(drives[i].env, Lookup(stores[i], execution.executionId), limits)
         && stores[i + 1] == RunOnce(drives[i].env, stores[i], drives[i].host).store
  }

  lemma IdentityAgrees()
    ensures Produces(IdentityPreparation, IdentityResolver) && Replays(IdentityPreparation, IdentityResolver)
  {
  }

  lemma {:induction false} DriveInvariant(workflow: Workflow, execution: ExecutionSpec, limits: CheckpointLimits, drives: seq<Drive>,
                                          stores: seq<StoreState>, i: nat)
    requires Drives(workflow, execution, limits, drives, stores) && i <= |drives|
    ensures Traced(Program(workflow, IdentityPreparation), Lookup(stores[i], execution.executionId))
    ensures Admitted(execution, Lookup(stores[i], execution.executionId), limits)
    ensures Clean(stores[i], 3 * (|drives| - i))
  {
    hide RunOnce;
    hide Traced;
    hide Settled;
    hide PendingGated;
    hide StoreMeasure;
    hide NeverWaits;
    hide Produces;
    hide Replays;
    if i == 0 {
      NothingTraced(Program(workflow, IdentityPreparation));
    } else {
      DriveInvariant(workflow, execution, limits, drives, stores, i - 1);
      IdentityAgrees();
      StepMoves(Program(workflow, IdentityPreparation), drives[i - 1].env, stores[i - 1], drives[i - 1].host);
    }
  }

  lemma NothingTraced(program: Program)
    ensures Traced(program, None)
  {
  }

  /** In a favourable drive, a step that leaves the checkpoint alone completed or ran out of records or capacity. */
  lemma UnmovedMeaning(workflow: Workflow, execution: ExecutionSpec, limits: CheckpointLimits, drives: seq<Drive>, stores: seq<StoreState>, i: nat)
    requires Drives(workflow, execution, limits, drives, stores) && Favourable(workflow, execution) && i < |drives|
    requires Lookup(stores[i + 1], execution.executionId) == Lookup(stores[i], execution.executionId)
    ensures
      var outcome := RunOnce(drives[i].env, stores[i], drives[i].host).outcome;
      outcome.Some? && (outcome.value.WorkflowCompleted? || (outcome.value.CheckpointRejected? && IsCapacity(outcome.value.error)))
  {
    hide RunOnce;
    hide Traced;
    hide PendingWith;
    hide StoreMeasure;
    hide NeverWaits;
    hide Produces;
    hide Replays;
    hide StallsAt;
    var program := Program(workflow, IdentityPreparation);
    var id := execution.executionId;
    DriveInvariant(workflow, execution, limits, drives, stores, i);
    IdentityAgrees();
    StepMoves(program, drives[i].env, stores[i], drives[i].host);
    var loaded := Lookup(stores[i], id);
    if StalledAt(program, drives[i].env, loaded, limits) {
      NoStall(program, execution, Start(execution, StoredEnvelope(loaded), limits).value);
    }
    if PendingStrict(drives[i].env, loaded, limits) {
      var record :| PendingWith(drives[i].env, loaded, limits, record) && !record.state.Completed? && record.prepared.Some?;
      PendingRoomy(program, drives[i].env, loaded, limits, record);
    }
    if PendingTiny(drives[i].env, loaded, limits) {
      var record :| PendingWith(drives[i].env, loaded, limits, record) && !record.state.Completed? && record.spec.maxResult < |LOST_RESULT|;
      PendingRoomy(program, drives[i].env, loaded, limits, record);
    }
  }

  lemma NoStall(program: Program, execution: ExecutionSpec, stalled: CheckpointPayload)
    requires Favourable(program.workflow, execution) && InputOf(stalled) == execution.workflowInput
    ensures !StallsAt(program, stalled)
  {
  }

  /** The pending record of a favourable drive is an ordinary activity that can hold the lost-result failure. */
  lemma PendingRoomy(program: Program, env: Environment, loaded: Option<Stored>, limits: CheckpointLimits, record: ActivityRecord)
    requires program.prepared == IdentityPreparation && Favourable(program.workflow, env.execution)
    requires Traced(program, loaded) && PendingWith(env, loaded, limits, record)
    ensures record.prepared.None? && |LOST_RESULT| <= record.spec.maxResult
  {
    hide DecodeAndValidate;
    hide Trace;
    hide InternalError;
    hide EncodeWithLimits;
    DecodedFacts(loaded.value.checkpoint, env.execution, limits);
    var base, trace, end :| loaded.value.checkpoint == Encode(end) && Trace(program, base, trace, end);
    var k := |end.state.activities| - 1;
    TraceRequested(program, base, trace, end, k);
    var call := program.workflow(InputOf(end), Results(end.state.activities[..k])).call;
    assert Answers(program.prepared, end.execution.spec.executionId, call, end.state.activities[k]);
  }

  ghost predicate Writes(execution: ExecutionSpec, stores: seq<StoreState>, i: nat)
    requires i + 1 < |stores|
  {
    Lookup(stores[i + 1], execution.executionId) != Lookup(stores[i], execution.executionId)
  }

  /** While every step writes, the measure pays for each of them. */
  lemma {:induction false} DriveDescends(workflow: Workflow, execution: ExecutionSpec, limits: CheckpointLimits, drives: seq<Drive>,
                                         stores: seq<StoreState>, i: nat)
    requires Drives(workflow, execution, limits, drives, stores) && i < |drives|
    requires forall j :: 0 <= j < |drives| ==> Writes(execution, stores, j)
    ensures StoreMeasure(execution, Lookup(stores[i], execution.executionId), limits) <= limits.maxRecords * (IDLE + 1) + IDLE - i
  {
    hide RunOnce;
    hide Traced;
    hide Settled;
    hide PendingGated;
    hide StoreMeasure;
    hide NeverWaits;
    hide Produces;
    hide Replays;
    var id := execution.executionId;
    StoreMeasureBounds(execution, Lookup(stores[i], id), limits);
    if i > 0 {
      var program := Program(workflow, IdentityPreparation);
      DriveDescends(workflow, execution, limits, drives, stores, i - 1);
      IdentityAgrees();
      assert Writes(execution, stores, i - 1) && Writes(execution, stores, i);
      DriveInvariant(workflow, execution, limits, drives, stores, i - 1);
      StepMoves(program, drives[i - 1].env, stores[i - 1], drives[i - 1].host);
      DriveInvariant(workflow, execution, limits, drives, stores, i);
      StepMoves(program, drives[i].env, stores[i], drives[i].host);
    }
  }

  /**
   * Bounded completion: with accepted writes, elapsed gates, no handler waits and a result bound of at
   * least 27 bytes, more runner steps than the initial measure cannot all make progress. Some step
   * leaves the checkpoint alone, and it reports the terminal state or that records or encoded capacity
   * ran out, however many results were lost after exposure.
   */
  lemma RunnerCompletes(workflow: Workflow, execution: ExecutionSpec, limits: CheckpointLimits, drives: seq<Drive>, stores: seq<StoreState>)
    requires Drives(workflow, execution, limits, drives, stores) && Favourable(workflow, execution)
    requires |drives| > limits.maxRecords * (IDLE + 1) + IDLE + 1
    ensures exists i :: 0 <= i < |drives| && Concluded(execution, drives, stores, i)
  {
    hide RunOnce;
    hide Drives;
    hide Favourable;
    hide StoreMeasure;
    assert |stores| == |drives| + 1 by { DriveLength(workflow, execution, limits, drives, stores); }
    if forall j :: 0 <= j < |drives| ==> Writes(execution, stores, j) {
      var i := |drives| - 1;
      DriveDescends(workflow, execution, limits, drives, stores, i);
      StoreMeasureBounds(execution, Lookup(stores[i], execution.executionId), limits);
      assert false;
    } else {
      var j :| 0 <= j < |drives| && !Writes(execution, stores, j);
      UnmovedMeaning(workflow, execution, limits, drives, stores, j);
      assert Concluded(execution, drives, stores, j);
    }
  }

  lemma DriveLength(workflow: Workflow, execution: ExecutionSpec, limits: CheckpointLimits, drives: seq<Drive>, stores: seq<StoreState>)
    requires Drives(workflow, execution, limits, drives, stores)
    ensures |stores| == |drives| + 1
  {
    hide RunOnce;
  }

  /** The step left the stored checkpoint as it was, and reports the terminal state or a record or capacity rejection. */
  ghost predicate Concluded(execution: ExecutionSpec, drives: seq<Drive>, stores: seq<StoreState>, i: nat)
    requires i < |drives| && |stores| == |drives| + 1
  {
    var outcome := RunOnce(drives[i].env, stores[i], drives[i].host).outcome;
    && Lookup(stores[i + 1], execution.executionId) == Lookup(stores[i], execution.executionId)
    && outcome.Some?
    && (outcome.value.WorkflowCompleted? || (outcome.value.CheckpointRejected? && IsCapacity(outcome.value.error)))
  }
}
