/** One runner step end to end: what the handler answered is what the stored history then says. */
module Delivery {
  import opened Base
  import opened Identity
  import opened Records
  import opened Checkpoint
  import opened Capacity
  import opened Replay
  import opened Store
  import opened Host
  import opened Steps
  import opened Derivation
  import opened ObservationSteps
  import opened Traces
  import opened Exposures
  import opened HostProcess
  import opened Runner
  import opened Progress

  // ---------------------------------------------------------------- gates

  /** A record is gated exactly while its retry time or its handler's wait lies ahead. */
  lemma GatedIff(record: ActivityRecord, now: i64)
    ensures
      var retry, wait := record.attempt.retryNotBefore, record.attempt.handlerWait;
      Gate(record, now).Some? <==> (retry.Some? && retry.value > now) || (wait.Some? && wait.value > now)
  {
  }

  /** The reported wakeup is the latest gate, cut short by the action deadline, which may already have passed. */
  lemma WakeupIsLatestGate(record: ActivityRecord, now: i64)
    requires Gate(record, now).Some?
    ensures
      var retry, wait, deadline := record.attempt.retryNotBefore, record.attempt.handlerWait, record.spec.options.actionDeadline;
      var wake := Gate(record, now).value;
      && (deadline.Some? ==> wake <= deadline.value)
      && (deadline.None? || wake < deadline.value ==>
            && wake > now
            && (retry.Some? ==> retry.value <= wake) && (wait.Some? ==> wait.value <= wake)
            && (retry == Some(wake) || wait == Some(wake)))
  {
  }

  /** A clocked turn exposes a stored scheduled record only once every gate has elapsed. */
  lemma ExposureWaitsForGates(workflow: Workflow, execution: ExecutionSpec, resolver: ExposureResolver, now: i64, stored: Stored, host: HostState)
    requires TurnAndExpose(workflow, execution, resolver, Some(now), Some(stored), host).Propose?
    requires DecodeAndValidate(stored.checkpoint, execution, host.limits).Ok?
    requires
      var last := LastActive(DecodeAndValidate(stored.checkpoint, execution, host.limits).value);
      last.Some? && last.value.state.Scheduled?
    ensures
      var attempt := LastActive(DecodeAndValidate(stored.checkpoint, execution, host.limits).value).value.attempt;
      && (attempt.retryNotBefore.Some? ==> attempt.retryNotBefore.value <= now)
      && (attempt.handlerWait.Some? ==> attempt.handlerWait.value <= now)
  {
    hide DecodeAndValidate;
    hide StoredAnswer;
    hide Evaluate;
    hide PrepareExposure;
    hide CommitCompletion;
    hide Gate;
    var record := LastActive(DecodeAndValidate(stored.checkpoint, execution, host.limits).value).value;
    GatedIff(record, now);
  }

  // ---------------------------------------------------------------- delivery

  /** A permit on a fault-free store is the exposed, decodable, reserved end of the stored history. */
  lemma PermitStored(program: Program, env: Environment, store: StoreState, host: HostState)
    requires env.workflow == program.workflow && Produces(program.prepared, IdentityResolver)
    requires Clean(store, 1) && Traced(program, Lookup(store, env.execution.executionId))
    requires
      var first := Perform(env.workflow, env.execution, ExposeOp(env), store, host);
      first.outcome.Some? && first.outcome.value.DispatchPermitted?
    ensures
      var id := env.execution.executionId;
      var first := Perform(env.workflow, env.execution, ExposeOp(env), store, host);
      var c := Compute(env.workflow, env.execution, ExposeOp(env), Lookup(store, id), host);
      && c.Propose?
      && Lookup(first.store, id) == Some(Stored(store.revisionCounter + 1, Encode(c.payload)))
      && first.store.nextCasFault.None? && first.store.nextLoadError.None?
      && first.store.revisionCounter <= store.revisionCounter + 1
      && first.host.limits == host.limits
      && Traced(program, Lookup(first.store, id))
      && DecodeAndValidate(Encode(c.payload), env.execution, host.limits) == Ok(c.payload)
      && LastActive(c.payload).Some?
      && PermitNames(first.outcome.value.permit, LastActive(c.payload).value, id)
  {
    hide Compute;
    hide Traced;
    hide Produces;
    hide Start;
    hide InternalError;
    hide Path;
    hide DecodeAndValidate;
    hide StoreMeasure;
    hide AcceptedAlong;
    hide AcceptedBy;
    hide OnlyLeads;
    var id := env.execution.executionId;
    var c := Compute(env.workflow, env.execution, ExposeOp(env), Lookup(store, id), host);
    PerformProgress(program, env.execution, ExposeOp(env), store, host);
    ComputeNeverPermits(env.workflow, env.execution, ExposeOp(env), Lookup(store, id), host);
    var steps := ComputeDerives(program, env.execution, ExposeOp(env), Lookup(store, id), host);
    ProposalProgress(program, env.execution, ExposeOp(env), Lookup(store, id), host, store.revisionCounter + 1);
  }

  /** Observing a stored exposed ordinary activity with a result within its bound always has a proposal. */
  lemma TracedObservation(program: Program, execution: ExecutionSpec, stored: Stored, payload: CheckpointPayload, result: Bytes, host: HostState)
    requires Traced(program, Some(stored)) && stored.checkpoint == Encode(payload)
    requires DecodeAndValidate(stored.checkpoint, execution, host.limits) == Ok(payload)
    requires
      var last := LastActive(payload);
      && last.Some? && last.value.state.DispatchExposed? && last.value.prepared.None?
      && |result| <= last.value.spec.maxResult
    ensures
      var record := LastActive(payload).value;
      var activity := LogicalId(record, execution.executionId);
      Observe(execution, activity, result, Some(stored), host)
      == Propose(Some(stored.revision), WithLast(payload, WithState(record, Completed(result))), AcceptObservation(activity), host.counter)
  {
    hide Trace;
    hide DecodeAndValidate;
    hide EncodeWithLimits;
    hide InternalError;
    hide Reserved;
    var base, trace, end :| stored.checkpoint == Encode(end) && Trace(program, base, trace, end);
    assert end == payload;
    DecodedFacts(stored.checkpoint, execution, host.limits);
    InternalFacts(payload, host.limits);
    ReservedWhileExposed(program, base, trace, payload);
    ReservedResultFits(payload, result, host.limits);
  }

  /**
   * The runner delivers: when a step is permitted to dispatch an ordinary activity, the handler succeeds within the
   * declared bound and the invocation stands, the step records exactly that result for exactly that attempt.
   */
  lemma RunnerDelivers(program: Program, env: Environment, store: StoreState, host: HostState, result: Bytes)
    requires env.workflow == program.workflow && Produces(program.prepared, IdentityResolver)
    requires Clean(store, 2) && Traced(program, Lookup(store, env.execution.executionId))
    requires
      var first := Perform(env.workflow, env.execution, ExposeOp(env), store, host);
      && first.outcome.Some? && first.outcome.value.DispatchPermitted?
      && var permit := first.outcome.value.permit;
         && permit.preparedCommand.None?
         && |result| <= permit.activity.spec.maxResult
         && env.handler(permit.activity, permit.attemptId, permit.ordinal) == Some(HandlerOk(result))
         && Invoke(InvocationContext(permit.activity.spec.options, permit.ordinal, true), env.now, env.timeoutRuntime, HandlerOk(result))
            == InvocationCompleted(result)
    ensures
      var id := env.execution.executionId;
      var c := Compute(env.workflow, env.execution, ExposeOp(env), Lookup(store, id), host);
      var permit := Perform(env.workflow, env.execution, ExposeOp(env), store, host).outcome.value.permit;
      var p := RunOnce(env, store, host);
      && c.Propose? && LastActive(c.payload).Some?
      && PermitNames(permit, LastActive(c.payload).value, id)
      && p.outcome.Some? && p.outcome.value.ObservationAccepted? && p.outcome.value.activity == permit.activity
      && Lookup(p.store, id).Some?
      && Lookup(p.store, id).value.checkpoint == Encode(WithLast(c.payload, WithState(LastActive(c.payload).value, Completed(result))))
  {
    hide Compute;
    hide Traced;
    hide Produces;
    hide DecodeAndValidate;
    hide Invoke;
    hide Observe;
    hide WithLast;
    var id := env.execution.executionId;
    var c := Compute(env.workflow, env.execution, ExposeOp(env), Lookup(store, id), host);
    var first := Perform(env.workflow, env.execution, ExposeOp(env), store, host);
    var permit := first.outcome.value.permit;
    PermitStored(program, env, store, host);
    var stored := Stored(store.revisionCounter + 1, Encode(c.payload));
    TracedObservation(program, env.execution, stored, c.payload, result, first.host);
    ObserveComputes(env.workflow, env.execution, permit.activity, result, Some(stored), first.host);
  }

  lemma ObserveComputes(workflow: Workflow, execution: ExecutionSpec, activity: LogicalActivityId, result: Bytes, loaded: Option<Stored>, host: HostState)
    ensures Compute(workflow, execution, OpObserve(activity, result), loaded, host) == Observe(execution, activity, result, loaded, host)
  {
  }

  lemma RetryComputes(workflow: Workflow, execution: ExecutionSpec, activity: LogicalActivityId, now: i64, loaded: Option<Stored>, host: HostState)
    ensures Compute(workflow, execution, OpRetry(activity, now), loaded, host) == RetryActivity(execution, activity, now, loaded, host)
  {
  }

  /** Retrying a stored exposed activity reschedules it at the next ordinal behind its backoff, or is rejected. */
  lemma StoredRetry(execution: ExecutionSpec, stored: Stored, payload: CheckpointPayload, now: i64, host: HostState)
    requires stored.checkpoint == Encode(payload) && DecodeAndValidate(stored.checkpoint, execution, host.limits) == Ok(payload)
    requires LastActive(payload).Some? && LastActive(payload).value.state.DispatchExposed?
    ensures
      var record := LastActive(payload).value;
      var activity := LogicalId(record, execution.executionId);
      var c := RetryActivity(execution, activity, now, Some(stored), host);
      var at := RetryNotBefore(record.spec.options, record.attempt.ordinal, now);
      || (c.Finished? && c.outcome.CheckpointRejected?)
      || (&& at.Some? && record.attempt.ordinal < U32_MAX
          && c == Propose(Some(stored.revision),
                          WithLast(payload, record.(attempt := AttemptState(record.attempt.ordinal + 1, at, None), state := Scheduled)),
                          AcceptRetry(activity, at.value), host.counter))
  {
    hide DecodeAndValidate;
    hide EncodeWithLimits;
    hide RetryNotBefore;
  }

  /** The step retries: a retryable failure with an attempt left reschedules exactly that attempt, or is rejected and changes nothing. */
  lemma RunnerRetries(program: Program, env: Environment, store: StoreState, host: HostState, failure: Bytes)
    requires env.workflow == program.workflow && Produces(program.prepared, IdentityResolver)
    requires Clean(store, 2) && Traced(program, Lookup(store, env.execution.executionId))
    requires
      var first := Perform(env.workflow, env.execution, ExposeOp(env), store, host);
      && first.outcome.Some? && first.outcome.value.DispatchPermitted?
      && var permit := first.outcome.value.permit;
         && env.handler(permit.activity, permit.attemptId, permit.ordinal) == Some(HandlerRetryable(failure))
         && Invoke(InvocationContext(permit.activity.spec.options, permit.ordinal, true), env.now, env.timeoutRuntime, HandlerRetryable(failure))
            == InvocationRetryable
    ensures
      var id := env.execution.executionId;
      var c := Compute(env.workflow, env.execution, ExposeOp(env), Lookup(store, id), host);
      var p := RunOnce(env, store, host);
      && c.Propose? && LastActive(c.payload).Some?
      && var record := LastActive(c.payload).value;
         var at := RetryNotBefore(record.spec.options, record.attempt.ordinal, env.now);
         && p.outcome.Some? && Lookup(p.store, id).Some?
         && (|| (p.outcome.value.CheckpointRejected? && Lookup(p.store, id).value.checkpoint == Encode(c.payload))
             || (&& at.Some? && record.attempt.ordinal < U32_MAX
                 && p.outcome.value.RetryScheduled? && p.outcome.value.retryAt == at.value
                 && Lookup(p.store, id).value.checkpoint
                    == Encode(WithLast(c.payload, record.(attempt := AttemptState(record.attempt.ordinal + 1, at, None), state := Scheduled)))))
  {
    hide Compute;
    hide Traced;
    hide Produces;
    hide DecodeAndValidate;
    hide Invoke;
    hide RetryActivity;
    hide RetryNotBefore;
    hide WithLast;
    var id := env.execution.executionId;
    var c := Compute(env.workflow, env.execution, ExposeOp(env), Lookup(store, id), host);
    var first := Perform(env.workflow, env.execution, ExposeOp(env), store, host);
    var permit := first.outcome.value.permit;
    PermitStored(program, env, store, host);
    var stored := Stored(store.revisionCounter + 1, Encode(c.payload));
    StoredRetry(env.execution, stored, c.payload, env.now, first.host);
    RetryComputes(env.workflow, env.execution, permit.activity, env.now, Some(stored), first.host);
  }
}
