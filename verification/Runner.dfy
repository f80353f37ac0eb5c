/** Invocation classification and the bounded runner step of `kuberic-dex/src/registry.rs`. */
module Runner {
  import opened Base
  import opened Identity
  import opened Effects
  import opened Records
  import opened Checkpoint
  import opened Replay
  import opened Store
  import opened Host
  import opened HostProcess

  /** What the registered handler returned; codec covers unregistered names and contract mismatches. */
  datatype HandlerResult =
    | HandlerOk(result: Bytes)
    | HandlerRetryable(failure: Bytes)
    | HandlerTerminal(failure: Bytes)
    | HandlerTimedOut
    | HandlerWaitUntil(wakeAt: i64)
    | HandlerCodec

  datatype Invocation =
    | InvocationCompleted(result: Bytes)
    | InvocationRetryable
    | InvocationFailed(failure: ActivityFailure)
    | InvocationWaitUntil(wakeAt: i64)
    | InvocationRejected

  /** The invocation context that classification depends on. */
  datatype InvocationContext = InvocationContext(options: ActivityOptions, ordinal: u32, dispatchAuthorized: bool)

  /** Milliseconds to the action deadline, when dispatch is authorized and the difference is representable. */
  function ActionTimeout(context: InvocationContext, now: i64): (t: Option<u64>)
  {
    if !context.dispatchAuthorized || context.options.actionDeadline.None? then None
    else
      var remaining := context.options.actionDeadline.value - now;
      if 0 <= remaining <= I64_MAX then Some(remaining) else None
  }

  /** The effective timeout, and whether the action deadline is what sets it. */
  function EffectiveTimeout(action: Option<u64>, attempt: Option<u64>): (r: (Option<u64>, bool))
  {
    match (action, attempt)
    case (Some(a), Some(b)) => if a <= b then (action, true) else (attempt, false)
    case (Some(_), None) => (action, true)
    case (None, Some(_)) => (attempt, false)
    case (None, None) => (None, false)
  }

  function Invoke(context: InvocationContext, now: i64, timeoutRuntime: bool, handler: HandlerResult): (i: Invocation)
  {
    var deadline := context.options.actionDeadline;
    var (timeout, deadlineWins) := EffectiveTimeout(ActionTimeout(context, now), context.options.attemptTimeout);
    if context.dispatchAuthorized && deadline.Some? && now >= deadline.value then InvocationFailed(ActionDeadlineExceeded)
    else if timeout.Some? && !timeoutRuntime then InvocationRejected
    else if timeout.Some? && handler.HandlerTimedOut? && deadlineWins then InvocationFailed(ActionDeadlineExceeded)
    else
      match handler
      case HandlerOk(result) => InvocationCompleted(result)
      case HandlerRetryable(failure) =>
        if context.ordinal < context.options.maxAttempts then InvocationRetryable else InvocationFailed(Application(failure))
      case HandlerTerminal(failure) => InvocationFailed(Application(failure))
      case HandlerTimedOut => InvocationFailed(TimedOut)
      case HandlerWaitUntil(wakeAt) =>
        InvocationWaitUntil(if context.dispatchAuthorized && deadline.Some? && deadline.value < wakeAt then deadline.value else wakeAt)
      case HandlerCodec => InvocationRejected
  }

  /** The invocation may only run under a timeout: its authorized deadline is a representable time away, or its options set one. */
  predicate Limited(context: InvocationContext, now: i64)
  {
    || context.options.attemptTimeout.Some?
    || (&& context.dispatchAuthorized && context.options.actionDeadline.Some?
        && now <= context.options.actionDeadline.value <= now + I64_MAX)
  }

  /** A timeout of a limited invocation is the action deadline's, unless the attempt's own is strictly shorter. */
  predicate DeadlineFirst(context: InvocationContext, now: i64)
  {
    && context.dispatchAuthorized && context.options.actionDeadline.Some?
    && now <= context.options.actionDeadline.value <= now + I64_MAX
    && (context.options.attemptTimeout.Some? ==> context.options.actionDeadline.value - now <= context.options.attemptTimeout.value)
  }

  /**
   * Classification, exactly: an elapsed action deadline is a failure before the handler counts; a limited invocation
   * without a timeout runtime is rejected; otherwise success completes, a codec error rejects, a retryable failure with an
   * attempt left retries and any other failure fails, a timeout is the deadline's or the attempt's, and a wait is cut to
   * the authorized deadline.
   */
  lemma InvokeMeaning(context: InvocationContext, now: i64, timeoutRuntime: bool, handler: HandlerResult)
    ensures
      var i := Invoke(context, now, timeoutRuntime, handler);
      var deadline := context.options.actionDeadline;
      var live := context.dispatchAuthorized ==> deadline.None? || now < deadline.value;
      var runs := live && (Limited(context, now) ==> timeoutRuntime);
      && (!live ==> i == InvocationFailed(ActionDeadlineExceeded))
      && (live && !runs ==> i == InvocationRejected)
      && (i.InvocationCompleted? <==> runs && handler.HandlerOk?)
      && (i.InvocationCompleted? ==> i.result == handler.result)
      && (i.InvocationRejected? <==> live && (!runs || handler.HandlerCodec?))
      && (i.InvocationRetryable? <==> runs && handler.HandlerRetryable? && context.ordinal < context.options.maxAttempts)
      && (i.InvocationWaitUntil? <==> runs && handler.HandlerWaitUntil?)
      && (i.InvocationWaitUntil? ==>
            && i.wakeAt <= handler.wakeAt
            && (context.dispatchAuthorized && deadline.Some? ==> i.wakeAt <= deadline.value)
            && (i.wakeAt == handler.wakeAt || (context.dispatchAuthorized && deadline == Some(i.wakeAt))))
      && (i == InvocationFailed(ActionDeadlineExceeded) <==> !live || (runs && handler.HandlerTimedOut? && DeadlineFirst(context, now)))
      && (i == InvocationFailed(TimedOut) <==> runs && handler.HandlerTimedOut? && !DeadlineFirst(context, now))
      && (i.InvocationFailed? && i.failure.Application? <==>
            runs && (handler.HandlerTerminal? || (handler.HandlerRetryable? && context.ordinal >= context.options.maxAttempts)))
      && (i.InvocationFailed? && i.failure.Application? ==> i.failure.payload == handler.failure)
  {
  }

  /** A handler, asked with the permitted activity and attempt; nothing means the process is lost while it runs. */
  type Handler = (LogicalActivityId, AttemptId, u32) -> Option<HandlerResult>

  const LOST_RESULT: Bytes :=
    [108, 111, 115, 116, 95, 114, 101, 115, 117, 108, 116, 95, 114, 101, 116, 114, 121, 95,
     101, 120, 104, 97, 117, 115, 116, 101, 100]

  /** Runner surroundings that do not change during one step. */
  datatype Environment = Environment(workflow: Workflow, execution: ExecutionSpec, now: i64, handler: Handler, timeoutRuntime: bool)

  function ExposeOp(env: Environment): (op: Op)
  {
    OpTurnAndExpose(ForActivities(IdentityActivity), Some(env.now))
  }

  /** A quarantined ordinary activity lost its result: retry it, or fail it when no attempt is left. */
  function Recover(env: Environment, activity: LogicalActivityId, store: StoreState, host: HostState): (p: Performed)
  {
    var retry := Perform(env.workflow, env.execution, OpRetry(activity, env.now), store, host);
    if retry.outcome == Some(CheckpointRejected(ActivityAttemptLimitExceeded)) then
      Perform(env.workflow, env.execution, OpFailure(activity, Application(LOST_RESULT)), retry.store, retry.host)
    else retry
  }

  /** The host operation an invocation leads to, if any. */
  function FollowUp(invocation: Invocation, activity: LogicalActivityId, now: i64): (op: Option<Op>)
  {
    match invocation
    case InvocationCompleted(result) => Some(OpObserve(activity, result))
    case InvocationRetryable => Some(OpRetry(activity, now))
    case InvocationFailed(failure) => Some(OpFailure(activity, failure))
    case InvocationWaitUntil(wakeAt) => Some(OpWait(activity, wakeAt))
    case InvocationRejected => None
  }

  /** After a permit: reload the attempt, run the handler and report what it did. */
  function Dispatch(env: Environment, permit: DispatchPermit, store: StoreState, host: HostState): (p: Performed)
  {
    var id := env.execution.executionId;
    var loaded := LoadResult(store, id);
    var after := AfterLoad(store);
    if loaded.Err? then Performed(after, host, Some(StoreFailed(LoadOperation, loaded.error)))
    else if loaded.value.None? then Performed(after, host, Some(CheckpointRejected(RetryRequiresExposedActivity)))
    else
      var decoded := DecodeAndValidate(loaded.value.value.checkpoint, env.execution, host.limits);
      if decoded.Err? then Performed(after, host, Some(CheckpointRejected(decoded.error)))
      else if LastActive(decoded.value).None? then Performed(after, host, None)
      else
        var ordinal := LastActive(decoded.value).value.attempt.ordinal;
        var handled := env.handler(permit.activity, permit.attemptId, ordinal);
        if handled.None? then Performed(after, host, None)
        else
          var context := InvocationContext(permit.activity.spec.options, ordinal, true);
          var op := FollowUp(Invoke(context, env.now, env.timeoutRuntime, handled.value), permit.activity, env.now);
          if op.None? then Performed(after, host, Some(CheckpointRejected(PreparedActivityRejected(Validation))))
          else Perform(env.workflow, env.execution, op.value, after, host)
  }

  /** One bounded runner step. */
  function RunOnce(env: Environment, store: StoreState, host: HostState): (p: Performed)
  {
    var first := Perform(env.workflow, env.execution, ExposeOp(env), store, host);
    if first.outcome.Some? && first.outcome.value.Quarantined? && first.outcome.value.preparedCommand.None? then
      Recover(env, first.outcome.value.activity, first.store, first.host)
    else if first.outcome.Some? && first.outcome.value.DispatchPermitted? then
      Dispatch(env, first.outcome.value.permit, first.store, first.host)
    else first
  }

  class ActivityRunner {
    const host: DurableHost
    const timeoutRuntime: bool

    constructor (host: DurableHost, timeoutRuntime: bool)
      ensures this.host == host && this.timeoutRuntime == timeoutRuntime
    {
      this.host := host;
      this.timeoutRuntime := timeoutRuntime;
    }

    method Step(workflow: Workflow, execution: ExecutionSpec, now: i64, handler: Handler) returns (outcome: Option<HostOutcome>)
      modifies host, host.store
      ensures host.Now(outcome)
           == RunOnce(Environment(workflow, execution, now, handler, timeoutRuntime), old(host.store.State()), old(host.State()))
    {
      hide Perform;
      hide DecodeAndValidate;
      outcome := host.TurnAndExposeResolved(workflow, execution, ForActivities(IdentityActivity), Some(now));
      if outcome.None? { return; }
      if outcome.value.Quarantined? && outcome.value.preparedCommand.None? {
        outcome := Lost(workflow, execution, now, handler, outcome.value.activity);
      } else if outcome.value.DispatchPermitted? {
        outcome := Run(workflow, execution, now, handler, outcome.value.permit);
      }
    }

    method Lost(workflow: Workflow, execution: ExecutionSpec, now: i64, handler: Handler, activity: LogicalActivityId)
      returns (outcome: Option<HostOutcome>)
      modifies host, host.store
      ensures host.Now(outcome)
           == Recover(Environment(workflow, execution, now, handler, timeoutRuntime), activity, old(host.store.State()), old(host.State()))
    {
      hide Perform;
      outcome := host.ScheduleRetryAt(execution, activity, now);
      if outcome == Some(CheckpointRejected(ActivityAttemptLimitExceeded)) {
        outcome := host.ObserveFailed(execution, activity, Application(LOST_RESULT));
      }
    }

    method Run(workflow: Workflow, execution: ExecutionSpec, now: i64, handler: Handler, permit: DispatchPermit)
      returns (outcome: Option<HostOutcome>)
      modifies host, host.store
      ensures host.Now(outcome)
           == Dispatch(Environment(workflow, execution, now, handler, timeoutRuntime), permit, old(host.store.State()), old(host.State()))
    {
      hide Perform;
      hide DecodeAndValidate;
      hide Invoke;
      var loaded := host.store.Load(execution.executionId);
      if loaded.Err? { return Some(StoreFailed(LoadOperation, loaded.error)); }
      if loaded.value.None? { return Some(CheckpointRejected(RetryRequiresExposedActivity)); }
      var decoded := DecodeAndValidate(loaded.value.value.checkpoint, execution, host.limits);
      if decoded.Err? { return Some(CheckpointRejected(decoded.error)); }
      if LastActive(decoded.value).None? { return None; }
      var ordinal := LastActive(decoded.value).value.attempt.ordinal;
      var handled := handler(permit.activity, permit.attemptId, ordinal);
      if handled.None? { return None; }
      var context := InvocationContext(permit.activity.spec.options, ordinal, true);
      ghost var stored, state := host.store.State(), host.State();
      match Invoke(context, now, timeoutRuntime, handled.value) {
        case InvocationCompleted(result) => outcome := host.ObserveResult(execution, permit.activity, result);
        case InvocationRetryable => outcome := host.ScheduleRetryAt(execution, permit.activity, now);
        case InvocationFailed(failure) => outcome := host.ObserveFailed(execution, permit.activity, failure);
        case InvocationWaitUntil(wakeAt) => outcome := host.DeferWaitUntil(execution, permit.activity, wakeAt);
        case InvocationRejected => return Some(CheckpointRejected(PreparedActivityRejected(Validation)));
      }
      ghost var op := FollowUp(Invoke(context, now, timeoutRuntime, handled.value), permit.activity, now);
      assert host.Now(outcome) == Perform(workflow, execution, op.value, stored, state);
    }
  }
}
