/** Replaying a history that the workflow itself asked for never reports nondeterminism. */
module Determinism {
  import opened Base
  import opened Identity
  import opened Effects
  import opened Records
  import opened Checkpoint
  import opened Replay
  import opened Store
  import opened Host
  import opened Steps
  import opened ObservationSteps
  import opened Traces

  /** On replay the resolver returns the recorded preparation unchanged. */
  ghost predicate Replays(prepared: Preparation, resolver: Resolver)
  {
    && (forall logical, spec ::
          prepared.activity(logical, spec) ==> resolver.activity(logical, Some(spec)) == Ok(spec))
    && (resolver.effect.Some? ==>
          forall id, spec, bound, class_, command ::
            prepared.effect(id, spec, bound, class_, command) ==>
            resolver.effect.value(id, spec, bound, class_, Some(command)) == Ok(command))
  }

  /** Every recorded call is the one the workflow asks for at its position. */
  ghost predicate Grounded(program: Program, payload: CheckpointPayload)
    requires payload.state.Active?
  {
    forall k :: 0 <= k < |payload.state.activities| ==> Requested(program, payload, k)
  }

  /** One poll against the matching record answers; it never objects. */
  lemma PollMatches(program: Program, payload: CheckpointPayload, resolver: Resolver, k: nat)
    requires payload.state.Active? && k < |payload.state.activities| && Requested(program, payload, k)
    requires Replays(program.prepared, resolver)
    ensures
      var history := payload.state.activities;
      var call := program.workflow(InputOf(payload), Results(history[..k])).call;
      var poll := PollCall(payload.execution.spec.executionId, history, resolver, k, call);
      && !(poll.Suspend? && poll.decision.Mismatch?)
      && (poll.Ready? ==> history[k].state.Completed? && poll.result == ResultOf(history[k]))
      && (poll.Suspend? && poll.decision.ExistingPending? ==> !history[k].state.Completed?)
  {
    hide ResultOf;
  }

  /**
   * Replay of a grounded history never mismatches and never leaves history unused, and it suspends
   * without a decision only when the workflow stalls after consuming everything.
   */
  lemma {:induction false} ReplayAgrees(program: Program, payload: CheckpointPayload, resolver: Resolver, results: seq<ActivityResult>)
    requires payload.state.Active? && Grounded(program, payload) && Replays(program.prepared, resolver)
    requires Prefix(payload.state.activities, results)
    ensures
      var history := payload.state.activities;
      var end := ReplayFrom(program.workflow, InputOf(payload), payload.execution.spec.executionId, history, resolver, results);
      && !(end.Decided? && end.decision.Mismatch?)
      && (end.Returned? ==> end.cursor == |history|)
      && (end.Decided? && end.decision.ExistingPending? ==> !AllCompleted(history))
      && (end.Suspended? ==> AllCompleted(history) && program.workflow(InputOf(payload), Results(history)).Stall?)
    decreases |payload.state.activities| - |results|
  {
    hide Requested;
    hide Replays;
    hide ResultOf;
    hide PollActivity;
    hide PollEffect;
    var history := payload.state.activities;
    if |results| < |history| {
      RequestedStep(program, payload, |results|);
      PollMatches(program, payload, resolver, |results|);
      var call := program.workflow(InputOf(payload), results).call;
      var poll := PollCall(payload.execution.spec.executionId, history, resolver, |results|, call);
      if poll.Ready? {
        PrefixExtends(history, results);
        ReplayAgrees(program, payload, resolver, results + [poll.result]);
      }
    } else {
      assert history[..|results|] == history;
      if program.workflow(InputOf(payload), results).Request? {
        EndPoll(payload.execution.spec.executionId, history, resolver, program.workflow(InputOf(payload), results).call);
      }
    }
  }

  lemma RequestedStep(program: Program, payload: CheckpointPayload, k: nat)
    requires payload.state.Active? && k < |payload.state.activities| && Requested(program, payload, k)
    ensures program.workflow(InputOf(payload), Results(payload.state.activities[..k])).Request?
  {
  }

  lemma EndPoll(executionId: ExecutionId, history: seq<ActivityRecord>, resolver: Resolver, call: Call)
    ensures
      var poll := PollCall(executionId, history, resolver, |history|, call);
      poll.Suspend? && (poll.decision.Schedule? || poll.decision.Refused?)
  {
  }

  lemma EvaluateAgrees(program: Program, execution: ExecutionSpec, checkpoint: Option<Envelope>, limits: CheckpointLimits, resolver: Resolver)
    requires Replays(program.prepared, resolver)
    requires
      var start := Start(execution, checkpoint, limits);
      start.Ok? && start.value.state.Active? ==> Grounded(program, start.value)
    ensures
      var e := Evaluate(program.workflow, execution, checkpoint, limits, resolver);
      var start := Start(execution, checkpoint, limits);
      && !e.EvaluatedNondeterminism?
      && (e.EvaluatedPending? ==> start.Ok? && start.value.state.Active? && !AllCompleted(start.value.state.activities))
      && (e.EvaluatedStalled? ==>
            && start.Ok? && start.value.state.Active? && AllCompleted(start.value.state.activities)
            && program.workflow(InputOf(start.value), Results(start.value.state.activities)).Stall?)
  {
    hide InternalError;
    hide EncodeWithLimits;
    hide DecodeAndValidate;
    hide Grounded;
    hide Replays;
    var start := Start(execution, checkpoint, limits);
    if start.Ok? && start.value.state.Active? {
      assert Prefix(start.value.state.activities, []);
      ReplayAgrees(program, start.value, resolver, []);
    }
  }

  lemma TraceGrounded(program: Program, base: CheckpointPayload, trace: seq<Step>, end: CheckpointPayload)
    requires Trace(program, base, trace, end) && end.state.Active?
    ensures Grounded(program, end)
  {
    hide Trace;
    hide Requested;
    forall k | 0 <= k < |end.state.activities| ensures Requested(program, end, k) {
      TraceRequested(program, base, trace, end, k);
    }
  }

  /** The stored checkpoint is the end of a trace, or nothing is stored yet. */
  ghost predicate Reached(program: Program, base: CheckpointPayload, trace: seq<Step>, loaded: Option<Stored>)
  {
    loaded.Some? ==> exists end :: loaded.value.checkpoint == Encode(end) && Trace(program, base, trace, end)
  }

  lemma StartGrounded(program: Program, base: CheckpointPayload, trace: seq<Step>, execution: ExecutionSpec, loaded: Option<Stored>, limits: CheckpointLimits)
    requires Reached(program, base, trace, loaded)
    ensures
      var start := Start(execution, StoredEnvelope(loaded), limits);
      && (start.Ok? && start.value.state.Active? ==> Grounded(program, start.value))
      && (start.Ok? && loaded.Some? ==> Trace(program, base, trace, start.value))
  {
    hide Start;
    hide InternalError;
    hide Trace;
    hide Requested;
    var start := Start(execution, StoredEnvelope(loaded), limits);
    if loaded.Some? {
      var end :| loaded.value.checkpoint == Encode(end) && Trace(program, base, trace, end);
      if end.state.Active? { TraceGrounded(program, base, trace, end); }
    }
  }

  /** A turn reports nondeterminism only for a workflow that stalls on the completed history. */
  ghost predicate StallsAt(program: Program, payload: CheckpointPayload)
  {
    && payload.state.Active?
    && AllCompleted(payload.state.activities)
    && program.workflow(InputOf(payload), Results(payload.state.activities)).Stall?
  }

  lemma TurnAgrees(program: Program, base: CheckpointPayload, trace: seq<Step>, execution: ExecutionSpec, loaded: Option<Stored>, host: HostState)
    requires Reached(program, base, trace, loaded) && Replays(program.prepared, IdentityResolver)
    ensures
      var c := Turn(program.workflow, execution, loaded, host);
      c.Finished? && c.outcome.Nondeterministic? ==>
        && c.outcome.mismatch == UnsupportedSuspension
        && Start(execution, StoredEnvelope(loaded), host.limits).Ok?
        && StallsAt(program, Start(execution, StoredEnvelope(loaded), host.limits).value)
  {
    hide Start;
    hide InternalError;
    hide Evaluate;
    hide DecodeAndValidate;
    hide EncodeWithLimits;
    hide MaximumActivityCompletedLen;
    hide IntoTerminal;
    hide Grounded;
    hide Trace;
    hide Replays;
    StartGrounded(program, base, trace, execution, loaded, host.limits);
    EvaluateAgrees(program, execution, StoredEnvelope(loaded), host.limits, IdentityResolver);
  }

  lemma TurnAndExposeAgrees(program: Program, base: CheckpointPayload, trace: seq<Step>, execution: ExecutionSpec,
                            resolver: ExposureResolver, now: Option<i64>, loaded: Option<Stored>, host: HostState)
    requires Reached(program, base, trace, loaded) && Replays(program.prepared, ToResolver(resolver))
    ensures
      var c := TurnAndExpose(program.workflow, execution, resolver, now, loaded, host);
      c.Finished? && c.outcome.Nondeterministic? ==>
        && c.outcome.mismatch == UnsupportedSuspension
        && Start(execution, StoredEnvelope(loaded), host.limits).Ok?
        && StallsAt(program, Start(execution, StoredEnvelope(loaded), host.limits).value)
  {
    hide Start;
    hide InternalError;
    hide Evaluate;
    hide DecodeAndValidate;
    hide EncodeWithLimits;
    hide MaximumActivityCompletedLen;
    hide IntoTerminal;
    hide Grounded;
    hide Trace;
    hide Replays;
    hide Gate;
    StartGrounded(program, base, trace, execution, loaded, host.limits);
    EvaluateAgrees(program, execution, StoredEnvelope(loaded), host.limits, ToResolver(resolver));
  }

  /** The checkpoint a fused observation replays: the loaded one with its final record completed. */
  function CompletedWith(payload: CheckpointPayload, record: ActivityRecord, result: Bytes): (p: CheckpointPayload)
    requires payload.state.Active? && payload.state.activities != []
  {
    WithLast(payload, WithState(record, Completed(result)))
  }

  lemma CompletedGrounded(program: Program, base: CheckpointPayload, trace: seq<Step>, execution: ExecutionSpec,
                          activity: LogicalActivityId, result: Bytes, loaded: Option<Stored>, host: HostState)
    requires Reached(program, base, trace, loaded)
    requires Locate(execution, activity, loaded, host.limits).Ok?
    requires
      var located := Locate(execution, activity, loaded, host.limits).value;
      && located.record.state.DispatchExposed?
      && EncodeWithLimits(CompletedWith(located.payload, located.record, result), host.limits).Ok?
    ensures
      var located := Locate(execution, activity, loaded, host.limits).value;
      var completed := CompletedWith(located.payload, located.record, result);
      Grounded(program, completed) && AllCompleted(completed.state.activities)
  {
    hide Locate;
    hide Start;
    hide InternalError;
    hide DecodeAndValidate;
    hide EncodeWithLimits;
    hide Grounded;
    hide ValidStep;
    hide HistoryError;
    LocatedFacts(execution, activity, loaded, host.limits);
    StartGrounded(program, base, trace, execution, loaded, host.limits);
    FusedCompletion(program, execution, activity, result, loaded, host);
    var located := Locate(execution, activity, loaded, host.limits).value;
    var next := WithState(located.record, Completed(result));
    var completed := WithLast(located.payload, next);
    var step := Step(located.payload, Complete(next), completed, host.limits);
    var longer := trace + [step];
    assert longer[..|longer| - 1] == trace;
    assert Trace(program, base, longer, completed);
    TraceGrounded(program, base, longer, completed);
    var activities := completed.state.activities;
    forall i | 0 <= i < |activities| ensures activities[i].state.Completed? {
      if i < |activities| - 1 { ValidSequence(located.payload.state.activities, i); }
    }
  }

  lemma ObserveAndTurnAgrees(program: Program, base: CheckpointPayload, trace: seq<Step>, execution: ExecutionSpec,
                             activity: LogicalActivityId, result: Bytes, resolver: ActivityResolver, loaded: Option<Stored>, host: HostState)
    requires Reached(program, base, trace, loaded) && Replays(program.prepared, Resolver(resolver, None))
    ensures
      var c := ObserveAndTurn(program.workflow, execution, activity, result, resolver, loaded, host);
      c.Finished? && c.outcome.Nondeterministic? ==>
        && c.outcome.mismatch == UnsupportedSuspension
        && Locate(execution, activity, loaded, host.limits).Ok?
        && var located := Locate(execution, activity, loaded, host.limits).value;
           StallsAt(program, CompletedWith(located.payload, located.record, result))
  {
    hide Start;
    hide InternalError;
    hide Evaluate;
    hide DecodeAndValidate;
    hide EncodeWithLimits;
    hide MaximumActivityCompletedLen;
    hide IntoTerminal;
    hide Grounded;
    hide Trace;
    hide Replays;
    hide Locate;
    hide Reached;
    var located := Locate(execution, activity, loaded, host.limits);
    if located.Ok? && located.value.record.state.DispatchExposed? && |result| <= located.value.record.spec.maxResult {
      var completed := CompletedWith(located.value.payload, located.value.record, result);
      if EncodeWithLimits(completed, host.limits).Ok? {
        LocatedFacts(execution, activity, loaded, host.limits);
        CompletedGrounded(program, base, trace, execution, activity, result, loaded, host);
        CompletedStarts(completed, execution, host.limits);
        EvaluateAgrees(program, execution, Some(Encode(completed)), host.limits, Resolver(resolver, None));
      }
    }
  }

  lemma CompletedStarts(completed: CheckpointPayload, execution: ExecutionSpec, limits: CheckpointLimits)
    requires completed.state.Active? && completed.execution.spec == execution && EncodeWithLimits(completed, limits).Ok?
    ensures Start(execution, Some(Encode(completed)), limits) == Ok(completed)
  {
    hide EncodeWithLimits;
    hide DecodeAndValidate;
    EncodedFacts(completed, limits);
  }
}
