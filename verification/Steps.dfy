/**
 * The elementary moves every accepted checkpoint write is composed of: append a requested record,
 * advance the pending final record, or compact a finished history.
 */
module Steps {
  import opened Base
  import opened Identity
  import opened Effects
  import opened Records
  import opened Checkpoint
  import opened Capacity
  import opened Replay

  datatype Move =
    | Append(record: ActivityRecord)
    | Expose(attemptId: AttemptId)
    | Complete(completed: ActivityRecord)
    | Retry(retryAt: i64)
    | Wait(waitUntil: i64)
    | NoAdmission(refused: AttemptId)
    | Compact(outcome: TerminalOutcome)

  /** One move, under the limits of the host that wrote it. */
  datatype Step = Step(before: CheckpointPayload, move: Move, after: CheckpointPayload, limits: CheckpointLimits)

  /**
   * Which exact specifications and commands count as prepared from a logical request. Resolvers are
   * arbitrary code; a relation like this is all that replay may rely on.
   */
  datatype Preparation = Preparation(
    activity: (ActivitySpec, ActivitySpec) -> bool,
    effect: (ExecutionId, ActivitySpec, u64, CompletionClass, PreparedCommand) -> bool)

  /** A deterministic workflow together with the preparation its resolvers agree on. */
  datatype Program = Program(workflow: Workflow, prepared: Preparation)

  const AnyPreparation := Preparation((logical, spec) => true, (id, spec, bound, class_, command) => true)

  /** Fresh preparations of this resolver stay within the relation. */
  ghost predicate Produces(prepared: Preparation, resolver: Resolver)
  {
    && (forall logical ::
          resolver.activity(logical, None).Ok? ==> prepared.activity(logical, resolver.activity(logical, None).value))
    && (resolver.effect.Some? ==>
          forall id, spec, bound, class_ ::
            var r := resolver.effect.value(id, spec, bound, class_, None);
            r.Ok? ==> prepared.effect(id, spec, bound, class_, r.value))
  }

  /** A record scheduled for exactly this call at this position. */
  ghost predicate RecordFor(prepared: Preparation, executionId: ExecutionId, call: Call, record: ActivityRecord, position: nat)
  {
    match call
    case ActivityCall(spec, class_) =>
      record == NewRecord(position, record.spec, class_) && prepared.activity(spec, record.spec)
    case EffectCall(spec, bound, class_) =>
      && record.prepared.Some?
      && prepared.effect(executionId, spec, bound, class_, record.prepared.value)
      && record.prepared.value.maxBytes == bound
      && |record.prepared.value.bytes| <= bound
      && record == NewEffect(position, spec, record.prepared.value, class_)
  }

  /** The completed form of an exposed record: identity, options, command and class are kept. */
  ghost predicate Completes(exposed: ActivityRecord, completed: ActivityRecord)
  {
    && exposed.state.DispatchExposed?
    && completed.state.Completed?
    && completed == exposed.(attempts := completed.attempts, failure := completed.failure, state := completed.state)
    && if exposed.prepared.None? then completed.attempts == exposed.attempts
       else
         && exposed.attempts != []
         && completed.attempts ==
              exposed.attempts[|exposed.attempts| - 1 := EffectAttempt(exposed.state.attemptId, Observed)]
  }

  /** The payload bytes of the execution the checkpoint belongs to. */
  function InputOf(payload: CheckpointPayload): (b: Bytes)
  {
    payload.execution.spec.workflowInput
  }

  ghost predicate Moves(program: Program, before: CheckpointPayload, move: Move, after: CheckpointPayload)
    requires before.state.Active?
  {
    var activities := before.state.activities;
    match move
    case Append(record) =>
      && AllCompleted(activities)
      && program.workflow(InputOf(before), Results(activities)).Request?
      && RecordFor(program.prepared, before.execution.spec.executionId,
                   program.workflow(InputOf(before), Results(activities)).call, record, |activities|)
      && after == Push(before, record)
    case Compact(outcome) =>
      && AllCompleted(activities)
      && program.workflow(InputOf(before), Results(activities)) == Done(outcome)
      && |activities| <= U64_MAX
      && IntoTerminal(before, outcome, |activities|) == Ok(after)
    case _ =>
      && activities != []
      && after.state.Active?
      && after.state.activities != []
      && after == WithLast(before, Last(after.state.activities))
      && Advances(Last(activities), move, Last(after.state.activities))
      && (move.Expose? ==> Reserved(before, before.execution.admittedActive))
  }

  /** How the pending final record may be advanced. */
  ghost predicate Advances(record: ActivityRecord, move: Move, next: ActivityRecord)
    requires !move.Append? && !move.Compact?
  {
    match move
    case Expose(attemptId) => record.state.Scheduled? && ExposeAttempt(record, attemptId) == Ok(next)
    case Complete(completed) => next == completed && Completes(record, completed)
    case Retry(at) => record.prepared.None? && ScheduleRetry(record, at) == Ok(next)
    case Wait(at) => record.prepared.None? && DeferWait(record, at) == Ok(next)
    case NoAdmission(attemptId) =>
      && record.prepared.Some?
      && record.state == DispatchExposed(attemptId)
      && record.attempts == [EffectAttempt(attemptId, Exposed)]
      && next == record.(attempts := [EffectAttempt(attemptId, ProvenNoAdmission)], state := Scheduled)
  }

  ghost predicate ValidStep(program: Program, step: Step)
  {
    && step.before.state.Active?
    && step.after.execution == step.before.execution
    && EncodeWithLimits(step.after, step.limits).Ok?
    && Moves(program, step.before, step.move, step.after)
  }

  /** Consecutive valid steps from one checkpoint to another. */
  ghost predicate Path(program: Program, base: CheckpointPayload, steps: seq<Step>, end: CheckpointPayload)
  {
    if steps == [] then base == end
    else
      var n := |steps| - 1;
      && ValidStep(program, steps[n])
      && steps[n].after == end
      && Path(program, base, steps[..n], steps[n].before)
  }

  lemma PathOne(program: Program, step: Step)
    requires ValidStep(program, step)
    ensures Path(program, step.before, [step], step.after)
  {
    hide ValidStep;
    assert [step][..0] == [];
  }

  lemma PathTwo(program: Program, first: Step, second: Step)
    requires ValidStep(program, first) && ValidStep(program, second) && first.after == second.before
    ensures Path(program, first.before, [first, second], second.after)
  {
    hide ValidStep;
    PathOne(program, first);
    assert [first, second][..1] == [first];
  }

  lemma {:induction false} PathJoin(program: Program, base: CheckpointPayload, left: seq<Step>, middle: CheckpointPayload,
                                    right: seq<Step>, end: CheckpointPayload)
    requires Path(program, base, left, middle) && Path(program, middle, right, end)
    ensures Path(program, base, left + right, end)
  {
    hide ValidStep;
    if right == [] {
      assert left + right == left;
    } else {
      var n := |right| - 1;
      PathJoin(program, base, left, middle, right[..n], right[n].before);
      var joined := left + right;
      assert joined[..|joined| - 1] == left + right[..n];
    }
  }

  // ---------------------------------------------------------------- what replay decides

  /** The results of the first `n` records. */
  ghost predicate Prefix(history: seq<ActivityRecord>, results: seq<ActivityResult>)
  {
    && |results| <= |history|
    && AllCompleted(history[..|results|])
    && Results(history[..|results|]) == results
  }

  lemma PrefixExtends(history: seq<ActivityRecord>, results: seq<ActivityResult>)
    requires Prefix(history, results) && |results| < |history| && history[|results|].state.Completed?
    ensures Prefix(history, results + [ResultOf(history[|results|])])
  {
    var n := |results|;
    var longer := history[..n + 1];
    assert longer[..n] == history[..n];
    assert AllCompleted(longer);
    assert Results(longer) == results + [ResultOf(history[n])];
  }

  /**
   * A decision to schedule means the whole history was consumed and the workflow asks for exactly
   * that record; a return that consumed everything is the workflow's own outcome on the recorded
   * results; a pending decision names the first record that is not completed.
   */
  lemma {:induction false} ReplayMeaning(program: Program, input: Bytes, executionId: ExecutionId,
                                         history: seq<ActivityRecord>, resolver: Resolver, results: seq<ActivityResult>)
    requires Prefix(history, results) && Produces(program.prepared, resolver)
    ensures
      var end := ReplayFrom(program.workflow, input, executionId, history, resolver, results);
      && (end.Decided? && end.decision.Schedule? ==>
            && AllCompleted(history)
            && program.workflow(input, Results(history)).Request?
            && RecordFor(program.prepared, executionId, program.workflow(input, Results(history)).call, end.decision.record, |history|))
      && (end.Decided? && end.decision.ExistingPending? ==>
            exists k :: |results| <= k < |history| && PendingAt(history, k, executionId, end.decision))
      && (end.Returned? && end.cursor == |history| ==>
            AllCompleted(history) && program.workflow(input, Results(history)) == Done(end.outcome))
    decreases |history| - |results|
  {
    hide ResultOf;
    assert |results| == |history| ==> history[..|results|] == history;
    var step := program.workflow(input, results);
    if step.Request? {
      var poll := PollCall(executionId, history, resolver, |results|, step.call);
      if poll.Ready? {
        PrefixExtends(history, results);
        ReplayMeaning(program, input, executionId, history, resolver, results + [poll.result]);
      } else if poll.decision.ExistingPending? {
        assert PendingAt(history, |results|, executionId, poll.decision);
      }
    }
  }

  ghost predicate PendingAt(history: seq<ActivityRecord>, k: nat, executionId: ExecutionId, decision: Decision)
    requires k < |history| && decision.ExistingPending?
  {
    && !history[k].state.Completed?
    && decision.state == history[k].state
    && decision.logicalId == LogicalActivityId(executionId, k, history[k].spec)
  }

  // ---------------------------------------------------------------- decoding facts

  lemma DecodedFacts(envelope: Envelope, execution: ExecutionSpec, limits: CheckpointLimits)
    ensures
      var decoded := DecodeAndValidate(envelope, execution, limits);
      decoded.Ok? ==>
        && envelope == Encode(decoded.value)
        && decoded.value.execution.spec == execution
        && InternalError(decoded.value, limits).None?
        && EncodeWithLimits(decoded.value, limits) == Ok(envelope)
  {
    hide InternalError;
    hide EncodedLen;
  }

  lemma EncodedFacts(payload: CheckpointPayload, limits: CheckpointLimits)
    requires EncodeWithLimits(payload, limits).Ok?
    ensures EncodeWithLimits(payload, limits) == Ok(Encode(payload))
    ensures InternalError(payload, limits).None?
    ensures limits.maxActive == payload.execution.admittedActive
    ensures limits.maxTerminal == AdmittedTerminalBytes(payload.execution)
    ensures payload.state.Active? ==>
      && HistoryError(payload.state.activities, 0).None?
      && |payload.state.activities| <= limits.maxRecords
      && DecodeAndValidate(Encode(payload), payload.execution.spec, limits) == Ok(payload)
    ensures payload.state.Terminal? ==>
      TerminalError(payload.execution, payload.state.outcome, payload.state.completedCount, payload.state.metadata).None?
  {
    hide MaximumTerminalEncodedLen;
    hide EncodedLen;
    hide HistoryError;
    hide TerminalError;
  }

  lemma InternalFacts(payload: CheckpointPayload, limits: CheckpointLimits)
    requires InternalError(payload, limits).None?
    ensures limits.maxActive == payload.execution.admittedActive
    ensures payload.state.Active? ==> HistoryError(payload.state.activities, 0).None?
    ensures payload.state.Active? ==> |payload.state.activities| <= limits.maxRecords
  {
    hide MaximumTerminalEncodedLen;
    hide HistoryError;
    hide TerminalError;
  }

  /** In a valid history only the final record can be pending. */
  lemma PendingIsLast(history: seq<ActivityRecord>, k: nat)
    requires HistoryError(history, 0).None? && k < |history| && !history[k].state.Completed?
    ensures k == |history| - 1
  {
    HistoryAcceptedIff(history);
  }

  lemma ValidSequence(history: seq<ActivityRecord>, k: nat)
    requires HistoryError(history, 0).None? && k < |history|
    ensures history[k].sequence == k
    ensures k < |history| - 1 ==> history[k].state.Completed?
    ensures WellFormedLedger(history[k]) && WithinBounds(history[k])
    ensures 1 <= history[k].attempt.ordinal <= history[k].spec.options.maxAttempts
  {
    HistoryAcceptedIff(history);
  }
}
