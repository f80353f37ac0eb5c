/** Bounded completion of the runner: every step that writes anything lowers a measure. */
module Progress {
  import opened Base
  import opened Identity
  import opened Effects
  import opened Records
  import opened Checkpoint
  import opened Capacity
  import opened Replay
  import opened Store
  import opened Host
  import opened Steps
  import opened Derivation
  import opened ObservationSteps
  import opened Traces
  import opened Determinism
  import opened HostProcess
  import opened Runner

  // ---------------------------------------------------------------- the measure

  /** Above the rank of every pending record. */
  const IDLE: nat := 2 * U32_MAX + 2

  /** Attempts left and exposure phase of the pending record. */
  function Rank(activities: seq<ActivityRecord>): (n: int)
  {
    if activities == [] || Last(activities).state.Completed? then IDLE
    else
      var record := Last(activities);
      2 * (record.spec.options.maxAttempts - record.attempt.ordinal) + (if record.state.Scheduled? then 1 else 0)
  }

  /** Records left, then attempts left, then exposed or not, as one number. */
  function Measure(activities: seq<ActivityRecord>, maxRecords: nat): (n: int)
  {
    (maxRecords - |CompletedPrefix(activities)|) * (IDLE + 1) + Rank(activities)
  }

  lemma MeasureNatural(activities: seq<ActivityRecord>, maxRecords: nat)
    requires HistoryError(activities, 0).None? && |activities| <= maxRecords
    ensures 0 <= Measure(activities, maxRecords) <= maxRecords * (IDLE + 1) + IDLE
    ensures 0 <= Rank(activities) <= IDLE
  {
    hide HistoryError;
    if activities != [] { ValidSequence(activities, |activities| - 1); }
    ScaledMonotone(maxRecords - |CompletedPrefix(activities)|, maxRecords);
  }

  lemma ScaledMonotone(left: int, maxRecords: nat)
    requires 0 <= left <= maxRecords
    ensures 0 <= left * (IDLE + 1) <= maxRecords * (IDLE + 1)
  {
  }

  /** Moves that advance the execution; waits and reopened effects do not. */
  predicate Productive(move: Move)
  {
    move.Append? || move.Expose? || move.Complete? || move.Retry?
  }

  /** The rank of one record. */
  function RecordRank(record: ActivityRecord): (n: int)
  {
    if record.state.Completed? then IDLE
    else 2 * (record.spec.options.maxAttempts - record.attempt.ordinal) + (if record.state.Scheduled? then 1 else 0)
  }

  lemma AdvanceRank(record: ActivityRecord, move: Move, next: ActivityRecord)
    requires !move.Append? && !move.Compact? && Productive(move) && Advances(record, move, next)
    requires 1 <= record.attempt.ordinal <= record.spec.options.maxAttempts
    ensures !record.state.Completed?
    ensures move.Complete? ==> 0 <= RecordRank(record)
    ensures !move.Complete? ==> !next.state.Completed? && RecordRank(next) < RecordRank(record)
  {
    hide ValidateEffectAttempts;
  }

  lemma LastRank(activities: seq<ActivityRecord>)
    requires activities != []
    ensures Rank(activities) == RecordRank(Last(activities))
  {
  }

  lemma CompletedPrefixCompleted(activities: seq<ActivityRecord>)
    requires HistoryError(activities, 0).None?
    ensures AllCompleted(CompletedPrefix(activities))
  {
    HistoryAcceptedIff(activities);
  }

  /** What one productive move does to completed records and rank. */
  lemma MoveRanks(program: Program, step: Step)
    requires ValidStep(program, step) && step.after.state.Active? && Productive(step.move)
    requires HistoryError(step.before.state.activities, 0).None?
    ensures
      var before, after := step.before.state.activities, step.after.state.activities;
      if step.move.Complete? then |CompletedPrefix(after)| == |CompletedPrefix(before)| + 1 && 0 <= Rank(before) && Rank(after) <= IDLE
      else |CompletedPrefix(after)| == |CompletedPrefix(before)| && Rank(after) < Rank(before)
  {
    hide EncodeWithLimits;
    hide HistoryError;
    hide Reserved;
    hide Advances;
    hide Rank;
    hide CompletedPrefix;
    var before, after := step.before.state.activities, step.after.state.activities;
    CompletedPrefixCompleted(before);
    StepPrefix(program, step);
    LastRank(after);
    if step.move.Append? {
      AppendRank(program, step);
    } else {
      LastRank(before);
      ValidSequence(before, |before| - 1);
      AdvanceRank(Last(before), step.move, Last(after));
      if step.move.Complete? { CompleteRank(Last(before), step.move, Last(after)); }
    }
  }

  lemma CompleteRank(record: ActivityRecord, move: Move, next: ActivityRecord)
    requires move.Complete? && Advances(record, move, next)
    ensures RecordRank(next) == IDLE
  {
  }

  lemma AppendRank(program: Program, step: Step)
    requires ValidStep(program, step) && step.move.Append?
    ensures
      var before, after := step.before.state.activities, step.after.state.activities;
      Rank(after) < Rank(before)
  {
    hide EncodeWithLimits;
    hide HistoryError;
    var before, after := step.before.state.activities, step.after.state.activities;
    EncodedFacts(step.after, step.limits);
    ValidSequence(after, |after| - 1);
    if before != [] { assert before[|before| - 1].state.Completed?; }
  }

  lemma MoveDecreases(program: Program, step: Step, maxRecords: nat)
    requires ValidStep(program, step) && step.after.state.Active? && Productive(step.move)
    requires HistoryError(step.before.state.activities, 0).None?
    ensures Measure(step.after.state.activities, maxRecords) < Measure(step.before.state.activities, maxRecords)
  {
    hide Moves;
    hide EncodeWithLimits;
    hide Rank;
    hide CompletedPrefix;
    hide HistoryError;
    MoveRanks(program, step);
    var before, after := step.before.state.activities, step.after.state.activities;
    if step.move.Complete? {
      var left := maxRecords - |CompletedPrefix(before)|;
      assert (left - 1) * (IDLE + 1) == left * (IDLE + 1) - (IDLE + 1);
    }
  }

  ghost predicate AllProductive(steps: seq<Step>)
  {
    forall i :: 0 <= i < |steps| ==> Productive(steps[i].move) || steps[i].move.Compact?
  }

  lemma {:induction false} PathDecreases(program: Program, base: CheckpointPayload, steps: seq<Step>, end: CheckpointPayload, maxRecords: nat)
    requires Path(program, base, steps, end) && AllProductive(steps)
    requires base.state.Active? && end.state.Active? && HistoryError(base.state.activities, 0).None?
    ensures HistoryError(end.state.activities, 0).None?
    ensures Measure(end.state.activities, maxRecords) <= Measure(base.state.activities, maxRecords) - |steps|
  {
    hide Moves;
    hide EncodeWithLimits;
    hide HistoryError;
    hide Measure;
    if steps != [] {
      var n := |steps| - 1;
      PathDecreases(program, base, steps[..n], steps[n].before, maxRecords);
      EncodedFacts(end, steps[n].limits);
      assert !steps[n].move.Compact? by { CompactEnds(program, steps[n]); }
      MoveDecreases(program, steps[n], maxRecords);
    }
  }

  lemma CompactEnds(program: Program, step: Step)
    requires ValidStep(program, step)
    ensures step.move.Compact? ==> step.after.state.Terminal?
  {
    hide EncodeWithLimits;
    hide Reserved;
    hide Advances;
  }

  // ---------------------------------------------------------------- operations on a fault-free store

  /** Nothing is injected and tokens remain. */
  predicate Clean(store: StoreState, tokens: nat)
  {
    store.nextCasFault.None? && store.nextLoadError.None? && store.revisionCounter + tokens <= U64_MAX
  }

  /** The runner's own operations never wait and never touch strict effects. */
  predicate RunnerOp(op: Op)
  {
    match op
    case OpTurnAndExpose(resolver, _) => resolver.ForActivities?
    case OpObserve(_, _) => true
    case OpRetry(_, _) => true
    case OpFailure(_, _) => true
    case _ => false
  }

  lemma MeansProductive(op: Op, loaded: Option<Stored>, steps: seq<Step>, payload: CheckpointPayload, acceptance: Acceptance, id: ExecutionId)
    requires Means(steps, payload, acceptance, id) && AcceptedAlong(steps) == AcceptedBy(op, loaded)
    requires RunnerOp(op) && (acceptance.AcceptObservation? ==> op.OpObserve? || op.OpFailure?) && !acceptance.AcceptWait?
    ensures AllProductive(steps)
  {
    hide PermitNames;
    if acceptance.AcceptObservation? {
      AcceptedOne(steps[0]);
      assert steps == [steps[0]];
    }
    forall i | 0 <= i < |steps| ensures Productive(steps[i].move) || steps[i].move.Compact? {
      if i < |steps| - 1 { assert steps[..|steps| - 1][i] == steps[i]; }
    }
  }

  /** Only observations are answered as observations, only waits as waits. */
  lemma RunnerAcceptance(workflow: Workflow, execution: ExecutionSpec, op: Op, loaded: Option<Stored>, host: HostState)
    requires RunnerOp(op) && Compute(workflow, execution, op, loaded, host).Propose?
    ensures
      var acceptance := Compute(workflow, execution, op, loaded, host).acceptance;
      (acceptance.AcceptObservation? ==> op.OpObserve? || op.OpFailure?) && !acceptance.AcceptWait?
  {
    hide Locate;
    hide DecodeAndValidate;
    hide EncodeWithLimits;
    hide Evaluate;
    hide IntoTerminal;
    hide MaximumActivityCompletedLen;
    hide Gate;
    hide RetryNotBefore;
  }

  /** The measure of what is stored, or of a fresh execution. */
  function StoreMeasure(execution: ExecutionSpec, loaded: Option<Stored>, limits: CheckpointLimits): (n: int)
  {
    var start := Start(execution, StoredEnvelope(loaded), limits);
    if start.Ok? && start.value.state.Active? then Measure(start.value.state.activities, limits.maxRecords) else 0
  }

  lemma StoreMeasureBounds(execution: ExecutionSpec, loaded: Option<Stored>, limits: CheckpointLimits)
    ensures 0 <= StoreMeasure(execution, loaded, limits) <= limits.maxRecords * (IDLE + 1) + IDLE
  {
    hide Measure;
    hide InternalError;
    hide HistoryError;
    hide DecodeAndValidate;
    var start := Start(execution, StoredEnvelope(loaded), limits);
    if start.Ok? && start.value.state.Active? {
      InternalFacts(start.value, limits);
      MeasureNatural(start.value.state.activities, limits.maxRecords);
    }
  }

  /** The stored checkpoint is the end of a trace of this program. */
  ghost predicate Traced(program: Program, loaded: Option<Stored>)
  {
    loaded.Some? ==> exists base, trace, end :: loaded.value.checkpoint == Encode(end) && Trace(program, base, trace, end)
  }

  /** The stored checkpoint was encoded for this execution under these limits. */
  predicate Admitted(execution: ExecutionSpec, loaded: Option<Stored>, limits: CheckpointLimits)
  {
    loaded.Some? ==>
      && loaded.value.checkpoint.body.Json?
      && var payload := loaded.value.checkpoint.body.payload;
         && loaded.value.checkpoint == Encode(payload)
         && payload.execution.spec == execution
         && EncodeWithLimits(payload, limits).Ok?
  }

  predicate EnvelopeActive(envelope: Envelope)
  {
    envelope.body.Json? && envelope.body.payload.state.Active?
  }

  /** A proposal that is accepted lowers the measure, or ends the execution. */
  lemma ProposalProgress(program: Program, execution: ExecutionSpec, op: Op, loaded: Option<Stored>, host: HostState, revision: Revision)
    requires RunnerOp(op) && (ReplaysHistory(op) ==> Produces(program.prepared, ResolverOf(op)))
    requires Compute(program.workflow, execution, op, loaded, host).Propose?
    requires Traced(program, loaded)
    ensures
      var c := Compute(program.workflow, execution, op, loaded, host);
      var next := Some(Stored(revision, Encode(c.payload)));
      && c.expected == StoredRevision(loaded)
      && Traced(program, next)
      && Admitted(execution, next, host.limits)
      && (loaded.Some? ==> EnvelopeActive(loaded.value.checkpoint))
      && (c.acceptance.AcceptExposure? ==> c.payload.state.Active?)
      && (c.payload.state.Active? ==>
            && StoreMeasure(execution, next, host.limits) < StoreMeasure(execution, loaded, host.limits)
            && DecodeAndValidate(Encode(c.payload), execution, host.limits) == Ok(c.payload))
  {
    hide Compute;
    hide Start;
    hide InternalError;
    hide Means;
    hide Measure;
    hide Produces;
    hide HistoryError;
    hide DecodeAndValidate;
    hide EncodeWithLimits;
    hide Path;
    hide Moves;
    hide AcceptedAlong;
    hide AcceptedBy;
    var c := Compute(program.workflow, execution, op, loaded, host);
    var steps := ComputeDerives(program, execution, op, loaded, host);
    RunnerAcceptance(program.workflow, execution, op, loaded, host);
    MeansProductive(op, loaded, steps, c.payload, c.acceptance, execution.executionId);
    var start := Start(execution, StoredEnvelope(loaded), host.limits).value;
    ExtendTrace(program, execution, loaded, host.limits, steps, c.payload);
    MeansShape(steps, c.payload, c.acceptance, execution.executionId);
    LastEncoded(program, start, steps, c.payload);
    PathExecution(program, start, steps, c.payload);
    if c.payload.state.Active? {
      InternalFacts(start, host.limits);
      PathDecreases(program, start, steps, c.payload, host.limits.maxRecords);
      EncodedFacts(c.payload, host.limits);
      CompletedStarts(c.payload, execution, host.limits);
    }
  }

  lemma MeansShape(steps: seq<Step>, payload: CheckpointPayload, acceptance: Acceptance, id: ExecutionId)
    requires Means(steps, payload, acceptance, id)
    ensures steps != []
    ensures acceptance.AcceptExposure? ==> payload.state.Active?
  {
  }

  lemma LastEncoded(program: Program, base: CheckpointPayload, steps: seq<Step>, end: CheckpointPayload)
    requires Path(program, base, steps, end) && steps != []
    ensures EncodeWithLimits(end, steps[|steps| - 1].limits).Ok?
    ensures base.state.Active?
  {
    hide EncodeWithLimits;
    hide Moves;
    FirstActive(program, base, steps, end);
  }

  lemma {:induction false} PathExecution(program: Program, base: CheckpointPayload, steps: seq<Step>, end: CheckpointPayload)
    requires Path(program, base, steps, end)
    ensures end.execution == base.execution
  {
    hide EncodeWithLimits;
    hide Moves;
    if steps != [] { PathExecution(program, base, steps[..|steps| - 1], steps[|steps| - 1].before); }
  }

  lemma ExtendTrace(program: Program, execution: ExecutionSpec, loaded: Option<Stored>, limits: CheckpointLimits, steps: seq<Step>, end: CheckpointPayload)
    requires Traced(program, loaded)
    requires Start(execution, StoredEnvelope(loaded), limits).Ok?
    requires Path(program, Start(execution, StoredEnvelope(loaded), limits).value, steps, end)
    ensures exists base, trace :: Trace(program, base, trace, end)
  {
    hide Start;
    hide InternalError;
    hide Path;
    var start := Start(execution, StoredEnvelope(loaded), limits).value;
    if loaded.None? {
      assert Trace(program, start, steps, end);
    } else {
      var base, trace, middle :| loaded.value.checkpoint == Encode(middle) && Trace(program, base, trace, middle);
      PathJoin(program, base, trace, start, steps, end);
      assert Trace(program, base, trace + steps, end);
    }
  }

  /** What a computed operation does on a fault-free store: nothing, or one write that lowers the measure or ends the execution. */
  ghost predicate Progresses(program: Program, execution: ExecutionSpec, store: StoreState, host: HostState, c: Computed, p: Performed)
  {
    var id := execution.executionId;
    && p.store.nextCasFault.None? && p.store.nextLoadError.None?
    && store.revisionCounter <= p.store.revisionCounter <= store.revisionCounter + 1
    && Traced(program, Lookup(p.store, id))
    && p.host.limits == host.limits
    && (c.Finished? ==> Lookup(p.store, id) == Lookup(store, id) && p.outcome == Some(c.outcome))
    && (c.Propose? ==>
          && store.revisionCounter < U64_MAX
          && Lookup(p.store, id) == Some(Stored(store.revisionCounter + 1, Encode(c.payload)))
          && Admitted(execution, Lookup(p.store, id), host.limits)
          && p.outcome == Some(OnAccept(c.acceptance, store.revisionCounter + 1))
          && (Lookup(store, id).Some? ==> EnvelopeActive(Lookup(store, id).value.checkpoint))
          && (c.acceptance.AcceptExposure? ==> c.payload.state.Active?)
          && (c.payload.state.Active? ==>
                StoreMeasure(execution, Lookup(p.store, id), host.limits) < StoreMeasure(execution, Lookup(store, id), host.limits)))
    && (c.Panicked? ==> host.counter == U64_MAX && Lookup(p.store, id) == Lookup(store, id) && p.outcome.None?)
  }

  lemma PerformProgress(program: Program, execution: ExecutionSpec, op: Op, store: StoreState, host: HostState)
    requires RunnerOp(op) && (ReplaysHistory(op) ==> Produces(program.prepared, ResolverOf(op)))
    requires Clean(store, 1) && Traced(program, Lookup(store, execution.executionId))
    ensures Progresses(program, execution, store, host,
                     Compute(program.workflow, execution, op, Lookup(store, execution.executionId), host),
                     Perform(program.workflow, execution, op, store, host))
  {
    hide Compute;
    hide Produces;
    hide Traced;
    hide StoreMeasure;
    hide DecodeAndValidate;
    hide ReplaysHistory;
    hide RunnerOp;
    var id := execution.executionId;
    var c := Compute(program.workflow, execution, op, Lookup(store, id), host);
    if c.Propose? {
      ProposalProgress(program, execution, op, Lookup(store, id), host, store.revisionCounter + 1);
    } else if c.Panicked? {
      PanicsOnlyWhenExhausted(program.workflow, execution, op, Lookup(store, id), host);
    }
  }
}
