/** The host object of `kuberic-dex/src/host.rs` driving its store, and its place in a run. */
module HostProcess {
  import opened Base
  import opened Identity
  import opened Effects
  import opened Records
  import opened Checkpoint
  import opened Replay
  import opened Store
  import opened Host
  import opened Steps
  import opened Derivation
  import opened ObservationSteps
  import opened Runs

  /** Store and host after one call; a panicked process has no outcome. */
  datatype Performed = Performed(store: StoreState, host: HostState, outcome: Option<HostOutcome>)

  /** One call as a whole: load, compute, and offer the proposal if there is one. */
  function Perform(workflow: Workflow, execution: ExecutionSpec, op: Op, store: StoreState, host: HostState): (p: Performed)
  {
    var id := execution.executionId;
    var loaded := LoadResult(store, id);
    var after := AfterLoad(store);
    if loaded.Err? then Performed(after, host, Some(StoreFailed(LoadOperation, loaded.error)))
    else Offer(Compute(workflow, execution, op, loaded.value, host), id, after, host)
  }

  function Offer(c: Computed, id: ExecutionId, store: StoreState, host: HostState): (p: Performed)
  {
    match c
    case Panicked => Performed(store, host, None)
    case Finished(outcome, counter) => Performed(store, host.(counter := counter), Some(outcome))
    case Propose(expected, payload, acceptance, counter) =>
      Performed(AfterCas(store, id, expected, Encode(payload)), host.(counter := counter),
                Some(OnCas(acceptance, CasResult(store, id, expected))))
  }

  class DurableHost {
    const store: InMemoryCheckpointStore
    const hostEpoch: HostEpoch
    const limits: CheckpointLimits
    var nextAttemptCounter: u64

    function State(): (s: HostState)
      reads this
    {
      HostState(hostEpoch, nextAttemptCounter, limits)
    }

    function Now(outcome: Option<HostOutcome>): (p: Performed)
      reads this, store
    {
      Performed(store.State(), State(), outcome)
    }

    constructor (store: InMemoryCheckpointStore, hostEpoch: HostEpoch, limits: CheckpointLimits)
      ensures this.store == store && State() == HostState(hostEpoch, 1, limits)
    {
      this.store := store;
      this.hostEpoch := hostEpoch;
      this.limits := limits;
      nextAttemptCounter := 1;
    }

    /** Commit what was computed: nothing, or one compare-and-swap. */
    method Commit(id: ExecutionId, c: Computed) returns (outcome: Option<HostOutcome>)
      modifies this, store
      ensures Now(outcome) == Offer(c, id, old(store.State()), old(State()))
    {
      match c {
        case Panicked => return None;
        case Finished(answer, counter) =>
          nextAttemptCounter := counter;
          return Some(answer);
        case Propose(expected, payload, acceptance, counter) =>
          nextAttemptCounter := counter;
          var result := store.CompareAndSwap(id, expected, Encode(payload));
          return Some(OnCas(acceptance, result));
      }
    }

    method TurnOnce(workflow: Workflow, execution: ExecutionSpec) returns (outcome: Option<HostOutcome>)
      modifies this, store
      ensures Now(outcome) == Perform(workflow, execution, OpTurn, old(store.State()), old(State()))
    {
      var loaded := store.Load(execution.executionId);
      if loaded.Err? { return Some(StoreFailed(LoadOperation, loaded.error)); }
      outcome := Commit(execution.executionId, Turn(workflow, execution, loaded.value, State()));
    }

    method TurnAndExposeResolved(workflow: Workflow, execution: ExecutionSpec, resolver: ExposureResolver, now: Option<i64>)
      returns (outcome: Option<HostOutcome>)
      modifies this, store
      ensures Now(outcome) == Perform(workflow, execution, OpTurnAndExpose(resolver, now), old(store.State()), old(State()))
    {
      var loaded := store.Load(execution.executionId);
      if loaded.Err? { return Some(StoreFailed(LoadOperation, loaded.error)); }
      outcome := Commit(execution.executionId, TurnAndExpose(workflow, execution, resolver, now, loaded.value, State()));
    }

    method ObserveResult(execution: ExecutionSpec, activity: LogicalActivityId, result: Bytes)
      returns (outcome: Option<HostOutcome>)
      modifies this, store
      ensures forall workflow: Workflow ::
                Now(outcome) == Perform(workflow, execution, OpObserve(activity, result), old(store.State()), old(State()))
    {
      var loaded := store.Load(execution.executionId);
      if loaded.Err? { return Some(StoreFailed(LoadOperation, loaded.error)); }
      outcome := Commit(execution.executionId, Observe(execution, activity, result, loaded.value, State()));
    }

    method ScheduleRetryAt(execution: ExecutionSpec, activity: LogicalActivityId, observedAt: i64)
      returns (outcome: Option<HostOutcome>)
      modifies this, store
      ensures forall workflow: Workflow ::
                Now(outcome) == Perform(workflow, execution, OpRetry(activity, observedAt), old(store.State()), old(State()))
    {
      var loaded := store.Load(execution.executionId);
      if loaded.Err? { return Some(StoreFailed(LoadOperation, loaded.error)); }
      outcome := Commit(execution.executionId, RetryActivity(execution, activity, observedAt, loaded.value, State()));
    }

    method ObserveFailed(execution: ExecutionSpec, activity: LogicalActivityId, failure: ActivityFailure)
      returns (outcome: Option<HostOutcome>)
      modifies this, store
      ensures forall workflow: Workflow ::
                Now(outcome) == Perform(workflow, execution, OpFailure(activity, failure), old(store.State()), old(State()))
    {
      var loaded := store.Load(execution.executionId);
      if loaded.Err? { return Some(StoreFailed(LoadOperation, loaded.error)); }
      outcome := Commit(execution.executionId, ObserveFailure(execution, activity, failure, loaded.value, State()));
    }

    method DeferWaitUntil(execution: ExecutionSpec, activity: LogicalActivityId, waitUntil: i64)
      returns (outcome: Option<HostOutcome>)
      modifies this, store
      ensures forall workflow: Workflow ::
                Now(outcome) == Perform(workflow, execution, OpWait(activity, waitUntil), old(store.State()), old(State()))
    {
      var loaded := store.Load(execution.executionId);
      if loaded.Err? { return Some(StoreFailed(LoadOperation, loaded.error)); }
      outcome := Commit(execution.executionId, DeferActivity(execution, activity, waitUntil, loaded.value, State()));
    }

    method ObserveEffectWithRedelivery(execution: ExecutionSpec, observation: EffectObservation, allow: bool)
      returns (outcome: Option<HostOutcome>)
      modifies this, store
      ensures forall workflow: Workflow ::
                Now(outcome) == Perform(workflow, execution, OpEffect(observation, allow), old(store.State()), old(State()))
    {
      var loaded := store.Load(execution.executionId);
      if loaded.Err? { return Some(StoreFailed(LoadOperation, loaded.error)); }
      outcome := Commit(execution.executionId, ObserveEffect(execution, observation, allow, loaded.value, State()));
    }

    method ObserveAndTurnWith(workflow: Workflow, execution: ExecutionSpec, activity: LogicalActivityId, result: Bytes,
                              resolver: ActivityResolver)
      returns (outcome: Option<HostOutcome>)
      modifies this, store
      ensures Now(outcome) == Perform(workflow, execution, OpObserveAndTurn(activity, result, resolver), old(store.State()), old(State()))
    {
      var loaded := store.Load(execution.executionId);
      if loaded.Err? { return Some(StoreFailed(LoadOperation, loaded.error)); }
      outcome := Commit(execution.executionId, ObserveAndTurn(workflow, execution, activity, result, resolver, loaded.value, State()));
    }
  }

  // ---------------------------------------------------------------- the host in a run

  /** The in-memory store holds what the run says is stored for this execution. */
  predicate Mirrors(s: System, id: ExecutionId, store: StoreState)
  {
    s.stored == Lookup(store, id) && s.revisionCounter == store.revisionCounter
  }

  /** What the store did with the request that reached it. */
  function FateOf(store: StoreState, id: ExecutionId, expected: Option<Revision>): (f: Fate)
  {
    if !Applies(store, id, expected) then NotApplied
    else if DueFault(store).None? then Acknowledged else AppliedUnknown
  }

  /**
   * One call of the host object, whatever fault its store injects, is one call event of a run,
   * followed by the delivery of its proposal if it had one; the permit it returns is the permit the
   * run issues.
   */
  lemma PerformIsRun(program: Program, id: ExecutionId, s: System, h: nat, execution: ExecutionSpec, op: Op, store: StoreState)
    returns (middle: System, t: System)
    requires h in s.hosts && Mirrors(s, id, store) && execution.executionId == id
    requires LoadResult(store, id).Ok?
    requires ReplaysHistory(op) ==> Produces(program.prepared, ResolverOf(op))
    ensures
      var p := Perform(program.workflow, execution, op, store, s.hosts[h]);
      && Next(program, id, s, Call(h, execution, op), middle)
      && (t == middle || (|middle.inflight| == |s.inflight| + 1 && exists fate :: Next(program, id, middle, Deliver(|s.inflight|, fate), t)))
      && Mirrors(t, id, p.store)
      && t.inflight == s.inflight
      && (p.outcome.Some? ==> h in t.hosts && t.hosts[h] == p.host)
      && t.permits == s.permits + (if p.outcome.Some? && p.outcome.value.DispatchPermitted?
                                   then [Issued(p.outcome.value.permit, |s.log|)] else [])
  {
    hide Compute;
    hide Produces;
    hide ReplaysHistory;
    var host := s.hosts[h];
    var request := HostCall(execution, op, s.stored, host);
    var c := Compute(program.workflow, execution, op, s.stored, host);
    middle := AfterCall(program, s, h, request);
    t := middle;
    assert s.permits + [] == s.permits;
    if c.Propose? {
      var after := AfterLoad(store);
      var fate := FateOf(after, id, c.expected);
      var rest := middle.(inflight := Without(middle.inflight, |s.inflight|));
      assert Without(middle.inflight, |s.inflight|) == s.inflight;
      ActualIsStored(s, id, after);
      t := if fate.NotApplied? then rest else Applied(program, rest, request, fate.Acknowledged?);
      assert Next(program, id, middle, Deliver(|s.inflight|, fate), t);
    } else {
      ComputeNeverPermits(program.workflow, execution, op, s.stored, host);
    }
  }

  lemma ActualIsStored(s: System, id: ExecutionId, store: StoreState)
    requires Mirrors(s, id, store)
    ensures ActualRevision(store, id) == StoredRevision(s.stored)
  {
  }

  /** A permit is only ever the answer to an accepted compare-and-swap. */
  lemma ComputeNeverPermits(workflow: Workflow, execution: ExecutionSpec, op: Op, loaded: Option<Stored>, host: HostState)
    ensures
      var c := Compute(workflow, execution, op, loaded, host);
      c.Finished? ==> !c.outcome.DispatchPermitted?
  {
    hide Locate;
    hide DecodeAndValidate;
    hide EncodeWithLimits;
    hide Evaluate;
    hide IntoTerminal;
    hide MaximumActivityCompletedLen;
    hide Gate;
    hide ObserveEffectAttempt;
    hide RetryNotBefore;
  }

  // ---------------------------------------------------------------- panics

  lemma ExposurePanics(execution: ExecutionSpec, expected: Option<Revision>, candidate: Envelope, activity: LogicalActivityId,
                       boundary: Boundary, host: HostState)
    requires
      var decoded := DecodeAndValidate(candidate, execution, host.limits);
      decoded.Ok? ==> LastActive(decoded.value).Some?
    requires PrepareExposure(execution, expected, candidate, activity, boundary, host).Panicked?
    ensures host.counter == U64_MAX
  {
    hide DecodeAndValidate;
    hide EncodeWithLimits;
    hide MaximumActivityCompletedLen;
  }

  lemma TurnPanics(workflow: Workflow, execution: ExecutionSpec, loaded: Option<Stored>, host: HostState)
    requires Turn(workflow, execution, loaded, host).Panicked?
    ensures host.counter == U64_MAX
  {
    hide Evaluate;
    hide DecodeAndValidate;
    hide EncodeWithLimits;
    hide InternalError;
    hide Start;
    hide IntoTerminal;
    hide PrepareExposure;
    var program := Program(workflow, AnyPreparation);
    EvaluateMeaning(program, execution, StoredEnvelope(loaded), host.limits, IdentityResolver);
    var e := Evaluate(workflow, execution, StoredEnvelope(loaded), host.limits, IdentityResolver);
    if e.EvaluatedPending? {
      StartDecodes(execution, loaded.value, host.limits);
      ExposurePanics(execution, StoredRevision(loaded), loaded.value.checkpoint, e.activity, AtExposure, host);
    }
  }

  lemma TurnAndExposePanics(workflow: Workflow, execution: ExecutionSpec, resolver: ExposureResolver, now: Option<i64>,
                            loaded: Option<Stored>, host: HostState)
    requires TurnAndExpose(workflow, execution, resolver, now, loaded, host).Panicked?
    ensures host.counter == U64_MAX
  {
    hide Evaluate;
    hide DecodeAndValidate;
    hide EncodeWithLimits;
    hide InternalError;
    hide Start;
    hide IntoTerminal;
    hide PrepareExposure;
    hide Gate;
    var program := Program(workflow, AnyPreparation);
    EvaluateMeaning(program, execution, StoredEnvelope(loaded), host.limits, ToResolver(resolver));
    var e := Evaluate(workflow, execution, StoredEnvelope(loaded), host.limits, ToResolver(resolver));
    if e.EvaluatedPending? {
      StartDecodes(execution, loaded.value, host.limits);
      ExposurePanics(execution, StoredRevision(loaded), loaded.value.checkpoint, e.activity, AtScheduleExposure, host);
    } else if e.EvaluatedScheduled? {
      DecodedFacts(Encode(e.payload), execution, host.limits);
      ExposurePanics(execution, StoredRevision(loaded), Encode(e.payload), LogicalId(e.record, execution.executionId), AtScheduleExposure, host);
    }
  }

  lemma ObserveAndTurnPanics(workflow: Workflow, execution: ExecutionSpec, activity: LogicalActivityId, result: Bytes,
                             resolver: ActivityResolver, loaded: Option<Stored>, host: HostState)
    requires ObserveAndTurn(workflow, execution, activity, result, resolver, loaded, host).Panicked?
    ensures host.counter == U64_MAX
  {
    hide Evaluate;
    hide Locate;
    hide DecodeAndValidate;
    hide EncodeWithLimits;
    hide InternalError;
    hide Start;
    hide IntoTerminal;
    hide PrepareExposure;
    var located := Locate(execution, activity, loaded, host.limits).value;
    var completed := Encode(WithLast(located.payload, WithState(located.record, Completed(result))));
    var program := Program(workflow, AnyPreparation);
    EvaluateMeaning(program, execution, Some(completed), host.limits, Resolver(resolver, None));
    var e := Evaluate(workflow, execution, Some(completed), host.limits, Resolver(resolver, None));
    if e.EvaluatedScheduled? {
      DecodedFacts(Encode(e.payload), execution, host.limits);
      ExposurePanics(execution, Some(located.revision), Encode(e.payload), LogicalId(e.record, execution.executionId),
                     AtObservationProgression, host);
    }
  }

  /** The host's internal expectations always hold: a call panics only when its attempt counter is exhausted. */
  lemma PanicsOnlyWhenExhausted(workflow: Workflow, execution: ExecutionSpec, op: Op, loaded: Option<Stored>, host: HostState)
    requires Compute(workflow, execution, op, loaded, host).Panicked?
    ensures host.counter == U64_MAX
  {
    hide Turn;
    hide TurnAndExpose;
    hide ObserveAndTurn;
    hide Locate;
    hide DecodeAndValidate;
    hide EncodeWithLimits;
    hide ObserveEffectAttempt;
    hide RetryNotBefore;
    match op
    case OpTurn => TurnPanics(workflow, execution, loaded, host);
    case OpTurnAndExpose(resolver, now) => TurnAndExposePanics(workflow, execution, resolver, now, loaded, host);
    case OpObserveAndTurn(activity, result, activities) =>
      ObserveAndTurnPanics(workflow, execution, activity, result, activities, loaded, host);
    case _ =>
  }
}
