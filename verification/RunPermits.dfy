/** Permits, exposures, strict effects and reservations over every run. */
module RunPermits {
  import opened Base
  import opened Identity
  import opened Effects
  import opened Records
  import opened Checkpoint
  import opened Capacity
  import opened Replay
  import opened Store
  import opened Host
  import opened Steps
  import opened Derivation
  import opened ObservationSteps
  import opened Traces
  import opened Exposures
  import opened Runs
  import opened RunTheorems

  /** An accepted write that exposed the activity at this sequence. */
  predicate ExposureWrite(write: Write, q: nat)
  {
    write.acceptance.AcceptExposure? && write.acceptance.permit.activity.sequence == q
  }

  predicate ExposedAt(payload: CheckpointPayload, q: nat)
  {
    payload.state.Active? && q < |payload.state.activities| && payload.state.activities[q].state.DispatchExposed?
  }

  /** The final move of an exposing write is the exposure of the record its permit names. */
  lemma ExposureLast(program: Program, id: ExecutionId, log: seq<Write>, i: nat)
    requires Chain(program, id, log) && i < |log| && log[i].acceptance.AcceptExposure?
    ensures Faithful(program, id, log[i])
    ensures
      var permit := log[i].acceptance.permit;
      var q := permit.activity.sequence;
      var steps := StepsOf(program, id, log[i]);
      && LastActive(log[i].payload).Some?
      && PermitNames(permit, LastActive(log[i].payload).value, id)
      && |log[i].payload.state.activities| == q + 1
      && ExposedAt(log[i].payload, q)
      && steps != []
      && OnlyLeads(steps[..|steps| - 1])
      && ValidStep(program, steps[|steps| - 1])
      && Exposing(steps[|steps| - 1], q)
      && steps[|steps| - 1].move.attemptId == permit.attemptId
      && Target(steps[|steps| - 1]).prepared == permit.preparedCommand
      && Target(steps[|steps| - 1]).state.Scheduled?
  {
    hide Reserved;
    hide RecordFor;
    hide ValidateEffectAttempts;
    hide Chain;
    hide Faithful;
    hide StepsFor;
    hide Start;
    hide InternalError;
    hide EncodeWithLimits;
    hide WellFormedHistory;
    TraceTake(program, id, log, i);
    StepsPath(program, id, log[i]);
    StoredValid(program, id, log, i);
    var activities := log[i].payload.state.activities;
    assert activities[|activities| - 1].sequence == |activities| - 1 by { SequenceIsPosition(activities, |activities| - 1); }
  }

  lemma SequenceIsPosition(activities: seq<ActivityRecord>, k: nat)
    requires WellFormedHistory(activities) && k < |activities|
    ensures activities[k].sequence == k
    ensures activities[k].state.Completed? || k == |activities| - 1
  {
  }

  // ---------------------------------------------------------------- permit safety

  /** Completing and appending never puts a record back to scheduled. */
  lemma {:induction false} LeadsNeverReschedule(program: Program, start: CheckpointPayload, steps: seq<Step>, end: CheckpointPayload, q: nat)
    requires Path(program, start, steps, end) && OnlyLeads(steps)
    requires start.state.Active? && end.state.Active? && q < |start.state.activities|
    requires !start.state.activities[q].state.Scheduled?
    ensures q < |end.state.activities| && !end.state.activities[q].state.Scheduled?
  {
    hide EncodeWithLimits;
    hide Reserved;
    hide RecordFor;
    if steps != [] {
      var n := |steps| - 1;
      LeadsNeverReschedule(program, start, steps[..n], steps[n].before, q);
      StepKeeps(program, steps[n], q);
    }
  }

  /** Right before an exposing write the record is not exposed. */
  lemma NotExposedBefore(program: Program, id: ExecutionId, log: seq<Write>, b: nat)
    requires Chain(program, id, log) && 0 < b < |log| && log[b].acceptance.AcceptExposure?
    ensures !ExposedAt(log[b - 1].payload, log[b].acceptance.permit.activity.sequence)
  {
    hide Chain;
    hide Faithful;
    hide StepsFor;
    hide ValidStep;
    ExposureLast(program, id, log, b);
    PredecessorActive(program, id, log, b - 1);
    var q := log[b].acceptance.permit.activity.sequence;
    var steps := StepsOf(program, id, log[b]);
    var n := |steps| - 1;
    if ExposedAt(log[b - 1].payload, q) {
      LeadsNeverReschedule(program, log[b - 1].payload, steps[..n], steps[n].before, q);
      assert false;
    }
  }

  lemma {:induction false} LeavesExposure(log: seq<Write>, q: nat, a: nat, c: nat)
    requires a < c < |log| && ExposedAt(log[a].payload, q) && !ExposedAt(log[c].payload, q)
    ensures exists k :: a < k <= c && ExposedAt(log[k - 1].payload, q) && !ExposedAt(log[k].payload, q)
  {
    if !ExposedAt(log[c - 1].payload, q) {
      LeavesExposure(log, q, a, c - 1);
    } else {
      assert ExposedAt(log[c - 1].payload, q) && !ExposedAt(log[c].payload, q);
    }
  }

  /**
   * Permit safety: every permit ever issued names the exact activity, attempt, ordinal and command
   * that end a checkpoint the store accepted, no two permits share an accepted write, and between
   * any two permits for one sequence the store accepted a write that took the record out of the
   * exposed state.
   */
  lemma PermitSafety(program: Program, id: ExecutionId, s: System)
    requires Reachable(program, id, s)
    ensures forall i :: 0 <= i < |s.permits| ==>
      && s.permits[i].index < |s.log|
      && LastActive(s.log[s.permits[i].index].payload).Some?
      && PermitNames(s.permits[i].permit, LastActive(s.log[s.permits[i].index].payload).value, id)
    ensures forall i, j :: 0 <= i < j < |s.permits| ==>
      && s.permits[i].index < s.permits[j].index < |s.log|
      && (s.permits[i].permit.activity.sequence == s.permits[j].permit.activity.sequence ==>
            ReleasedBetween(s.log, s.permits[i].permit.activity.sequence, s.permits[i].index, s.permits[j].index))
  {
    hide Reachable;
    hide Chain;
    hide PermitNames;
    hide ReleasedBetween;
    ReachablePermits(program, id, s);
    forall i | 0 <= i < |s.permits|
      ensures LastActive(s.log[s.permits[i].index].payload).Some?
      ensures PermitNames(s.permits[i].permit, LastActive(s.log[s.permits[i].index].payload).value, id)
    {
      ExposureLast(program, id, s.log, s.permits[i].index);
    }
    forall i, j | 0 <= i < j < |s.permits|
      && s.permits[i].permit.activity.sequence == s.permits[j].permit.activity.sequence
      ensures ReleasedBetween(s.log, s.permits[i].permit.activity.sequence, s.permits[i].index, s.permits[j].index)
    {
      Released(program, id, s.log, s.permits[i].index, s.permits[j].index);
    }
  }

  /** Some accepted write strictly between the two took the record out of the exposed state. */
  ghost predicate ReleasedBetween(log: seq<Write>, q: nat, a: nat, b: nat)
    requires a < b < |log|
  {
    exists k :: a < k < b && ExposedAt(log[k - 1].payload, q) && !ExposedAt(log[k].payload, q)
  }

  lemma Released(program: Program, id: ExecutionId, log: seq<Write>, a: nat, b: nat)
    requires Chain(program, id, log) && a < b < |log|
    requires log[b].acceptance.AcceptExposure? && ExposureWrite(log[a], log[b].acceptance.permit.activity.sequence)
    ensures ReleasedBetween(log, log[a].acceptance.permit.activity.sequence, a, b)
  {
    hide Chain;
    hide Faithful;
    hide StepsFor;
    hide ValidStep;
    var q := log[a].acceptance.permit.activity.sequence;
    ExposureLast(program, id, log, a);
    NotExposedBefore(program, id, log, b);
    LeavesExposure(log, q, a, b - 1);
  }

  // ---------------------------------------------------------------- strict effects

  /** An accepted redelivering observation, for the record at this sequence, that this attempt was proven not admitted. */
  predicate RefusalWrite(write: Write, q: nat, attemptId: AttemptId)
  {
    && write.request.op.OpEffect?
    && write.request.op.allowRedelivery
    && write.request.op.observation.disposition == DispositionProvenNoAdmission
    && write.request.op.observation.attemptId == attemptId
    && write.acceptance.AcceptObservation?
    && write.request.op.observation.activity == write.acceptance.activity
    && write.acceptance.activity.sequence == q
    && LastActive(write.payload).Some?
    && LastActive(write.payload).value.state.Scheduled?
  }

  /** Only an accepted observation carries a non-admission move, and it is its only move. */
  lemma RefusalMeans(steps: seq<Step>, payload: CheckpointPayload, acceptance: Acceptance, id: ExecutionId, j: nat)
    requires Means(steps, payload, acceptance, id) && j < |steps| && steps[j].move.NoAdmission?
    ensures |steps| == 1 && acceptance.AcceptObservation?
    ensures LastActive(payload).Some? && acceptance.activity == LogicalId(LastActive(payload).value, id)
  {
    hide PermitNames;
  }

  lemma RefusalReopens(program: Program, step: Step, q: nat)
    requires ValidStep(program, step) && step.move.NoAdmission? && At(step, q)
    ensures LastActive(step.after).Some? && LastActive(step.after).value.state.Scheduled?
    ensures |step.after.state.activities| == q + 1
  {
    hide EncodeWithLimits;
    hide Reserved;
  }

  /** Only observations are answered as observations. */
  lemma ObservationOp(workflow: Workflow, execution: ExecutionSpec, op: Op, loaded: Option<Stored>, host: HostState)
    requires Compute(workflow, execution, op, loaded, host).Propose?
    requires Compute(workflow, execution, op, loaded, host).acceptance.AcceptObservation?
    ensures op.OpObserve? || op.OpFailure? || op.OpEffect?
    ensures op.OpEffect? ==>
      && Compute(workflow, execution, op, loaded, host).acceptance.activity == op.observation.activity
      && Locate(execution, op.observation.activity, loaded, host.limits).Ok?
      && Locate(execution, op.observation.activity, loaded, host.limits).value.record.state == DispatchExposed(op.observation.attemptId)
  {
    hide Locate;
    hide DecodeAndValidate;
    hide EncodeWithLimits;
    hide Evaluate;
    hide IntoTerminal;
    hide MaximumActivityCompletedLen;
    hide Gate;
    hide RetryNotBefore;
    hide ObserveEffectAttempt;
  }

  /** A single non-admission move is a redelivering observation of the attempt it names. */
  lemma RefusalOp(program: Program, id: ExecutionId, write: Write, refused: AttemptId)
    requires Faithful(program, id, write) && |StepsOf(program, id, write)| == 1
    requires StepsOf(program, id, write)[0].move == NoAdmission(refused) && write.acceptance.AcceptObservation?
    ensures
      var op := write.request.op;
      && op.OpEffect? && op.allowRedelivery && op.observation.disposition == DispositionProvenNoAdmission
      && op.observation.activity == write.acceptance.activity
      && op.observation.attemptId == refused
  {
    hide Compute;
    hide Locate;
    hide StepsFor;
    hide Start;
    hide InternalError;
    hide DecodeAndValidate;
    hide HistoryError;
    hide Means;
    hide EncodeWithLimits;
    hide Produces;
    var r := write.request;
    var steps := StepsOf(program, id, write);
    StepsPath(program, id, write);
    AcceptedOne(steps[0]);
    assert steps == [steps[0]];
    assert steps[..0] == [];
    ObservationOp(program.workflow, r.execution, r.op, r.loaded, r.host);
    LocatedFacts(r.execution, r.op.observation.activity, r.loaded, r.host.limits);
  }

  /** The write owning a non-admission move is an accepted redelivering observation of that record and attempt. */
  lemma RefusalOwner(program: Program, id: ExecutionId, log: seq<Write>, c: nat, j: nat, q: nat, refused: AttemptId)
    requires Chain(program, id, log) && c < |log| && Faithful(program, id, log[c])
    requires j < |StepsOf(program, id, log[c])|
    requires StepsOf(program, id, log[c])[j].move == NoAdmission(refused) && At(StepsOf(program, id, log[c])[j], q)
    ensures RefusalWrite(log[c], q, refused)
  {
    hide Chain;
    hide Faithful;
    hide StepsFor;
    hide Start;
    hide InternalError;
    hide WellFormedHistory;
    hide Means;
    hide ValidStep;
    StepsPath(program, id, log[c]);
    StoredValid(program, id, log, c);
    var steps := StepsOf(program, id, log[c]);
    RefusalMeans(steps, log[c].payload, log[c].acceptance, id, j);
    RefusalOp(program, id, log[c], refused);
    RefusalReopens(program, steps[0], q);
    SequenceIsPosition(log[c].payload.state.activities, q);
  }

  /**
   * Strict effects: two accepted exposures of a prepared effect carry the same command and distinct
   * attempts, an accepted redelivering observation that proved the first not admitted lies strictly
   * between them, and no third exposure was ever accepted.
   */
  lemma StrictEffectSafety(program: Program, id: ExecutionId, s: System, q: nat, a: nat, b: nat)
    requires Reachable(program, id, s)
    requires a < b < |s.log| && ExposureWrite(s.log[a], q) && ExposureWrite(s.log[b], q)
    requires s.log[a].acceptance.permit.preparedCommand.Some?
    ensures s.log[b].acceptance.permit.preparedCommand == s.log[a].acceptance.permit.preparedCommand
    ensures s.log[b].acceptance.permit.attemptId != s.log[a].acceptance.permit.attemptId
    ensures exists c :: a < c < b && RefusalWrite(s.log[c], q, s.log[a].acceptance.permit.attemptId)
    ensures forall m :: 0 <= m < |s.log| && ExposureWrite(s.log[m], q) ==> m == a || m == b
  {
    hide Reachable;
    hide Chain;
    hide Trace;
    hide RefusalWrite;
    ReachableLog(program, id, s);
    StrictPair(program, id, s.log, q, a, b);
  }

  lemma StrictPair(program: Program, id: ExecutionId, log: seq<Write>, q: nat, a: nat, b: nat)
    requires Chain(program, id, log)
    requires a < b < |log| && ExposureWrite(log[a], q) && ExposureWrite(log[b], q)
    requires log[a].acceptance.permit.preparedCommand.Some?
    ensures log[b].acceptance.permit.preparedCommand == log[a].acceptance.permit.preparedCommand
    ensures log[b].acceptance.permit.attemptId != log[a].acceptance.permit.attemptId
    ensures exists c :: a < c < b && RefusalWrite(log[c], q, log[a].acceptance.permit.attemptId)
    ensures forall m :: 0 <= m < |log| && ExposureWrite(log[m], q) ==> m == a || m == b
  {
    hide Chain;
    hide Faithful;
    hide StepsFor;
    hide ValidStep;
    hide Trace;
    hide RefusalWrite;
    var trace := TraceOf(program, id, log);
    var base, end := Origin(log), log[|log| - 1].payload;
    LogIsTrace(program, id, log);
    var i := ExposureIndex(program, id, log, q, a);
    var j := ExposureIndex(program, id, log, q, b);
    IndexIncreases(program, id, log, a, b);
    StrictRedelivery(program, base, trace, end, q, i, j);
    var k :| i < k < j && trace[k].move == NoAdmission(trace[i].move.attemptId) && At(trace[k], q);
    var c := RefusalBetween(program, id, log, q, a, b, k, trace[i].move.attemptId);
    forall m | 0 <= m < |log| && ExposureWrite(log[m], q) ensures m == a || m == b {
      var x := ExposureIndex(program, id, log, q, m);
      if m < a { IndexIncreases(program, id, log, m, a); }
      else if a < m < b { IndexIncreases(program, id, log, a, m); IndexIncreases(program, id, log, m, b); }
      else if b < m { IndexIncreases(program, id, log, b, m); }
    }
  }

  lemma ExposureIndex(program: Program, id: ExecutionId, log: seq<Write>, q: nat, i: nat) returns (x: nat)
    requires Chain(program, id, log) && i < |log| && ExposureWrite(log[i], q)
    ensures x == LastIndex(program, id, log, i) && x < |TraceOf(program, id, log)|
    ensures
      var step := TraceOf(program, id, log)[x];
      && Exposing(step, q)
      && step.move.attemptId == log[i].acceptance.permit.attemptId
      && Target(step).prepared == log[i].acceptance.permit.preparedCommand
  {
    hide Chain;
    hide Faithful;
    hide StepsFor;
    hide ValidStep;
    ExposureLast(program, id, log, i);
    LastStep(program, id, log, i);
    x := LastIndex(program, id, log, i);
  }

  lemma RefusalBetween(program: Program, id: ExecutionId, log: seq<Write>, q: nat, a: nat, b: nat, k: nat, refused: AttemptId) returns (c: nat)
    requires Chain(program, id, log) && a < b < |log|
    requires ExposureWrite(log[b], q)
    requires LastIndex(program, id, log, a) < k < LastIndex(program, id, log, b)
    requires k < |TraceOf(program, id, log)|
    requires TraceOf(program, id, log)[k].move == NoAdmission(refused) && At(TraceOf(program, id, log)[k], q)
    ensures a < c < b && RefusalWrite(log[c], q, refused)
  {
    hide Chain;
    hide Faithful;
    hide StepsFor;
    var j: nat;
    c, j := OwnerOf(program, id, log, k);
    RefusalOwner(program, id, log, c, j, q, refused);
    if c < a { IndexIncreases(program, id, log, c, a); }
    if b < c {
      if b < c - 1 { IndexIncreases(program, id, log, b, c - 1); }
    }
  }

  // ---------------------------------------------------------------- exposure conservation

  /** The attempts whose exposure of this sequence the store accepted, in order. */
  function LogExposures(log: seq<Write>, q: nat): (ids: seq<AttemptId>)
  {
    if log == [] then []
    else
      var write := log[|log| - 1];
      LogExposures(log[..|log| - 1], q) + (if ExposureWrite(write, q) then [write.acceptance.permit.attemptId] else [])
  }

  /** How often the store accepted a handler wait for this sequence. */
  function LogWaits(log: seq<Write>, q: nat): (n: nat)
  {
    if log == [] then 0
    else
      var write := log[|log| - 1];
      LogWaits(log[..|log| - 1], q) + (if write.acceptance.AcceptWait? && write.acceptance.activity.sequence == q then 1 else 0)
  }

  lemma {:induction false} ExposedJoin(left: seq<Step>, right: seq<Step>, q: nat)
    ensures ExposedIds(left + right, q) == ExposedIds(left, q) + ExposedIds(right, q)
    ensures Waits(left + right, q) == Waits(left, q) + Waits(right, q)
  {
    hide ExposedBy;
    hide WaitsBy;
    if right == [] {
      assert left + right == left;
    } else {
      var n := |right| - 1;
      ExposedJoin(left, right[..n], q);
      var joined := left + right;
      assert joined[..|joined| - 1] == left + right[..n];
      assert joined[|joined| - 1] == right[n];
    }
  }

  lemma {:induction false} LeadsCountNothing(steps: seq<Step>, q: nat)
    requires OnlyLeads(steps)
    ensures ExposedIds(steps, q) == [] && Waits(steps, q) == 0
  {
    if steps != [] { LeadsCountNothing(steps[..|steps| - 1], q); }
  }

  /** Only the final move of a write can be an exposure or a wait. */
  lemma WriteCounts(steps: seq<Step>, payload: CheckpointPayload, acceptance: Acceptance, id: ExecutionId, q: nat)
    requires Means(steps, payload, acceptance, id)
    ensures ExposedIds(steps, q) == ExposedBy(steps[|steps| - 1], q)
    ensures Waits(steps, q) == WaitsBy(steps[|steps| - 1], q)
    ensures steps[|steps| - 1].move.Expose? <==> acceptance.AcceptExposure?
    ensures steps[|steps| - 1].move.Wait? <==> acceptance.AcceptWait?
  {
    hide PermitNames;
    var n := |steps| - 1;
    assert steps[..n] == [] ==> OnlyLeads(steps[..n]);
    LeadsCountNothing(steps[..n], q);
  }

  /** The counted position is the sequence the caller was told about. */
  lemma WritePosition(program: Program, id: ExecutionId, log: seq<Write>, i: nat)
    requires Chain(program, id, log) && i < |log|
    requires log[i].acceptance.AcceptExposure? || log[i].acceptance.AcceptWait?
    ensures Faithful(program, id, log[i]) && StepsOf(program, id, log[i]) != []
    ensures
      var steps := StepsOf(program, id, log[i]);
      var q := if log[i].acceptance.AcceptExposure? then log[i].acceptance.permit.activity.sequence
               else log[i].acceptance.activity.sequence;
      At(steps[|steps| - 1], q)
  {
    hide Chain;
    hide Faithful;
    hide StepsFor;
    hide Start;
    hide InternalError;
    hide EncodeWithLimits;
    hide WellFormedHistory;
    hide Reserved;
    TraceTake(program, id, log, i);
    StepsPath(program, id, log[i]);
    StoredValid(program, id, log, i);
    var activities := log[i].payload.state.activities;
    SequenceIsPosition(activities, |activities| - 1);
  }

  ghost function ExposureOf(write: Write, q: nat): (ids: seq<AttemptId>)
  {
    if ExposureWrite(write, q) then [write.acceptance.permit.attemptId] else []
  }

  ghost function WaitOf(write: Write, q: nat): (n: nat)
  {
    if write.acceptance.AcceptWait? && write.acceptance.activity.sequence == q then 1 else 0
  }

  lemma WriteAgrees(program: Program, id: ExecutionId, log: seq<Write>, n: nat, q: nat)
    requires Chain(program, id, log) && n < |log|
    ensures Faithful(program, id, log[n])
    ensures ExposedIds(StepsOf(program, id, log[n]), q) == ExposureOf(log[n], q)
    ensures Waits(StepsOf(program, id, log[n]), q) == WaitOf(log[n], q)
  {
    hide Chain;
    hide Faithful;
    hide StepsFor;
    hide Start;
    hide InternalError;
    hide Means;
    hide ValidStep;
    hide Path;
    hide PermitNames;
    hide OnlyLeads;
    hide ExposedIds;
    hide Waits;
    TraceTake(program, id, log, n);
    var steps := StepsOf(program, id, log[n]);
    StepsPath(program, id, log[n]);
    WriteCounts(steps, log[n].payload, log[n].acceptance, id, q);
    if log[n].acceptance.AcceptExposure? {
      ExposureLast(program, id, log, n);
    } else if log[n].acceptance.AcceptWait? {
      WritePosition(program, id, log, n);
    }
  }

  lemma {:induction false} CountsAgree(program: Program, id: ExecutionId, log: seq<Write>, q: nat)
    requires Chain(program, id, log)
    ensures ExposedIds(TraceOf(program, id, log), q) == LogExposures(log, q)
    ensures Waits(TraceOf(program, id, log), q) == LogWaits(log, q)
  {
    hide Chain;
    hide Faithful;
    hide StepsFor;
    if log != [] {
      var n := |log| - 1;
      ChainPrefix(program, id, log);
      CountsAgree(program, id, log[..n], q);
      ExposedJoin(TraceOf(program, id, log[..n]), StepsOf(program, id, log[n]), q);
      WriteAgrees(program, id, log, n, q);
    }
  }

  /**
   * Exposure conservation over runs: for every ordinary activity of the stored checkpoint, the
   * accepted exposures equal its ordinal plus its accepted waits, less one while it is scheduled,
   * and so never exceed its maximum attempts plus its waits.
   */
  lemma ExposuresConserved(program: Program, id: ExecutionId, s: System, q: nat)
    requires Reachable(program, id, s) && s.log != [] && s.log[|s.log| - 1].payload.state.Active?
    requires q < |s.log[|s.log| - 1].payload.state.activities|
    requires s.log[|s.log| - 1].payload.state.activities[q].prepared.None?
    ensures
      var record := s.log[|s.log| - 1].payload.state.activities[q];
      && |LogExposures(s.log, q)| == record.attempt.ordinal + LogWaits(s.log, q) - (if record.state.Scheduled? then 1 else 0)
      && |LogExposures(s.log, q)| <= record.spec.options.maxAttempts + LogWaits(s.log, q)
  {
    hide Reachable;
    hide Chain;
    hide Trace;
    ReachableLog(program, id, s);
    LogIsTrace(program, id, s.log);
    CountsAgree(program, id, s.log, q);
    var end := s.log[|s.log| - 1].payload;
    ExposureConservation(program, Origin(s.log), TraceOf(program, id, s.log), end, q);
    OrdinaryExposureBound(program, Origin(s.log), TraceOf(program, id, s.log), end, q);
  }

  /** A strict effect's accepted exposures are exactly its ledger. */
  lemma LedgerIsExposures(program: Program, id: ExecutionId, s: System, q: nat)
    requires Reachable(program, id, s) && s.log != [] && s.log[|s.log| - 1].payload.state.Active?
    requires q < |s.log[|s.log| - 1].payload.state.activities|
    requires s.log[|s.log| - 1].payload.state.activities[q].prepared.Some?
    ensures LogExposures(s.log, q) == Ids(s.log[|s.log| - 1].payload.state.activities[q].attempts)
    ensures LogWaits(s.log, q) == 0 && |LogExposures(s.log, q)| <= 2
  {
    hide Reachable;
    hide Chain;
    hide Trace;
    hide HistoryError;
    ReachableLog(program, id, s);
    LogIsTrace(program, id, s.log);
    CountsAgree(program, id, s.log, q);
    var end := s.log[|s.log| - 1].payload;
    ExposureConservation(program, Origin(s.log), TraceOf(program, id, s.log), end, q);
    TraceValid(program, Origin(s.log), TraceOf(program, id, s.log), end);
    ValidSequence(end.state.activities, q);
  }

  // ---------------------------------------------------------------- result reservation

  /**
   * Result reservation over runs: while an ordinary activity is exposed in the stored checkpoint, a
   * host that can read that checkpoint is never refused an observation of it with any result within
   * the declared bound; it always has a proposal.
   */
  lemma ReservationHonoured(program: Program, id: ExecutionId, s: System, execution: ExecutionSpec, result: Bytes, host: HostState)
    requires Reachable(program, id, s) && s.stored.Some?
    requires DecodeAndValidate(s.stored.value.checkpoint, execution, host.limits).Ok?
    requires
      var last := LastActive(DecodeAndValidate(s.stored.value.checkpoint, execution, host.limits).value);
      && last.Some? && last.value.state.DispatchExposed? && last.value.prepared.None?
      && |result| <= last.value.spec.maxResult
    ensures
      var payload := DecodeAndValidate(s.stored.value.checkpoint, execution, host.limits).value;
      var record := LastActive(payload).value;
      var activity := LogicalId(record, execution.executionId);
      Observe(execution, activity, result, s.stored, host)
      == Propose(Some(s.stored.value.revision), WithLast(payload, WithState(record, Completed(result))),
                 AcceptObservation(activity), host.counter)
  {
    hide Reachable;
    hide Chain;
    hide Trace;
    hide DecodeAndValidate;
    hide EncodeWithLimits;
    hide InternalError;
    hide Reserved;
    ReachableLog(program, id, s);
    LogIsTrace(program, id, s.log);
    var payload := s.log[|s.log| - 1].payload;
    DecodedFacts(s.stored.value.checkpoint, execution, host.limits);
    InternalFacts(payload, host.limits);
    ReservedWhileExposed(program, Origin(s.log), TraceOf(program, id, s.log), payload);
    ReservedResultFits(payload, result, host.limits);
  }
}
