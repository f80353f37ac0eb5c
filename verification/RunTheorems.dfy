/** The durable-execution guarantees, over every reachable state of every run. */
module RunTheorems {
  import opened Base
  import opened Identity
  import opened Records
  import opened Checkpoint
  import opened Replay
  import opened Store
  import opened Host
  import opened Steps
  import opened ObservationSteps
  import opened Traces
  import opened Determinism
  import opened Runs

  // ---------------------------------------------------------------- locating a write in the trace

  lemma ChainTake(program: Program, id: ExecutionId, log: seq<Write>, i: nat)
    requires Chain(program, id, log) && i <= |log|
    ensures Chain(program, id, log[..i])
  {
    hide Faithful;
    forall k | 0 <= k < i ensures Faithful(program, id, log[..i][k]) && log[..i][k].request.loaded == LastStored(log[..i][..k]) {
      assert log[..i][..k] == log[..k];
    }
  }

  /** The trace of a prefix is a prefix of the trace, extended by the next write's own moves. */
  lemma {:induction false} TraceTake(program: Program, id: ExecutionId, log: seq<Write>, i: nat)
    requires Chain(program, id, log) && i < |log|
    ensures Chain(program, id, log[..i]) && Chain(program, id, log[..i + 1]) && Faithful(program, id, log[i])
    ensures TraceOf(program, id, log[..i + 1]) == TraceOf(program, id, log[..i]) + StepsOf(program, id, log[i])
    ensures TraceOf(program, id, log[..i + 1]) <= TraceOf(program, id, log)
    decreases |log|
  {
    hide Chain;
    hide StepsFor;
    hide Faithful;
    ChainTake(program, id, log, i);
    ChainTake(program, id, log, i + 1);
    ChainPrefix(program, id, log[..i + 1]);
    assert log[..i + 1][..i] == log[..i];
    if i + 1 == |log| {
      assert log[..i + 1] == log;
    } else {
      var n := |log| - 1;
      ChainPrefix(program, id, log);
      TraceTake(program, id, log[..n], i);
      assert log[..n][..i + 1] == log[..i + 1];
    }
  }

  /** Where the last move of an accepted write sits in the whole trace. */
  ghost function LastIndex(program: Program, id: ExecutionId, log: seq<Write>, i: nat): (k: int)
    requires Chain(program, id, log) && i < |log|
  {
    ChainTake(program, id, log, i + 1);
    |TraceOf(program, id, log[..i + 1])| - 1
  }

  lemma LastStep(program: Program, id: ExecutionId, log: seq<Write>, i: nat)
    requires Chain(program, id, log) && i < |log|
    ensures Faithful(program, id, log[i]) && StepsOf(program, id, log[i]) != []
    ensures 0 <= LastIndex(program, id, log, i) < |TraceOf(program, id, log)|
    ensures
      var steps := StepsOf(program, id, log[i]);
      TraceOf(program, id, log)[LastIndex(program, id, log, i)] == steps[|steps| - 1]
  {
    hide Chain;
    hide StepsFor;
    hide Faithful;
    hide StepsOf;
    TraceTake(program, id, log, i);
    StepsNonEmpty(program, id, log[i]);
    ChainTake(program, id, log, i + 1);
  }

  lemma StepsNonEmpty(program: Program, id: ExecutionId, write: Write)
    requires Faithful(program, id, write)
    ensures StepsOf(program, id, write) != []
  {
    hide Faithful;
    hide Start;
    hide InternalError;
    hide StepsFor;
    StepsPath(program, id, write);
  }

  lemma IndexStep(program: Program, id: ExecutionId, log: seq<Write>, j: nat)
    requires Chain(program, id, log) && 0 < j < |log|
    ensures LastIndex(program, id, log, j - 1) < LastIndex(program, id, log, j)
  {
    hide Chain;
    hide StepsFor;
    hide Faithful;
    hide StepsOf;
    TraceTake(program, id, log, j);
    StepsNonEmpty(program, id, log[j]);
    assert log[..(j - 1) + 1] == log[..j];
  }

  lemma {:induction false} IndexIncreases(program: Program, id: ExecutionId, log: seq<Write>, i: nat, j: nat)
    requires Chain(program, id, log) && i < j < |log|
    ensures LastIndex(program, id, log, i) < LastIndex(program, id, log, j)
    decreases j
  {
    hide Chain;
    hide LastIndex;
    IndexStep(program, id, log, j);
    if i < j - 1 {
      IndexIncreases(program, id, log, i, j - 1);
    }
  }

  /** Every move of the trace belongs to one accepted write. */
  lemma {:induction false} OwnerOf(program: Program, id: ExecutionId, log: seq<Write>, k: nat) returns (c: nat, j: nat)
    requires Chain(program, id, log) && k < |TraceOf(program, id, log)|
    ensures c < |log| && Faithful(program, id, log[c])
    ensures j < |StepsOf(program, id, log[c])|
    ensures TraceOf(program, id, log)[k] == StepsOf(program, id, log[c])[j]
    ensures k <= LastIndex(program, id, log, c)
    ensures c > 0 ==> LastIndex(program, id, log, c - 1) < k
    decreases |log|
  {
    hide Chain;
    hide StepsFor;
    hide Faithful;
    var n := |log| - 1;
    assert log != [];
    ChainPrefix(program, id, log);
    TraceTake(program, id, log, n);
    assert log[..n + 1] == log;
    var earlier := TraceOf(program, id, log[..n]);
    if k < |earlier| {
      c, j := OwnerOf(program, id, log[..n], k);
      assert log[..n][..c + 1] == log[..c + 1];
      if c > 0 { assert log[..n][..(c - 1) + 1] == log[..(c - 1) + 1]; }
    } else {
      c, j := n, k - |earlier|;
      if c > 0 { assert log[..(c - 1) + 1] == log[..n]; }
    }
  }

  // ---------------------------------------------------------------- history evolution

  /** Every stored checkpoint is a valid one, and a terminal one is the last. */
  lemma StoredValid(program: Program, id: ExecutionId, log: seq<Write>, i: nat)
    requires Chain(program, id, log) && i < |log|
    ensures log[i].payload.execution == Origin(log).execution
    ensures log[i].payload.state.Active? ==> WellFormedHistory(log[i].payload.state.activities)
    ensures log[i].payload.state.Terminal? ==> i == |log| - 1
  {
    hide Faithful;
    hide Trace;
    hide HistoryError;
    hide WellFormedHistory;
    var prefix := log[..i + 1];
    ChainTake(program, id, log, i + 1);
    LogIsTrace(program, id, prefix);
    TraceValid(program, Origin(prefix), TraceOf(program, id, prefix), log[i].payload);
    assert Origin(prefix) == Origin(log);
    if log[i].payload.state.Active? { HistoryAcceptedIff(log[i].payload.state.activities); }
    if i < |log| - 1 { PredecessorActive(program, id, log, i); }
  }

  /** A write always starts from an active checkpoint, so a terminal one is never replaced. */
  lemma PredecessorActive(program: Program, id: ExecutionId, log: seq<Write>, i: nat)
    requires Chain(program, id, log) && i + 1 < |log|
    ensures log[i].payload.state.Active?
    ensures Faithful(program, id, log[i + 1])
    ensures Path(program, log[i].payload, StepsOf(program, id, log[i + 1]), log[i + 1].payload)
  {
    hide Faithful;
    hide Start;
    hide InternalError;
    hide StepsFor;
    hide Moves;
    hide EncodeWithLimits;
    var next := log[i + 1];
    ChainTake(program, id, log, i + 2);
    ChainPrefix(program, id, log[..i + 2]);
    assert log[..i + 2][..i + 1] == log[..i + 1];
    StepsPath(program, id, next);
    StepsNonEmpty(program, id, next);
    FirstActive(program, log[i].payload, StepsOf(program, id, next), next.payload);
  }

  /**
   * History evolution: from one accepted write to any later one, completed records are unchanged, no
   * record is dropped, and none changes its sequence, specification, command or class.
   */
  lemma {:induction false} HistoryEvolves(program: Program, id: ExecutionId, log: seq<Write>, i: nat, j: nat, q: nat)
    requires Chain(program, id, log) && i <= j < |log|
    requires log[j].payload.state.Active?
    requires log[i].payload.state.Active? ==> q < |log[i].payload.state.activities|
    ensures log[i].payload.state.Active?
    ensures q < |log[j].payload.state.activities|
    ensures
      var before, after := log[i].payload.state.activities[q], log[j].payload.state.activities[q];
      && SameIdentity(before, after)
      && (before.state.Completed? ==> after == before)
    decreases j
  {
    hide Faithful;
    hide StepsFor;
    hide Chain;
    hide Path;
    if i < j {
      PredecessorActive(program, id, log, j - 1);
      HistoryEvolves(program, id, log, i, j - 1, q);
      PathKeeps(program, log[j - 1].payload, StepsOf(program, id, log[j]), log[j].payload, q);
    }
  }

  // ---------------------------------------------------------------- meaning preservation

  /** The results of the accepted observations of a run, in order. */
  function LogResults(log: seq<Write>): (r: seq<ActivityResult>)
  {
    if log == [] then []
    else LogResults(log[..|log| - 1]) + AcceptedBy(log[|log| - 1].request.op, log[|log| - 1].request.loaded)
  }

  lemma {:induction false} ResultsAgree(program: Program, id: ExecutionId, log: seq<Write>)
    requires Chain(program, id, log)
    ensures AcceptedAlong(TraceOf(program, id, log)) == LogResults(log)
  {
    hide Faithful;
    hide StepsFor;
    hide Start;
    hide InternalError;
    if log != [] {
      var n := |log| - 1;
      ChainPrefix(program, id, log);
      ResultsAgree(program, id, log[..n]);
      StepsPath(program, id, log[n]);
      AcceptedJoin(TraceOf(program, id, log[..n]), StepsOf(program, id, log[n]));
    }
  }

  /**
   * Meaning preservation: the stored terminal outcome and count are those of one straight run of the
   * workflow, fed the accepted results in order.
   */
  lemma MeaningPreserved(program: Program, id: ExecutionId, s: System)
    requires Reachable(program, id, s) && s.log != []
    requires s.log[|s.log| - 1].payload.state.Terminal?
    ensures
      var terminal := s.log[|s.log| - 1].payload;
      && s.stored.Some? && s.stored.value.checkpoint == Encode(terminal)
      && RunStraight(program.workflow, InputOf(terminal), LogResults(s.log), 0)
         == Some((terminal.state.outcome, terminal.state.completedCount))
  {
    hide Reachable;
    hide Chain;
    hide Trace;
    ReachableLog(program, id, s);
    LogIsTrace(program, id, s.log);
    ResultsAgree(program, id, s.log);
    var n := |s.log| - 1;
    TraceValid(program, Origin(s.log), TraceOf(program, id, s.log), s.log[n].payload);
    TerminalMeaning(program, Origin(s.log), TraceOf(program, id, s.log), s.log[n].payload);
  }

  /** While the execution is active, its completed records hold exactly the accepted results. */
  lemma ActiveResults(program: Program, id: ExecutionId, s: System)
    requires Reachable(program, id, s) && s.log != []
    requires s.log[|s.log| - 1].payload.state.Active?
    ensures
      var completed := CompletedPrefix(s.log[|s.log| - 1].payload.state.activities);
      AllCompleted(completed) && Results(completed) == LogResults(s.log)
  {
    hide Reachable;
    hide Chain;
    hide Trace;
    ReachableLog(program, id, s);
    LogIsTrace(program, id, s.log);
    ResultsAgree(program, id, s.log);
    AcceptedResults(program, Origin(s.log), TraceOf(program, id, s.log), s.log[|s.log| - 1].payload);
  }

  /** The checkpoint an operation replays: the loaded or fresh one, or the loaded one completed with the delivered result. */
  function ReplayedBy(execution: ExecutionSpec, op: Op, loaded: Option<Stored>, limits: CheckpointLimits): (p: Option<CheckpointPayload>)
  {
    match op
    case OpObserveAndTurn(activity, result, _) =>
      var located := Locate(execution, activity, loaded, limits);
      if located.Ok? then Some(CompletedWith(located.value.payload, located.value.record, result)) else None
    case _ =>
      var start := Start(execution, StoredEnvelope(loaded), limits);
      if start.Ok? then Some(start.value) else None
  }

  /** What a call in a reachable state may report as nondeterminism: only that the workflow stalls on the very history it replayed. */
  lemma NeverNondeterministic(program: Program, id: ExecutionId, s: System, execution: ExecutionSpec, op: Op, host: HostState)
    requires Reachable(program, id, s)
    requires ReplaysHistory(op) ==> Replays(program.prepared, ResolverOf(op))
    ensures
      var c := Compute(program.workflow, execution, op, s.stored, host);
      c.Finished? && c.outcome.Nondeterministic? ==>
        && c.outcome.mismatch == UnsupportedSuspension
        && ReplayedBy(execution, op, s.stored, host.limits).Some?
        && StallsAt(program, ReplayedBy(execution, op, s.stored, host.limits).value)
  {
    hide Reachable;
    hide Turn;
    hide TurnAndExpose;
    hide ObserveAndTurn;
    hide Replays;
    hide Reached;
    hide StallsAt;
    hide Start;
    hide InternalError;
    hide DecodeAndValidate;
    hide EncodeWithLimits;
    hide Locate;
    var base, trace := ReachedBy(program, id, s);
    match op
    case OpTurn => TurnAgrees(program, base, trace, execution, s.stored, host);
    case OpTurnAndExpose(resolver, now) => TurnAndExposeAgrees(program, base, trace, execution, resolver, now, s.stored, host);
    case OpObserveAndTurn(activity, result, activities) =>
      ObserveAndTurnAgrees(program, base, trace, execution, activity, result, activities, s.stored, host);
    case _ =>
  }

  lemma ReachedBy(program: Program, id: ExecutionId, s: System) returns (base: CheckpointPayload, trace: seq<Step>)
    requires Reachable(program, id, s)
    ensures Reached(program, base, trace, s.stored)
  {
    hide Reachable;
    hide Chain;
    hide Trace;
    ReachableLog(program, id, s);
    if s.log == [] {
      base := Initial(ExecutionSpec(id, [], 0), CheckpointLimits(0, 0, 0));
      trace := [];
    } else {
      base := Origin(s.log);
      trace := TraceOf(program, id, s.log);
      LogIsTrace(program, id, s.log);
      assert s.stored.value.checkpoint == Encode(s.log[|s.log| - 1].payload);
    }
  }
}
