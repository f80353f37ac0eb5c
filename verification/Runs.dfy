/**
 * Whole runs of one durable execution: any number of hosts over one store, with loads, computed
 * proposals and compare-and-swaps interleaved at will. Requests may be applied and acknowledged,
 * applied with the answer lost, refused, or lost; hosts may crash and restart at any point.
 */
module Runs {
  import opened Base
  import opened Identity
  import opened Records
  import opened Checkpoint
  import opened Replay
  import opened Store
  import opened Host
  import opened Steps
  import opened Derivation
  import opened ObservationSteps
  import opened Traces

  /** One host call: what it was asked, what it had loaded, and the host that computed it. */
  datatype HostCall = HostCall(execution: ExecutionSpec, op: Op, loaded: Option<Stored>, host: HostState)

  /** A compare-and-swap the store applied. */
  datatype Write = Write(request: HostCall, payload: CheckpointPayload, revision: Revision, acceptance: Acceptance)

  /** A permit handed to a caller, with the accepted write that justified it. */
  datatype Issued = Issued(permit: DispatchPermit, index: nat)

  datatype System = System(
    stored: Option<Stored>,
    revisionCounter: u64,
    hosts: map<nat, HostState>,
    inflight: seq<HostCall>,
    log: seq<Write>,
    permits: seq<Issued>)

  /** What the store and the network do with one outstanding request. */
  datatype Fate = Acknowledged | AppliedUnknown | NotApplied

  datatype Event =
    | StartHost(id: nat, epoch: HostEpoch, limits: CheckpointLimits)
    | Crash(id: nat)
    | Call(id: nat, execution: ExecutionSpec, op: Op)
    | Deliver(position: nat, fate: Fate)
    | OtherExecutionWrites(tokens: u64)

  function ComputeRequest(workflow: Workflow, request: HostCall): (c: Computed)
  {
    Compute(workflow, request.execution, request.op, request.loaded, request.host)
  }

  const Initially := System(None, 0, map[], [], [], [])

  /** The store state after a host loads, computes and sends its proposal, if it has one. */
  ghost function AfterCall(program: Program, s: System, id: nat, request: HostCall): (t: System)
    requires id in s.hosts
  {
    var c := ComputeRequest(program.workflow, request);
    match c
    case Panicked => s.(hosts := s.hosts - {id})
    case Finished(_, counter) => s.(hosts := s.hosts[id := s.hosts[id].(counter := counter)])
    case Propose(_, _, _, counter) =>
      s.(hosts := s.hosts[id := s.hosts[id].(counter := counter)], inflight := s.inflight + [request])
  }

  ghost function Applied(program: Program, s: System, request: HostCall, acknowledged: bool): (t: System)
    requires ComputeRequest(program.workflow, request).Propose?
    requires s.revisionCounter < U64_MAX
  {
    var c := ComputeRequest(program.workflow, request);
    var revision := s.revisionCounter + 1;
    var issued := if acknowledged && c.acceptance.AcceptExposure? then [Issued(c.acceptance.permit, |s.log|)] else [];
    s.(stored := Some(Stored(revision, Encode(c.payload))),
       revisionCounter := revision,
       log := s.log + [Write(request, c.payload, revision, c.acceptance)],
       permits := s.permits + issued)
  }

  function Without(requests: seq<HostCall>, position: nat): (r: seq<HostCall>)
    requires position < |requests|
  {
    requests[..position] + requests[position + 1..]
  }

  /** One event of a run of the execution with this identity. */
  ghost predicate Next(program: Program, id: ExecutionId, s: System, event: Event, t: System)
  {
    match event
    case StartHost(host, epoch, limits) => t == s.(hosts := s.hosts[host := HostState(epoch, 1, limits)])
    case Crash(host) => t == s.(hosts := s.hosts - {host})
    case Call(host, execution, op) =>
      && host in s.hosts
      && execution.executionId == id
      && (ReplaysHistory(op) ==> Produces(program.prepared, ResolverOf(op)))
      && t == AfterCall(program, s, host, HostCall(execution, op, s.stored, s.hosts[host]))
    case Deliver(position, fate) =>
      && position < |s.inflight|
      && var request := s.inflight[position];
         var c := ComputeRequest(program.workflow, request);
         && c.Propose?
         && var rest := s.(inflight := Without(s.inflight, position));
            if fate.NotApplied? then t == rest
            else
              && c.expected == StoredRevision(s.stored)
              && s.revisionCounter < U64_MAX
              && t == Applied(program, rest, request, fate.Acknowledged?)
    case OtherExecutionWrites(tokens) =>
      s.revisionCounter + tokens <= U64_MAX && t == s.(revisionCounter := s.revisionCounter + tokens)
  }

  ghost predicate Run(program: Program, id: ExecutionId, states: seq<System>, events: seq<Event>)
  {
    && |states| == |events| + 1
    && states[0] == Initially
    && forall i :: 0 <= i < |events| ==> Next(program, id, states[i], events[i], states[i + 1])
  }

  ghost predicate Reachable(program: Program, id: ExecutionId, s: System)
  {
    exists states: seq<System>, events: seq<Event> :: Run(program, id, states, events) && states[|events|] == s
  }

  // ---------------------------------------------------------------- the run invariant

  function StoredOf(write: Write): (s: Stored)
  {
    Stored(write.revision, Encode(write.payload))
  }

  function LastStored(log: seq<Write>): (s: Option<Stored>)
  {
    if log == [] then None else Some(StoredOf(log[|log| - 1]))
  }

  /** The request was made for this execution and its computation is a proposal. */
  ghost predicate Authentic(program: Program, id: ExecutionId, request: HostCall)
  {
    && request.execution.executionId == id
    && ComputeRequest(program.workflow, request).Propose?
    && (ReplaysHistory(request.op) ==> Produces(program.prepared, ResolverOf(request.op)))
  }

  /** The write is its request's own proposal. */
  ghost predicate Faithful(program: Program, id: ExecutionId, write: Write)
  {
    && Authentic(program, id, write.request)
    && var c := ComputeRequest(program.workflow, write.request);
       c.payload == write.payload && c.acceptance == write.acceptance
  }

  /** Every accepted write was computed from exactly the checkpoint it replaced. */
  ghost predicate Chain(program: Program, id: ExecutionId, log: seq<Write>)
  {
    forall i :: 0 <= i < |log| ==> Faithful(program, id, log[i]) && log[i].request.loaded == LastStored(log[..i])
  }

  ghost predicate Increasing(log: seq<Write>)
  {
    forall i, j :: 0 <= i < j < |log| ==> log[i].revision < log[j].revision
  }

  /** A loaded checkpoint was once the stored one. */
  ghost predicate Seen(log: seq<Write>, loaded: Option<Stored>)
  {
    loaded.None? || exists j :: 0 <= j < |log| && loaded == Some(StoredOf(log[j]))
  }

  ghost predicate Invariant(program: Program, id: ExecutionId, s: System)
  {
    && s.stored == LastStored(s.log)
    && Chain(program, id, s.log)
    && Increasing(s.log)
    && (forall i :: 0 <= i < |s.log| ==> s.log[i].revision <= s.revisionCounter)
    && (forall i :: 0 <= i < |s.inflight| ==>
          Authentic(program, id, s.inflight[i]) && Seen(s.log, s.inflight[i].loaded))
    && (forall i :: 0 <= i < |s.permits| ==>
          && s.permits[i].index < |s.log|
          && s.log[s.permits[i].index].acceptance.AcceptExposure?
          && s.log[s.permits[i].index].acceptance.permit == s.permits[i].permit)
    && (forall i, j :: 0 <= i < j < |s.permits| ==> s.permits[i].index < s.permits[j].index)
  }

  lemma ProposalExpects(program: Program, id: ExecutionId, request: HostCall)
    requires Authentic(program, id, request)
    ensures ComputeRequest(program.workflow, request).expected == StoredRevision(request.loaded)
  {
    hide Compute;
    hide Produces;
    hide Start;
    hide InternalError;
    var steps := ComputeDerives(program, request.execution, request.op, request.loaded, request.host);
  }

  /** Tokens never repeat, so a proposal can only replace the very checkpoint it was computed from. */
  lemma NoLostUpdate(program: Program, id: ExecutionId, s: System, request: HostCall)
    requires Invariant(program, id, s)
    requires Authentic(program, id, request) && Seen(s.log, request.loaded)
    requires ComputeRequest(program.workflow, request).expected == StoredRevision(s.stored)
    ensures request.loaded == s.stored
  {
    hide ComputeRequest;
    hide Produces;
    hide Chain;
    ProposalExpects(program, id, request);
    if request.loaded.Some? {
      var j :| 0 <= j < |s.log| && request.loaded == Some(StoredOf(s.log[j]));
      assert j == |s.log| - 1;
    }
  }

  lemma SeenGrows(log: seq<Write>, write: Write, loaded: Option<Stored>)
    requires Seen(log, loaded)
    ensures Seen(log + [write], loaded)
  {
    if loaded.Some? {
      var j :| 0 <= j < |log| && loaded == Some(StoredOf(log[j]));
      assert (log + [write])[j] == log[j];
    }
  }

  lemma SeenLast(log: seq<Write>)
    ensures Seen(log, LastStored(log))
  {
    if log != [] { assert LastStored(log) == Some(StoredOf(log[|log| - 1])); }
  }

  lemma ChainGrows(program: Program, id: ExecutionId, log: seq<Write>, write: Write)
    requires Chain(program, id, log) && Faithful(program, id, write) && write.request.loaded == LastStored(log)
    ensures Chain(program, id, log + [write])
  {
    hide Faithful;
    var longer := log + [write];
    forall i | 0 <= i < |longer| ensures Faithful(program, id, longer[i]) && longer[i].request.loaded == LastStored(longer[..i]) {
      if i < |log| {
        assert longer[..i] == log[..i];
      } else {
        assert longer[..i] == log;
      }
    }
  }

  lemma AppliedKeeps(program: Program, id: ExecutionId, s: System, request: HostCall, acknowledged: bool)
    requires Invariant(program, id, s)
    requires Authentic(program, id, request) && Seen(s.log, request.loaded)
    requires ComputeRequest(program.workflow, request).expected == StoredRevision(s.stored)
    requires s.revisionCounter < U64_MAX
    ensures Invariant(program, id, Applied(program, s, request, acknowledged))
  {
    hide ComputeRequest;
    hide Produces;
    hide Chain;
    NoLostUpdate(program, id, s, request);
    var t := Applied(program, s, request, acknowledged);
    var write := t.log[|s.log|];
    ChainGrows(program, id, s.log, write);
    forall i | 0 <= i < |t.inflight| ensures Seen(t.log, t.inflight[i].loaded) {
      SeenGrows(s.log, write, s.inflight[i].loaded);
    }
  }

  /** Every event keeps the invariant. */
  lemma NextKeeps(program: Program, id: ExecutionId, s: System, event: Event, t: System)
    requires Invariant(program, id, s) && Next(program, id, s, event, t)
    ensures Invariant(program, id, t)
  {
    hide ComputeRequest;
    hide Produces;
    hide Chain;
    hide Applied;
    hide Seen;
    hide Increasing;
    match event
    case StartHost(_, _, _) =>
    case Crash(_) =>
    case Call(host, execution, op) => SeenLast(s.log);
    case Deliver(position, fate) =>
      var rest := s.(inflight := Without(s.inflight, position));
      if !fate.NotApplied? {
        AppliedKeeps(program, id, rest, s.inflight[position], fate.Acknowledged?);
      }
    case OtherExecutionWrites(_) =>
  }

  lemma InitiallyInvariant(program: Program, id: ExecutionId)
    ensures Invariant(program, id, Initially)
  {
  }

  lemma {:induction false} RunKeeps(program: Program, id: ExecutionId, states: seq<System>, events: seq<Event>, i: nat)
    requires Run(program, id, states, events) && i < |states|
    ensures Invariant(program, id, states[i])
  {
    hide Next;
    hide Invariant;
    if i == 0 {
      InitiallyInvariant(program, id);
    } else {
      RunKeeps(program, id, states, events, i - 1);
      NextKeeps(program, id, states[i - 1], events[i - 1], states[i]);
    }
  }

  lemma ReachableInvariant(program: Program, id: ExecutionId, s: System)
    requires Reachable(program, id, s)
    ensures Invariant(program, id, s)
  {
    hide Next;
    hide Invariant;
    var states, events :| Run(program, id, states, events) && states[|events|] == s;
    RunKeeps(program, id, states, events, |events|);
  }

  /** In every reachable state the store holds the last write of a chain. */
  lemma ReachableLog(program: Program, id: ExecutionId, s: System)
    requires Reachable(program, id, s)
    ensures s.stored == LastStored(s.log)
    ensures Chain(program, id, s.log)
  {
    hide Reachable;
    hide Chain;
    hide Authentic;
    ReachableInvariant(program, id, s);
  }

  /** In every reachable state each permit was issued for an exposing write of that chain, and each such write for one permit. */
  lemma ReachablePermits(program: Program, id: ExecutionId, s: System)
    requires Reachable(program, id, s)
    ensures Chain(program, id, s.log)
    ensures forall i :: 0 <= i < |s.permits| ==>
      && s.permits[i].index < |s.log|
      && s.log[s.permits[i].index].acceptance.AcceptExposure?
      && s.log[s.permits[i].index].acceptance.permit == s.permits[i].permit
    ensures forall i, j :: 0 <= i < j < |s.permits| ==> s.permits[i].index < s.permits[j].index
  {
    hide Reachable;
    hide Chain;
    hide Authentic;
    ReachableInvariant(program, id, s);
  }

  // ---------------------------------------------------------------- the trace of a log

  /** The moves of one accepted write. */
  ghost predicate StepsFor(program: Program, write: Write, steps: seq<Step>)
  {
    var c := ComputeRequest(program.workflow, write.request);
    && c.Propose?
    && Derived(program, write.request.execution, write.request.loaded, write.request.host.limits, c, steps)
    && AcceptedAlong(steps) == AcceptedBy(write.request.op, write.request.loaded)
  }

  lemma StepsExist(program: Program, id: ExecutionId, write: Write)
    requires Faithful(program, id, write)
    ensures exists steps :: StepsFor(program, write, steps)
  {
    hide Compute;
    hide Produces;
    hide Derived;
    var steps := ComputeDerives(program, write.request.execution, write.request.op, write.request.loaded, write.request.host);
    assert StepsFor(program, write, steps);
  }

  ghost function StepsOf(program: Program, id: ExecutionId, write: Write): (steps: seq<Step>)
    requires Faithful(program, id, write)
    ensures StepsFor(program, write, steps)
  {
    StepsExist(program, id, write);
    var steps :| StepsFor(program, write, steps);
    steps
  }

  /** All moves of a chain of accepted writes. */
  ghost function TraceOf(program: Program, id: ExecutionId, log: seq<Write>): (trace: seq<Step>)
    requires Chain(program, id, log)
  {
    hide Faithful;
    if log == [] then []
    else
      ChainPrefix(program, id, log);
      TraceOf(program, id, log[..|log| - 1]) + StepsOf(program, id, log[|log| - 1])
  }

  lemma ChainPrefix(program: Program, id: ExecutionId, log: seq<Write>)
    requires Chain(program, id, log) && log != []
    ensures Chain(program, id, log[..|log| - 1])
    ensures Faithful(program, id, log[|log| - 1])
    ensures log[|log| - 1].request.loaded == LastStored(log[..|log| - 1])
  {
    hide Faithful;
    var shorter := log[..|log| - 1];
    forall i | 0 <= i < |shorter| ensures Faithful(program, id, shorter[i]) && shorter[i].request.loaded == LastStored(shorter[..i]) {
      assert shorter[..i] == log[..i];
    }
  }

  /** The checkpoint the first accepted write started from. */
  function Origin(log: seq<Write>): (p: CheckpointPayload)
    requires log != []
  {
    Initial(log[0].request.execution, log[0].request.host.limits)
  }

  lemma StepsPath(program: Program, id: ExecutionId, write: Write)
    requires Faithful(program, id, write)
    ensures
      var start := Start(write.request.execution, StoredEnvelope(write.request.loaded), write.request.host.limits);
      start.Ok? && Path(program, start.value, StepsOf(program, id, write), write.payload)
    ensures Means(StepsOf(program, id, write), write.payload, write.acceptance, id)
    ensures AcceptedAlong(StepsOf(program, id, write)) == AcceptedBy(write.request.op, write.request.loaded)
  {
    hide Compute;
    hide Produces;
    hide Start;
    hide ValidStep;
    hide Means;
    hide InternalError;
    assert StepsFor(program, write, StepsOf(program, id, write));
  }

  /** The accepted writes of a run form one trace, from a fresh checkpoint to the stored one. */
  lemma {:induction false} LogIsTrace(program: Program, id: ExecutionId, log: seq<Write>)
    requires Chain(program, id, log) && log != []
    ensures Trace(program, Origin(log), TraceOf(program, id, log), log[|log| - 1].payload)
  {
    hide Faithful;
    hide Start;
    hide InternalError;
    hide Path;
    hide Means;
    ChainPrefix(program, id, log);
    var n := |log| - 1;
    var write := log[n];
    StepsPath(program, id, write);
    if n == 0 {
      assert TraceOf(program, id, log[..n]) == [];
      assert TraceOf(program, id, log) == StepsOf(program, id, write);
    } else {
      var shorter := log[..n];
      LogIsTrace(program, id, shorter);
      assert Origin(shorter) == Origin(log);
      PathJoin(program, Origin(log), TraceOf(program, id, shorter), shorter[n - 1].payload, StepsOf(program, id, write), write.payload);
    }
  }
}
