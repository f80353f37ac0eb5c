/** Attempt identities are never used twice: every exposure takes the host's next number, and epochs name one host each. */
module AttemptIds {
  import opened Base
  import opened Identity
  import opened Records
  import opened Checkpoint
  import opened Replay
  import opened Store
  import opened Host
  import opened Steps
  import opened Runs

  // ---------------------------------------------------------------- one call

  /** The counter never falls, and an exposure uses up exactly the number it had. */
  predicate Counts(c: Computed, host: HostState)
  {
    && (c.Finished? ==> c.counter >= host.counter)
    && (c.Propose? ==> c.counter >= host.counter)
    && (c.Propose? && c.acceptance.AcceptExposure? ==>
          && c.acceptance.permit.attemptId == AttemptId(host.epoch, host.counter)
          && c.counter == host.counter + 1)
  }

  lemma ExposureCounts(execution: ExecutionSpec, expected: Option<Revision>, candidate: Envelope, activity: LogicalActivityId,
                       boundary: Boundary, host: HostState)
    ensures Counts(PrepareExposure(execution, expected, candidate, activity, boundary, host), host)
  {
    hide DecodeAndValidate;
    hide EncodeWithLimits;
    hide MaximumActivityCompletedLen;
    hide ExposeAttempt;
  }

  lemma CompletionCounts(expected: Option<Revision>, execution: ExecutionSpec, outcome: TerminalOutcome, count: u64, active: Envelope,
                         boundary: Boundary, host: HostState)
    ensures Counts(CommitCompletion(expected, execution, outcome, count, active, boundary, host), host)
  {
    hide IntoTerminal;
    hide DecodeAndValidate;
    hide EncodeWithLimits;
  }

  lemma TurnCounts(workflow: Workflow, execution: ExecutionSpec, loaded: Option<Stored>, host: HostState)
    ensures Counts(Turn(workflow, execution, loaded, host), host)
  {
    hide StoredAnswer;
    hide Evaluate;
    hide PrepareExposure;
    hide CommitCompletion;
    hide DecodeAndValidate;
    hide Encode;
    var evaluation := Evaluate(workflow, execution, StoredEnvelope(loaded), host.limits, IdentityResolver);
    if evaluation.EvaluatedPending? && loaded.Some? {
      ExposureCounts(execution, StoredRevision(loaded), loaded.value.checkpoint, evaluation.activity, AtExposure, host);
    }
    if evaluation.EvaluatedComplete? {
      CompletionCounts(StoredRevision(loaded), execution, evaluation.outcome, evaluation.count, Encode(evaluation.payload), AtCompletion, host);
    }
  }

  lemma TurnAndExposeCounts(workflow: Workflow, execution: ExecutionSpec, resolver: ExposureResolver, now: Option<i64>,
                            loaded: Option<Stored>, host: HostState)
    ensures Counts(TurnAndExpose(workflow, execution, resolver, now, loaded, host), host)
  {
    hide StoredAnswer;
    hide GatedWait;
    hide Evaluate;
    hide PrepareExposure;
    hide CommitCompletion;
    hide DecodeAndValidate;
    hide Encode;
    var evaluation := Evaluate(workflow, execution, StoredEnvelope(loaded), host.limits, ToResolver(resolver));
    if evaluation.EvaluatedScheduled? {
      ExposureCounts(execution, StoredRevision(loaded), Encode(evaluation.payload), LogicalId(evaluation.record, execution.executionId),
                     AtScheduleExposure, host);
    }
    if evaluation.EvaluatedPending? && loaded.Some? {
      ExposureCounts(execution, StoredRevision(loaded), loaded.value.checkpoint, evaluation.activity, AtScheduleExposure, host);
    }
    if evaluation.EvaluatedComplete? {
      CompletionCounts(StoredRevision(loaded), execution, evaluation.outcome, evaluation.count, Encode(evaluation.payload), AtCompletion, host);
    }
  }

  lemma ObserveAndTurnCounts(workflow: Workflow, execution: ExecutionSpec, activity: LogicalActivityId, result: Bytes,
                             resolver: ActivityResolver, loaded: Option<Stored>, host: HostState)
    ensures Counts(ObserveAndTurn(workflow, execution, activity, result, resolver, loaded, host), host)
  {
    hide Locate;
    hide Evaluate;
    hide PrepareExposure;
    hide CommitCompletion;
    hide DecodeAndValidate;
    hide EncodeWithLimits;
    hide Encode;
    var located := Locate(execution, activity, loaded, host.limits);
    if located.Ok? {
      var completed := WithLast(located.value.payload, WithState(located.value.record, Completed(result)));
      var evaluation := Evaluate(workflow, execution, Some(Encode(completed)), host.limits, Resolver(resolver, None));
      if evaluation.EvaluatedScheduled? {
        ExposureCounts(execution, Some(located.value.revision), Encode(evaluation.payload),
                       LogicalId(evaluation.record, execution.executionId), AtObservationProgression, host);
      }
      if evaluation.EvaluatedComplete? {
        CompletionCounts(Some(located.value.revision), execution, evaluation.outcome, evaluation.count, Encode(evaluation.payload),
                         AtObservationProgression, host);
      }
    }
  }

  lemma ObservationCounts(execution: ExecutionSpec, op: Op, loaded: Option<Stored>, host: HostState)
    requires !op.OpTurn? && !op.OpTurnAndExpose? && !op.OpObserveAndTurn?
    ensures forall workflow :: Counts(Compute(workflow, execution, op, loaded, host), host)
  {
    hide Locate;
    hide EncodeWithLimits;
    hide DecodeAndValidate;
    hide RetryNotBefore;
    hide ObserveEffectAttempt;
  }

  /** Every operation of a host. */
  lemma ComputeCounts(workflow: Workflow, execution: ExecutionSpec, op: Op, loaded: Option<Stored>, host: HostState)
    ensures Counts(Compute(workflow, execution, op, loaded, host), host)
  {
    hide Turn;
    hide TurnAndExpose;
    hide ObserveAndTurn;
    hide Counts;
    match op
    case OpTurn => TurnCounts(workflow, execution, loaded, host);
    case OpTurnAndExpose(resolver, now) => TurnAndExposeCounts(workflow, execution, resolver, now, loaded, host);
    case OpObserveAndTurn(activity, result, activities) => ObserveAndTurnCounts(workflow, execution, activity, result, activities, loaded, host);
    case OpObserve(_, _) => ObservationCounts(execution, op, loaded, host);
    case OpRetry(_, _) => ObservationCounts(execution, op, loaded, host);
    case OpFailure(_, _) => ObservationCounts(execution, op, loaded, host);
    case OpWait(_, _) => ObservationCounts(execution, op, loaded, host);
    case OpEffect(_, _) => ObservationCounts(execution, op, loaded, host);
  }

  // ---------------------------------------------------------------- whole runs

  /** No epoch is given to two hosts, nor to one host again after a restart. */
  ghost predicate EpochsUnique(events: seq<Event>)
  {
    forall i, j :: 0 <= i < j < |events| && events[i].StartHost? && events[j].StartHost? ==> events[i].epoch != events[j].epoch
  }

  ghost function Started(events: seq<Event>): (e: set<HostEpoch>)
  {
    set i | 0 <= i < |events| && events[i].StartHost? :: events[i].epoch
  }

  ghost predicate Exposes(program: Program, request: HostCall)
  {
    var c := ComputeRequest(program.workflow, request);
    c.Propose? && c.acceptance.AcceptExposure?
  }

  function NumberOf(request: HostCall): (a: AttemptId)
  {
    AttemptId(request.host.epoch, request.host.counter)
  }

  /** A request that is outstanding or was accepted. */
  ghost predicate Made(s: System, request: HostCall)
  {
    request in s.inflight || exists i :: 0 <= i < |s.log| && s.log[i].request == request
  }

  /** Requests come from started epochs, and every live host's counter is past all exposures under its epoch. */
  ghost predicate Fresh(program: Program, s: System, started: set<HostEpoch>)
  {
    && (forall h :: h in s.hosts ==> s.hosts[h].epoch in started)
    && (forall h, k :: h in s.hosts && k in s.hosts && h != k ==> s.hosts[h].epoch != s.hosts[k].epoch)
    && (forall r :: Made(s, r) ==> r.host.epoch in started)
    && (forall r, h :: Made(s, r) && h in s.hosts && Exposes(program, r) && r.host.epoch == s.hosts[h].epoch ==>
          r.host.counter < s.hosts[h].counter)
  }

  /** No two exposures, outstanding or accepted, share an attempt identity. */
  ghost predicate Distinct(program: Program, s: System)
  {
    && (forall i, j :: 0 <= i < j < |s.inflight| && Exposes(program, s.inflight[i]) && Exposes(program, s.inflight[j]) ==>
          NumberOf(s.inflight[i]) != NumberOf(s.inflight[j]))
    && (forall i, j :: 0 <= i < j < |s.log| && Exposes(program, s.log[i].request) && Exposes(program, s.log[j].request) ==>
          NumberOf(s.log[i].request) != NumberOf(s.log[j].request))
    && (forall i, j :: 0 <= i < |s.inflight| && 0 <= j < |s.log| && Exposes(program, s.inflight[i]) && Exposes(program, s.log[j].request) ==>
          NumberOf(s.inflight[i]) != NumberOf(s.log[j].request))
  }

  lemma WithoutAt(requests: seq<HostCall>, position: nat, k: nat) returns (j: nat)
    requires position < |requests| && k < |Without(requests, position)|
    ensures j == (if k < position then k else k + 1)
    ensures j < |requests| && j != position && Without(requests, position)[k] == requests[j]
  {
    j := if k < position then k else k + 1;
  }

  lemma MadeFewer(s: System, t: System, position: nat, r: HostCall)
    requires position < |s.inflight| && t.inflight == Without(s.inflight, position)
    requires t.log == s.log || (|t.log| == |s.log| + 1 && t.log[..|s.log|] == s.log && t.log[|s.log|].request == s.inflight[position])
    requires Made(t, r)
    ensures Made(s, r)
  {
    if r in t.inflight {
      var k :| 0 <= k < |t.inflight| && t.inflight[k] == r;
      var j := WithoutAt(s.inflight, position, k);
      assert s.inflight[j] in s.inflight;
    } else {
      var i :| 0 <= i < |t.log| && t.log[i].request == r;
      if i < |s.log| { assert s.log[i] == t.log[..|s.log|][i]; } else { assert s.inflight[position] in s.inflight; }
    }
  }

  lemma DeliverFresh(program: Program, s: System, t: System, position: nat, started: set<HostEpoch>)
    requires Fresh(program, s, started) && position < |s.inflight| && t.inflight == Without(s.inflight, position) && t.hosts == s.hosts
    requires t.log == s.log || (|t.log| == |s.log| + 1 && t.log[..|s.log|] == s.log && t.log[|s.log|].request == s.inflight[position])
    ensures Fresh(program, t, started)
  {
    hide Exposes;
    hide Made;
    forall r | Made(t, r) ensures Made(s, r) { MadeFewer(s, t, position, r); }
  }

  lemma DeliverDistinct(program: Program, s: System, t: System, position: nat)
    requires Distinct(program, s) && position < |s.inflight| && t.inflight == Without(s.inflight, position)
    requires t.log == s.log || (|t.log| == |s.log| + 1 && t.log[..|s.log|] == s.log && t.log[|s.log|].request == s.inflight[position])
    ensures Distinct(program, t)
  {
    hide Exposes;
    forall k | 0 <= k < |t.inflight| ensures t.inflight[k] == s.inflight[if k < position then k else k + 1] {
      var j := WithoutAt(s.inflight, position, k);
    }
    forall i | 0 <= i < |s.log| ensures t.log[i] == s.log[i] {
      assert t.log[..|s.log|][i] == t.log[i];
    }
  }

  /** What a call leaves behind: the host at its new counter, or gone, and at most its own request outstanding. */
  ghost predicate Called(program: Program, s: System, h: nat, request: HostCall, t: System)
    requires h in s.hosts
  {
    var c := ComputeRequest(program.workflow, request);
    && t.log == s.log
    && t.inflight == (if c.Propose? then s.inflight + [request] else s.inflight)
    && (forall k :: k in t.hosts ==> k in s.hosts && (k != h ==> t.hosts[k] == s.hosts[k]))
    && (h in t.hosts ==> t.hosts[h].epoch == s.hosts[h].epoch && t.hosts[h].counter >= s.hosts[h].counter)
    && (h in t.hosts && Exposes(program, request) ==> t.hosts[h].counter > s.hosts[h].counter)
  }

  lemma CallIsCalled(program: Program, s: System, h: nat, request: HostCall)
    requires h in s.hosts && request.host == s.hosts[h]
    ensures Called(program, s, h, request, AfterCall(program, s, h, request))
  {
    hide Compute;
    ComputeCounts(program.workflow, request.execution, request.op, request.loaded, request.host);
  }

  lemma CalledFresh(program: Program, s: System, h: nat, request: HostCall, t: System, started: set<HostEpoch>)
    requires h in s.hosts && request.host == s.hosts[h] && Called(program, s, h, request, t) && Fresh(program, s, started)
    ensures Fresh(program, t, started)
  {
    hide ComputeRequest;
    hide Exposes;
    hide Made;
    forall r | Made(t, r) ensures Made(s, r) || r == request { CalledMade(program, s, h, request, t, r); }
    forall r, k | Made(t, r) && k in t.hosts && Exposes(program, r) && r.host.epoch == t.hosts[k].epoch
      ensures r.host.counter < t.hosts[k].counter
    {
      assert t.hosts[k].epoch == s.hosts[k].epoch;
      if !Made(s, r) { assert k == h; }
    }
  }

  lemma CalledMade(program: Program, s: System, h: nat, request: HostCall, t: System, r: HostCall)
    requires h in s.hosts && Called(program, s, h, request, t) && Made(t, r)
    ensures Made(s, r) || r == request
  {
    hide ComputeRequest;
    hide Exposes;
  }

  lemma CalledDistinct(program: Program, s: System, h: nat, request: HostCall, t: System, started: set<HostEpoch>)
    requires h in s.hosts && request.host == s.hosts[h] && Called(program, s, h, request, t)
    requires Fresh(program, s, started) && Distinct(program, s)
    ensures Distinct(program, t)
  {
    hide ComputeRequest;
    hide Exposes;
    if t.inflight != s.inflight {
      forall i | 0 <= i < |s.inflight| && Exposes(program, s.inflight[i]) ensures NumberOf(s.inflight[i]) != NumberOf(request) {
        assert Made(s, s.inflight[i]);
      }
      forall i | 0 <= i < |s.log| && Exposes(program, s.log[i].request) ensures NumberOf(s.log[i].request) != NumberOf(request) {
        assert Made(s, s.log[i].request);
      }
    }
  }

  lemma CallKeeps(program: Program, s: System, h: nat, request: HostCall, started: set<HostEpoch>)
    requires h in s.hosts && request.host == s.hosts[h] && Fresh(program, s, started) && Distinct(program, s)
    ensures Fresh(program, AfterCall(program, s, h, request), started) && Distinct(program, AfterCall(program, s, h, request))
  {
    hide AfterCall;
    hide Called;
    hide Fresh;
    hide Distinct;
    var t := AfterCall(program, s, h, request);
    CallIsCalled(program, s, h, request);
    CalledFresh(program, s, h, request, t, started);
    CalledDistinct(program, s, h, request, t, started);
  }

  lemma EventKeeps(program: Program, id: ExecutionId, s: System, event: Event, t: System, started: set<HostEpoch>)
    requires Next(program, id, s, event, t) && Fresh(program, s, started) && Distinct(program, s)
    requires event.StartHost? ==> event.epoch !in started
    ensures Fresh(program, t, if event.StartHost? then started + {event.epoch} else started) && Distinct(program, t)
  {
    hide ComputeRequest;
    hide Exposes;
    match event
    case StartHost(host, epoch, limits) => assert forall r :: Made(t, r) <==> Made(s, r);
    case Crash(host) => assert forall r :: Made(t, r) <==> Made(s, r);
    case Call(host, execution, op) =>
      hide Fresh;
      hide Distinct;
      CallKeeps(program, s, host, HostCall(execution, op, s.stored, s.hosts[host]), started);
    case Deliver(position, fate) =>
      hide Fresh;
      hide Distinct;
      DeliverFresh(program, s, t, position, started);
      DeliverDistinct(program, s, t, position);
    case OtherExecutionWrites(_) => assert forall r :: Made(t, r) <==> Made(s, r);
  }

  lemma StartedGrows(events: seq<Event>, i: nat)
    requires 0 < i <= |events|
    ensures Started(events[..i])
      == if events[i - 1].StartHost? then Started(events[..i - 1]) + {events[i - 1].epoch} else Started(events[..i - 1])
  {
    forall e | e in Started(events[..i - 1]) ensures e in Started(events[..i]) {
      var k :| 0 <= k < i - 1 && events[..i - 1][k].StartHost? && events[..i - 1][k].epoch == e;
      assert events[..i][k] == events[..i - 1][k];
    }
    assert events[..i][i - 1] == events[i - 1];
  }

  lemma {:induction false} RunDistinct(program: Program, id: ExecutionId, states: seq<System>, events: seq<Event>, i: nat)
    requires Run(program, id, states, events) && EpochsUnique(events) && i <= |events|
    ensures Fresh(program, states[i], Started(events[..i])) && Distinct(program, states[i])
  {
    hide Next;
    hide Fresh;
    hide Distinct;
    if i == 0 {
      NothingMade(program, Started(events[..0]));
    } else {
      RunDistinct(program, id, states, events, i - 1);
      StartedGrows(events, i);
      EventKeeps(program, id, states[i - 1], events[i - 1], states[i], Started(events[..i - 1]));
    }
  }

  lemma NothingMade(program: Program, started: set<HostEpoch>)
    ensures Fresh(program, Initially, started) && Distinct(program, Initially)
  {
  }

  /** In every run whose host epochs are unique, no attempt identity is ever accepted for two exposures. */
  lemma AttemptsNeverReused(program: Program, id: ExecutionId, states: seq<System>, events: seq<Event>, a: nat, b: nat)
    requires Run(program, id, states, events) && EpochsUnique(events)
    requires
      var log := states[|events|].log;
      a < b < |log| && log[a].acceptance.AcceptExposure? && log[b].acceptance.AcceptExposure?
    ensures states[|events|].log[a].acceptance.permit.attemptId != states[|events|].log[b].acceptance.permit.attemptId
  {
    hide Compute;
    hide Next;
    hide Fresh;
    var s := states[|events|];
    RunDistinct(program, id, states, events, |events|);
    RunKeeps(program, id, states, events, |events|);
    forall i | 0 <= i < |s.log| && s.log[i].acceptance.AcceptExposure?
      ensures Exposes(program, s.log[i].request) && s.log[i].acceptance.permit.attemptId == NumberOf(s.log[i].request)
    {
      var r := s.log[i].request;
      assert Faithful(program, id, s.log[i]);
      ComputeCounts(program.workflow, r.execution, r.op, r.loaded, r.host);
    }
  }
}
