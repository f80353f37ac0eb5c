/** Planned switchover in `kuberic-controller/src/evaluator.rs`: admission, execution, recovery and safety closure. */
module SwitchoverPlan {
  import opened Base
  import opened ControlTypes
  import opened Election
  import opened Evidence

  // ---------------------------------------------------------------- request projection

  predicate Blank(text: string)
  {
    forall i :: 0 <= i < |text| ==> text[i] in {' ', '\t', '\n', '\r'}
  }

  /** First member with this logical replica. */
  function MemberOf(configuration: Configuration, replicaId: i64): (m: Option<Member>)
    ensures m.Some? ==> m.value in configuration.members && m.value.identity.replicaId == replicaId
  {
    var i := FirstWhere(configuration.members, (m: Member) => m.identity.replicaId == replicaId, 0);
    if i < |configuration.members| then Some(configuration.members[i]) else None
  }

  predicate TargetIdle(s: Snapshot, target: Member, current: Configuration)
  {
    var report := HealthyReport(s, target.identity);
    && report.Some?
    && StableMember(report.value, target, current)
    && report.value.access != Granted
    && report.value.prepared.None?
  }

  function RequestRejection(s: Snapshot, status: Status): (r: Option<Rejection>)
  {
    var transition := s.status.transition;
    if transition.Some? && transition.value.switchover.Some? then
      var intent := transition.value.switchover.value;
      if s.request == Some(SwitchoverRequest(intent.requestId, intent.target.replicaId)) then None else Some(ActiveRequestImmutable)
    else if s.request.None? then None
    else
      var request := s.request.value;
      if Blank(request.requestId) || request.targetReplicaId <= 0 then Some(MalformedRequest)
      else if status.lastSwitchover.Some? && status.lastSwitchover.value.requestId == request.requestId then
        if status.lastSwitchover.value.targetReplicaId == request.targetReplicaId then None else Some(RequestIdReused)
      else if status.topology.None? then None
      else
        var current := status.topology.value;
        var target := MemberOf(current, request.targetReplicaId);
        if request.targetReplicaId == current.primaryId then Some(TargetAlreadyPrimary)
        else if target.None? then Some(TargetNotMember)
        else if target.value.role != ActiveSecondary || !TargetIdle(s, target.value, current) then Some(TargetNotEligible)
        else None
  }

  function ProjectRequest(s: Snapshot, status: Status): (t: Status)
    ensures t == status.(rejection := t.rejection)
  {
    status.(rejection := RequestRejection(s, status))
  }

  // ---------------------------------------------------------------- admission

  predicate Attested(s: Snapshot, configuration: Configuration, member: Member)
  {
    var report := HealthyReport(s, member.identity);
    report.Some? && StableMember(report.value, member, configuration) && report.value.prepared.None?
  }

  function Requested(previous: Configuration, source: Identity, target: Identity): (c: Configuration)
    ensures c.epoch == Epoch(previous.epoch.dataLoss, NextNumber(previous.epoch.number)) && c.primaryId == target.replicaId
  {
    Configuration(
      Epoch(previous.epoch.dataLoss, NextNumber(previous.epoch.number)), target.replicaId,
      seq(|previous.members|, i requires 0 <= i < |previous.members| =>
        Member(previous.members[i].identity,
               if previous.members[i].identity == target then Primary
               else if previous.members[i].identity == source then ActiveSecondary
               else previous.members[i].role)),
      previous.writeQuorum)
  }

  /** The frozen switchover a request is admitted as. */
  function Admitted(s: Snapshot, status: Status, previous: Configuration, source: Identity, target: Identity): (t: Transition)
    requires s.request.Some? && status.policy.Some?
  {
    var current := Requested(previous, source, target);
    Transition(TransitionId(Switchover, current, None), Switchover, s.desiredGeneration, status.policy.value, Some(previous), current,
               None, None, None,
               Some(Intent(s.desiredGeneration, s.request.value.requestId, source, target, current, RequestedTarget, None)))
  }

  function BeginSwitchover(s: Snapshot, status: Status): (p: Option<Plan>)
    requires status.topology.Some? && status.policy.Some? && HasPrimary(status.topology.value)
  {
    if s.request.None? || status.rejection.Some? || status.primaryFailure.Some? || status.quorumLoss.Some? then None
    else if status.lastSwitchover.Some? && status.lastSwitchover.value.requestId == s.request.value.requestId then None
    else
      var previous := status.topology.value;
      if exists i :: 0 <= i < |previous.members| && !Attested(s, previous, previous.members[i]) then Some(PlanWait(status))
      else if previous.epoch.number == I64_MAX then Some(PlanStable(status.(rejection := Some(ConfigurationEpochExhausted))))
      else
        var target := MemberOf(previous, s.request.value.targetReplicaId);
        if target.None? then None
        else
          var source := PrimaryOf(previous).identity;
          Some(PlanApply([Persist(status.(transition := Some(Admitted(s, status, previous, source, target.value.identity))))]))
  }

  // ---------------------------------------------------------------- safety closure

  predicate ValidAlone(configuration: Configuration)
  {
    |configuration.members| <= U32_MAX &&
    var policy := FixedPolicy(|configuration.members|, 0);
    policy.Some? && ValidConfiguration(configuration, policy.value)
  }

  predicate HasPod(entry: Entry)
  {
    entry.observation.kubernetes.Some? && entry.observation.kubernetes.value.podUid.Some?
  }

  predicate FreshReport(s: Snapshot, key: Key, report: Report)
  {
    key !in s.watermarks || s.watermarks[key].session != report.session || report.sequence > s.watermarks[key].sequence
  }

  /** The Pod's own valid and fresh report of authority at or beyond the starting epoch. */
  predicate ProvenReport(s: Snapshot, entry: Entry)
  {
    && HasPod(entry)
    && entry.observation.agent.AgentReported?
    && var report := entry.observation.agent.report;
       && report.protocolVersion == s.supportedVersion
       && report.ownResource
       && Some(report.identity.instanceId) == entry.observation.kubernetes.value.podUid
       && report.identity.replicaId == entry.key.replicaId
       && report.session != ""
       && report.internallyValid
       && (report.previous.Some? ==> ValidAlone(report.previous.value))
       && FreshReport(s, entry.key, report)
       && report.current.Some?
       && ValidAlone(report.current.value)
       && report.epoch == report.current.value.epoch
       && s.status.topology.Some? && !EpochBelow(report.current.value.epoch, s.status.topology.value.epoch)
       && HasIdentity(report.current.value, report.identity)
  }

  /** A Pod that is proven unable to write. */
  predicate Closed(s: Snapshot, entry: Entry)
  {
    ProvenReport(s, entry) && entry.observation.agent.report.access != Granted && entry.observation.agent.report.pending.None?
  }

  /** First entry with a Pod that is not proven closed, or the length. */
  function FirstOpen(s: Snapshot, from: nat): (i: nat)
    requires from <= |s.replicas|
    ensures from <= i <= |s.replicas|
    ensures i < |s.replicas| ==> HasPod(s.replicas[i]) && !Closed(s, s.replicas[i])
    ensures forall k :: from <= k < i ==> HasPod(s.replicas[k]) ==> Closed(s, s.replicas[k])
    decreases |s.replicas| - from
  {
    if from == |s.replicas| then from
    else if HasPod(s.replicas[from]) && !Closed(s, s.replicas[from]) then from
    else FirstOpen(s, from + 1)
  }

  /** What is done about a Pod that may still write: fence the idle starting primary, delete any other. */
  function CloseEntry(s: Snapshot, transition: Transition, entry: Entry): (p: Plan)
    requires HasPod(entry)
  {
    var starting := s.status.topology;
    if && ProvenReport(s, entry) && starting.Some? && HasPrimary(starting.value) && s.status.policy.Some?
       && entry.observation.agent.report.current == starting
       && entry.observation.agent.report.previous.None?
       && entry.observation.agent.report.pending.None?
       && entry.observation.agent.report.role == Primary
       && entry.observation.agent.report.identity == PrimaryOf(starting.value).identity
    then PlanExecute(Ensure(PlainCommand(starting.value, PrimaryOf(starting.value).identity, s.status.policy.value,
                                         OnTransition("unsafe-close", transition, None), ReconfigurationPending)))
    else PlanApply([DeleteExactPod(entry.observation.kubernetes.value.podName, entry.observation.kubernetes.value.podUid.value)])
  }

  function UnsafeReceipt(intent: Intent): (r: Receipt)
  {
    Receipt(intent.requestId, intent.target.replicaId, Some(intent.target), None, OutcomeUnsafe)
  }

  function WithResolution(status: Status, transition: Transition, intent: Intent, resolution: Resolution): (t: Status)
  {
    status.(transition := Some(transition.(switchover := Some(intent.(resolution := resolution)))))
  }

  function SwitchoverUnsafe(s: Snapshot): (p: Plan)
  {
    if s.status.transition.None? || s.status.transition.value.switchover.None? then PlanUnsafe(s.status)
    else
      var transition := s.status.transition.value;
      var intent := transition.switchover.value;
      if intent.resolution != Unresolvable then
        PlanApply([RemoveRouting, Persist(WithResolution(s.status, transition, intent, Unresolvable))])
      else if RoutingPresent(s) then PlanApply([RemoveRouting])
      else if s.observationFailed then PlanWait(s.status)
      else
        var i := FirstOpen(s, 0);
        if i < |s.replicas| then CloseEntry(s, transition, s.replicas[i])
        else PlanUnsafe(s.status.(lastSwitchover := Some(UnsafeReceipt(intent))))
  }

  /** The closing scan with its early return. */
  method ScanForOpenPod(s: Snapshot) returns (i: nat)
    ensures i == FirstOpen(s, 0)
  {
    i := 0;
    while i < |s.replicas|
      invariant 0 <= i <= |s.replicas|
      invariant FirstOpen(s, 0) == FirstOpen(s, i)
    {
      if HasPod(s.replicas[i]) && !Closed(s, s.replicas[i]) { return; }
      i := i + 1;
    }
  }

  // ---------------------------------------------------------------- recovery

  function PreparationId(intent: Intent, starting: Configuration): (o: OperationId)
  {
    OperationId("prepare", OfPreparation(intent.requestId, intent.generation, starting, intent.source, intent.target), None)
  }

  /** The certificate is the one this frozen operation asked for. */
  predicate HandoffMatches(handoff: Handoff, intent: Intent, starting: Configuration)
  {
    && handoff.operationId == PreparationId(intent, starting)
    && handoff.generation == intent.generation
    && handoff.requestId == intent.requestId
    && handoff.source == intent.source
    && handoff.target == intent.target
    && handoff.starting == starting
    && handoff.startingEpoch == starting.epoch
  }

  function MemberOperation(id: TransitionId, member: Member, currentOnly: bool): (o: OperationId)
  {
    OperationId(if currentOnly then "current-only" else "pc-cc", OfTransition(id), Some(member.identity))
  }

  /** The member finished its part of the switchover, write-closed and with nothing pending. */
  predicate MemberComplete(report: Report, id: TransitionId, current: Configuration, member: Member, previous: Configuration, currentOnly: bool)
  {
    && report.identity == member.identity
    && report.role == member.role
    && report.epoch == current.epoch
    && report.current == Some(current)
    && report.previous == (if currentOnly then None else Some(previous))
    && report.access != Granted
    && report.pending.None?
    && report.retained == Some(MemberOperation(id, member, currentOnly))
    && (currentOnly ==> report.prepared.None?)
  }

  function SourceMember(configuration: Configuration, source: Identity): (m: Option<Member>)
  {
    var i := IndexOf(configuration.members, source);
    if i < |configuration.members| then Some(configuration.members[i]) else None
  }

  predicate SourceComplete(report: Report, id: TransitionId, current: Configuration, source: Identity, previous: Configuration)
  {
    var member := SourceMember(current, source);
    member.Some? && MemberComplete(report, id, current, member.value, previous, true)
  }

  /** Some extant report shows authority at or beyond the requested epoch. */
  predicate AuthorityAdmitted(s: Snapshot, starting: Configuration, intent: Intent)
  {
    exists i :: 0 <= i < |starting.members| &&
      var report := ExactReport(s, starting.members[i].identity);
      report.Some? && !EpochBelow(report.value.epoch, intent.requested.epoch)
  }

  predicate StartingEvidence(s: Snapshot, starting: Configuration, intent: Intent, member: Member)
  {
    || PodAbsent(s, member.identity)
    || (var report := ExactReport(s, member.identity);
        && report.Some? && StableMember(report.value, member, starting)
        && (member.identity == intent.source || report.value.access != Granted))
  }

  function RestoreCommand(transition: Transition, intent: Intent, starting: Configuration, handoff: Option<Handoff>): (c: EnsureConfiguration)
    requires HasPrimary(starting)
  {
    PlainCommand(starting, PrimaryOf(starting).identity, transition.policy, OnTransition("restore", transition, None), ReconfigurationPending)
    .(kind := Switchover, handoff := handoff,
      retirePreparations := [if handoff.Some? then handoff.value.operationId else PreparationId(intent, starting)])
  }

  /** Recovery before any member admitted the requested epoch: retire the preparation and return to the source. */
  function RestoreOldPrimary(s: Snapshot, transition: Transition, intent: Intent, starting: Configuration, source: Report): (p: Plan)
    requires HasPrimary(starting)
  {
    if exists i :: 0 <= i < |starting.members| && !StartingEvidence(s, starting, intent, starting.members[i]) then PlanWait(s.status)
    else if intent.resolution != RestoringOldPrimary then
      PlanApply([Persist(WithResolution(s.status, transition, intent, RestoringOldPrimary))])
    else if source.prepared.Some? then
      var handoff := source.prepared.value;
      if !HandoffMatches(handoff, intent, starting) || (intent.handoff.Some? && intent.handoff.value != handoff) || source.access == Granted
      then SwitchoverUnsafe(s)
      else PlanExecute(Ensure(RestoreCommand(transition, intent, starting, Some(handoff))))
    else if source.retained != Some(OnTransition("restore", transition, None)) then
      if intent.handoff.Some? then PlanWait(s.status)
      else PlanExecute(Ensure(RestoreCommand(transition, intent, starting, None)))
    else
      PlanApply([Persist(s.status.(
        transition := None,
        observedGeneration := transition.specGeneration,
        lastSwitchover := Some(Receipt(intent.requestId, intent.target.replicaId, Some(intent.target), Some(intent.source), OldPrimaryRestored))))])
  }

  function CompensationConfiguration(intent: Intent, starting: Configuration): (c: Configuration)
    ensures c.epoch == Epoch(starting.epoch.dataLoss, NextNumber(intent.requested.epoch.number))
    ensures c.primaryId == intent.source.replicaId
  {
    Configuration(Epoch(starting.epoch.dataLoss, NextNumber(intent.requested.epoch.number)), intent.source.replicaId,
                  starting.members, starting.writeQuorum)
  }

  function CompensationReports(s: Snapshot, starting: Configuration, intent: Intent): (r: seq<Report>)
  {
    Filter(AvailableReports(s, starting.members),
           (r: Report) => r.access != Granted && (r.current == Some(starting) || r.current == Some(intent.requested)))
  }

  /** Recovery after the requested epoch was admitted: a strictly newer epoch returns authority to the source. */
  function Compensate(s: Snapshot, transition: Transition, intent: Intent, starting: Configuration, source: Report): (p: Plan)
  {
    if intent.handoff.None? then SwitchoverUnsafe(s)
    else
      var handoff := intent.handoff.value;
      if source.prepared != Some(handoff)
         && !SourceComplete(source, transition.id, transition.current, intent.source, starting) then SwitchoverUnsafe(s)
      else if source.access == Granted || source.progress < handoff.lsn then SwitchoverUnsafe(s)
      else if Survivors(s, starting.members) < transition.policy.writeQuorum then SwitchoverUnsafe(s)
      else if !ReadQuorum(starting, CompensationReports(s, starting, intent), transition.policy.readQuorum) then
        if Survivors(s, starting.members) < transition.policy.readQuorum then SwitchoverUnsafe(s) else PlanWait(s.status)
      else if intent.requested.epoch.number == I64_MAX then SwitchoverUnsafe(s)
      else
        var current := CompensationConfiguration(intent, starting);
        PlanApply([Persist(s.status.(transition := Some(transition.(
          id := TransitionId(Switchover, current, None),
          current := current,
          switchover := Some(intent.(resolution := CompensatingOldPrimary))))))])
  }

  function RecoverSwitchover(s: Snapshot, transition: Transition, intent: Intent, starting: Configuration): (p: Option<Plan>)
    requires HasPrimary(starting)
  {
    var source := HealthyReport(s, intent.source);
    if DefinitivelyLost(s, intent.source) then Some(SwitchoverUnsafe(s))
    else if intent.resolution == CompensatingOldPrimary then
      if Survivors(s, starting.members) < transition.policy.writeQuorum then Some(SwitchoverUnsafe(s))
      else if Survivors(s, starting.members) < transition.policy.readQuorum then Some(SwitchoverUnsafe(s))
      else if source.Some? && intent.handoff.Some? && source.value.progress < intent.handoff.value.lsn then Some(SwitchoverUnsafe(s))
      else None
    else if intent.resolution != RestoringOldPrimary && !DefinitivelyLost(s, intent.target) then None
    else if source.None? then Some(PlanWait(s.status))
    else if !AuthorityAdmitted(s, starting, intent) then Some(RestoreOldPrimary(s, transition, intent, starting, source.value))
    else Some(Compensate(s, transition, intent, starting, source.value))
  }
}
