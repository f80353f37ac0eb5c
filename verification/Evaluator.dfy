/** Stable convergence and the dispatch of `kuberic-controller/src/evaluator.rs`. */
module Evaluator {
  import opened Base
  import opened ControlTypes
  import opened Evidence
  import opened SwitchoverPlan
  import opened SwitchoverExecution
  import opened FailoverPlan
  import opened ReplacementPlan
  import opened BootstrapPlan

  // ---------------------------------------------------------------- stable: corrections

  predicate EndpointMissing(s: Snapshot, status: Status, configuration: Configuration, member: Member)
  {
    && !(status.pendingCleanup.Some? && status.pendingCleanup.value.target == member.identity)
    && !ReplacementNeeded(s, configuration, member)
    && var o := ObservationFor(s, member.identity);
       o.Some? && o.value.kubernetes.Some? && !o.value.kubernetes.value.endpointReady
  }

  predicate BehindEpoch(s: Snapshot, configuration: Configuration, member: Member)
  {
    member.role != Primary && ReportFor(s, member.identity).Some? && EpochBelow(ReportFor(s, member.identity).value.epoch, configuration.epoch)
  }

  predicate StillJoint(s: Snapshot, configuration: Configuration, member: Member)
  {
    && member.role != Primary
    && var report := ReportFor(s, member.identity);
       && report.Some? && report.value.previous.Some?
       && report.value.identity == member.identity && report.value.role == member.role
       && report.value.epoch == configuration.epoch && report.value.current == Some(configuration)
  }

  /** Bring accepted secondaries up to the accepted configuration before anything else is frozen. */
  function CorrectionPlan(s: Snapshot, status: Status, configuration: Configuration, policy: Policy): (p: Option<Plan>)
  {
    var members := configuration.members;
    var endpoint := FirstWhere(members, (m: Member) => EndpointMissing(s, status, configuration, m), 0);
    var behind := FirstWhere(members, (m: Member) => BehindEpoch(s, configuration, m), 0);
    var joint := FirstWhere(members, (m: Member) => StillJoint(s, configuration, m), 0);
    if endpoint < |members| then
      Some(PlanApply([EnsureScaffolding(seq(|members|, i requires 0 <= i < |members| => members[i].identity.replicaId))]))
    else if behind < |members| && ReportFor(s, members[behind].identity).value.current.Some? then
      var report := ReportFor(s, members[behind].identity).value;
      Some(PlanExecute(Ensure(FailoverCommand(report.current.value, configuration, members[behind].identity, policy,
                                              OperationId("accepted-correction", OfConfiguration(configuration), Some(members[behind].identity)),
                                              Some(report.progress), ReconfigurationPending, false, []))))
    else if joint < |members| then
      var report := ReportFor(s, members[joint].identity).value;
      Some(PlanExecute(Ensure(FailoverCommand(report.previous.value, configuration, members[joint].identity, policy,
                                              OperationId("accepted-current-only", OfConfiguration(configuration), Some(members[joint].identity)),
                                              Some(report.progress), ReconfigurationPending, true, []))))
    else None
  }

  // ---------------------------------------------------------------- stable: replacement admission

  /** Service of a restored or compensated source comes before replacing anyone. */
  predicate RecoveringService(s: Snapshot, status: Status, configuration: Configuration)
    requires HasPrimary(configuration)
  {
    var primary := PrimaryOf(configuration).identity;
    && status.lastSwitchover.Some?
    && status.lastSwitchover.value.outcome in {OldPrimaryRestored, OldPrimaryCompensated}
    && status.lastSwitchover.value.resultingPrimary == Some(primary)
    && (s.routing.target != Some(primary) || (HealthyReport(s, primary).Some? && HealthyReport(s, primary).value.access != Granted))
    && StableCount(s, configuration, configuration.members) >= configuration.writeQuorum
  }

  function StableCount(s: Snapshot, configuration: Configuration, members: seq<Member>): (n: nat)
  {
    Count(members, (m: Member) =>
            HealthyReport(s, m.identity).Some? && StableMember(HealthyReport(s, m.identity).value, m, configuration))
  }

  predicate NeedsReplacement(s: Snapshot, status: Status, configuration: Configuration, member: Member)
    requires HasPrimary(configuration)
  {
    if status.pendingCleanup.Some? then status.pendingCleanup.value.target == member.identity && member.role != Primary
    else
      && !RecoveringService(s, status, configuration)
      && member.identity.replicaId != configuration.primaryId
      && ReplacementNeeded(s, configuration, member)
  }

  function AdmitReplacement(s: Snapshot, status: Status, configuration: Configuration): (p: Option<Plan>)
    requires HasPrimary(configuration)
  {
    var members := configuration.members;
    var i := FirstWhere(members, (m: Member) => NeedsReplacement(s, status, configuration, m), 0);
    if i == |members| then None
    else
      var failed := members[i].identity;
      var cleanup := AdmitCleanup(s, failed);
      var candidate := FindCandidate(s.replicas, failed);
      if cleanup.Some? then cleanup
      else if candidate.None? then Some(PlanApply([EnsureReplacement(failed)]))
      else if s.status.pendingCleanup.None? then Some(PlanWait(s.status))
      else
        var k := candidate.value.observation.kubernetes.value;
        var operation := OperationId("provision", OfProvisioning(s.status.pendingCleanup.value, k.podUid.value, k.pvcUid.value), None);
        Some(PlanApply([Persist(status.(provisioning := Some(Provisioning(failed, operation, k.podUid.value, k.pvcUid.value))))]))
  }

  predicate Accepted(configuration: Configuration, key: Key)
  {
    exists i :: 0 <= i < |configuration.members|
      && configuration.members[i].identity.replicaId == key.replicaId && configuration.members[i].identity.instanceId == key.instanceId
  }

  function FirstExtra(entries: seq<Entry>, configuration: Configuration): (k: Option<Kube>)
  {
    if entries == [] then None
    else if !Accepted(configuration, entries[0].key) && entries[0].observation.kubernetes.Some? then entries[0].observation.kubernetes
    else FirstExtra(entries[1..], configuration)
  }

  // ---------------------------------------------------------------- stable: attestation and service

  /** The member attests the accepted authority. */
  predicate Attests(report: Report, member: Member, configuration: Configuration)
  {
    && report.identity == member.identity
    && report.role == member.role
    && report.epoch == configuration.epoch
    && report.previous.None?
    && report.current == Some(configuration)
  }

  predicate AttestedBy(s: Snapshot, configuration: Configuration, member: Member)
  {
    var report := HealthyReport(s, member.identity);
    report.Some? && Attests(report.value, member, configuration)
  }

  function AttestedCount(s: Snapshot, configuration: Configuration, members: seq<Member>): (n: nat)
    ensures n <= |members|
  {
    Count(members, (m: Member) => AttestedBy(s, configuration, m))
  }

  /** The accepted primary's own attesting report. */
  function PrimaryReport(s: Snapshot, configuration: Configuration): (r: Option<Report>)
    requires HasPrimary(configuration)
  {
    var primary := PrimaryOf(configuration);
    if AttestedBy(s, configuration, primary) then HealthyReport(s, primary.identity) else None
  }

  /** The counting pass over the accepted members. */
  method CountAttestations(s: Snapshot, configuration: Configuration) returns (attested: nat, primaryReport: Option<Report>)
    requires HasPrimary(configuration) && DistinctReplicas(configuration.members)
    ensures attested == AttestedCount(s, configuration, configuration.members)
    ensures primaryReport == PrimaryReport(s, configuration)
  {
    attested := 0;
    primaryReport := None;
    var primary := PrimaryOf(configuration);
    var members := configuration.members;
    ghost var p :| 0 <= p < |members| && members[p] == primary;
    for i := 0 to |members|
      invariant attested == AttestedCount(s, configuration, members[..i])
      invariant i <= p ==> primaryReport == None
      invariant i > p ==> primaryReport == PrimaryReport(s, configuration)
    {
      assert members[..i + 1][..i] == members[..i];
      var report := HealthyReport(s, members[i].identity);
      if report.Some? {
        var matches := Attests(report.value, members[i], configuration);
        if matches { attested := attested + 1; }
        if members[i].identity == primary.identity { primaryReport := if matches then report else None; }
      }
    }
    assert members[..|members|] == members;
  }

  function GrantCommand(configuration: Configuration, policy: Policy, purpose: string, access: Access): (c: Command)
    requires HasPrimary(configuration)
  {
    Ensure(PlainCommand(configuration, PrimaryOf(configuration).identity, policy, OperationId(purpose, OfConfiguration(configuration), None), access))
  }

  /** Write access and routing of an attested topology. */
  function ServicePlan(s: Snapshot, status: Status, configuration: Configuration, policy: Policy): (p: Plan)
    requires HasPrimary(configuration)
  {
    var primary := PrimaryOf(configuration).identity;
    var report := PrimaryReport(s, configuration);
    if report.None? then PlanWait(status)
    else if AttestedCount(s, configuration, configuration.members) < configuration.writeQuorum then
      if status.quorumLoss != Some(configuration) then PlanApply([Persist(status.(quorumLoss := Some(configuration)))])
      else if report.value.access != NoWriteQuorum then PlanExecute(GrantCommand(configuration, policy, "no-write-quorum", NoWriteQuorum))
      else PlanWait(status)
    else if report.value.access != Granted then PlanExecute(GrantCommand(configuration, policy, "grant-write", Granted))
    else if status.quorumLoss.Some? then PlanApply([Persist(status.(quorumLoss := None))])
    else if !s.routing.servicePresent then PlanApply([EnsureRoutingService])
    else if s.routing.unresolved then PlanApply([RemoveRouting, Persist(status)])
    else if s.routing.target.None? then PlanApply([PublishRouting(primary), Persist(status)])
    else if s.routing.target.value != primary then PlanApply([RemoveRouting, Persist(status)])
    else PlanStable(status)
  }

  function EvaluateStable(s: Snapshot): (p: Plan)
    requires s.status.topology.Some? && s.status.policy.Some? && HasPrimary(s.status.topology.value)
  {
    var configuration := s.status.topology.value;
    var policy := s.status.policy.value;
    var status := if s.specObserved then s.status.(observedGeneration := s.desiredGeneration) else s.status;
    var failover := BeginStableFailover(s, status, configuration, policy);
    if failover.Some? then failover.value
    else
      var correction := CorrectionPlan(s, status, configuration, policy);
      if correction.Some? then correction.value
      else
        var projected := ProjectRequest(s, status);
        if projected.rejection != s.status.rejection then PlanApply([Persist(projected)])
        else ConvergePlan(s, projected, configuration, policy)
  }

  /** After corrections: a switchover, a replacement, an extra resource, then service. */
  function ConvergePlan(s: Snapshot, status: Status, configuration: Configuration, policy: Policy): (p: Plan)
    requires HasPrimary(configuration) && status.topology == Some(configuration) && status.policy.Some?
  {
    var switchover := if status.pendingCleanup.None? then BeginSwitchover(s, status) else None;
    if switchover.Some? then switchover.value
    else
      var replacement := AdmitReplacement(s, status, configuration);
      var extra := FirstExtra(s.replicas, configuration);
      if replacement.Some? then replacement.value
      else if status.pendingCleanup.Some? then PlanWait(s.status)
      else if extra.Some? && !RecoveringService(s, status, configuration) then
        PlanApply([DeleteScaffolding(extra.value.podUid, extra.value.pvcUid)])
      else ServicePlan(s, status, configuration, policy)
  }

  // ---------------------------------------------------------------- dispatch

  predicate VersionMismatch(s: Snapshot)
  {
    exists i :: 0 <= i < |s.replicas| &&
      var agent := s.replicas[i].observation.agent;
      (agent.AgentUninitialized? && agent.version != s.supportedVersion)
      || (agent.AgentReported? && agent.report.protocolVersion != s.supportedVersion)
  }

  predicate InvalidAgent(s: Snapshot)
  {
    exists i :: 0 <= i < |s.replicas| && s.replicas[i].observation.agent.AgentInvalid?
  }

  /** A malformed status is contradictory whatever the evidence says. */
  function ValidationOf(s: Snapshot): (v: Validation)
  {
    if ValidStatus(s.status) then s.validation else Contradictory
  }

  /** A replacement or failover that drops an incarnation needs its frozen cleanup. */
  predicate CleanupRequired(s: Snapshot, transition: Transition)
  {
    && transition.kind in {Replacement, Failover}
    && s.status.topology.Some? && Retires(s.status.topology.value, transition.current)
    && s.status.pendingCleanup.None?
  }

  function EvaluateTransition(s: Snapshot, transition: Transition): (p: Plan)
    requires ValidStatus(s.status) && s.status.transition == Some(transition)
  {
    if transition.kind == Switchover then EvaluateSwitchover(s, transition)
    else if s.conditionsStale then PlanApply([Persist(s.status)])
    else if transition.kind == Bootstrap then EvaluateBootstrap(s, transition)
    else
      var accepted := s.status.topology.value;
      if transition.kind == Replacement then
        var failover := BeginReplacementFailover(s, s.status, accepted, transition, s.status.policy.value);
        if failover.Some? then failover.value else EvaluateReplacement(s, transition, accepted)
      else EvaluateFailover(s, s.status, transition, accepted)
  }

  function EvaluateValid(s: Snapshot): (p: Plan)
    requires ValidStatus(s.status)
  {
    if s.observationFailed then PlanWait(s.status)
    else if !s.supportReady then PlanApply([EnsureSupport])
    else if s.status.lastReplacement.Some? then EvaluateCleanup(s)
    else if s.status.transition.Some? then
      if CleanupRequired(s, s.status.transition.value) then PlanWait(s.status) else EvaluateTransition(s, s.status.transition.value)
    else if s.status.provisioning.Some? then
      if s.status.pendingCleanup.None? then PlanWait(s.status)
      else EvaluateProvisioning(s, s.status.provisioning.value, s.status.topology.value, s.status.policy.value)
    else if s.status.initialized then EvaluateStable(s)
    else EvaluateNeverInitialized(s)
  }

  function Evaluate(s: Snapshot): (p: Plan)
  {
    if IsUnsafe(s.status) then SwitchoverUnsafe(s)
    else
      match ValidationOf(s)
      case StaleSequence => if IsSwitchover(s.status) then PlanWait(s.status) else PlanUnsafe(s.status)
      case Contradictory => if IsSwitchover(s.status) then SwitchoverUnsafe(s) else PlanUnsafe(s.status)
      case ValidEvidence =>
        if VersionMismatch(s) || InvalidAgent(s) then
          if IsSwitchover(s.status) then SwitchoverUnsafe(s) else PlanUnsafe(s.status)
        else EvaluateValid(s)
  }
}
