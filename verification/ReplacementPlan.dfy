/** Secondary replacement in `kuberic-controller/src/evaluator.rs` and its `replacement_cleanup` part. */
module ReplacementPlan {
  import opened Base
  import opened ControlTypes
  import opened Election
  import opened Evidence
  import opened FailoverPlan

  // ---------------------------------------------------------------- cleanup

  function EvaluateCleanup(s: Snapshot): (p: Plan)
  {
    match s.cleanupProgress
    case CleanupUnproven => PlanWait(s.status)
    case CleanupDeletes => PlanApply([DeleteCleanupResource])
    case CleanupFinished => PlanApply([Persist(s.status.(lastReplacement := None))])
  }

  /** Freeze the old incarnation before any replacement side effect; nothing when it is already frozen. */
  function AdmitCleanup(s: Snapshot, target: Identity): (p: Option<Plan>)
  {
    if s.status.pendingCleanup.Some? then
      if s.status.pendingCleanup.value.target == target then None else Some(PlanWait(s.status))
    else if target !in s.freezable then Some(PlanWait(s.status))
    else Some(PlanApply([Persist(s.status.(pendingCleanup := Some(s.freezable[target])))]))
  }

  // ---------------------------------------------------------------- provisioning

  function ReplaceMember(configuration: Configuration, replaced: Identity, target: Identity, writeQuorum: u32): (c: Configuration)
    ensures c.epoch == Epoch(configuration.epoch.dataLoss, NextNumber(configuration.epoch.number))
    ensures c.primaryId == configuration.primaryId
  {
    Configuration(Epoch(configuration.epoch.dataLoss, NextNumber(configuration.epoch.number)), configuration.primaryId,
                  seq(|configuration.members|, i requires 0 <= i < |configuration.members| =>
                    if configuration.members[i].identity == replaced then Member(target, ActiveSecondary) else configuration.members[i]),
                  writeQuorum)
  }

  function ReplacementTransition(s: Snapshot, provisioning: Provisioning, topology: Configuration, policy: Policy): (t: Transition)
    ensures t.kind == Replacement && t.current.epoch == Epoch(topology.epoch.dataLoss, NextNumber(topology.epoch.number))
    ensures t.current.primaryId == topology.primaryId
  {
    var current := ReplaceMember(topology, provisioning.replacing, TargetOf(provisioning), policy.writeQuorum);
    Transition(TransitionIdFor(s, Replacement, current), Replacement, s.status.observedGeneration, policy, Some(topology), current,
               None, Some(provisioning.operationId), None, None)
  }

  function EvaluateProvisioning(s: Snapshot, provisioning: Provisioning, topology: Configuration, policy: Policy): (p: Plan)
    requires HasPrimary(topology)
  {
    var target := TargetOf(provisioning);
    var source := PrimaryOf(topology).identity;
    var observation := ObservationFor(s, target);
    var delete := DeleteScaffolding(Some(provisioning.podUid), Some(provisioning.pvcUid));
    if ReplicaFailed(s, source) then
      var started := if s.status.primaryFailure.Some? && s.status.primaryFailure.value.primary == source
                     then s.status.primaryFailure.value.startedAt else s.now;
      PlanApply([delete] + (if RoutingPresent(s) then [RemoveRouting] else [])
                + [Persist(s.status.(provisioning := None, primaryFailure := Some(PrimaryFailure(source, started))))])
    else if observation.None? then PlanApply([delete, Persist(s.status.(provisioning := None))])
    else
      match observation.value.agent
      case AgentUninitialized(_) => PlanExecute(InitializeStore(target, topology))
      case AgentReported(report) =>
        var sourceReport := ReportFor(s, source);
        if sourceReport.None? then PlanWait(s.status)
        else if !BuildComplete(sourceReport.value, provisioning.operationId, target, Some(sourceReport.value.progress))
                || !BuildComplete(report, provisioning.operationId, target, None) then
          PlanExecute(EnsureBuild(provisioning.operationId, source, target))
        else
          PlanApply([Persist(s.status.(provisioning := None, transition := Some(ReplacementTransition(s, provisioning, topology, policy))))])
      case AgentInvalid => PlanUnsafe(s.status)
      case _ => PlanWait(s.status)
  }

  // ---------------------------------------------------------------- transition

  function JointReport(s: Snapshot, previous: Configuration, current: Configuration, identity: Identity): (r: Option<Report>)
  {
    var report := ReportFor(s, identity);
    if report.Some? && Joint(report.value, previous, current) then report else None
  }

  function AnyCurrentOnly(s: Snapshot, current: Configuration, identity: Identity): (r: Option<Report>)
  {
    var report := ReportFor(s, identity);
    if report.Some? && CurrentOnly(report.value, current) then report else None
  }

  predicate JointInstalled(s: Snapshot, transition: Transition, previous: Configuration, member: Member)
  {
    var report := ReportFor(s, member.identity);
    report.Some? ==>
      && Joint(report.value, previous, transition.current)
      && report.value.pending.None?
      && report.value.retained == Some(OnTransition("pc-cc", transition, Some(member.identity)))
  }

  /** Which command, if any, an observed member still needs in the current-only phase. */
  predicate FinalInstalled(s: Snapshot, transition: Transition, member: Member)
  {
    var report := ReportFor(s, member.identity);
    report.Some? ==>
      && CurrentOnly(report.value, transition.current)
      && report.value.pending.None?
      && report.value.retained == Some(OnTransition("current-only", transition, Some(member.identity)))
  }

  function FinalCommand(s: Snapshot, transition: Transition, previous: Configuration, member: Member, primary: Identity): (c: Command)
  {
    var report := ReportFor(s, member.identity);
    var outstanding := report.Some? && (Joint(report.value, previous, transition.current) || CurrentOnly(report.value, transition.current));
    if !outstanding then
      Ensure(ReplacementCommand(previous, transition.current, member.identity, transition.policy,
                                OnTransition("pc-cc", transition, Some(member.identity)), member.identity == primary, false, []))
    else
      Ensure(ReplacementCommand(previous, transition.current, member.identity, transition.policy,
                                OnTransition("current-only", transition, Some(member.identity)), member.identity == primary, true,
                                if transition.buildId.Some? then [transition.buildId.value] else []))
  }

  function AcceptReplacement(s: Snapshot, transition: Transition): (t: Status)
  {
    s.status.(
      observedGeneration := transition.specGeneration,
      topology := Some(transition.current),
      transition := None,
      lastReplacement := s.status.pendingCleanup,
      pendingCleanup := None)
  }

  predicate CurrentOnlyPhase(s: Snapshot, transition: Transition, previous: Configuration)
    requires HasPrimary(transition.current)
  {
    var current := transition.current;
    var reports := Collect(Union(previous.members, current.members), (x: Identity) => JointReport(s, previous, current, x));
    var primary := FindReport(reports, PrimaryOf(current).identity);
    || (exists i :: 0 <= i < |current.members| && AnyCurrentOnly(s, current, current.members[i].identity).Some?)
    || (primary.Some? && primary.value.catchUpComplete && ReportQuorum(previous, reports) && ReportQuorum(current, reports))
  }

  function EvaluateReplacement(s: Snapshot, transition: Transition, previous: Configuration): (p: Plan)
    requires HasPrimary(transition.current)
  {
    var current := transition.current;
    var primary := PrimaryOf(current);
    if !CurrentOnlyPhase(s, transition, previous) then
      var order := InstallOrder(Union(previous.members, current.members), primary);
      var i := FirstWhere(order, (m: Member) => !JointInstalled(s, transition, previous, m), 0);
      if i < |order| then
        PlanExecute(Ensure(ReplacementCommand(previous, current, order[i].identity, transition.policy,
                                              OnTransition("pc-cc", transition, Some(order[i].identity)),
                                              order[i].identity == primary.identity, false, [])))
      else PlanWait(s.status)
    else
      var order := InstallOrder(current.members, primary);
      var i := FirstWhere(order, (m: Member) => !FinalInstalled(s, transition, m), 0);
      if i < |order| then PlanExecute(FinalCommand(s, transition, previous, order[i], primary.identity))
      else
        var reports := Collect(current.members, (x: Identity) => AnyCurrentOnly(s, current, x));
        if Filter(reports, (r: Report) => r.identity == primary.identity && r.access == Granted) != [] && ReportQuorum(current, reports) then
          PlanApply([Persist(AcceptReplacement(s, transition))])
        else PlanWait(s.status)
  }
}
