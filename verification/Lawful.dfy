/** Every plan of the evaluator obeys the protocol, whatever the evidence. */
module Lawful {
  import opened Base
  import opened ControlTypes
  import opened Election
  import opened Evidence
  import opened SwitchoverPlan
  import opened SwitchoverExecution
  import opened FailoverPlan
  import opened ReplacementPlan
  import opened BootstrapPlan
  import opened Evaluator
  import opened Protocol

  // ---------------------------------------------------------------- switchover

  lemma SwitchoverUnsafeLawful(s: Snapshot)
    requires IsSwitchover(s.status)
    ensures PlanAllowed(s.status, SwitchoverUnsafe(s))
    ensures OpensNothing(SwitchoverUnsafe(s))
    ensures forall t :: Persists(SwitchoverUnsafe(s), t) ==>
      t.topology == s.status.topology && SameAuthority(s.status.transition, t.transition)
  {
    hide ProvenReport;
    hide FirstOpen;
  }

  lemma BeginSwitchoverLawful(s: Snapshot, status: Status)
    requires Untouched(s.status, status) && status.transition.None?
    requires status.topology.Some? && status.policy.Some? && HasPrimary(status.topology.value)
    requires BeginSwitchover(s, status).Some?
    ensures PlanAllowed(s.status, BeginSwitchover(s, status).value)
  {
    hide Attested;
    hide MemberOf;
    hide PrimaryOf;
  }

  lemma RestoreLawful(s: Snapshot, transition: Transition, intent: Intent, starting: Configuration, source: Report)
    requires s.status.transition == Some(transition) && transition.kind == Switchover && transition.switchover == Some(intent)
    requires HasPrimary(starting)
    requires intent.resolution in {RequestedTarget, RestoringOldPrimary}
    ensures PlanAllowed(s.status, RestoreOldPrimary(s, transition, intent, starting, source))
    ensures OpensNothing(RestoreOldPrimary(s, transition, intent, starting, source))
    ensures forall t :: Persists(RestoreOldPrimary(s, transition, intent, starting, source), t) ==>
      t.topology == s.status.topology && (t.transition.None? || SameAuthority(s.status.transition, t.transition))
  {
    hide StartingEvidence;
    hide HandoffMatches;
    hide SwitchoverUnsafe;
    hide PrimaryOf;
    SwitchoverUnsafeLawful(s);
  }

  lemma CompensateLawful(s: Snapshot, transition: Transition, intent: Intent, starting: Configuration, source: Report)
    requires s.status.transition == Some(transition) && transition.kind == Switchover && transition.switchover == Some(intent)
    requires transition.current == intent.requested && intent.requested.epoch.dataLoss == starting.epoch.dataLoss
    requires intent.resolution in {RequestedTarget, RestoringOldPrimary} && Sound(s.status)
    ensures PlanAllowed(s.status, Compensate(s, transition, intent, starting, source))
    ensures OpensNothing(Compensate(s, transition, intent, starting, source))
    ensures forall t :: Persists(Compensate(s, transition, intent, starting, source), t) ==>
      && t.topology == s.status.topology && t.transition.Some?
      && (|| SameAuthority(s.status.transition, t.transition)
          || (&& Reallocates(transition, t.transition.value)
              && t.transition.value.current == CompensationConfiguration(intent, starting)
              && Newer(intent.requested, t.transition.value.current)))
  {
    hide SourceComplete;
    hide CompensationReports;
    hide Survivors;
    hide ReadQuorum;
    hide SwitchoverUnsafe;
    SwitchoverUnsafeLawful(s);
  }

  lemma RecoverLawful(s: Snapshot, transition: Transition, intent: Intent, starting: Configuration)
    requires s.status.transition == Some(transition) && transition.kind == Switchover && transition.switchover == Some(intent)
    requires s.status.topology == Some(starting) && HasPrimary(starting)
    requires ValidIntent(starting, transition, intent) && intent.resolution != Unresolvable
    requires RecoverSwitchover(s, transition, intent, starting).Some?
    ensures PlanAllowed(s.status, RecoverSwitchover(s, transition, intent, starting).value)
  {
    hide SwitchoverUnsafe;
    hide RestoreOldPrimary;
    hide Compensate;
    hide DefinitivelyLost;
    hide AuthorityAdmitted;
    hide Survivors;
    hide HealthyReport;
    hide PlanAllowed;
    SwitchoverUnsafeLawful(s);
    WaitLawful(s.status, s.status);
    var source := HealthyReport(s, intent.source);
    if source.Some? && intent.resolution in {RequestedTarget, RestoringOldPrimary} {
      RestoreLawful(s, transition, intent, starting, source.value);
      CompensateLawful(s, transition, intent, starting, source.value);
    }
  }

  /** Waiting, or reporting unsafe, with unchanged authority is always allowed. */
  lemma WaitLawful(s: Status, t: Status)
    requires Untouched(s, t)
    ensures PlanAllowed(s, PlanWait(t)) && PlanAllowed(s, PlanUnsafe(t)) && PlanAllowed(s, PlanStable(t))
    ensures PlanAllowed(s, PlanApply([Persist(t)])) && PlanAllowed(s, PlanApply([RemoveRouting, Persist(t)]))
  {
    KeepsAuthority(s, t);
  }

  lemma PrepareLawful(s: Snapshot, transition: Transition, e: Execution, source: Report)
    requires s.status.transition == Some(transition) && transition.kind == Switchover && transition.switchover == Some(e.intent)
    requires HasPrimary(e.starting) && e.intent.handoff.None?
    ensures PlanAllowed(s.status, Prepare(s, transition, e, source))
  {
    hide SwitchoverUnsafe;
    hide StableMember;
    hide HandoffMatches;
    hide PrimaryOf;
    SwitchoverUnsafeLawful(s);
  }

  lemma InstallLawful(s: Snapshot, transition: Transition, e: Execution, handoff: Handoff, target: Report)
    requires s.status.transition == Some(transition) && transition.current == e.current && HasPrimary(e.current) && Sound(s.status)
    ensures PlanAllowed(s.status, InstallPlan(s, transition, e, handoff, target))
  {
    hide JointFrom;
    hide FinalFrom;
    hide Ordered;
    hide CatchUpProven;
    hide ReportQuorum;
    hide PrimaryOf;
    hide MemberOperation;
  }

  lemma ExecuteLawful(s: Snapshot, transition: Transition, e: Execution, source: Report)
    requires s.status.transition == Some(transition) && transition.kind == Switchover && transition.switchover == Some(e.intent)
    requires HasPrimary(e.starting) && HasPrimary(e.current) && transition.current == e.current && Sound(s.status)
    ensures PlanAllowed(s.status, ExecutePlan(s, transition, e, source))
  {
    hide SwitchoverUnsafe;
    hide Prepare;
    hide InstallPlan;
    hide SourceRetains;
    hide TargetCaughtUp;
    hide FirstFaulted;
    hide Ordered;
    hide Survivors;
    hide HealthyReport;
    hide PrimaryOf;
    SwitchoverUnsafeLawful(s);
    if e.intent.handoff.None? {
      PrepareLawful(s, transition, e, source);
    } else {
      var target := HealthyReport(s, PrimaryOf(e.current).identity);
      if target.Some? { InstallLawful(s, transition, e, e.intent.handoff.value, target.value); }
    }
  }

  lemma EvaluateSwitchoverLawful(s: Snapshot, transition: Transition)
    requires ValidStatus(s.status) && s.status.transition == Some(transition) && transition.kind == Switchover
    requires transition.switchover.value.resolution != Unresolvable
    ensures PlanAllowed(s.status, EvaluateSwitchover(s, transition))
  {
    hide SwitchoverUnsafe;
    hide RecoverSwitchover;
    hide ExecutePlan;
    hide DefinitivelyLost;
    hide FirstMissing;
    hide HealthyReport;
    hide RequestRejection;
    hide PlanAllowed;
    var intent := transition.switchover.value;
    var starting := s.status.topology.value;
    SwitchoverUnsafeLawful(s);
    WaitLawful(s.status, s.status);
    WaitLawful(s.status, ProjectRequest(s, s.status));
    if RecoverSwitchover(s, transition, intent, starting).Some? { RecoverLawful(s, transition, intent, starting); }
    var e := ExecutionOf(transition, intent, starting);
    var source := HealthyReport(s, intent.source);
    if source.Some? { ExecuteLawful(s, transition, e, source.value); }
  }

  // ---------------------------------------------------------------- failover

  lemma RecordFailureLawful(s: Snapshot, status: Status, primary: Identity)
    requires Untouched(s.status, status)
    ensures PlanAllowed(s.status, RecordFailure(s, status, primary))
  {
  }

  lemma QuorumUnavailableLawful(s: Status, status: Status, accepted: Configuration, lost: bool)
    requires Untouched(s, status)
    ensures PlanAllowed(s, QuorumUnavailable(status, accepted, lost))
  {
  }

  lemma BeginStableFailoverLawful(s: Snapshot, status: Status, accepted: Configuration, policy: Policy)
    requires Untouched(s.status, status) && status.topology == Some(accepted) && status.transition.None?
    requires HasPrimary(accepted) && BeginStableFailover(s, status, accepted, policy).Some?
    ensures PlanAllowed(s.status, BeginStableFailover(s, status, accepted, policy).value)
  {
    hide ReplicaFailed;
    hide AvailableReports;
    hide ReadQuorum;
    hide SelectCandidate;
    hide NotFaulted;
    hide QuorumUnavailable;
    hide RecordFailure;
    hide PrimaryOf;
    RecordFailureLawful(s, status, PrimaryOf(accepted).identity);
    QuorumUnavailableLawful(s.status, status, accepted, NotFaulted(s, accepted.members) < policy.readQuorum);
  }

  lemma BeginReplacementFailoverLawful(s: Snapshot, accepted: Configuration, transition: Transition, policy: Policy)
    requires s.status.topology == Some(accepted) && s.status.transition == Some(transition) && transition.kind == Replacement
    requires transition.previous == s.status.topology && transition.switchover.None? && Sound(s.status)
    requires HasPrimary(accepted) && HasPrimary(transition.current) && Newer(accepted, transition.current)
    requires BeginReplacementFailover(s, s.status, accepted, transition, policy).Some?
    ensures PlanAllowed(s.status, BeginReplacementFailover(s, s.status, accepted, transition, policy).value)
  {
    hide ReplicaFailed;
    hide AvailableReports;
    hide ReadQuorum;
    hide SelectCandidate;
    hide NotFaulted;
    hide QuorumUnavailable;
    hide RecordFailure;
    hide PrimaryOf;
    RecordFailureLawful(s, s.status, PrimaryOf(accepted).identity);
    QuorumUnavailableLawful(s.status, s.status, accepted,
      NotFaulted(s, accepted.members) < policy.readQuorum || NotFaulted(s, transition.current.members) < policy.readQuorum);
  }

  lemma RepairLawful(s: Snapshot, transition: Transition, previous: Configuration, primary: Identity, primaryReport: Report, reports: seq<Report>)
    requires s.status.transition == Some(transition)
    requires RepairPlan(s, s.status, transition, previous, primary, primaryReport, reports).Some?
    ensures PlanAllowed(s.status, RepairPlan(s, s.status, transition, previous, primary, primaryReport, reports).value)
    ensures OpensNothing(RepairPlan(s, s.status, transition, previous, primary, primaryReport, reports).value)
    ensures forall t :: Persists(RepairPlan(s, s.status, transition, previous, primary, primaryReport, reports).value, t) ==>
      t.topology == s.status.topology && SameAuthority(s.status.transition, t.transition)
  {
    hide BuildComplete;
    hide Lagging;
    hide FindReport;
    hide FirstWhere;
    hide IndexOf;
  }

  lemma ElectLawful(s: Snapshot, transition: Transition, previous: Configuration)
    requires s.status.transition == Some(transition) && transition.kind == Failover && transition.switchover.None? && Sound(s.status)
    requires HasPrimary(transition.current) && ElectPlan(s, s.status, transition, previous).Some?
    ensures PlanAllowed(s.status, ElectPlan(s, s.status, transition, previous).value)
  {
    hide FencedReports;
    hide Filter;
    hide Winner;
    hide FindReport;
    hide RepairPlan;
    hide DeactivationQuorum;
    hide HealthyReport;
    hide Union;
    var current := transition.current;
    var primary := PrimaryOf(current).identity;
    var exact := FencedReports(s, transition, previous);
    var live := Filter(exact, (r: Report) => HealthyReport(s, r.identity).Some?);
    var primaryReport := FindReport(live, primary);
    if primaryReport.Some? && RepairPlan(s, s.status, transition, previous, primary, primaryReport.value, live).Some? {
      RepairLawful(s, transition, previous, primary, primaryReport.value, live);
    }
  }

  lemma FinishFailoverLawful(s: Snapshot, transition: Transition, previous: Configuration)
    requires s.status.transition == Some(transition) && transition.kind == Failover && HasPrimary(transition.current) && Sound(s.status)
    ensures PlanAllowed(s.status, FinishFailover(s, s.status, transition, previous))
  {
    hide CurrentOnlyInstalled;
    hide FirstWhere;
    hide Collect;
    hide Filter;
    hide ReportQuorum;
    hide RetiredBuilds;
    hide Retires;
  }

  lemma EvaluateFailoverLawful(s: Snapshot, transition: Transition, previous: Configuration)
    requires s.status.transition == Some(transition) && transition.kind == Failover && transition.switchover.None?
    requires HasPrimary(transition.current) && Sound(s.status)
    ensures PlanAllowed(s.status, EvaluateFailover(s, s.status, transition, previous))
  {
    hide ElectPlan;
    hide FinishFailover;
    hide NextElection;
    hide InstallOrder;
    hide FencedReports;
    hide Union;
    hide ReadQuorum;
    hide CurrentOnlyStarted;
    hide PrimaryOf;
    FinishFailoverLawful(s, transition, previous);
    if ElectPlan(s, s.status, transition, previous).Some? { ElectLawful(s, transition, previous); }
  }

  // ---------------------------------------------------------------- replacement and genesis

  lemma ReplacementLawful(s: Snapshot, transition: Transition, previous: Configuration)
    requires s.status.transition == Some(transition) && transition.kind == Replacement && HasPrimary(transition.current) && Sound(s.status)
    ensures PlanAllowed(s.status, EvaluateReplacement(s, transition, previous))
  {
    hide CurrentOnlyPhase;
    hide InstallOrder;
    hide Union;
    hide FirstWhere;
    hide JointInstalled;
    hide FinalInstalled;
    hide Collect;
    hide Filter;
    hide ReportQuorum;
    hide ReportFor;
    hide Joint;
    hide CurrentOnly;
  }

  lemma ProvisioningLawful(s: Snapshot, provisioning: Provisioning, topology: Configuration, policy: Policy)
    requires s.status.topology == Some(topology) && s.status.transition.None? && HasPrimary(topology)
    ensures PlanAllowed(s.status, EvaluateProvisioning(s, provisioning, topology, policy))
    ensures OpensNothing(EvaluateProvisioning(s, provisioning, topology, policy))
    ensures forall t :: Persists(EvaluateProvisioning(s, provisioning, topology, policy), t) ==>
      && t.topology == s.status.topology
      && (t.transition.None? || (t.transition.value.kind == Replacement && Begins(s.status, t.transition.value)))
  {
    hide ReplicaFailed;
    hide BuildComplete;
    hide ReportFor;
    hide ObservationFor;
    hide PrimaryOf;
  }

  lemma CleanupLawful(s: Snapshot, target: Identity)
    ensures PlanAllowed(s.status, EvaluateCleanup(s))
    ensures AdmitCleanup(s, target).Some? ==> PlanAllowed(s.status, AdmitCleanup(s, target).value)
    ensures OpensNothing(EvaluateCleanup(s)) && (AdmitCleanup(s, target).Some? ==> OpensNothing(AdmitCleanup(s, target).value))
    ensures forall t :: Persists(EvaluateCleanup(s), t) || (AdmitCleanup(s, target).Some? && Persists(AdmitCleanup(s, target).value, t)) ==>
      t.topology == s.status.topology && t.transition == s.status.transition
  {
  }

  lemma BootstrapLawful(s: Snapshot, transition: Transition)
    requires s.status.transition == Some(transition) && transition.kind == Bootstrap && transition.switchover.None? && s.status.topology.None?
    ensures PlanAllowed(s.status, EvaluateBootstrap(s, transition))
  {
    hide InstallFrom;
    hide Mismatched;
    hide FirstWhere;
    hide Orphaned;
    hide FindCandidate;
    hide Supersede;
  }

  lemma NeverInitializedLawful(s: Snapshot)
    requires s.status.topology.None? && s.status.transition.None?
    ensures PlanAllowed(s.status, EvaluateNeverInitialized(s))
  {
    hide Scaffolded;
    hide ScaffoldingOf;
    hide FirstStaleImage;
    hide DurableEvidence;
    hide Genesis;
    hide FixedPolicy;
  }

  // ---------------------------------------------------------------- stable

  lemma CorrectionLawful(s: Snapshot, status: Status, configuration: Configuration, policy: Policy)
    requires CorrectionPlan(s, status, configuration, policy).Some?
    ensures PlanAllowed(s.status, CorrectionPlan(s, status, configuration, policy).value)
  {
    hide EndpointMissing;
    hide ReportFor;
  }

  lemma AdmitReplacementLawful(s: Snapshot, status: Status, configuration: Configuration)
    requires Untouched(s.status, status)
    requires HasPrimary(configuration) && AdmitReplacement(s, status, configuration).Some?
    ensures PlanAllowed(s.status, AdmitReplacement(s, status, configuration).value)
  {
    hide NeedsReplacement;
    hide FirstWhere;
    hide AdmitCleanup;
    hide FindCandidate;
    var i := FirstWhere(configuration.members, (m: Member) => NeedsReplacement(s, status, configuration, m), 0);
    if i < |configuration.members| { CleanupLawful(s, configuration.members[i].identity); }
  }

  lemma ServiceLawful(s: Snapshot, status: Status, configuration: Configuration, policy: Policy)
    requires Untouched(s.status, status) && status.topology == Some(configuration) && status.transition.None?
    requires HasPrimary(configuration)
    ensures PlanAllowed(s.status, ServicePlan(s, status, configuration, policy))
  {
    hide PrimaryReport;
    hide AttestedCount;
  }

  lemma ConvergeLawful(s: Snapshot, status: Status, configuration: Configuration, policy: Policy)
    requires Untouched(s.status, status) && status.topology == Some(configuration) && status.transition.None?
    requires HasPrimary(configuration) && status.policy.Some?
    ensures PlanAllowed(s.status, ConvergePlan(s, status, configuration, policy))
  {
    hide BeginSwitchover;
    hide AdmitReplacement;
    hide FirstExtra;
    hide RecoveringService;
    hide ServicePlan;
    if BeginSwitchover(s, status).Some? { BeginSwitchoverLawful(s, status); }
    if AdmitReplacement(s, status, configuration).Some? { AdmitReplacementLawful(s, status, configuration); }
    ServiceLawful(s, status, configuration, policy);
  }

  lemma StableLawful(s: Snapshot)
    requires s.status.topology.Some? && s.status.policy.Some? && HasPrimary(s.status.topology.value) && s.status.transition.None?
    ensures PlanAllowed(s.status, EvaluateStable(s))
  {
    hide BeginStableFailover;
    hide CorrectionPlan;
    hide ConvergePlan;
    hide RequestRejection;
    hide PlanAllowed;
    var configuration := s.status.topology.value;
    var policy := s.status.policy.value;
    var status := if s.specObserved then s.status.(observedGeneration := s.desiredGeneration) else s.status;
    if BeginStableFailover(s, status, configuration, policy).Some? { BeginStableFailoverLawful(s, status, configuration, policy); }
    if CorrectionPlan(s, status, configuration, policy).Some? { CorrectionLawful(s, status, configuration, policy); }
    WaitLawful(s.status, ProjectRequest(s, status));
    ConvergeLawful(s, ProjectRequest(s, status), configuration, policy);
  }

  // ---------------------------------------------------------------- the evaluator

  lemma TransitionLawful(s: Snapshot, transition: Transition)
    requires ValidStatus(s.status) && s.status.transition == Some(transition)
    requires transition.kind == Switchover ==> transition.switchover.value.resolution != Unresolvable
    ensures PlanAllowed(s.status, EvaluateTransition(s, transition))
  {
    hide EvaluateSwitchover;
    hide EvaluateBootstrap;
    hide EvaluateReplacement;
    hide EvaluateFailover;
    hide BeginReplacementFailover;
    hide PlanAllowed;
    WaitLawful(s.status, s.status);
    if transition.kind == Switchover {
      EvaluateSwitchoverLawful(s, transition);
    } else if transition.kind == Bootstrap {
      BootstrapLawful(s, transition);
    } else {
      var accepted := s.status.topology.value;
      if transition.kind == Replacement {
        var policy := s.status.policy.value;
        if BeginReplacementFailover(s, s.status, accepted, transition, policy).Some? {
          BeginReplacementFailoverLawful(s, accepted, transition, policy);
        }
        ReplacementLawful(s, transition, accepted);
      } else {
        EvaluateFailoverLawful(s, transition, accepted);
      }
    }
  }

  lemma ValidLawful(s: Snapshot)
    requires ValidStatus(s.status) && !IsUnsafe(s.status)
    ensures PlanAllowed(s.status, EvaluateValid(s))
  {
    hide EvaluateTransition;
    hide EvaluateStable;
    hide EvaluateNeverInitialized;
    hide EvaluateProvisioning;
    hide CleanupRequired;
    WaitLawful(s.status, s.status);
    CleanupLawful(s, Identity(0, "", Generation(0, "", "")));
    if s.status.transition.Some? {
      TransitionLawful(s, s.status.transition.value);
    } else if s.status.provisioning.Some? {
      ProvisioningLawful(s, s.status.provisioning.value, s.status.topology.value, s.status.policy.value);
    } else if s.status.initialized {
      StableLawful(s);
    } else {
      NeverInitializedLawful(s);
    }
  }

  /** Every plan, on every snapshot, obeys the protocol. */
  lemma EvaluateLawful(s: Snapshot)
    ensures PlanAllowed(s.status, Evaluate(s))
  {
    hide SwitchoverUnsafe;
    hide EvaluateValid;
    hide ValidStatus;
    hide VersionMismatch;
    hide InvalidAgent;
    if IsSwitchover(s.status) { SwitchoverUnsafeLawful(s); }
    WaitLawful(s.status, s.status);
    if ValidStatus(s.status) && !IsUnsafe(s.status) { ValidLawful(s); }
  }
}
