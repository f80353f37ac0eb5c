/** What evidence stable service and an accepted replacement rest on. */
module ServiceTheorems {
  import opened Base
  import opened ControlTypes
  import opened Election
  import opened Evidence
  import opened SwitchoverPlan
  import opened FailoverPlan
  import opened ReplacementPlan
  import opened BootstrapPlan
  import opened Evaluator
  import opened ControlRuns

  /**
   * The accepted primary and a write quorum attest the accepted configuration; routing moreover waits until the primary
   * reports the grant and nothing is routed.
   */
  predicate Attested(s: Snapshot, effect: Effect)
  {
    && ValidStatus(s.status) && s.status.topology.Some?
    && var configuration := s.status.topology.value;
       var report := PrimaryReport(s, configuration);
       && report.Some?
       && AttestedCount(s, configuration, configuration.members) >= configuration.writeQuorum
       && (effect.Route? ==> report.value.access == Granted && s.routing.servicePresent && !RoutingPresent(s))
  }

  lemma ServicePlanOpens(s: Snapshot, status: Status, policy: Policy, effect: Effect)
    requires ValidStatus(s.status) && s.status.topology.Some? && Opens(effect)
    requires Offers(ServicePlan(s, status, s.status.topology.value, policy), effect)
    ensures Attested(s, effect)
  {
    hide PrimaryReport;
    hide AttestedCount;
    hide PrimaryOf;
    hide HasPrimary;
    hide DistinctReplicas;
    hide ValidTransition;
  }

  lemma ConvergeOpens(s: Snapshot, status: Status, policy: Policy, effect: Effect)
    requires ValidStatus(s.status) && s.status.topology.Some? && Opens(effect)
    requires status.topology == s.status.topology && status.policy.Some?
    requires Offers(ConvergePlan(s, status, s.status.topology.value, policy), effect)
    ensures Attested(s, effect)
  {
    hide ServicePlan;
    hide Attested;
    hide SwitchoverPlan.Attested;
    hide MemberOf;
    hide PrimaryOf;
    hide HasPrimary;
    hide DistinctReplicas;
    hide NeedsReplacement;
    hide FirstWhere;
    hide FindCandidate;
    hide FirstExtra;
    hide RecoveringService;
    hide ValidTransition;
    if Offers(ServicePlan(s, status, s.status.topology.value, policy), effect) { ServicePlanOpens(s, status, policy, effect); }
  }

  lemma FailoverOpensNothing(s: Snapshot, status: Status, accepted: Configuration, policy: Policy, effect: Effect)
    requires HasPrimary(accepted) && BeginStableFailover(s, status, accepted, policy).Some?
    requires Offers(BeginStableFailover(s, status, accepted, policy).value, effect)
    ensures !Opens(effect)
  {
    hide ReplicaFailed;
    hide AvailableReports;
    hide ReadQuorum;
    hide SelectCandidate;
    hide NotFaulted;
    hide PrimaryOf;
    hide Union;
    hide HasPrimary;
  }

  lemma CorrectionOpensNothing(s: Snapshot, status: Status, configuration: Configuration, policy: Policy, effect: Effect)
    requires CorrectionPlan(s, status, configuration, policy).Some?
    requires Offers(CorrectionPlan(s, status, configuration, policy).value, effect)
    ensures !Opens(effect)
  {
    hide EndpointMissing;
    hide ReportFor;
  }

  lemma StableOpens(s: Snapshot, effect: Effect)
    requires ValidStatus(s.status) && s.status.topology.Some? && Opens(effect)
    requires Offers(EvaluateStable(s), effect)
    ensures Attested(s, effect)
  {
    hide BeginStableFailover;
    hide CorrectionPlan;
    hide ConvergePlan;
    hide RequestRejection;
    hide Attested;
    hide HasPrimary;
    hide DistinctReplicas;
    hide ValidTransition;
    var configuration, policy := s.status.topology.value, s.status.policy.value;
    var status := if s.specObserved then s.status.(observedGeneration := s.desiredGeneration) else s.status;
    if BeginStableFailover(s, status, configuration, policy).Some? {
      FailoverOpensNothing(s, status, configuration, policy, effect);
    } else if CorrectionPlan(s, status, configuration, policy).Some? {
      CorrectionOpensNothing(s, status, configuration, policy, effect);
    } else {
      ConvergeOpens(s, ProjectRequest(s, status), policy, effect);
    }
  }

  lemma OthersOpenNothing(s: Snapshot, effect: Effect)
    requires ValidStatus(s.status)
    requires
      || Offers(EvaluateCleanup(s), effect)
      || Offers(EvaluateNeverInitialized(s), effect)
      || (s.status.provisioning.Some?
          && Offers(EvaluateProvisioning(s, s.status.provisioning.value, s.status.topology.value, s.status.policy.value), effect))
    ensures !Opens(effect)
  {
    hide ReplicaFailed;
    hide BuildComplete;
    hide ReportFor;
    hide ObservationFor;
    hide PrimaryOf;
    hide Scaffolded;
    hide ScaffoldingOf;
    hide FirstStaleImage;
    hide DurableEvidence;
    hide Genesis;
    hide FixedPolicy;
    hide HasPrimary;
    hide ValidTransition;
  }

  /** With nothing outstanding, writes are granted or routed only on an attested write quorum. */
  lemma ServiceOpens(s: Snapshot, effect: Effect)
    requires s.status.transition.None? && Offers(Evaluate(s), effect) && Opens(effect)
    ensures Attested(s, effect)
  {
    hide Attested;
    hide EvaluateStable;
    hide EvaluateNeverInitialized;
    hide EvaluateProvisioning;
    hide EvaluateCleanup;
    hide VersionMismatch;
    hide InvalidAgent;
    hide SwitchoverUnsafe;
    hide HasPrimary;
    hide DistinctReplicas;
    if s.status.topology.Some? && ValidStatus(s.status) && Offers(EvaluateStable(s), effect) {
      StableOpens(s, effect);
    } else {
      OthersOpenNothing(s, effect);
    }
  }

  // ---------------------------------------------------------------- replacement

  /** A granted primary and a write quorum run the new configuration alone, and every reporting member finished installing it. */
  predicate Replaces(s: Snapshot, transition: Transition)
    requires HasPrimary(transition.current)
  {
    var current := transition.current;
    var reports := Collect(current.members, (x: Identity) => AnyCurrentOnly(s, current, x));
    && (exists i :: 0 <= i < |reports| && reports[i].identity == PrimaryOf(current).identity && reports[i].access == Granted)
    && ReportQuorum(current, reports)
    && (forall m :: m in current.members ==> FinalInstalled(s, transition, m))
  }

  lemma {:induction false} InstallOrderCovers(members: seq<Member>, primary: Member, m: Member)
    requires m in members
    ensures primary in InstallOrder(members, primary)
    ensures m.identity == primary.identity || m in InstallOrder(members, primary)
  {
    assert members == [members[0]] + members[1..];
    if |members| > 1 { InstallOrderCovers(members[1..], primary, if m in members[1..] then m else members[1]); }
  }

  /** Finished installation is a matter of the member's identity alone. */
  lemma OrderInstalled(s: Snapshot, transition: Transition, m: Member)
    requires HasPrimary(transition.current) && m in transition.current.members
    requires forall x :: x in InstallOrder(transition.current.members, PrimaryOf(transition.current)) ==> FinalInstalled(s, transition, x)
    ensures FinalInstalled(s, transition, m)
  {
    hide PrimaryOf;
    hide ReportFor;
    hide InstallOrder;
    var primary := PrimaryOf(transition.current);
    InstallOrderCovers(transition.current.members, primary, m);
    assert FinalInstalled(s, transition, primary);
  }

  lemma ReplacementPlanAccepts(s: Snapshot, transition: Transition, previous: Configuration, t: Status)
    requires HasPrimary(transition.current) && s.status.transition == Some(transition)
    requires Offers(EvaluateReplacement(s, transition, previous), Write(t)) && t.transition.None?
    ensures Replaces(s, transition)
  {
    hide CurrentOnlyPhase;
    hide InstallOrder;
    hide Union;
    hide JointInstalled;
    hide FinalInstalled;
    hide Collect;
    hide ReportQuorum;
    hide PrimaryOf;
    hide AnyCurrentOnly;
    var current := transition.current;
    var reports := Collect(current.members, (x: Identity) => AnyCurrentOnly(s, current, x));
    var granted := Filter(reports, (r: Report) => r.identity == PrimaryOf(current).identity && r.access == Granted);
    if granted != [] { assert granted[0] in reports; }
    forall m | m in current.members ensures FinalInstalled(s, transition, m) { OrderInstalled(s, transition, m); }
  }

  /** A replacement leaves its transition only into that acceptance, or into a failover. */
  lemma ReplacementAccepts(s: Snapshot, t: Status)
    requires s.status.transition.Some? && s.status.transition.value.kind == Replacement
    requires Offers(Evaluate(s), Write(t)) && t.transition.None?
    ensures ValidStatus(s.status) && Replaces(s, s.status.transition.value)
  {
    hide EvaluateReplacement;
    hide EvaluateCleanup;
    hide CleanupRequired;
    hide VersionMismatch;
    hide InvalidAgent;
    hide Replaces;
    hide ReplicaFailed;
    hide AvailableReports;
    hide ReadQuorum;
    hide SelectCandidate;
    hide NotFaulted;
    hide PrimaryOf;
    hide HasPrimary;
    hide Union;
    hide ValidIntent;
    hide DistinctReplicas;
    ReplacementPlanAccepts(s, s.status.transition.value, s.status.topology.value, t);
  }
}
