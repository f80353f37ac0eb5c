/** What evidence a failover rests on when it begins, corrects itself, grants writes and is accepted. */
module FailoverTheorems {
  import opened Base
  import opened ControlTypes
  import opened Election
  import opened Evidence
  import opened SwitchoverPlan
  import opened FailoverPlan
  import opened ReplacementPlan
  import opened BootstrapPlan
  import opened Evaluator
  import opened Lawful
  import opened ControlRuns

  predicate IsFailover(status: Status)
  {
    status.transition.Some? && status.transition.value.kind == Failover
  }

  /** A read quorum of both configurations holds the joint configuration at the election epoch. */
  predicate Fenced(s: Snapshot, transition: Transition, previous: Configuration)
  {
    && ReadQuorum(previous, FencedReports(s, transition, previous), transition.policy.readQuorum)
    && ReadQuorum(transition.current, FencedReports(s, transition, previous), transition.policy.readQuorum)
  }

  /** The elected report is the healthy greatest of the fenced ones. */
  predicate Elected(s: Snapshot, transition: Transition, previous: Configuration, report: Report)
  {
    && Winner(s, s.status, transition, previous) == Some(report)
    && HealthyReport(s, report.identity).Some?
  }

  /** The provisional primary's own live joint report. */
  function LivePrimary(s: Snapshot, transition: Transition, previous: Configuration): (r: Option<Report>)
    requires HasPrimary(transition.current)
  {
    FindReport(Filter(FencedReports(s, transition, previous), (r: Report) => HealthyReport(s, r.identity).Some?),
               PrimaryOf(transition.current).identity)
  }

  /** Writes may open: installation of the elected configuration already began, or its primary won a fenced election. */
  ghost predicate MayGrant(s: Snapshot, transition: Transition, previous: Configuration)
    requires HasPrimary(transition.current)
  {
    && !RoutingPresent(s)
    && (|| CurrentOnlyStarted(s, transition.current)
        || (&& Fenced(s, transition, previous)
            && exists report :: Elected(s, transition, previous, report)
                 && (report.identity == PrimaryOf(transition.current).identity || GrantedBefore(s, transition, previous))))
  }

  predicate GrantedBefore(s: Snapshot, transition: Transition, previous: Configuration)
    requires HasPrimary(transition.current)
  {
    LivePrimary(s, transition, previous).Some? && LivePrimary(s, transition, previous).value.access == Granted
  }

  /** Acceptance: a granted primary and a write quorum run the elected configuration alone, and no healthy member is left behind. */
  predicate MayAccept(s: Snapshot, transition: Transition)
    requires HasPrimary(transition.current)
  {
    var current := transition.current;
    var reports := Collect(current.members, (x: Identity) => HealthyCurrentOnly(s, current, x));
    && !RoutingPresent(s)
    && (exists i :: 0 <= i < |reports| && reports[i].identity == PrimaryOf(current).identity && reports[i].access == Granted)
    && ReportQuorum(current, reports)
    && (forall i :: 0 <= i < |current.members| ==> CurrentOnlyInstalled(s, transition, current.members[i]))
  }

  /** A reallocation moves the same failover to a healthy elected member that is not its ungranted provisional primary. */
  ghost predicate MayCorrect(s: Snapshot, transition: Transition, previous: Configuration, next: Transition)
    requires HasPrimary(transition.current)
  {
    && !RoutingPresent(s) && !CurrentOnlyStarted(s, transition.current)
    && Fenced(s, transition, previous)
    && !GrantedBefore(s, transition, previous)
    && exists report :: Elected(s, transition, previous, report)
         && report.identity != PrimaryOf(transition.current).identity
         && next.current == WithPrimary(transition.current, report.identity, next.current.epoch)
  }

  /** The primary already serves, and a read quorum of both configurations is deactivated at the election epoch. */
  predicate MayFinish(s: Snapshot, transition: Transition, previous: Configuration)
    requires HasPrimary(transition.current)
  {
    && GrantedBefore(s, transition, previous)
    && DeactivationQuorum(previous, FencedReports(s, transition, previous), transition.policy.readQuorum, transition.current.epoch)
    && DeactivationQuorum(transition.current, FencedReports(s, transition, previous), transition.policy.readQuorum, transition.current.epoch)
  }

  predicate CurrentOnlyCommand(effect: Effect)
  {
    effect.Send? && effect.command.Ensure? && effect.command.ensured.currentOnly
  }

  /** What an effect of an active failover rests on. */
  ghost predicate Rests(s: Snapshot, transition: Transition, previous: Configuration, effect: Effect)
    requires HasPrimary(transition.current)
  {
    && (Opens(effect) ==> MayGrant(s, transition, previous))
    && (CurrentOnlyCommand(effect) ==> CurrentOnlyStarted(s, transition.current) || MayFinish(s, transition, previous))
    && (effect.Write? && effect.status.transition.None? ==> MayAccept(s, transition))
    && (effect.Write? && effect.status.transition.Some? && effect.status.transition.value.current != transition.current ==>
          MayCorrect(s, transition, previous, effect.status.transition.value))
  }

  lemma FinishRests(s: Snapshot, transition: Transition, previous: Configuration, effect: Effect)
    requires HasPrimary(transition.current) && s.status.transition == Some(transition) && !RoutingPresent(s)
    requires Offers(FinishFailover(s, s.status, transition, previous), effect)
    ensures effect.Write? && effect.status.transition.None? ==> MayAccept(s, transition)
    ensures effect.Write? && effect.status.transition.Some? ==> effect.status.transition.value.current == transition.current
    ensures !effect.Route?
  {
    hide CurrentOnlyInstalled;
    hide HealthyCurrentOnly;
    hide Collect;
    hide Retires;
    hide RetiredBuilds;
    hide PrimaryOf;
    var current := transition.current;
    var reports := Collect(current.members, (x: Identity) => HealthyCurrentOnly(s, current, x));
    var granted := Filter(reports, (r: Report) => r.identity == PrimaryOf(current).identity && r.access == Granted);
    if granted != [] { assert granted[0] in reports; }
  }

  lemma RepairRests(s: Snapshot, transition: Transition, previous: Configuration, primary: Identity, primaryReport: Report,
                    reports: seq<Report>, effect: Effect)
    requires s.status.transition == Some(transition)
    requires RepairPlan(s, s.status, transition, previous, primary, primaryReport, reports).Some?
    requires Offers(RepairPlan(s, s.status, transition, previous, primary, primaryReport, reports).value, effect)
    ensures !Opens(effect) && !CurrentOnlyCommand(effect)
    ensures effect.Write? ==> effect.status.transition.Some? && effect.status.transition.value.current == transition.current
  {
    hide BuildComplete;
    hide Lagging;
    hide FindReport;
    hide FirstWhere;
    hide IndexOf;
  }

  lemma ElectRests(s: Snapshot, transition: Transition, previous: Configuration, effect: Effect)
    requires HasPrimary(transition.current) && s.status.transition == Some(transition)
    requires !RoutingPresent(s) && !CurrentOnlyStarted(s, transition.current) && Fenced(s, transition, previous)
    requires ElectPlan(s, s.status, transition, previous).Some? && Offers(ElectPlan(s, s.status, transition, previous).value, effect)
    ensures Rests(s, transition, previous, effect)
  {
    hide Winner;
    hide FencedReports;
    hide CurrentOnlyStarted;
    hide DeactivationQuorum;
    hide ReadQuorum;
    hide RepairPlan;
    hide HealthyReport;
    hide SelectCandidate;
    hide FindReport;
    hide Filter;
    hide Union;
    hide PrimaryOf;
    hide MayAccept;
    var live := Filter(FencedReports(s, transition, previous), (r: Report) => HealthyReport(s, r.identity).Some?);
    var primary := PrimaryOf(transition.current).identity;
    var primaryReport := FindReport(live, primary);
    assert primaryReport == LivePrimary(s, transition, previous);
    var candidate := Winner(s, s.status, transition, previous);
    if candidate.Some? && HealthyReport(s, candidate.value.identity).Some? {
      assert Elected(s, transition, previous, candidate.value);
      if primaryReport.Some? && RepairPlan(s, s.status, transition, previous, primary, primaryReport.value, live).Some?
         && Offers(RepairPlan(s, s.status, transition, previous, primary, primaryReport.value, live).value, effect) {
        RepairRests(s, transition, previous, primary, primaryReport.value, live, effect);
      }
    }
  }

  lemma StartedMayGrant(s: Snapshot, transition: Transition, previous: Configuration)
    requires HasPrimary(transition.current) && !RoutingPresent(s) && CurrentOnlyStarted(s, transition.current)
    ensures MayGrant(s, transition, previous)
  {
    hide CurrentOnlyStarted;
  }

  /** Nothing is left to elect only once the primary serves behind a deactivation quorum. */
  lemma ElectedMayFinish(s: Snapshot, transition: Transition, previous: Configuration)
    requires HasPrimary(transition.current) && !RoutingPresent(s) && Fenced(s, transition, previous)
    requires ElectPlan(s, s.status, transition, previous).None?
    ensures MayGrant(s, transition, previous) && MayFinish(s, transition, previous)
  {
    hide Winner;
    hide FencedReports;
    hide CurrentOnlyStarted;
    hide DeactivationQuorum;
    hide ReadQuorum;
    hide RepairPlan;
    hide HealthyReport;
    hide SelectCandidate;
    hide FindReport;
    hide Filter;
    hide Union;
    hide PrimaryOf;
    var live := Filter(FencedReports(s, transition, previous), (r: Report) => HealthyReport(s, r.identity).Some?);
    assert FindReport(live, PrimaryOf(transition.current).identity) == LivePrimary(s, transition, previous);
    var candidate := Winner(s, s.status, transition, previous);
    assert Elected(s, transition, previous, candidate.value);
  }

  lemma FailoverPlanRests(s: Snapshot, transition: Transition, previous: Configuration, effect: Effect)
    requires HasPrimary(transition.current) && s.status.transition == Some(transition)
    requires Offers(EvaluateFailover(s, s.status, transition, previous), effect)
    ensures Rests(s, transition, previous, effect)
  {
    hide ElectPlan;
    hide FinishFailover;
    hide Winner;
    hide FencedReports;
    hide CurrentOnlyStarted;
    hide NextElection;
    hide InstallOrder;
    hide Union;
    hide MayAccept;
    hide MayFinish;
    hide MayGrant;
    hide MayCorrect;
    hide PrimaryOf;
    if !RoutingPresent(s) {
      if CurrentOnlyStarted(s, transition.current) {
        assert MayGrant(s, transition, previous) by { StartedMayGrant(s, transition, previous); }
      } else if Fenced(s, transition, previous) && ElectPlan(s, s.status, transition, previous).None? {
        ElectedMayFinish(s, transition, previous);
      }
      if Offers(FinishFailover(s, s.status, transition, previous), effect) { FinishRests(s, transition, previous, effect); }
      if !CurrentOnlyStarted(s, transition.current) && Fenced(s, transition, previous)
         && ElectPlan(s, s.status, transition, previous).Some? && Offers(ElectPlan(s, s.status, transition, previous).value, effect) {
        ElectRests(s, transition, previous, effect);
      }
    }
  }

  /** Effects of a failover come only from its own plan; anything else rewrites the status unchanged. */
  lemma FailoverDispatch(s: Snapshot, effect: Effect)
    requires IsFailover(s.status) && Offers(Evaluate(s), effect)
    ensures
      || effect == Write(s.status)
      || (&& ValidStatus(s.status)
          && Offers(EvaluateFailover(s, s.status, s.status.transition.value, s.status.topology.value), effect))
  {
    hide EvaluateFailover;
    hide EvaluateCleanup;
    hide CleanupRequired;
    hide VersionMismatch;
    hide InvalidAgent;
    hide ValidIntent;
    hide HasPrimary;
    hide PrimaryOf;
  }

  /**
   * Every effect of an outstanding failover, on every snapshot, rests on evidence: writes open only behind a fenced
   * read quorum of both configurations with the elected primary, the final installation starts only behind a
   * deactivation quorum of both, the primary is changed only to the elected one, and the topology is accepted only when
   * a write quorum and its granted primary run it alone.
   */
  lemma FailoverRests(s: Snapshot, effect: Effect)
    requires IsFailover(s.status) && Offers(Evaluate(s), effect) && effect != Write(s.status)
    ensures ValidStatus(s.status) && Rests(s, s.status.transition.value, s.status.topology.value, effect)
  {
    hide Evaluate;
    hide EvaluateFailover;
    hide Rests;
    FailoverDispatch(s, effect);
    FailoverPlanRests(s, s.status.transition.value, s.status.topology.value, effect);
  }

  // ---------------------------------------------------------------- beginning

  /** The configuration a new failover elects over: the outstanding replacement, or the accepted one. */
  function Basis(status: Status): (c: Configuration)
    requires status.topology.Some?
  {
    if status.transition.Some? then status.transition.value.current else status.topology.value
  }

  /**
   * The recorded primary failure is of the accepted primary and its delay has passed, routing is gone, a read quorum of
   * both configurations is healthy, and the candidate is the greatest of those reports.
   */
  predicate Warranted(s: Snapshot, next: Transition)
  {
    && ValidStatus(s.status) && s.status.topology.Some? && HasPrimary(Basis(s.status))
    && var accepted, basis, policy := s.status.topology.value, Basis(s.status), s.status.policy.value;
       var reports := AvailableReports(s, Union(accepted.members, basis.members));
       var candidate := SelectCandidate(basis, reports);
       && s.status.primaryFailure.Some? && s.status.primaryFailure.value.primary == PrimaryOf(accepted).identity
       && ReplicaFailed(s, PrimaryOf(basis).identity)
       && s.now >= SaturatingAdd(s.status.primaryFailure.value.startedAt, policy.failoverDelay)
       && !RoutingPresent(s)
       && ReadQuorum(accepted, reports, policy.readQuorum) && ReadQuorum(basis, reports, policy.readQuorum)
       && candidate.Some?
       && next.current == WithPrimary(basis, candidate.value.identity, Epoch(accepted.epoch.dataLoss, NextNumber(basis.epoch.number)))
       && next.electionLsn == Some(candidate.value.progress)
  }

  lemma StableBegins(s: Snapshot, status: Status, t: Status)
    requires ValidStatus(s.status) && s.status.topology.Some? && s.status.transition.None?
    requires status == s.status.(observedGeneration := status.observedGeneration)
    requires
      var p := BeginStableFailover(s, status, s.status.topology.value, s.status.policy.value);
      p.Some? && Offers(p.value, Write(t))
    requires IsFailover(t)
    ensures Warranted(s, t.transition.value)
  {
    hide ReplicaFailed;
    hide AvailableReports;
    hide ReadQuorum;
    hide SelectCandidate;
    hide NotFaulted;
    hide PrimaryOf;
    hide Union;
    hide HasPrimary;
    hide DistinctReplicas;
  }

  lemma ReplacementBegins(s: Snapshot, t: Status)
    requires ValidStatus(s.status) && s.status.transition.Some? && s.status.transition.value.kind == Replacement
    requires
      var p := BeginReplacementFailover(s, s.status, s.status.topology.value, s.status.transition.value, s.status.policy.value);
      p.Some? && Offers(p.value, Write(t))
    requires IsFailover(t)
    ensures Warranted(s, t.transition.value)
  {
    hide ReplicaFailed;
    hide AvailableReports;
    hide ReadQuorum;
    hide SelectCandidate;
    hide NotFaulted;
    hide PrimaryOf;
    hide Union;
    hide HasPrimary;
    hide DistinctReplicas;
    hide ValidIntent;
  }

  lemma ConvergeBeginsNone(s: Snapshot, status: Status, configuration: Configuration, policy: Policy, t: Status)
    requires s.status.transition.None? && status.transition.None?
    requires HasPrimary(configuration) && status.topology == Some(configuration) && status.policy.Some?
    requires Offers(ConvergePlan(s, status, configuration, policy), Write(t))
    ensures !IsFailover(t)
  {
    hide Attested;
    hide MemberOf;
    hide PrimaryOf;
    hide NeedsReplacement;
    hide FirstWhere;
    hide FindCandidate;
    hide FirstExtra;
    hide RecoveringService;
    hide PrimaryReport;
    hide AttestedCount;
  }

  lemma StableOnly(s: Snapshot, t: Status)
    requires ValidStatus(s.status) && s.status.topology.Some? && s.status.transition.None?
    requires Offers(EvaluateStable(s), Write(t)) && IsFailover(t)
    ensures Warranted(s, t.transition.value)
  {
    hide BeginStableFailover;
    hide CorrectionPlan;
    hide ConvergePlan;
    hide RequestRejection;
    hide Warranted;
    hide HasPrimary;
    hide DistinctReplicas;
    var configuration, policy := s.status.topology.value, s.status.policy.value;
    var status := if s.specObserved then s.status.(observedGeneration := s.desiredGeneration) else s.status;
    var failover := BeginStableFailover(s, status, configuration, policy);
    if failover.Some? {
      StableBegins(s, status, t);
    } else {
      var correction := CorrectionPlan(s, status, configuration, policy);
      if correction.Some? {
        CorrectionWritesNothing(s, status, configuration, policy, t);
      } else if Offers(ConvergePlan(s, ProjectRequest(s, status), configuration, policy), Write(t)) {
        ConvergeBeginsNone(s, ProjectRequest(s, status), configuration, policy, t);
      }
    }
  }

  lemma CorrectionWritesNothing(s: Snapshot, status: Status, configuration: Configuration, policy: Policy, t: Status)
    requires CorrectionPlan(s, status, configuration, policy).Some?
    ensures !Offers(CorrectionPlan(s, status, configuration, policy).value, Write(t))
  {
    hide EndpointMissing;
    hide ReportFor;
  }

  lemma OthersBeginNone(s: Snapshot, t: Status)
    requires ValidStatus(s.status) && !IsFailover(s.status)
    requires
      || Offers(EvaluateCleanup(s), Write(t))
      || (s.status.transition.None? && Offers(EvaluateNeverInitialized(s), Write(t)))
      || (s.status.transition.None? && s.status.provisioning.Some?
          && Offers(EvaluateProvisioning(s, s.status.provisioning.value, s.status.topology.value, s.status.policy.value), Write(t)))
    ensures !IsFailover(t)
  {
    hide ReplicaFailed;
    hide BuildComplete;
    hide ReportFor;
    hide ObservationFor;
    hide PrimaryOf;
    hide Scaffolded;
    hide ScaffoldingOf;
    hide FirstStaleImage;
    hide DurableEvidence;
    hide Genesis;
    hide FixedPolicy;
    hide HasPrimary;
    hide ValidTransition;
  }

  lemma ReplacementOnly(s: Snapshot, t: Status)
    requires ValidStatus(s.status) && s.status.transition.Some? && s.status.transition.value.kind == Replacement
    requires Offers(EvaluateTransition(s, s.status.transition.value), Write(t)) && IsFailover(t)
    ensures Warranted(s, t.transition.value)
  {
    hide BeginReplacementFailover;
    hide Warranted;
    hide CurrentOnlyPhase;
    hide FinalInstalled;
    hide JointInstalled;
    hide FirstWhere;
    hide InstallOrder;
    hide Collect;
    hide Filter;
    hide Union;
    hide ReportQuorum;
    hide PrimaryOf;
    hide HasPrimary;
    hide FinalCommand;
    hide ValidIntent;
    var transition := s.status.transition.value;
    var p := BeginReplacementFailover(s, s.status, s.status.topology.value, transition, s.status.policy.value);
    if p.Some? && Offers(p.value, Write(t)) { ReplacementBegins(s, t); }
  }

  /** A failover begins only on that evidence, whatever else is outstanding. */
  lemma FailoverBegins(s: Snapshot, t: Status)
    requires !IsFailover(s.status) && Offers(Evaluate(s), Write(t)) && IsFailover(t)
    ensures Warranted(s, t.transition.value)
  {
    hide Warranted;
    hide EvaluateTransition;
    hide EvaluateStable;
    hide EvaluateNeverInitialized;
    hide EvaluateProvisioning;
    hide EvaluateCleanup;
    hide CleanupRequired;
    hide VersionMismatch;
    hide InvalidAgent;
    hide SwitchoverUnsafe;
    hide HasPrimary;
    hide ValidIntent;
    hide DistinctReplicas;
    EvaluateLawful(s);
    if s.status.transition.None? {
      if s.status.topology.Some? && Offers(EvaluateStable(s), Write(t)) { StableOnly(s, t); } else { OthersBeginNone(s, t); }
    } else {
      ReplacementOnly(s, t);
    }
  }
}
