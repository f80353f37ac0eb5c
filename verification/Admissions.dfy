/** What evidence the evaluator's other admissions rest on: genesis, replacement, switchover, handoff and compensation. */
module Admissions {
  import opened Base
  import opened ControlTypes
  import opened Election
  import opened Evidence
  import opened SwitchoverPlan
  import opened SwitchoverExecution
  import opened FailoverPlan
  import opened ReplacementPlan
  import opened BootstrapPlan
  import opened Evaluator
  import opened Lawful
  import opened ControlRuns
  import FailoverTheorems

  // ---------------------------------------------------------------- genesis

  lemma BootstrapAccepts(s: Snapshot, transition: Transition, t: Status, k: nat)
    requires s.status.topology.None? && s.status.transition == Some(transition) && k < |transition.current.members|
    requires Offers(EvaluateBootstrap(s, transition), Write(t)) && t.topology.Some?
    ensures t.topology == Some(transition.current) && HasGenesis(s, transition, transition.current.members[k])
  {
    hide InstallFrom;
    hide HasGenesis;
    hide Mismatched;
    hide Orphaned;
    hide FindCandidate;
    hide FirstWhere;
  }

  /** Genesis is accepted only when every member of it is installed, write-closed and empty. */
  lemma GenesisAccepts(s: Snapshot, t: Status, k: nat)
    requires s.status.topology.None? && Offers(Evaluate(s), Write(t)) && t.topology.Some?
    requires s.status.transition.Some? && k < |s.status.transition.value.current.members|
    ensures t.topology == Some(s.status.transition.value.current)
    ensures HasGenesis(s, s.status.transition.value, s.status.transition.value.current.members[k])
  {
    hide EvaluateBootstrap;
    hide SwitchoverUnsafe;
    hide HasGenesis;
    hide VersionMismatch;
    hide InvalidAgent;
    hide HasPrimary;
    hide DistinctReplicas;
    hide EvaluateCleanup;
    EvaluateLawful(s);
    if ValidStatus(s.status) && Offers(EvaluateBootstrap(s, s.status.transition.value), Write(t)) {
      BootstrapAccepts(s, s.status.transition.value, t, k);
    }
  }

  // ---------------------------------------------------------------- switchover

  /** The request is new and allowed, nothing else is going on, and every member attests the accepted configuration. */
  predicate Admissible(s: Snapshot, t: Status)
  {
    && ValidStatus(s.status) && s.status.topology.Some? && s.request.Some?
    && var accepted := s.status.topology.value;
       var target := MemberOf(accepted, s.request.value.targetReplicaId);
       && RequestRejection(s, s.status).None?
       && s.status.primaryFailure.None? && s.status.quorumLoss.None? && s.status.pendingCleanup.None?
       && (s.status.lastSwitchover.Some? ==> s.status.lastSwitchover.value.requestId != s.request.value.requestId)
       && (forall i :: 0 <= i < |accepted.members| ==> Attested(s, accepted, accepted.members[i]))
       && accepted.epoch.number < I64_MAX
       && target.Some?
       && t.transition.Some?
       && t.transition.value.current == Requested(accepted, PrimaryOf(accepted).identity, target.value.identity)
  }

  lemma RejectionIgnores(s: Snapshot, generation: u64, rejection: Option<Rejection>)
    ensures RequestRejection(s, s.status.(observedGeneration := generation, rejection := rejection)) == RequestRejection(s, s.status)
  {
    hide TargetIdle;
    hide MemberOf;
  }

  lemma ConvergeAdmits(s: Snapshot, status: Status, policy: Policy, t: Status)
    requires ValidStatus(s.status) && s.status.topology.Some? && s.status.transition.None?
    requires status == s.status.(observedGeneration := status.observedGeneration, rejection := RequestRejection(s, s.status))
    requires Offers(ConvergePlan(s, status, s.status.topology.value, policy), Write(t)) && IsSwitchover(t)
    ensures Admissible(s, t)
  {
    hide Attested;
    hide MemberOf;
    hide PrimaryOf;
    hide NeedsReplacement;
    hide FirstWhere;
    hide FindCandidate;
    hide FirstExtra;
    hide RecoveringService;
    hide PrimaryReport;
    hide AttestedCount;
    hide RequestRejection;
    hide HasPrimary;
    hide DistinctReplicas;
    hide Requested;
  }

  lemma StableAdmits(s: Snapshot, t: Status)
    requires ValidStatus(s.status) && s.status.topology.Some? && s.status.transition.None?
    requires Offers(EvaluateStable(s), Write(t)) && IsSwitchover(t)
    ensures Admissible(s, t)
  {
    hide CorrectionPlan;
    hide ConvergePlan;
    hide RequestRejection;
    hide Admissible;
    hide HasPrimary;
    hide PrimaryOf;
    hide DistinctReplicas;
    hide ReplicaFailed;
    hide AvailableReports;
    hide ReadQuorum;
    hide SelectCandidate;
    hide NotFaulted;
    hide Union;
    var configuration, policy := s.status.topology.value, s.status.policy.value;
    var status := if s.specObserved then s.status.(observedGeneration := s.desiredGeneration) else s.status;
    RejectionIgnores(s, status.observedGeneration, status.rejection);
    if BeginStableFailover(s, status, configuration, policy).None? {
      var correction := CorrectionPlan(s, status, configuration, policy);
      if correction.Some? {
        FailoverTheorems.CorrectionWritesNothing(s, status, configuration, policy, t);
      } else if Offers(ConvergePlan(s, ProjectRequest(s, status), configuration, policy), Write(t)) {
        ConvergeAdmits(s, ProjectRequest(s, status), policy, t);
      }
    }
  }

  lemma ProvisioningAdmits(s: Snapshot, t: Status)
    requires ValidStatus(s.status) && s.status.transition.None? && s.status.provisioning.Some?
    requires Offers(EvaluateProvisioning(s, s.status.provisioning.value, s.status.topology.value, s.status.policy.value), Write(t))
    ensures !IsSwitchover(t)
    ensures t.transition.Some? ==> Copied(s, t)
  {
    hide ReplicaFailed;
    hide BuildComplete;
    hide ObservationFor;
    hide PrimaryOf;
    hide HasPrimary;
    hide DistinctReplicas;
    hide ValidTransition;
    hide ReplaceMember;
  }

  /** Provisioning, cleanup and genesis never begin a switchover; a replacement begins only on a complete copy. */
  lemma OthersAdmit(s: Snapshot, t: Status)
    requires ValidStatus(s.status) && s.status.transition.None?
    requires
      || Offers(EvaluateCleanup(s), Write(t))
      || Offers(EvaluateNeverInitialized(s), Write(t))
      || (s.status.provisioning.Some?
          && Offers(EvaluateProvisioning(s, s.status.provisioning.value, s.status.topology.value, s.status.policy.value), Write(t)))
    ensures !IsSwitchover(t)
    ensures t.transition.Some? && t.transition.value.kind == Replacement ==> Copied(s, t)
  {
    hide EvaluateProvisioning;
    hide Copied;
    hide Scaffolded;
    hide ScaffoldingOf;
    hide FirstStaleImage;
    hide DurableEvidence;
    hide Genesis;
    hide FixedPolicy;
    hide HasPrimary;
    hide DistinctReplicas;
    hide ValidTransition;
    if s.status.provisioning.Some?
       && Offers(EvaluateProvisioning(s, s.status.provisioning.value, s.status.topology.value, s.status.policy.value), Write(t)) {
      ProvisioningAdmits(s, t);
    }
  }

  /** A switchover begins only on an admissible request. */
  lemma SwitchoverBegins(s: Snapshot, t: Status)
    requires s.status.transition.None? && Offers(Evaluate(s), Write(t)) && IsSwitchover(t)
    ensures Admissible(s, t)
  {
    hide Admissible;
    hide EvaluateStable;
    hide EvaluateNeverInitialized;
    hide EvaluateProvisioning;
    hide EvaluateCleanup;
    hide VersionMismatch;
    hide InvalidAgent;
    hide HasPrimary;
    hide DistinctReplicas;
    if s.status.topology.Some? && ValidStatus(s.status) && Offers(EvaluateStable(s), Write(t)) {
      StableAdmits(s, t);
    } else {
      OthersAdmit(s, t);
    }
  }

  // ---------------------------------------------------------------- replacement

  /** The accepted primary works, and both ends report the copy of the provisioned incarnation complete. */
  predicate Copied(s: Snapshot, t: Status)
  {
    && ValidStatus(s.status) && s.status.provisioning.Some?
    && var provisioning, accepted := s.status.provisioning.value, s.status.topology.value;
       var target, source := TargetOf(provisioning), PrimaryOf(accepted).identity;
       && !ReplicaFailed(s, source)
       && ReportFor(s, source).Some? && ReportFor(s, target).Some?
       && BuildComplete(ReportFor(s, source).value, provisioning.operationId, target, Some(ReportFor(s, source).value.progress))
       && BuildComplete(ReportFor(s, target).value, provisioning.operationId, target, None)
       && t.transition.Some?
       && t.transition.value.current == ReplaceMember(accepted, provisioning.replacing, target, s.status.policy.value.writeQuorum)
  }

  lemma ConvergeStartsNoReplacement(s: Snapshot, status: Status, configuration: Configuration, policy: Policy, t: Status)
    requires s.status.transition.None? && status.transition.None?
    requires HasPrimary(configuration) && status.topology == Some(configuration) && status.policy.Some?
    requires Offers(ConvergePlan(s, status, configuration, policy), Write(t))
    ensures t.transition.Some? ==> t.transition.value.kind == Switchover
  {
    hide Attested;
    hide MemberOf;
    hide PrimaryOf;
    hide HasPrimary;
    hide NeedsReplacement;
    hide FirstWhere;
    hide FindCandidate;
    hide FirstExtra;
    hide RecoveringService;
    hide PrimaryReport;
    hide AttestedCount;
  }

  lemma StableStartsNoReplacement(s: Snapshot, t: Status)
    requires ValidStatus(s.status) && s.status.topology.Some? && s.status.transition.None?
    requires Offers(EvaluateStable(s), Write(t))
    ensures t.transition.Some? ==> t.transition.value.kind in {Failover, Switchover}
  {
    hide CorrectionPlan;
    hide ConvergePlan;
    hide RequestRejection;
    hide HasPrimary;
    hide PrimaryOf;
    hide DistinctReplicas;
    hide ReplicaFailed;
    hide AvailableReports;
    hide ReadQuorum;
    hide SelectCandidate;
    hide NotFaulted;
    hide Union;
    var configuration, policy := s.status.topology.value, s.status.policy.value;
    var status := if s.specObserved then s.status.(observedGeneration := s.desiredGeneration) else s.status;
    if BeginStableFailover(s, status, configuration, policy).None? {
      if CorrectionPlan(s, status, configuration, policy).Some? {
        FailoverTheorems.CorrectionWritesNothing(s, status, configuration, policy, t);
      } else if Offers(ConvergePlan(s, ProjectRequest(s, status), configuration, policy), Write(t)) {
        ConvergeStartsNoReplacement(s, ProjectRequest(s, status), configuration, policy, t);
      }
    }
  }

  /** A replacement begins only on a complete copy, and swaps in exactly the provisioned incarnation. */
  lemma ReplacementBegins(s: Snapshot, t: Status)
    requires s.status.transition.None? && Offers(Evaluate(s), Write(t))
    requires t.transition.Some? && t.transition.value.kind == Replacement
    ensures Copied(s, t)
  {
    hide Copied;
    hide EvaluateStable;
    hide EvaluateNeverInitialized;
    hide EvaluateProvisioning;
    hide EvaluateCleanup;
    hide VersionMismatch;
    hide InvalidAgent;
    hide HasPrimary;
    hide DistinctReplicas;
    if s.status.topology.Some? && ValidStatus(s.status) && Offers(EvaluateStable(s), Write(t)) {
      StableStartsNoReplacement(s, t);
    } else {
      OthersAdmit(s, t);
    }
  }

  // ---------------------------------------------------------------- handoff and compensation

  function StepIntent(status: Status): (i: Intent)
    requires IsSwitchover(status) && status.transition.value.switchover.Some?
  {
    status.transition.value.switchover.value
  }

  /** The frozen handoff is the idle source's own certificate, for this operation, within what it has and with writes closed. */
  predicate Certified(s: Snapshot, handoff: Handoff)
  {
    && ValidStatus(s.status) && IsSwitchover(s.status)
    && var intent := s.status.transition.value.switchover.value;
       var starting := s.status.topology.value;
       var source := HealthyReport(s, intent.source);
       && source.Some?
       && StableMember(source.value, PrimaryOf(starting), starting)
       && source.value.prepared == Some(handoff)
       && HandoffMatches(handoff, intent, starting)
       && handoff.lsn <= source.value.progress
       && source.value.access != Granted
  }

  /**
   * Compensation begins only once some member admitted the requested epoch, with the healthy source holding the handoff or
   * finished with it, write-closed and caught up, a write quorum surviving and a read quorum proven write-closed.
   */
  predicate Compensable(s: Snapshot)
  {
    && ValidStatus(s.status) && IsSwitchover(s.status)
    && var transition := s.status.transition.value;
       var intent := transition.switchover.value;
       var starting := s.status.topology.value;
       var source := HealthyReport(s, intent.source);
       && source.Some? && !DefinitivelyLost(s, intent.source)
       && AuthorityAdmitted(s, starting, intent)
       && (DefinitivelyLost(s, intent.target) || intent.resolution == RestoringOldPrimary)
       && intent.handoff.Some?
       && (source.value.prepared == intent.handoff || SourceComplete(source.value, transition.id, transition.current, intent.source, starting))
       && source.value.access != Granted && source.value.progress >= intent.handoff.value.lsn
       && Survivors(s, starting.members) >= transition.policy.writeQuorum
       && ReadQuorum(starting, CompensationReports(s, starting, intent), transition.policy.readQuorum)
  }

  /** What a rewritten intent rests on. */
  predicate Moved(s: Snapshot, t: Status)
  {
    && IsSwitchover(s.status) && s.status.transition.value.switchover.Some?
    && (IsSwitchover(t) && t.transition.value.switchover.Some? ==>
          && (StepIntent(s.status).handoff != StepIntent(t).handoff ==>
                StepIntent(t).handoff.Some? && Certified(s, StepIntent(t).handoff.value))
          && (StepIntent(t).resolution == CompensatingOldPrimary && StepIntent(s.status).resolution != CompensatingOldPrimary ==>
                Compensable(s)))
  }

  lemma UnsafeMoves(s: Snapshot, t: Status)
    requires IsSwitchover(s.status) && s.status.transition.value.switchover.Some?
    requires Offers(SwitchoverUnsafe(s), Write(t))
    ensures Moved(s, t)
  {
    hide FirstOpen;
    hide ProvenReport;
    hide Certified;
    hide Compensable;
  }

  lemma UnchangedMoves(s: Snapshot, t: Status)
    requires IsSwitchover(s.status) && s.status.transition.value.switchover.Some? && t.transition == s.status.transition
    ensures Moved(s, t)
  {
    hide Certified;
    hide Compensable;
  }

  lemma RecoverMoves(s: Snapshot, transition: Transition, intent: Intent, starting: Configuration, t: Status)
    requires ValidStatus(s.status) && IsSwitchover(s.status) && s.status.transition == Some(transition)
    requires transition.switchover == Some(intent) && s.status.topology == Some(starting)
    requires RecoverSwitchover(s, transition, intent, starting).Some?
    requires Offers(RecoverSwitchover(s, transition, intent, starting).value, Write(t))
    ensures Moved(s, t)
  {
    hide SwitchoverUnsafe;
    hide AuthorityAdmitted;
    hide DefinitivelyLost;
    hide HealthyReport;
    hide Survivors;
    hide StartingEvidence;
    hide HandoffMatches;
    hide SourceComplete;
    hide CompensationReports;
    hide ReadQuorum;
    hide Certified;
    hide HasPrimary;
    hide PrimaryOf;
    hide ValidTransition;
    if Offers(SwitchoverUnsafe(s), Write(t)) { UnsafeMoves(s, t); }
  }

  lemma ExecuteMoves(s: Snapshot, transition: Transition, e: Execution, source: Report, t: Status)
    requires ValidStatus(s.status) && IsSwitchover(s.status) && s.status.transition == Some(transition)
    requires e == ExecutionOf(transition, transition.switchover.value, s.status.topology.value)
    requires HealthyReport(s, e.intent.source) == Some(source)
    requires Offers(ExecutePlan(s, transition, e, source), Write(t))
    ensures Moved(s, t)
  {
    hide SwitchoverUnsafe;
    hide StableMember;
    hide HandoffMatches;
    hide SourceRetains;
    hide TargetCaughtUp;
    hide FirstFaulted;
    hide Ordered;
    hide Survivors;
    hide HealthyReport;
    hide JointFrom;
    hide FinalFrom;
    hide ReportQuorum;
    hide Compensable;
    hide HasPrimary;
    hide PrimaryOf;
    hide DistinctReplicas;
    hide SameMembers;
    if Offers(SwitchoverUnsafe(s), Write(t)) { UnsafeMoves(s, t); }
  }

  lemma SwitchoverPlanMoves(s: Snapshot, transition: Transition, t: Status)
    requires ValidStatus(s.status) && IsSwitchover(s.status) && s.status.transition == Some(transition)
    requires Offers(EvaluateSwitchover(s, transition), Write(t))
    ensures Moved(s, t)
  {
    hide SwitchoverUnsafe;
    hide RecoverSwitchover;
    hide ExecutePlan;
    hide FirstMissing;
    hide HealthyReport;
    hide DefinitivelyLost;
    hide RequestRejection;
    hide Moved;
    hide ValidIntent;
    hide DistinctReplicas;
    var intent := transition.switchover.value;
    var starting := s.status.topology.value;
    if Offers(SwitchoverUnsafe(s), Write(t)) { UnsafeMoves(s, t); }
    if t.transition == s.status.transition { UnchangedMoves(s, t); }
    var recovery := RecoverSwitchover(s, transition, intent, starting);
    if recovery.Some? {
      if Offers(recovery.value, Write(t)) { RecoverMoves(s, transition, intent, starting, t); }
    } else {
      var source := HealthyReport(s, intent.source);
      var e := ExecutionOf(transition, intent, starting);
      if source.Some? && Offers(ExecutePlan(s, transition, e, source.value), Write(t)) {
        ExecuteMoves(s, transition, e, source.value, t);
      }
    }
  }

  /** A handoff is frozen only as the source's certificate, and compensation begins only when it is recoverable. */
  lemma SwitchoverMoves(s: Snapshot, t: Status)
    requires IsSwitchover(s.status) && s.status.transition.value.switchover.Some? && Offers(Evaluate(s), Write(t))
    ensures Moved(s, t)
  {
    hide SwitchoverUnsafe;
    hide EvaluateSwitchover;
    hide ValidIntent;
    hide DistinctReplicas;
    hide HasPrimary;
    hide VersionMismatch;
    hide InvalidAgent;
    hide Moved;
    if Offers(SwitchoverUnsafe(s), Write(t)) {
      UnsafeMoves(s, t);
    } else if t.transition == s.status.transition {
      UnchangedMoves(s, t);
    } else {
      SwitchoverPlanMoves(s, s.status.transition.value, t);
    }
  }
}
