/** What a planned switchover guarantees, over single decisions and over whole runs. */
module SwitchoverTheorems {
  import opened Base
  import opened ControlTypes
  import opened Election
  import opened Evidence
  import opened SwitchoverPlan
  import opened SwitchoverExecution
  import opened Evaluator
  import opened Protocol
  import opened Lawful
  import opened ControlRuns

  // ---------------------------------------------------------------- the resolution is one-way

  /** A planned switchover always carries its intent, and nothing else does. */
  predicate Intentional(status: Status)
  {
    status.transition.Some? ==> (status.transition.value.kind == Switchover <==> status.transition.value.switchover.Some?)
  }

  lemma {:induction false} HistoryIntentional(c: Control, k: nat)
    requires Decided(c) && k < |c.history|
    ensures Intentional(c.history[k])
  {
    hide Decides;
    if k > 0 {
      HistoryIntentional(c, k - 1);
      DecidesLawful(c.history[k - 1], Write(c.history[k]));
    }
  }

  function IntentOf(status: Status): (i: Intent)
    requires IsSwitchover(status) && Intentional(status)
  {
    status.transition.value.switchover.value
  }

  /**
   * While one planned switchover is outstanding, what was asked never changes, the handoff is frozen once it is
   * known, and the resolution only rises: requested target, restoring, compensating, unsafe.
   */
  lemma {:induction false} ResolutionOneWay(c: Control, i: nat, j: nat)
    requires Decided(c) && i <= j < |c.history|
    requires forall k :: i <= k <= j ==> IsSwitchover(c.history[k])
    ensures Intentional(c.history[i]) && Intentional(c.history[j])
    ensures c.history[i].topology == c.history[j].topology
    ensures IntentAdvances(IntentOf(c.history[i]), IntentOf(c.history[j]))
    decreases j
  {
    hide Decides;
    HistoryIntentional(c, i);
    HistoryIntentional(c, j);
    if i < j {
      ResolutionOneWay(c, i, j - 1);
      DecidesLawful(c.history[j - 1], Write(c.history[j]));
    }
  }

  // ---------------------------------------------------------------- unsafe is final

  /** From an unsafe switchover every decision keeps the topology and the transition, and none opens writes. */
  lemma UnsafeDecision(status: Status, effect: Effect)
    requires IsUnsafe(status) && Decides(status, effect)
    ensures !Opens(effect)
    ensures effect.Write? ==> effect.status == status.(lastSwitchover := effect.status.lastSwitchover)
  {
    hide EvaluateValid;
    hide FirstOpen;
    hide ProvenReport;
    hide ValidStatus;
    var s: Snapshot :| s.status == status && Offers(Evaluate(s), effect);
  }

  /** Once an unsafe resolution is persisted, no later status changes authority. */
  lemma {:induction false} UnsafeForever(c: Control, i: nat, j: nat)
    requires Decided(c) && i <= j < |c.history| && IsUnsafe(c.history[i])
    ensures IsUnsafe(c.history[j])
    ensures c.history[j].topology == c.history[i].topology && c.history[j].transition == c.history[i].transition
    decreases j
  {
    hide Decides;
    if i < j {
      UnsafeForever(c, i, j - 1);
      UnsafeDecision(c.history[j - 1], Write(c.history[j]));
    }
  }

  /** And no decision made from it or from a later status grants writes or publishes routing. */
  lemma UnsafeNeverOpens(events: seq<Event>, i: nat, k: nat)
    requires Possible(events) && i < |After(events).history| && IsUnsafe(After(events).history[i])
    requires k < |After(events).issued| && After(events).issued[k].index >= i
    ensures !Opens(After(events).issued[k].effect)
  {
    hide Decides;
    hide After;
    RunDecided(events);
    var c := After(events);
    UnsafeForever(c, i, c.issued[k].index);
    UnsafeDecision(c.history[c.issued[k].index], c.issued[k].effect);
  }

  /** Nothing routes writes, the observation is complete, and every observed Pod is proven closed. */
  predicate SafetyClosed(s: Snapshot)
  {
    && !RoutingPresent(s)
    && !s.observationFailed
    && forall k :: 0 <= k < |s.replicas| && HasPod(s.replicas[k]) ==> Closed(s, s.replicas[k])
  }

  /** An unsafe switchover is reported as ended exactly when every possible writer is closed. */
  lemma UnsafeEndsIffClosed(s: Snapshot)
    requires IsUnsafe(s.status)
    ensures Evaluate(s) == PlanUnsafe(s.status.(lastSwitchover := Some(UnsafeReceipt(s.status.transition.value.switchover.value))))
      <==> SafetyClosed(s)
  {
    hide EvaluateValid;
    hide ValidStatus;
    hide Closed;
    var i := FirstOpen(s, 0);
    if i < |s.replicas| { assert !SafetyClosed(s); }
  }

  /** No decision, from any status, newly records an unsafe outcome before everything is closed. */
  lemma UnsafeReceiptOnlyWhenClosed(s: Snapshot, t: Status)
    requires Offers(Evaluate(s), Write(t))
    requires t.lastSwitchover != s.status.lastSwitchover && t.lastSwitchover.Some? && t.lastSwitchover.value.outcome == OutcomeUnsafe
    ensures IsUnsafe(s.status) && SafetyClosed(s)
  {
    hide EvaluateValid;
    hide ValidStatus;
    hide Closed;
    EvaluateLawful(s);
  }

  // ---------------------------------------------------------------- ending a switchover

  /** No command opens writes while a switchover is outstanding. */
  lemma SwitchoverNeverGrants(status: Status, effect: Effect)
    requires IsSwitchover(status) && Decides(status, effect)
    ensures !Opens(effect)
  {
    hide Decides;
    if Opens(effect) { OpensUnderAuthority(status, effect); }
  }

  /** The member is write-closed with nothing pending under current-only authority, or provably gone while compensating. */
  predicate Settled(s: Snapshot, transition: Transition, starting: Configuration, member: Member)
    requires transition.switchover.Some? && HasPrimary(transition.current)
  {
    var e := ExecutionOf(transition, transition.switchover.value, starting);
    || FinishedMember(s, e, member)
    || (e.compensating && member.identity != PrimaryOf(transition.current).identity && PodAbsent(s, member.identity))
  }

  /** These reports come from jointly complete members, and make up a write quorum of both configurations. */
  ghost predicate JointQuorum(s: Snapshot, e: Execution, primary: Identity, reports: seq<Report>)
  {
    && (forall r :: r in reports ==> exists m :: m in e.current.members && JointlyComplete(s, e, primary, m) && MemberReport(s, e, primary, m) == Some(r))
    && ReportQuorum(e.previous, reports) && ReportQuorum(e.current, reports)
  }

  /** Joint installation reached a write quorum of both configurations, or some member is already past it. */
  ghost predicate JointReached(s: Snapshot, transition: Transition, starting: Configuration)
    requires transition.switchover.Some? && HasPrimary(transition.current)
  {
    var e := ExecutionOf(transition, transition.switchover.value, starting);
    var primary := PrimaryOf(transition.current).identity;
    || (exists m :: m in transition.current.members && PastJoint(s, e, primary, m))
    || (exists reports: seq<Report> :: JointQuorum(s, e, primary, reports))
  }

  /** The new primary is healthy and has verified everything up to the frozen handoff behind joint quorums; every member is settled. */
  ghost predicate Accepts(s: Snapshot, t: Status)
  {
    && ValidStatus(s.status) && IsSwitchover(s.status)
    && var transition := s.status.transition.value;
       var intent := transition.switchover.value;
       var primary := PrimaryOf(transition.current).identity;
       var report := HealthyReport(s, primary);
       && !RoutingPresent(s)
       && t.topology == Some(transition.current)
       && intent.handoff.Some?
       && report.Some? && report.value.catchUpComplete
       && report.value.verified.Some? && report.value.verified.value >= intent.handoff.value.lsn
       && JointReached(s, transition, s.status.topology.value)
       && (forall k :: 0 <= k < |transition.current.members| ==>
             Settled(s, transition, s.status.topology.value, transition.current.members[k]))
       && t.lastSwitchover == Some(Receipt(intent.requestId, intent.target.replicaId, Some(intent.target), Some(primary),
            if intent.resolution == CompensatingOldPrimary then OldPrimaryCompensated else RequestedTargetCompleted))
       && primary == (if intent.resolution == CompensatingOldPrimary then intent.source else intent.target)
  }

  /** No member ever admitted the requested epoch, and the healthy source has retired the preparation. */
  predicate Restores(s: Snapshot, t: Status)
  {
    && ValidStatus(s.status) && IsSwitchover(s.status)
    && var transition := s.status.transition.value;
       var intent := transition.switchover.value;
       var starting := s.status.topology.value;
       && !RoutingPresent(s)
       && t.topology == s.status.topology
       && intent.resolution == RestoringOldPrimary
       && !AuthorityAdmitted(s, starting, intent)
       && HealthyReport(s, intent.source).Some? && HealthyReport(s, intent.source).value.prepared.None?
       && HealthyReport(s, intent.source).value.retained == Some(OnTransition("restore", transition, None))
       && (forall k :: 0 <= k < |starting.members| ==> StartingEvidence(s, starting, intent, starting.members[k]))
       && t.lastSwitchover == Some(Receipt(intent.requestId, intent.target.replicaId, Some(intent.target), Some(intent.source), OldPrimaryRestored))
  }

  lemma UnsafeKeepsTransition(s: Snapshot, t: Status)
    requires IsSwitchover(s.status) && Offers(SwitchoverUnsafe(s), Write(t))
    ensures t.transition.Some?
  {
    hide FirstOpen;
    hide ProvenReport;
  }

  lemma RestoreEnds(s: Snapshot, transition: Transition, intent: Intent, starting: Configuration, source: Report, t: Status)
    requires ValidStatus(s.status) && IsSwitchover(s.status) && s.status.transition == Some(transition)
    requires transition.switchover == Some(intent) && s.status.topology == Some(starting)
    requires HealthyReport(s, intent.source) == Some(source) && !AuthorityAdmitted(s, starting, intent) && !RoutingPresent(s)
    requires Offers(RestoreOldPrimary(s, transition, intent, starting, source), Write(t)) && t.transition.None?
    ensures Restores(s, t)
  {
    hide SwitchoverUnsafe;
    hide StartingEvidence;
    hide AuthorityAdmitted;
    hide HandoffMatches;
    hide HealthyReport;
    hide ValidTransition;
    if Offers(SwitchoverUnsafe(s), Write(t)) { UnsafeKeepsTransition(s, t); }
  }

  lemma CompensateContinues(s: Snapshot, transition: Transition, intent: Intent, starting: Configuration, source: Report, t: Status)
    requires IsSwitchover(s.status)
    requires Offers(Compensate(s, transition, intent, starting, source), Write(t))
    ensures t.transition.Some?
  {
    hide SwitchoverUnsafe;
    hide SourceComplete;
    hide CompensationReports;
    if Offers(SwitchoverUnsafe(s), Write(t)) { UnsafeKeepsTransition(s, t); }
  }

  lemma RecoverEnds(s: Snapshot, transition: Transition, intent: Intent, starting: Configuration, t: Status)
    requires ValidStatus(s.status) && IsSwitchover(s.status) && s.status.transition == Some(transition)
    requires transition.switchover == Some(intent) && s.status.topology == Some(starting) && !RoutingPresent(s)
    requires RecoverSwitchover(s, transition, intent, starting).Some?
    requires Offers(RecoverSwitchover(s, transition, intent, starting).value, Write(t)) && t.transition.None?
    ensures Restores(s, t)
  {
    hide SwitchoverUnsafe;
    hide RestoreOldPrimary;
    hide Compensate;
    hide AuthorityAdmitted;
    hide DefinitivelyLost;
    hide HealthyReport;
    hide Survivors;
    hide ValidTransition;
    hide Restores;
    if Offers(SwitchoverUnsafe(s), Write(t)) { UnsafeKeepsTransition(s, t); }
    var source := HealthyReport(s, intent.source);
    if source.Some? {
      if Offers(Compensate(s, transition, intent, starting, source.value), Write(t)) {
        CompensateContinues(s, transition, intent, starting, source.value, t);
      }
      if !AuthorityAdmitted(s, starting, intent) && Offers(RestoreOldPrimary(s, transition, intent, starting, source.value), Write(t)) {
        RestoreEnds(s, transition, intent, starting, source.value, t);
      }
    }
  }

  lemma PrepareContinues(s: Snapshot, transition: Transition, e: Execution, source: Report, t: Status)
    requires IsSwitchover(s.status) && HasPrimary(e.starting)
    requires Offers(Prepare(s, transition, e, source), Write(t))
    ensures t.transition.Some?
  {
    hide SwitchoverUnsafe;
    hide StableMember;
    hide HandoffMatches;
    hide PrimaryOf;
    if Offers(SwitchoverUnsafe(s), Write(t)) { UnsafeKeepsTransition(s, t); }
  }

  lemma IdentityIsPrimary(current: Configuration, named: Identity)
    requires DistinctReplicas(current.members) && HasPrimary(current)
    requires HasIdentity(current, named) && named.replicaId == current.primaryId
    ensures PrimaryOf(current).identity == named
  {
    var primary := PrimaryOf(current);
    var i :| 0 <= i < |current.members| && current.members[i].identity == named;
    var j :| 0 <= j < |current.members| && current.members[j] == primary;
    if i < j { assert current.members[i].identity.replicaId != current.members[j].identity.replicaId; }
  }

  lemma SharedMember(a: Configuration, b: Configuration, named: Identity)
    requires SameMembers(a, b) && HasIdentity(a, named)
    ensures HasIdentity(b, named)
  {
    var i :| 0 <= i < |a.members| && a.members[i].identity == named;
  }

  /** The identity a valid intent names is the primary of the configuration it installs. */
  lemma InstalledPrimary(topology: Configuration, transition: Transition, intent: Intent)
    requires ValidConfiguration(transition.current, transition.policy) && ValidIntent(topology, transition, intent)
    requires intent.resolution != Unresolvable
    ensures PrimaryOf(transition.current).identity == if intent.resolution == CompensatingOldPrimary then intent.source else intent.target
  {
    hide SameMembers;
    hide HasPrimary;
    hide DistinctReplicas;
    hide HasIdentity;
    var named := if intent.resolution == CompensatingOldPrimary then intent.source else intent.target;
    assert HasIdentity(topology, named) by {
      if named == intent.source { PrimaryIsMember(topology); }
    }
    SharedMember(topology, intent.requested, named);
    if intent.resolution == CompensatingOldPrimary { SharedMember(intent.requested, transition.current, named); }
    IdentityIsPrimary(transition.current, named);
  }

  lemma PrimaryIsMember(configuration: Configuration)
    requires HasPrimary(configuration)
    ensures HasIdentity(configuration, PrimaryOf(configuration).identity)
  {
  }

  /** Members other than the primary are ordered, and no other member shares the primary's identity. */
  lemma OrderedCovers(current: Configuration, source: Identity, k: nat)
    requires HasPrimary(current) && DistinctReplicas(current.members) && k < |current.members|
    ensures current.members[k] in Ordered(current, source)
  {
    hide Ordered;
    var members := current.members;
    var j :| 0 <= j < |members| && members[j] == PrimaryOf(current);
    if members[k].identity == PrimaryOf(current).identity { assert k == j; }
  }

  lemma AllSettled(s: Snapshot, transition: Transition, e: Execution, k: nat)
    requires transition.switchover.Some? && HasPrimary(transition.current) && DistinctReplicas(transition.current.members)
    requires e == ExecutionOf(transition, transition.switchover.value, e.starting)
    requires FinalFrom(s, e, PrimaryOf(e.current).identity, Ordered(e.current, e.intent.source), 0) == Finished
    requires k < |e.current.members|
    ensures Settled(s, transition, e.starting, e.current.members[k])
  {
    hide Ordered;
    hide FinishedMember;
    hide FinalFrom;
    hide PodAbsent;
    hide HasPrimary;
    hide DistinctReplicas;
    OrderedCovers(e.current, e.intent.source, k);
  }

  /** A finished joint pass with its quorums, or one that found a member past it. */
  lemma PassReaches(s: Snapshot, transition: Transition, e: Execution)
    requires transition.switchover.Some? && HasPrimary(transition.current)
    requires e == ExecutionOf(transition, transition.switchover.value, e.starting)
    requires
      var pass := JointFrom(s, e, PrimaryOf(e.current).identity, Ordered(e.current, e.intent.source), 0, [], false);
      pass.Installed? && (pass.currentOnlyStarted || (ReportQuorum(e.previous, pass.reports) && ReportQuorum(e.current, pass.reports)))
    ensures JointReached(s, transition, e.starting)
  {
    hide JointFrom;
    hide Ordered;
    hide ReportQuorum;
    hide PastJoint;
    hide JointlyComplete;
    hide JointDone;
    hide MemberReport;
    hide HasPrimary;
    hide PrimaryOf;
    var primary := PrimaryOf(e.current).identity;
    var ordered := Ordered(e.current, e.intent.source);
    var pass := JointFrom(s, e, primary, ordered, 0, [], false);
    JointFromMeans(s, e, primary, ordered, 0, [], false);
    if pass.currentOnlyStarted {
      var k :| 0 <= k < |ordered| && PastJoint(s, e, primary, ordered[k]);
      assert ordered[k] in e.current.members;
    } else {
      forall r | r in pass.reports
        ensures exists m :: m in e.current.members && JointlyComplete(s, e, primary, m) && MemberReport(s, e, primary, m) == Some(r)
      {
        var k :| 0 <= k < |ordered| && JointlyComplete(s, e, primary, ordered[k]) && MemberReport(s, e, primary, ordered[k]) == Some(r);
        assert ordered[k] in e.current.members;
      }
      assert JointQuorum(s, e, primary, pass.reports);
    }
  }

  lemma InstallEnds(s: Snapshot, transition: Transition, e: Execution, handoff: Handoff, target: Report, t: Status)
    requires ValidStatus(s.status) && IsSwitchover(s.status) && s.status.transition == Some(transition)
    requires e == ExecutionOf(transition, transition.switchover.value, s.status.topology.value)
    requires e.intent.handoff == Some(handoff) && HealthyReport(s, PrimaryOf(e.current).identity) == Some(target)
    requires e.intent.resolution != Unresolvable && !RoutingPresent(s)
    requires Offers(InstallPlan(s, transition, e, handoff, target), Write(t)) && t.transition.None?
    ensures Accepts(s, t)
  {
    hide JointFrom;
    hide Ordered;
    hide FinalFrom;
    hide ReportQuorum;
    hide HealthyReport;
    hide RoutingPresent;
    hide Settled;
    hide HasPrimary;
    hide PrimaryOf;
    hide DistinctReplicas;
    hide ValidIntent;
    hide JointReached;
    InstalledPrimary(s.status.topology.value, transition, e.intent);
    PassReaches(s, transition, e);
    forall k | 0 <= k < |e.current.members|
      ensures Settled(s, transition, e.starting, e.current.members[k])
    {
      AllSettled(s, transition, e, k);
    }
  }

  lemma ExecuteEnds(s: Snapshot, transition: Transition, e: Execution, source: Report, t: Status)
    requires ValidStatus(s.status) && IsSwitchover(s.status) && s.status.transition == Some(transition)
    requires e == ExecutionOf(transition, transition.switchover.value, s.status.topology.value)
    requires e.intent.resolution != Unresolvable && !RoutingPresent(s)
    requires Offers(ExecutePlan(s, transition, e, source), Write(t)) && t.transition.None?
    ensures Accepts(s, t)
  {
    hide SwitchoverUnsafe;
    hide Prepare;
    hide InstallPlan;
    hide SourceRetains;
    hide TargetCaughtUp;
    hide FirstFaulted;
    hide Ordered;
    hide Survivors;
    hide HealthyReport;
    hide Accepts;
    hide PrimaryOf;
    hide HasPrimary;
    hide ValidIntent;
    hide DistinctReplicas;
    if Offers(SwitchoverUnsafe(s), Write(t)) { UnsafeKeepsTransition(s, t); }
    if e.intent.handoff.None? {
      PrepareContinues(s, transition, e, source, t);
    } else {
      var target := HealthyReport(s, PrimaryOf(e.current).identity);
      if target.Some? && Offers(InstallPlan(s, transition, e, e.intent.handoff.value, target.value), Write(t)) {
        InstallEnds(s, transition, e, e.intent.handoff.value, target.value, t);
      }
    }
  }

  lemma SwitchoverPlanEnds(s: Snapshot, transition: Transition, t: Status)
    requires ValidStatus(s.status) && IsSwitchover(s.status) && s.status.transition == Some(transition)
    requires transition.switchover.value.resolution != Unresolvable
    requires Offers(EvaluateSwitchover(s, transition), Write(t)) && t.transition.None?
    ensures Accepts(s, t) || Restores(s, t)
  {
    hide SwitchoverUnsafe;
    hide RecoverSwitchover;
    hide ExecutePlan;
    hide FirstMissing;
    hide HealthyReport;
    hide DefinitivelyLost;
    hide RequestRejection;
    hide Accepts;
    hide Restores;
    var intent := transition.switchover.value;
    var starting := s.status.topology.value;
    if Offers(SwitchoverUnsafe(s), Write(t)) { UnsafeKeepsTransition(s, t); }
    if !RoutingPresent(s) {
      var recovery := RecoverSwitchover(s, transition, intent, starting);
      if recovery.Some? {
        if Offers(recovery.value, Write(t)) { RecoverEnds(s, transition, intent, starting, t); }
      } else {
        var source := HealthyReport(s, intent.source);
        var e := ExecutionOf(transition, intent, starting);
        if source.Some? && Offers(ExecutePlan(s, transition, e, source.value), Write(t)) {
          ExecuteEnds(s, transition, e, source.value, t);
        }
      }
    }
  }

  /**
   * A planned switchover ends in exactly two ways. Either its installed configuration is accepted, with the frozen
   * handoff verified by a healthy primary and every member settled; or the starting topology is kept, with no member
   * having admitted the requested epoch.
   */
  lemma SwitchoverEnds(s: Snapshot, t: Status)
    requires IsSwitchover(s.status) && Offers(Evaluate(s), Write(t)) && t.transition.None?
    ensures Accepts(s, t) || Restores(s, t)
  {
    hide SwitchoverUnsafe;
    hide EvaluateSwitchover;
    hide ValidIntent;
    hide ValidConfiguration;
    hide VersionMismatch;
    hide InvalidAgent;
    hide Accepts;
    hide Restores;
    if Offers(SwitchoverUnsafe(s), Write(t)) {
      UnsafeKeepsTransition(s, t);
    } else {
      SwitchoverPlanEnds(s, s.status.transition.value, t);
    }
  }

  /** Topology changes under a switchover only by such an acceptance. */
  lemma TopologyChangesOnlyByAcceptance(s: Snapshot, t: Status)
    requires IsSwitchover(s.status) && Offers(Evaluate(s), Write(t)) && t.topology != s.status.topology
    ensures Accepts(s, t)
  {
    hide Evaluate;
    hide Accepts;
    hide ValidStatus;
    EvaluateLawful(s);
    SwitchoverEnds(s, t);
  }

  /**
   * Over a run: when a handoff was frozen while a switchover was outstanding and that switchover later changes the
   * topology, the new primary had verified at least that handoff's position.
   */
  lemma HandoffPreserved(c: Control, i: nat, j: nat)
    requires Decided(c) && i <= j && j + 1 < |c.history|
    requires forall k :: i <= k <= j ==> IsSwitchover(c.history[k])
    requires Intentional(c.history[i]) && IntentOf(c.history[i]).handoff.Some?
    requires c.history[j + 1].topology != c.history[j].topology
    ensures exists s: Snapshot ::
      s.status == c.history[j] && Accepts(s, c.history[j + 1])
      && s.status.transition.value.switchover.value.handoff == IntentOf(c.history[i]).handoff
  {
    hide Evaluate;
    hide Accepts;
    hide ValidStatus;
    ResolutionOneWay(c, i, j);
    assert Decides(c.history[j], Write(c.history[j + 1]));
    var s: Snapshot :| s.status == c.history[j] && Offers(Evaluate(s), Write(c.history[j + 1]));
    TopologyChangesOnlyByAcceptance(s, c.history[j + 1]);
  }
}
