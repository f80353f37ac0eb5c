/** Unplanned failover in `kuberic-controller/src/evaluator.rs`: detection, election, repair and acceptance. */
module FailoverPlan {
  import opened Base
  import opened ControlTypes
  import opened Election
  import opened Evidence

  // ---------------------------------------------------------------- beginning a failover

  function SaturatingAdd(a: i64, b: u64): (r: int)
  {
    var delay := if b > I64_MAX then I64_MAX else b;
    if a + delay > I64_MAX then I64_MAX else a + delay
  }

  /** The provisional transition that elects `candidate` over `basis`. */
  function ElectionOf(s: Snapshot, policy: Policy, generation: u64, accepted: Configuration, basis: Configuration, candidate: Report,
                      epoch: Epoch, buildId: Option<OperationId>): (t: Transition)
    ensures t.kind == Failover && t.current.epoch == epoch && t.current.primaryId == candidate.identity.replicaId
  {
    var current := WithPrimary(basis, candidate.identity, epoch);
    Transition(TransitionIdFor(s, Failover, current), Failover, generation, policy, Some(accepted), current,
               Some(candidate.progress), buildId, None, None)
  }

  /** Observed failure of the accepted primary, recorded once with its fencing. */
  function RecordFailure(s: Snapshot, status: Status, primary: Identity): (p: Plan)
  {
    var recorded := status.(primaryFailure := Some(PrimaryFailure(primary, s.now)), quorumLoss := None);
    PlanApply((if RoutingPresent(s) then [RemoveRouting] else []) + [Persist(recorded)])
  }

  /** What a failover waits for before it may allocate an epoch. */
  function QuorumUnavailable(status: Status, accepted: Configuration, lost: bool): (p: Plan)
  {
    if lost then PlanUnsafe(status)
    else if status.quorumLoss != Some(accepted) then PlanApply([Persist(status.(quorumLoss := Some(accepted)))])
    else PlanWait(status)
  }

  function BeginStableFailover(s: Snapshot, status: Status, accepted: Configuration, policy: Policy): (p: Option<Plan>)
    requires HasPrimary(accepted)
  {
    var primary := PrimaryOf(accepted).identity;
    if !ReplicaFailed(s, primary) then
      if status.primaryFailure.Some? then Some(PlanApply([Persist(status.(primaryFailure := None))])) else None
    else if status.primaryFailure.None? || status.primaryFailure.value.primary != primary then Some(RecordFailure(s, status, primary))
    else if RoutingPresent(s) then Some(PlanApply([RemoveRouting, Persist(status)]))
    else if s.now < SaturatingAdd(status.primaryFailure.value.startedAt, policy.failoverDelay) then Some(PlanWait(status))
    else
      var reports := AvailableReports(s, Union(accepted.members, accepted.members));
      if !ReadQuorum(accepted, reports, policy.readQuorum) then
        Some(QuorumUnavailable(status, accepted, NotFaulted(s, accepted.members) < policy.readQuorum))
      else
        var candidate := SelectCandidate(accepted, reports);
        if candidate.None? then None
        else
          var epoch := Epoch(accepted.epoch.dataLoss, NextNumber(accepted.epoch.number));
          var election := ElectionOf(s, policy, s.status.observedGeneration, accepted, accepted, candidate.value, epoch, None);
          Some(PlanApply([Persist(status.(transition := Some(election), quorumLoss := None))]))
  }

  function MaxNumber(a: i64, b: i64): (m: i64)
    ensures m >= a && m >= b
  {
    if a < b then b else a
  }

  /** Failover out of an active replacement: the election starts from the outstanding configuration. */
  function BeginReplacementFailover(s: Snapshot, status: Status, accepted: Configuration, transition: Transition, policy: Policy): (p: Option<Plan>)
    requires HasPrimary(accepted) && HasPrimary(transition.current)
  {
    var basis := transition.current;
    var primary := PrimaryOf(accepted).identity;
    if !ReplicaFailed(s, PrimaryOf(basis).identity) then
      if status.primaryFailure.Some? then Some(PlanApply([Persist(status.(primaryFailure := None))])) else None
    else if status.primaryFailure.None? || status.primaryFailure.value.primary != primary then Some(RecordFailure(s, status, primary))
    else if RoutingPresent(s) then Some(PlanApply([RemoveRouting, Persist(status)]))
    else if s.now < SaturatingAdd(status.primaryFailure.value.startedAt, policy.failoverDelay) then Some(PlanWait(status))
    else
      var reports := AvailableReports(s, Union(accepted.members, basis.members));
      if !ReadQuorum(accepted, reports, policy.readQuorum) || !ReadQuorum(basis, reports, policy.readQuorum) then
        Some(QuorumUnavailable(status, accepted,
                               NotFaulted(s, accepted.members) < policy.readQuorum || NotFaulted(s, basis.members) < policy.readQuorum))
      else
        var candidate := SelectCandidate(basis, reports);
        if candidate.None? then None
        else
          var epoch := Epoch(basis.epoch.dataLoss, NextNumber(MaxNumber(basis.epoch.number, accepted.epoch.number)));
          var election := ElectionOf(s, policy, transition.specGeneration, accepted, basis, candidate.value, epoch, transition.buildId);
          Some(PlanApply([Persist(status.(transition := Some(election), quorumLoss := None))]))
  }

  // ---------------------------------------------------------------- an active failover

  /** Election commands go to the others first and the provisional primary last. */
  function InstallOrder(members: seq<Member>, primary: Member): (r: seq<Member>)
  {
    if members == [] then [primary]
    else if members[0].identity == primary.identity then InstallOrder(members[1..], primary)
    else [members[0]] + InstallOrder(members[1..], primary)
  }

  /** A healthy member that has neither the joint configuration nor a pending operation. */
  predicate NeedsElection(s: Snapshot, previous: Configuration, current: Configuration, member: Member)
  {
    var report := HealthyReport(s, member.identity);
    report.Some? && !Joint(report.value, previous, current) && report.value.pending.None?
  }

  function NextElection(s: Snapshot, previous: Configuration, current: Configuration, order: seq<Member>): (i: nat)
    ensures i <= |order|
  {
    FirstWhere(order, (m: Member) => NeedsElection(s, previous, current, m), 0)
  }

  method ScanElection(s: Snapshot, previous: Configuration, current: Configuration, order: seq<Member>) returns (i: nat)
    ensures i == NextElection(s, previous, current, order)
  {
    i := 0;
    ghost var test := (m: Member) => NeedsElection(s, previous, current, m);
    while i < |order|
      invariant 0 <= i <= |order|
      invariant NextElection(s, previous, current, order) == FirstWhere(order, test, i)
    {
      var report := HealthyReport(s, order[i].identity);
      if report.Some? {
        var installed := Joint(report.value, previous, current);
        if !installed {
          if report.value.pending.None? { return; }
        }
      }
      i := i + 1;
    }
  }

  function ExactJoint(s: Snapshot, previous: Configuration, current: Configuration, identity: Identity): (r: Option<Report>)
  {
    var report := ExactReport(s, identity);
    if report.Some? && Joint(report.value, previous, current) then report else None
  }

  function ExactJointReports(s: Snapshot, previous: Configuration, current: Configuration, members: seq<Member>): (r: seq<Report>)
  {
    Collect(members, (i: Identity) => ExactJoint(s, previous, current, i))
  }

  /** The exact reports of the joint configuration, from the members of both sides. */
  function FencedReports(s: Snapshot, transition: Transition, previous: Configuration): (r: seq<Report>)
  {
    ExactJointReports(s, previous, transition.current, Union(previous.members, transition.current.members))
  }

  /** Reports that take part in the election: members of the outstanding configuration, fenced at its epoch, not the failed primary. */
  predicate Electing(status: Status, current: Configuration, report: Report)
  {
    && HasIdentity(current, report.identity)
    && report.deactivationEpoch == Some(current.epoch)
    && (status.primaryFailure.None? || status.primaryFailure.value.primary != report.identity)
  }

  /** The reports the evaluator's election looks at. */
  function ElectionReports(s: Snapshot, status: Status, transition: Transition, previous: Configuration): (r: seq<Report>)
  {
    var current := transition.current;
    Filter(FencedReports(s, transition, previous), (r: Report) => Electing(status, current, r))
  }

  /** The winner of the evaluator's election. */
  function Winner(s: Snapshot, status: Status, transition: Transition, previous: Configuration): (r: Option<Report>)
  {
    SelectCandidate(transition.current, ElectionReports(s, status, transition, previous))
  }

  function CurrentOnlyStarted(s: Snapshot, current: Configuration): (b: bool)
  {
    exists i :: 0 <= i < |current.members| &&
      var report := HealthyReport(s, current.members[i].identity); report.Some? && CurrentOnly(report.value, current)
  }

  function RepairId(transition: Transition, target: Identity): (o: OperationId)
  {
    OnTransition("failover-repair", transition, Some(target))
  }

  function FindReport(reports: seq<Report>, identity: Identity): (r: Option<Report>)
    ensures r.Some? ==> r.value in reports && r.value.identity == identity
  {
    if reports == [] then None
    else if reports[0].identity == identity then Some(reports[0])
    else FindReport(reports[1..], identity)
  }

  predicate Lagging(reports: seq<Report>, primary: Identity, retainedFrom: i64, member: Member)
  {
    var report := FindReport(reports, member.identity);
    && member.identity != primary && report.Some?
    && (if report.value.progress == I64_MAX then I64_MAX else report.value.progress + 1) < retainedFrom
  }

  predicate BuildComplete(report: Report, buildId: OperationId, target: Identity, atLeast: Option<i64>)
  {
    exists i :: 0 <= i < |report.builds| && report.builds[i].buildId == buildId && report.builds[i].target == target
      && report.builds[i].completed && (atLeast.Some? ==> report.builds[i].durableLsn >= atLeast.value)
  }

  /** Full copy of one configured lagging member before writes are granted. */
  function RepairPlan(s: Snapshot, status: Status, transition: Transition, previous: Configuration, primary: Identity,
                      primaryReport: Report, reports: seq<Report>): (p: Option<Plan>)
  {
    var current := transition.current;
    if primaryReport.catchUpCapability.None? then None
    else
      var lagging := FirstWhere(current.members, (m: Member) => Lagging(reports, primary, primaryReport.catchUpCapability.value, m), 0);
      if transition.repair.None? then
        if lagging == |current.members| then None
        else
          var target := current.members[lagging].identity;
          Some(PlanApply([Persist(status.(transition := Some(transition.(repair := Some(Repair(RepairId(transition, target), target))))))]))
      else
        var repair := transition.repair.value;
        var report := FindReport(reports, repair.target);
        var copied := BuildComplete(primaryReport, repair.operationId, repair.target, Some(primaryReport.progress))
          && report.Some? && BuildComplete(report.value, repair.operationId, repair.target, None);
        var i := IndexOf(current.members, repair.target);
        if !copied then Some(PlanExecute(EnsureBuild(repair.operationId, primary, repair.target)))
        else if i == |current.members| then Some(PlanWait(s.status))
        else if !(report.value.role == current.members[i].role && report.value.progress >= primaryReport.progress
                  && Joint(report.value, previous, current)) then
          Some(PlanExecute(Ensure(FailoverCommand(previous, current, repair.target, transition.policy,
                                                  OnTransition("post-copy", transition, Some(repair.target)),
                                                  transition.electionLsn, ReconfigurationPending, false, []))))
        else Some(PlanApply([Persist(status.(transition := Some(transition.(repair := None))))]))
  }

  /** The corrected transition once a better-fenced candidate is known. */
  function Corrected(s: Snapshot, transition: Transition, candidate: Report): (t: Transition)
    ensures t.kind == Failover && t.current.primaryId == candidate.identity.replicaId
    ensures t.current.epoch == Epoch(transition.current.epoch.dataLoss, NextNumber(transition.current.epoch.number))
  {
    var current := WithPrimary(transition.current, candidate.identity,
                               Epoch(transition.current.epoch.dataLoss, NextNumber(transition.current.epoch.number)));
    Transition(TransitionIdFor(s, Failover, current), Failover, transition.specGeneration, transition.policy, transition.previous, current,
               Some(candidate.progress), transition.buildId, None, None)
  }

  /** Election, repair and write grant before current-only installation; nothing when that may begin. */
  function ElectPlan(s: Snapshot, status: Status, transition: Transition, previous: Configuration): (p: Option<Plan>)
    requires HasPrimary(transition.current)
  {
    var current := transition.current;
    var primary := PrimaryOf(current).identity;
    var exact := FencedReports(s, transition, previous);
    var live := Filter(exact, (r: Report) => HealthyReport(s, r.identity).Some?);
    var candidate := Winner(s, status, transition, previous);
    var primaryReport := FindReport(live, primary);
    if candidate.None? then Some(PlanWait(status))
    else if HealthyReport(s, candidate.value.identity).None? then Some(PlanWait(status))
    else if candidate.value.identity != primary && (primaryReport.None? || primaryReport.value.access != Granted) then
      Some(PlanApply([Persist(status.(transition := Some(Corrected(s, transition, candidate.value))))]))
    else if primaryReport.None? then Some(PlanWait(status))
    else
      var repair := RepairPlan(s, status, transition, previous, primary, primaryReport.value, live);
      if repair.Some? then repair
      else if primaryReport.value.access != Granted || !primaryReport.value.catchUpComplete then
        Some(PlanExecute(Ensure(FailoverCommand(previous, current, primary, transition.policy,
                                                OnTransition("grant-write", transition, Some(primary)),
                                                transition.electionLsn, Granted, false, []))))
      else if !DeactivationQuorum(previous, exact, transition.policy.readQuorum, current.epoch)
              || !DeactivationQuorum(current, exact, transition.policy.readQuorum, current.epoch) then Some(PlanWait(status))
      else None
  }

  predicate CurrentOnlyInstalled(s: Snapshot, transition: Transition, member: Member)
  {
    var report := HealthyReport(s, member.identity);
    report.Some? ==>
      && CurrentOnly(report.value, transition.current)
      && report.value.pending.None?
      && report.value.retained == Some(OnTransition("current-only", transition, Some(member.identity)))
  }

  function RetiredBuilds(transition: Transition, primary: Identity, members: seq<Member>): (r: seq<OperationId>)
  {
    if members == [] then (if transition.buildId.Some? then [transition.buildId.value] else [])
    else
      var last := members[|members| - 1].identity;
      RetiredBuilds(transition, primary, members[..|members| - 1]) + (if last == primary then [] else [RepairId(transition, last)])
  }

  function HealthyCurrentOnly(s: Snapshot, current: Configuration, identity: Identity): (r: Option<Report>)
  {
    var report := HealthyReport(s, identity);
    if report.Some? && CurrentOnly(report.value, current) then report else None
  }

  /** Some member of the accepted configuration is no longer in the outstanding one. */
  predicate Retires(previous: Configuration, current: Configuration)
  {
    exists i :: 0 <= i < |previous.members| && !HasIdentity(current, previous.members[i].identity)
  }

  function AcceptFailover(s: Snapshot, transition: Transition, previous: Configuration): (t: Status)
  {
    var retired := Retires(previous, transition.current);
    s.status.(
      observedGeneration := transition.specGeneration,
      topology := Some(transition.current),
      transition := None,
      lastReplacement := if retired then s.status.pendingCleanup else s.status.lastReplacement,
      pendingCleanup := if retired then None else s.status.pendingCleanup,
      primaryFailure := None,
      quorumLoss := None)
  }

  /** Current-only installation and acceptance of the elected topology. */
  function FinishFailover(s: Snapshot, status: Status, transition: Transition, previous: Configuration): (p: Plan)
    requires HasPrimary(transition.current)
  {
    var current := transition.current;
    var primary := PrimaryOf(current).identity;
    var i := FirstWhere(current.members, (m: Member) => !CurrentOnlyInstalled(s, transition, m), 0);
    if i < |current.members| then
      var target := current.members[i].identity;
      PlanExecute(Ensure(FailoverCommand(previous, current, target, transition.policy,
                                         OnTransition("current-only", transition, Some(target)), transition.electionLsn,
                                         if target == primary then Granted else ReconfigurationPending, true,
                                         RetiredBuilds(transition, primary, current.members))))
    else
      var reports := Collect(current.members, (x: Identity) => HealthyCurrentOnly(s, current, x));
      if Filter(reports, (r: Report) => r.identity == primary && r.access == Granted) != [] && ReportQuorum(current, reports) then
        PlanApply([Persist(AcceptFailover(s, transition, previous))])
      else PlanWait(status)
  }

  function EvaluateFailover(s: Snapshot, status: Status, transition: Transition, previous: Configuration): (p: Plan)
    requires HasPrimary(transition.current)
  {
    var current := transition.current;
    var union := Union(previous.members, current.members);
    var order := InstallOrder(union, PrimaryOf(current));
    var exact := FencedReports(s, transition, previous);
    if RoutingPresent(s) then PlanApply([RemoveRouting, Persist(status)])
    else if CurrentOnlyStarted(s, current) then FinishFailover(s, status, transition, previous)
    else
      var i := NextElection(s, previous, current, order);
      if i < |order| then
        PlanExecute(Ensure(FailoverCommand(previous, current, order[i].identity, transition.policy,
                                           OnTransition("election", transition, Some(order[i].identity)),
                                           transition.electionLsn, ReconfigurationPending, false, [])))
      else if !ReadQuorum(previous, exact, transition.policy.readQuorum) || !ReadQuorum(current, exact, transition.policy.readQuorum) then
        PlanWait(status)
      else
        var elect := ElectPlan(s, status, transition, previous);
        if elect.Some? then elect.value else FinishFailover(s, status, transition, previous)
  }

  /** Every fenced report the evaluator holds, the failed primary's among them. */
  function HeardReports(s: Snapshot, transition: Transition, previous: Configuration): (r: seq<Report>)
  {
    var current := transition.current;
    Filter(FencedReports(s, transition, previous), (r: Report) => r.deactivationEpoch == Some(current.epoch))
  }

  /** The evaluator's election has whatever a write quorum may have secured, judging by every fenced report. */
  ghost predicate ElectionCovers(s: Snapshot, status: Status, transition: Transition, previous: Configuration)
  {
    Covers(transition.current, HeardReports(s, transition, previous), ElectionReports(s, status, transition, previous))
  }

  /**
   * The election the evaluator actually runs covers every write quorum if and only if it has a winner and fewer members
   * than a write quorum are unheard or were heard above it.
   */
  lemma ElectionCoversIff(s: Snapshot, status: Status, transition: Transition, previous: Configuration)
    requires ValidPolicy(transition.policy) && ValidConfiguration(transition.current, transition.policy)
    ensures
      var winner := Winner(s, status, transition, previous);
      ElectionCovers(s, status, transition, previous) <==>
        && winner.Some?
        && AheadCount(transition.current.members, HeardReports(s, transition, previous), OrZero(winner.value.deactivatedLsn))
           < transition.current.writeQuorum
  {
    hide Covers;
    hide HasPrimary;
    hide ElectionReports;
    hide HeardReports;
    CoverageIff(transition.current, HeardReports(s, transition, previous), ElectionReports(s, status, transition, previous));
  }

  /** A read quorum of eligible reports left after the failed primary is dropped is enough. */
  lemma ElectionCoversByQuorum(s: Snapshot, status: Status, transition: Transition, previous: Configuration)
    requires ValidPolicy(transition.policy) && ValidConfiguration(transition.current, transition.policy)
    requires ReadQuorum(transition.current, EligibleOf(transition.current, ElectionReports(s, status, transition, previous)),
                        transition.policy.readQuorum)
    ensures ElectionCovers(s, status, transition, previous)
  {
    hide Union;
    hide Collect;
    hide ReadQuorum;
    hide HasPrimary;
    var heard, reports := HeardReports(s, transition, previous), ElectionReports(s, status, transition, previous);
    forall writers: set<Identity>, lsn: int | Secured(transition.current, heard, writers, lsn)
      ensures CandidateReaches(transition.current, reports, lsn)
    {
      FailoverCoverage(transition.current, heard, reports, transition.policy.readQuorum, writers, lsn);
    }
  }

  /**
   * The evaluator tests the read quorum before it drops the failed primary. When that test is met with no report to
   * spare and the failed primary was heard above the winner, the election misses what a write quorum may have secured.
   */
  lemma FailedPrimaryCostsCoverage(s: Snapshot, status: Status, transition: Transition, previous: Configuration)
    requires ValidPolicy(transition.policy) && ValidConfiguration(transition.current, transition.policy)
    requires status.primaryFailure.Some? && HasIdentity(transition.current, status.primaryFailure.value.primary)
    requires Winner(s, status, transition, previous).Some?
    requires
      var heard := HeardReports(s, transition, previous);
      && Reporting(transition.current.members, heard) <= transition.policy.readQuorum
      && Reports(heard, status.primaryFailure.value.primary)
      && MayBeAhead(heard, status.primaryFailure.value.primary, OrZero(Winner(s, status, transition, previous).value.deactivatedLsn))
    ensures !ElectionCovers(s, status, transition, previous)
  {
    hide ElectionCovers;
    hide HeardReports;
    hide ElectionReports;
    hide Winner;
    hide MayBeAhead;
    hide HasPrimary;
    UnheardAhead(transition.current.members, HeardReports(s, transition, previous),
                 OrZero(Winner(s, status, transition, previous).value.deactivatedLsn), status.primaryFailure.value.primary);
    ElectionCoversIff(s, status, transition, previous);
  }
}
