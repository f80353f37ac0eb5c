/** The installing part of a planned switchover: preparation, joint installation, catch-up, current-only acceptance. */
module SwitchoverExecution {
  import opened Base
  import opened ControlTypes
  import opened Election
  import opened Evidence
  import opened SwitchoverPlan

  // ---------------------------------------------------------------- installation order

  /** The source comes first, then the others by replica. */
  predicate InstallsBefore(a: Member, b: Member, source: Identity)
  {
    if (a.identity == source) != (b.identity == source) then a.identity == source
    else a.identity.replicaId <= b.identity.replicaId
  }

  function InsertMember(member: Member, sorted: seq<Member>, source: Identity): (r: seq<Member>)
    ensures forall m :: m in r <==> m == member || m in sorted
  {
    if sorted == [] then [member]
    else if InstallsBefore(member, sorted[0], source) then [member] + sorted
    else
      assert sorted == [sorted[0]] + sorted[1..];
      [sorted[0]] + InsertMember(member, sorted[1..], source)
  }

  function OthersInOrder(members: seq<Member>, primary: Identity, source: Identity): (r: seq<Member>)
    ensures forall m :: m in r <==> m in members && m.identity != primary
  {
    if members == [] then []
    else
      assert members == members[..|members| - 1] + [members[|members| - 1]];
      var rest := OthersInOrder(members[..|members| - 1], primary, source);
      var last := members[|members| - 1];
      if last.identity == primary then rest else InsertMember(last, rest, source)
  }

  /** Source first, target last. */
  function Ordered(current: Configuration, source: Identity): (r: seq<Member>)
    requires HasPrimary(current)
    ensures PrimaryOf(current) in r
    ensures forall m :: m in current.members ==> m in r || m.identity == PrimaryOf(current).identity
    ensures forall m :: m in r ==> m in current.members
  {
    OthersInOrder(current.members, PrimaryOf(current).identity, source) + [PrimaryOf(current)]
  }

  // ---------------------------------------------------------------- scans

  /** The frozen operation being executed. */
  datatype Execution = Execution(
    id: TransitionId,
    policy: Policy,
    intent: Intent,
    starting: Configuration,
    previous: Configuration,
    current: Configuration,
    compensating: bool)

  /** During compensation a member other than the primary may be skipped once its Pod is proven absent. */
  predicate Skipped(s: Snapshot, e: Execution, primary: Identity, member: Member)
  {
    e.compensating && member.identity != primary && PodAbsent(s, member.identity)
  }

  function MemberReport(s: Snapshot, e: Execution, primary: Identity, member: Member): (r: Option<Report>)
  {
    if e.compensating && member.identity != primary then ExactReport(s, member.identity) else HealthyReport(s, member.identity)
  }

  function SwitchoverCommand(e: Execution, handoff: Handoff, member: Member, currentOnly: bool): (c: EnsureConfiguration)
  {
    EnsureConfiguration(MemberOperation(e.id, member, currentOnly), if currentOnly then None else Some(e.previous), e.current, e.policy,
                        member.identity, Switchover, None, ReconfigurationPending, currentOnly, [], Some(handoff),
                        if currentOnly && member.identity == handoff.source then [handoff.operationId] else [])
  }

  /** Result of the joint-installation pass over the ordered members. */
  datatype JointPass =
    | Unavailable
    | Installs(member: Member)
    | Installed(reports: seq<Report>, currentOnlyStarted: bool)

  /** The member's report is the last thing joint installation needs of it. */
  predicate JointlyComplete(s: Snapshot, e: Execution, primary: Identity, member: Member)
  {
    var report := MemberReport(s, e, primary, member);
    && !Skipped(s, e, primary, member)
    && report.Some? && !CurrentOnly(report.value, e.current)
    && MemberComplete(report.value, e.id, e.current, member, e.previous, false)
  }

  /** The member already runs the new configuration alone. */
  predicate PastJoint(s: Snapshot, e: Execution, primary: Identity, member: Member)
  {
    var report := MemberReport(s, e, primary, member);
    !Skipped(s, e, primary, member) && report.Some? && CurrentOnly(report.value, e.current)
  }

  predicate JointDone(s: Snapshot, e: Execution, primary: Identity, member: Member)
  {
    Skipped(s, e, primary, member) || PastJoint(s, e, primary, member) || JointlyComplete(s, e, primary, member)
  }

  /** Everyone up to `k` is done with joint installation, and the member at `k` is not. */
  predicate FirstUndone(s: Snapshot, e: Execution, primary: Identity, ordered: seq<Member>, from: nat, k: int)
  {
    from <= k < |ordered| && !JointDone(s, e, primary, ordered[k]) && forall j :: from <= j < k ==> JointDone(s, e, primary, ordered[j])
  }

  /**
   * What a pass means: it stops at the first member not done, for want of its report or to install it; or everyone is
   * done, the reports added are exactly those of the jointly complete members, and `started` tells whether some member is past it.
   */
  ghost predicate JointMeaning(s: Snapshot, e: Execution, primary: Identity, ordered: seq<Member>, from: nat, reports: seq<Report>, started: bool,
                               r: JointPass)
  {
    match r
    case Unavailable => exists k :: FirstUndone(s, e, primary, ordered, from, k) && MemberReport(s, e, primary, ordered[k]).None?
    case Installs(member) =>
      exists k :: FirstUndone(s, e, primary, ordered, from, k) && ordered[k] == member && MemberReport(s, e, primary, member).Some?
    case Installed(collected, begun) =>
      && (forall k :: from <= k < |ordered| ==> JointDone(s, e, primary, ordered[k]))
      && (forall x :: x in collected <==>
            || x in reports
            || exists k :: from <= k < |ordered| && JointlyComplete(s, e, primary, ordered[k]) && MemberReport(s, e, primary, ordered[k]) == Some(x))
      && (begun <==> started || exists k :: from <= k < |ordered| && PastJoint(s, e, primary, ordered[k]))
  }

  function JointFrom(s: Snapshot, e: Execution, primary: Identity, ordered: seq<Member>, from: nat, reports: seq<Report>, started: bool): (r: JointPass)
    requires from <= |ordered|
    decreases |ordered| - from
  {
    if from == |ordered| then Installed(reports, started)
    else
      var member := ordered[from];
      if Skipped(s, e, primary, member) then JointFrom(s, e, primary, ordered, from + 1, reports, started)
      else
        var report := MemberReport(s, e, primary, member);
        if report.None? then Unavailable
        else if CurrentOnly(report.value, e.current) then JointFrom(s, e, primary, ordered, from + 1, reports, true)
        else if !MemberComplete(report.value, e.id, e.current, member, e.previous, false) then Installs(member)
        else JointFrom(s, e, primary, ordered, from + 1, reports + [report.value], started)
  }

  lemma {:induction false} JointFromMeans(s: Snapshot, e: Execution, primary: Identity, ordered: seq<Member>, from: nat, reports: seq<Report>, started: bool)
    requires from <= |ordered|
    ensures JointMeaning(s, e, primary, ordered, from, reports, started, JointFrom(s, e, primary, ordered, from, reports, started))
    decreases |ordered| - from
  {
    hide Skipped;
    hide MemberReport;
    hide CurrentOnly;
    hide MemberComplete;
    if from < |ordered| {
      var member := ordered[from];
      var r := JointFrom(s, e, primary, ordered, from, reports, started);
      if JointDone(s, e, primary, member) {
        var more := if JointlyComplete(s, e, primary, member) then reports + [MemberReport(s, e, primary, member).value] else reports;
        var begun := started || PastJoint(s, e, primary, member);
        JointFromMeans(s, e, primary, ordered, from + 1, more, begun);
        JointExtends(s, e, primary, ordered, from, reports, started, r);
      } else {
        assert FirstUndone(s, e, primary, ordered, from, from);
      }
    }
  }

  /** A done member in front of a pass is only accounted for. */
  lemma JointExtends(s: Snapshot, e: Execution, primary: Identity, ordered: seq<Member>, from: nat, reports: seq<Report>, started: bool, r: JointPass)
    requires from < |ordered| && JointDone(s, e, primary, ordered[from])
    requires
      var member := ordered[from];
      var more := if JointlyComplete(s, e, primary, member) then reports + [MemberReport(s, e, primary, member).value] else reports;
      JointMeaning(s, e, primary, ordered, from + 1, more, started || PastJoint(s, e, primary, member), r)
    ensures JointMeaning(s, e, primary, ordered, from, reports, started, r)
  {
    hide Skipped;
    hide MemberReport;
    hide CurrentOnly;
    hide MemberComplete;
    hide JointDone;
    hide PastJoint;
    if !r.Installed? {
      var k :| FirstUndone(s, e, primary, ordered, from + 1, k)
        && (r.Unavailable? ==> MemberReport(s, e, primary, ordered[k]).None?)
        && (r.Installs? ==> ordered[k] == r.member && MemberReport(s, e, primary, r.member).Some?);
      assert FirstUndone(s, e, primary, ordered, from, k);
    }
  }

  /** The pass over the ordered members. */
  method InstallJoint(s: Snapshot, e: Execution, primary: Identity, ordered: seq<Member>) returns (r: JointPass)
    ensures r == JointFrom(s, e, primary, ordered, 0, [], false)
    ensures JointMeaning(s, e, primary, ordered, 0, [], false, r)
  {
    hide JointMeaning;
    JointFromMeans(s, e, primary, ordered, 0, [], false);
    var reports: seq<Report> := [];
    var started := false;
    var i := 0;
    while i < |ordered|
      invariant 0 <= i <= |ordered|
      invariant JointFrom(s, e, primary, ordered, 0, [], false) == JointFrom(s, e, primary, ordered, i, reports, started)
    {
      var member := ordered[i];
      if !Skipped(s, e, primary, member) {
        var report := MemberReport(s, e, primary, member);
        if report.None? { return Unavailable; }
        if CurrentOnly(report.value, e.current) {
          started := true;
        } else {
          if !MemberComplete(report.value, e.id, e.current, member, e.previous, false) { return Installs(member); }
          reports := reports + [report.value];
        }
      }
      i := i + 1;
    }
    r := Installed(reports, started);
  }

  /** The current-only pass: the first member not finished, the end, or a missing report (an aborted call). */
  datatype FinalPass = Aborted | Finishes(member: Member) | Finished

  function FinalFrom(s: Snapshot, e: Execution, primary: Identity, ordered: seq<Member>, from: nat): (r: FinalPass)
    requires from <= |ordered|
    ensures r.Finished? ==> forall i :: from <= i < |ordered| ==>
      FinallyDone(s, e, primary, ordered[i])
    ensures r.Finishes? ==> exists k :: FirstUnfinished(s, e, primary, ordered, from, k) && ordered[k] == r.member
    ensures r.Aborted? ==> exists k :: FirstUnfinished(s, e, primary, ordered, from, k) && ExactReport(s, ordered[k].identity).None?
    decreases |ordered| - from
  {
    if from == |ordered| then Finished
    else if Skipped(s, e, primary, ordered[from]) then FinalFrom(s, e, primary, ordered, from + 1)
    else
      var report := ExactReport(s, ordered[from].identity);
      if report.None? then assert FirstUnfinished(s, e, primary, ordered, from, from); Aborted
      else if !MemberComplete(report.value, e.id, e.current, ordered[from], e.previous, true) then
        assert FirstUnfinished(s, e, primary, ordered, from, from); Finishes(ordered[from])
      else FinalFrom(s, e, primary, ordered, from + 1)
  }

  predicate FinallyDone(s: Snapshot, e: Execution, primary: Identity, member: Member)
  {
    Skipped(s, e, primary, member) || FinishedMember(s, e, member)
  }

  /** Everyone up to `k` finished, and the member at `k` did not. */
  predicate FirstUnfinished(s: Snapshot, e: Execution, primary: Identity, ordered: seq<Member>, from: nat, k: int)
  {
    from <= k < |ordered| && !FinallyDone(s, e, primary, ordered[k]) && forall j :: from <= j < k ==> FinallyDone(s, e, primary, ordered[j])
  }

  /** The member's exact report is write-closed, idle, and carries current-only authority. */
  predicate FinishedMember(s: Snapshot, e: Execution, member: Member)
  {
    var report := ExactReport(s, member.identity);
    report.Some? && MemberComplete(report.value, e.id, e.current, member, e.previous, true)
  }

  method FinishCurrentOnly(s: Snapshot, e: Execution, primary: Identity, ordered: seq<Member>) returns (r: FinalPass)
    ensures r == FinalFrom(s, e, primary, ordered, 0)
    ensures r.Finished? ==> forall m :: m in ordered ==> FinallyDone(s, e, primary, m)
    ensures r.Finishes? ==> exists k :: FirstUnfinished(s, e, primary, ordered, 0, k) && ordered[k] == r.member
  {
    var i := 0;
    while i < |ordered|
      invariant 0 <= i <= |ordered|
      invariant FinalFrom(s, e, primary, ordered, 0) == FinalFrom(s, e, primary, ordered, i)
    {
      if !Skipped(s, e, primary, ordered[i]) {
        var report := ExactReport(s, ordered[i].identity);
        if report.None? { return Aborted; }
        if !MemberComplete(report.value, e.id, e.current, ordered[i], e.previous, true) { return Finishes(ordered[i]); }
      }
      i := i + 1;
    }
    r := Finished;
  }

  // ---------------------------------------------------------------- stages

  /** First member of the starting topology that keeps the requested path from going on, or the length. */
  function FirstMissing(s: Snapshot, members: seq<Member>): (i: nat)
    ensures i <= |members|
  {
    FirstWhere(members, (m: Member) => DefinitivelyLost(s, m.identity) || HealthyReport(s, m.identity).None?, 0)
  }

  function Prepare(s: Snapshot, transition: Transition, e: Execution, source: Report): (p: Plan)
    requires HasPrimary(e.starting)
  {
    if !StableMember(source, PrimaryOf(e.starting), e.previous) then PlanWait(s.status)
    else if source.prepared.Some? then
      var handoff := source.prepared.value;
      if !HandoffMatches(handoff, e.intent, e.previous) || handoff.operationId != PreparationId(e.intent, e.starting)
         || handoff.lsn > source.progress || source.access == Granted
      then SwitchoverUnsafe(s)
      else PlanApply([Persist(s.status.(transition := Some(transition.(switchover := Some(e.intent.(handoff := Some(handoff)))))))])
    else if source.access != Granted then PlanWait(s.status)
    else PlanExecute(PrepareSwitchover(PreparationId(e.intent, e.starting), e.intent, e.previous))
  }

  /** The source kept its certificate, or already retired it, and stayed write-closed. */
  predicate SourceRetains(e: Execution, handoff: Handoff, source: Report)
  {
    && source.access != Granted
    && (|| SourceComplete(source, e.id, e.current, e.intent.source, e.previous)
        || (e.compensating && SourceComplete(source, TransitionId(Switchover, e.intent.requested, None), e.intent.requested, e.intent.source, e.starting))
        || (e.compensating && source.current == Some(e.current))
        || source.prepared == Some(handoff))
  }

  predicate TargetCaughtUp(e: Execution, handoff: Handoff, target: Report)
  {
    var member := SourceMember(e.previous, e.intent.target);
    target.epoch == e.previous.epoch ==>
      && member.Some? && StableMember(target, member.value, e.previous)
      && target.verified.Some? && target.verified.value >= handoff.lsn
  }

  /** A permanently faulted member other than the primary is fenced by deleting its exact Pod. */
  function FirstFaulted(s: Snapshot, e: Execution, primary: Identity, ordered: seq<Member>): (i: nat)
    ensures i <= |ordered|
  {
    FirstWhere(ordered, (m: Member) =>
      m.identity != primary && !PodAbsent(s, m.identity) && ExactReport(s, m.identity).Some? && ExactReport(s, m.identity).value.permanentFault, 0)
  }

  function FencePlan(s: Snapshot, identity: Identity): (p: Plan)
  {
    var o := ObservationFor(s, identity);
    if o.Some? && o.value.kubernetes.Some? && o.value.kubernetes.value.podUid == Some(identity.instanceId)
    then PlanApply([DeleteExactPod(o.value.kubernetes.value.podName, identity.instanceId)])
    else PlanWait(s.status)
  }

  predicate CatchUpProven(handoff: Handoff, target: Report, started: bool)
  {
    && target.catchUpComplete
    && target.verified.Some? && target.verified.value >= handoff.lsn
    && (!started ==> target.catchUpBoundary == Some(handoff.lsn) && target.quorumProgress >= handoff.lsn)
  }

  function Completed(s: Snapshot, transition: Transition, e: Execution): (t: Status)
    requires HasPrimary(e.current)
  {
    s.status.(
      topology := Some(e.current),
      observedGeneration := transition.specGeneration,
      transition := None,
      primaryFailure := None,
      quorumLoss := None,
      lastSwitchover := Some(Receipt(e.intent.requestId, e.intent.target.replicaId, Some(e.intent.target),
                                     Some(PrimaryOf(e.current).identity),
                                     if e.compensating then OldPrimaryCompensated else RequestedTargetCompleted)))
  }

  /** Joint installation, certified catch-up, then current-only installation on every member that is not proven absent. */
  function InstallPlan(s: Snapshot, transition: Transition, e: Execution, handoff: Handoff, target: Report): (p: Plan)
    requires HasPrimary(e.current)
  {
    var primary := PrimaryOf(e.current).identity;
    var ordered := Ordered(e.current, e.intent.source);
    match JointFrom(s, e, primary, ordered, 0, [], false)
    case Unavailable => PlanWait(s.status)
    case Installs(member) => PlanExecute(Ensure(SwitchoverCommand(e, handoff, member, false)))
    case Installed(reports, started) =>
      if !started && (!ReportQuorum(e.previous, reports) || !ReportQuorum(e.current, reports)) then PlanWait(s.status)
      else if !CatchUpProven(handoff, target, started) then PlanWait(s.status)
      else
        match FinalFrom(s, e, primary, ordered, 0)
        case Aborted => PlanWait(s.status)
        case Finishes(member) => PlanExecute(Ensure(SwitchoverCommand(e, handoff, member, true)))
        case Finished => PlanApply([Persist(Completed(s, transition, e))])
  }

  function ExecutePlan(s: Snapshot, transition: Transition, e: Execution, source: Report): (p: Plan)
    requires HasPrimary(e.starting) && HasPrimary(e.current)
  {
    if e.intent.handoff.None? then Prepare(s, transition, e, source)
    else
      var handoff := e.intent.handoff.value;
      var primary := PrimaryOf(e.current).identity;
      var target := HealthyReport(s, primary);
      var ordered := Ordered(e.current, e.intent.source);
      var faulted := FirstFaulted(s, e, primary, ordered);
      if e.compensating && Survivors(s, e.current.members) < e.current.writeQuorum then SwitchoverUnsafe(s)
      else if !SourceRetains(e, handoff, source) then SwitchoverUnsafe(s)
      else if target.None? then PlanWait(s.status)
      else if !e.compensating && !TargetCaughtUp(e, handoff, target.value) then PlanWait(s.status)
      else if e.compensating && faulted < |ordered| then FencePlan(s, ordered[faulted].identity)
      else InstallPlan(s, transition, e, handoff, target.value)
  }

  function ExecutionOf(transition: Transition, intent: Intent, starting: Configuration): (e: Execution)
  {
    var compensating := intent.resolution == CompensatingOldPrimary;
    Execution(transition.id, transition.policy, intent, starting, if compensating then intent.requested else starting, transition.current, compensating)
  }

  function EvaluateSwitchover(s: Snapshot, transition: Transition): (p: Plan)
    requires s.status.topology.Some? && HasPrimary(s.status.topology.value) && HasPrimary(transition.current)
    requires transition.switchover.Some?
  {
    var projected := ProjectRequest(s, s.status);
    if projected.rejection != s.status.rejection then PlanApply([Persist(projected)])
    else if RoutingPresent(s) then PlanApply([RemoveRouting, Persist(s.status)])
    else
      var intent := transition.switchover.value;
      var starting := s.status.topology.value;
      var recovery := RecoverSwitchover(s, transition, intent, starting);
      if recovery.Some? then recovery.value
      else
        var e := ExecutionOf(transition, intent, starting);
        var source := HealthyReport(s, intent.source);
        var missing := FirstMissing(s, starting.members);
        if source.None? then PlanWait(s.status)
        else if !e.compensating && HealthyReport(s, intent.target).None? then PlanWait(s.status)
        else if !e.compensating && missing < |starting.members| then
          if DefinitivelyLost(s, starting.members[missing].identity) then SwitchoverUnsafe(s) else PlanWait(s.status)
        else ExecutePlan(s, transition, e, source.value)
  }
}
