/** How the evaluator reads a snapshot, and the commands it builds from accepted authority. */
module Evidence {
  import opened Base
  import opened ControlTypes

  // ---------------------------------------------------------------- lookups

  function KeyOf(identity: Identity): (k: Key)
  {
    Key(identity.replicaId, identity.instanceId)
  }

  function Find(entries: seq<Entry>, key: Key): (o: Option<Observation>)
  {
    if entries == [] then None
    else if entries[0].key == key then Some(entries[0].observation)
    else Find(entries[1..], key)
  }

  function ObservationFor(s: Snapshot, identity: Identity): (o: Option<Observation>)
  {
    Find(s.replicas, KeyOf(identity))
  }

  /** Any report stored under the identity's key. */
  function ReportFor(s: Snapshot, identity: Identity): (r: Option<Report>)
  {
    var o := ObservationFor(s, identity);
    if o.Some? && o.value.agent.AgentReported? then Some(o.value.agent.report) else None
  }

  function HealthyReport(s: Snapshot, identity: Identity): (r: Option<Report>)
    ensures r.Some? ==> r == ReportFor(s, identity)
  {
    var o := ObservationFor(s, identity);
    var report := ReportFor(s, identity);
    if o.None? || o.value.kubernetes.None? || !o.value.kubernetes.value.podReady || !o.value.kubernetes.value.endpointReady then None
    else if report.Some? && report.value.healthy && !report.value.permanentFault then report
    else None
  }

  function ExactReport(s: Snapshot, identity: Identity): (r: Option<Report>)
    ensures r.Some? ==> r == ReportFor(s, identity) && r.value.identity == identity
  {
    var report := ReportFor(s, identity);
    if report.Some? && report.value.identity == identity then report else None
  }

  function ReplicaFailed(s: Snapshot, identity: Identity): (failed: bool)
  {
    var o := ObservationFor(s, identity);
    var report := ReportFor(s, identity);
    if o.None? then true
    else if report.Some? && report.value.healthy && !report.value.permanentFault then
      o.value.kubernetes.Some? && !o.value.kubernetes.value.podReady
    else true
  }

  /** A complete observation shows no Pod of this incarnation. */
  predicate PodAbsent(s: Snapshot, identity: Identity)
  {
    && !s.observationFailed
    && forall i :: 0 <= i < |s.replicas| ==>
         var k := s.replicas[i].observation.kubernetes; !(k.Some? && k.value.podUid == Some(identity.instanceId))
  }

  predicate DefinitivelyLost(s: Snapshot, identity: Identity)
  {
    PodAbsent(s, identity) || (ExactReport(s, identity).Some? && ExactReport(s, identity).value.permanentFault)
  }

  predicate RoutingPresent(s: Snapshot)
  {
    s.routing.target.Some? || s.routing.unresolved
  }

  predicate StableMember(report: Report, member: Member, configuration: Configuration)
  {
    && report.identity == member.identity
    && report.role == member.role
    && report.epoch == configuration.epoch
    && report.previous.None?
    && report.current == Some(configuration)
    && report.pending.None?
  }

  /** The report carries the joint configuration. */
  predicate Joint(report: Report, previous: Configuration, current: Configuration)
  {
    report.epoch == current.epoch && report.previous == Some(previous) && report.current == Some(current)
  }

  predicate CurrentOnly(report: Report, current: Configuration)
  {
    report.epoch == current.epoch && report.previous.None? && report.current == Some(current)
  }

  /** Members of both configurations, each incarnation once, earlier ones first. */
  function Union(left: seq<Member>, right: seq<Member>): (u: seq<Member>)
  {
    if right == [] then left
    else
      var rest := Union(left, right[..|right| - 1]);
      var last := right[|right| - 1];
      if IndexOf(rest, last.identity) < |rest| then rest else rest + [last]
  }

  /** Reports found for the members, in member order. */
  function Collect(members: seq<Member>, found: Identity -> Option<Report>): (r: seq<Report>)
  {
    if members == [] then []
    else
      var last := found(members[|members| - 1].identity);
      Collect(members[..|members| - 1], found) + (if last.Some? then [last.value] else [])
  }

  function AvailableReports(s: Snapshot, members: seq<Member>): (r: seq<Report>)
  {
    Collect(members, (i: Identity) => HealthyReport(s, i))
  }

  function Survivors(s: Snapshot, members: seq<Member>): (n: nat)
  {
    Count(members, (m: Member) => !DefinitivelyLost(s, m.identity))
  }

  function NotFaulted(s: Snapshot, members: seq<Member>): (n: nat)
  {
    Count(members, (m: Member) => ReportFor(s, m.identity).None? || !ReportFor(s, m.identity).value.permanentFault)
  }

  function WithPrimary(configuration: Configuration, primary: Identity, epoch: Epoch): (c: Configuration)
    ensures c.epoch == epoch && c.primaryId == primary.replicaId
  {
    Configuration(epoch, primary.replicaId,
                  seq(|configuration.members|, i requires 0 <= i < |configuration.members| =>
                    Member(configuration.members[i].identity,
                           if configuration.members[i].identity == primary then Primary else ActiveSecondary)),
                  configuration.writeQuorum)
  }

  // ---------------------------------------------------------------- commands

  function FailoverCommand(previous: Configuration, current: Configuration, target: Identity, policy: Policy, operationId: OperationId,
                           safeLsn: Option<i64>, access: Access, currentOnly: bool, retire: seq<OperationId>): (c: EnsureConfiguration)
  {
    EnsureConfiguration(operationId, if currentOnly then None else Some(previous), current, policy, target, Failover, safeLsn, access,
                        currentOnly, retire, None, [])
  }

  function ReplacementCommand(previous: Configuration, current: Configuration, target: Identity, policy: Policy, operationId: OperationId,
                              grant: bool, currentOnly: bool, retire: seq<OperationId>): (c: EnsureConfiguration)
  {
    EnsureConfiguration(operationId, if currentOnly then None else Some(previous), current, policy, target, Replacement, None,
                        if grant then Granted else ReconfigurationPending, currentOnly, retire, None, [])
  }

  function PlainCommand(configuration: Configuration, target: Identity, policy: Policy, operationId: OperationId, access: Access): (c: EnsureConfiguration)
  {
    EnsureConfiguration(operationId, None, configuration, policy, target, Bootstrap, None, access, false, [], None, [])
  }

  function OnTransition(purpose: string, transition: Transition, replica: Option<Identity>): (o: OperationId)
  {
    OperationId(purpose, OfTransition(transition.id), replica)
  }

  function TransitionIdFor(s: Snapshot, kind: Kind, current: Configuration): (id: TransitionId)
  {
    var cleanup := s.status.pendingCleanup;
    if cleanup.Some? && !HasIdentity(current, cleanup.value.target) then TransitionId(kind, current, cleanup)
    else TransitionId(kind, current, None)
  }

  function TargetOf(provisioning: Provisioning): (i: Identity)
  {
    var replica := provisioning.replacing.replicaId;
    Identity(replica, provisioning.podUid, Generation(replica, provisioning.podUid, provisioning.pvcUid))
  }

  /** An exact scaffolded, reachable and uninitialized incarnation of this replica other than `replacing`. */
  predicate IsCandidate(entry: Entry, replacing: Identity)
  {
    && entry.key.replicaId == replacing.replicaId
    && entry.key.instanceId != replacing.instanceId
    && entry.observation.kubernetes.Some?
    && entry.observation.kubernetes.value.podUid.Some? && entry.observation.kubernetes.value.pvcUid.Some?
    && entry.observation.kubernetes.value.endpointReady
    && entry.observation.agent.AgentUninitialized?
  }

  function FindCandidate(entries: seq<Entry>, replacing: Identity): (e: Option<Entry>)
    ensures e.Some? ==> IsCandidate(e.value, replacing)
  {
    if entries == [] then None
    else if IsCandidate(entries[0], replacing) then Some(entries[0])
    else FindCandidate(entries[1..], replacing)
  }

  /** Storage of this replica survives without its Pod. */
  predicate OrphanedStorage(s: Snapshot, replicaId: i64)
  {
    exists i :: 0 <= i < |s.replicas| && s.replicas[i].key.replicaId == replicaId
      && s.replicas[i].observation.kubernetes.Some?
      && s.replicas[i].observation.kubernetes.value.podUid.None?
      && s.replicas[i].observation.kubernetes.value.pvcUid.Some?
  }

  predicate KubernetesMissing(s: Snapshot, identity: Identity)
  {
    var o := ObservationFor(s, identity);
    o.None? || o.value.kubernetes.None?
  }

  predicate ReplacementNeeded(s: Snapshot, configuration: Configuration, member: Member)
  {
    && member.role != Primary
    && var report := ReportFor(s, member.identity);
       || (report.Some?
           && (report.value.permanentFault
               || (report.value.role != Primary && report.value.access != Granted && EpochBelow(report.value.epoch, configuration.epoch))))
       || (KubernetesMissing(s, member.identity) && OrphanedStorage(s, member.identity.replicaId))
  }
}
