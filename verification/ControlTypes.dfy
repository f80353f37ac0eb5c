/**
 * Authority and evidence of the replica controller: the protocol types of
 * `kuberic-runtime/src/protocol/types.rs`, `observation.rs` and `command.rs` that the evaluator reads
 * and writes. Derived identifiers (configuration, transition, operation and generation digests) are
 * held as the content they are derived from.
 */
module ControlTypes {
  import opened Base

  datatype Generation = Generation(replicaId: i64, podUid: string, pvcUid: string)

  /** One exact incarnation of a logical replica. */
  datatype Identity = Identity(replicaId: i64, instanceId: string, generation: Generation)

  datatype Epoch = Epoch(dataLoss: i64, number: i64)

  predicate EpochBelow(a: Epoch, b: Epoch)
  {
    a.dataLoss < b.dataLoss || (a.dataLoss == b.dataLoss && a.number < b.number)
  }

  datatype Role = Primary | ActiveSecondary | IdleSecondary | NoRole

  datatype Access = Granted | ReconfigurationPending | NotPrimary | NoWriteQuorum

  datatype Member = Member(identity: Identity, role: Role)

  datatype Configuration = Configuration(epoch: Epoch, primaryId: i64, members: seq<Member>, writeQuorum: u32)

  datatype Policy = Policy(size: u32, writeQuorum: u32, readQuorum: u32, failoverDelay: u64)

  datatype Kind = Bootstrap | Replacement | Failover | Switchover

  datatype Resolution = RequestedTarget | RestoringOldPrimary | CompensatingOldPrimary | Unresolvable

  /** Frozen cleanup authority of one retired incarnation. */
  datatype Cleanup = Cleanup(target: Identity, resources: string)

  datatype TransitionId = TransitionId(kind: Kind, configuration: Configuration, cleanup: Option<Cleanup>)

  /** What an operation identifier is derived from. */
  datatype Owner =
    | OfConfiguration(configuration: Configuration)
    | OfTransition(transition: TransitionId)
    | OfPreparation(requestId: string, generation: u64, starting: Configuration, source: Identity, target: Identity)
    | OfProvisioning(cleanup: Cleanup, podUid: string, pvcUid: string)
    | External(token: string)

  datatype OperationId = OperationId(purpose: string, owner: Owner, replica: Option<Identity>)

  datatype Handoff = Handoff(
    generation: u64,
    operationId: OperationId,
    requestId: string,
    source: Identity,
    target: Identity,
    starting: Configuration,
    startingEpoch: Epoch,
    lsn: i64)

  datatype Intent = Intent(
    generation: u64,
    requestId: string,
    source: Identity,
    target: Identity,
    requested: Configuration,
    resolution: Resolution,
    handoff: Option<Handoff>)

  datatype Repair = Repair(operationId: OperationId, target: Identity)

  datatype Transition = Transition(
    id: TransitionId,
    kind: Kind,
    specGeneration: u64,
    policy: Policy,
    previous: Option<Configuration>,
    current: Configuration,
    electionLsn: Option<i64>,
    buildId: Option<OperationId>,
    repair: Option<Repair>,
    switchover: Option<Intent>)

  datatype Outcome = RequestedTargetCompleted | OldPrimaryRestored | OldPrimaryCompensated | Rejected | OutcomeUnsafe

  datatype Receipt = Receipt(
    requestId: string,
    targetReplicaId: i64,
    acceptedTarget: Option<Identity>,
    resultingPrimary: Option<Identity>,
    outcome: Outcome)

  datatype PrimaryFailure = PrimaryFailure(primary: Identity, startedAt: i64)

  datatype Provisioning = Provisioning(replacing: Identity, operationId: OperationId, podUid: string, pvcUid: string)

  datatype Rejection =
    | ActiveRequestImmutable
    | MalformedRequest
    | RequestIdReused
    | TargetAlreadyPrimary
    | TargetNotMember
    | TargetNotEligible
    | ConfigurationEpochExhausted

  /** Persisted status. Of its conditions only the switchover rejection decides anything. */
  datatype Status = Status(
    initialized: bool,
    observedGeneration: u64,
    policy: Option<Policy>,
    topology: Option<Configuration>,
    provisioning: Option<Provisioning>,
    transition: Option<Transition>,
    primaryFailure: Option<PrimaryFailure>,
    quorumLoss: Option<Configuration>,
    lastSwitchover: Option<Receipt>,
    pendingCleanup: Option<Cleanup>,
    lastReplacement: Option<Cleanup>,
    rejection: Option<Rejection>)

  const FreshStatus := Status(false, 0, None, None, None, None, None, None, None, None, None, None)

  predicate IsSwitchover(status: Status)
  {
    status.transition.Some? && status.transition.value.kind == Switchover
  }

  /** The switchover was persisted as unsafe. */
  predicate IsUnsafe(status: Status)
  {
    IsSwitchover(status) && status.transition.value.switchover.Some? && status.transition.value.switchover.value.resolution == Unresolvable
  }

  // ---------------------------------------------------------------- evidence

  datatype Build = Build(buildId: OperationId, target: Identity, durableLsn: i64, completed: bool)

  datatype Report = Report(
    protocolVersion: u32,
    ownResource: bool,
    identity: Identity,
    session: string,
    sequence: u64,
    role: Role,
    access: Access,
    healthy: bool,
    permanentFault: bool,
    epoch: Epoch,
    previous: Option<Configuration>,
    current: Option<Configuration>,
    progress: i64,
    verified: Option<i64>,
    committed: i64,
    catchUpCapability: Option<i64>,
    quorumProgress: i64,
    catchUpBoundary: Option<i64>,
    catchUpComplete: bool,
    deactivatedLsn: Option<i64>,
    deactivationEpoch: Option<Epoch>,
    pending: Option<OperationId>,
    retained: Option<OperationId>,
    builds: seq<Build>,
    prepared: Option<Handoff>,
    internallyValid: bool)

  datatype Kube = Kube(podName: string, podUid: Option<string>, pvcUid: Option<string>, podReady: bool, endpointReady: bool, staleImage: bool)

  datatype Agent =
    | AgentAbsent
    | AgentUnreachable
    | AgentInvalid
    | AgentUninitialized(version: u32)
    | AgentReported(report: Report)

  datatype Observation = Observation(kubernetes: Option<Kube>, agent: Agent)

  datatype Key = Key(replicaId: i64, instanceId: string)

  /** Observations in key order. */
  datatype Entry = Entry(key: Key, observation: Observation)

  datatype Watermark = Watermark(session: string, sequence: u64)

  datatype Routing = Routing(servicePresent: bool, unresolved: bool, target: Option<Identity>)

  datatype SwitchoverRequest = SwitchoverRequest(requestId: string, targetReplicaId: i64)

  /** What `validate_snapshot` says about the evidence once the status itself is well formed. */
  datatype Validation = ValidEvidence | StaleSequence | Contradictory

  /** Progress of frozen replacement cleanup, as the exact resource lookups report it. */
  datatype CleanupProgress = CleanupUnproven | CleanupDeletes | CleanupFinished

  datatype Snapshot = Snapshot(
    supportedVersion: u32,
    desiredGeneration: u64,
    desiredReplicas: u32,
    desiredDelay: u64,
    request: Option<SwitchoverRequest>,
    specObserved: bool,
    conditionsStale: bool,
    status: Status,
    replicas: seq<Entry>,
    watermarks: map<Key, Watermark>,
    durableEvidence: bool,
    supportReady: bool,
    routing: Routing,
    observationFailed: bool,
    validation: Validation,
    freezable: map<Identity, Cleanup>,
    cleanupProgress: CleanupProgress,
    now: i64)

  // ---------------------------------------------------------------- effects

  datatype EnsureConfiguration = EnsureConfiguration(
    operationId: OperationId,
    previous: Option<Configuration>,
    current: Configuration,
    policy: Policy,
    target: Identity,
    kind: Kind,
    safeLsn: Option<i64>,
    access: Access,
    currentOnly: bool,
    retireBuilds: seq<OperationId>,
    handoff: Option<Handoff>,
    retirePreparations: seq<OperationId>)

  datatype Command =
    | InitializeStore(target: Identity, configuration: Configuration)
    | PrepareSwitchover(operationId: OperationId, intent: Intent, configuration: Configuration)
    | Ensure(ensured: EnsureConfiguration)
    | EnsureBuild(operationId: OperationId, source: Identity, destination: Identity)

  datatype Change =
    | EnsureSupport
    | EnsureScaffolding(replicaIds: seq<i64>)
    | EnsureReplacement(replacing: Identity)
    | DeleteScaffolding(podUid: Option<string>, pvcUid: Option<string>)
    | DeleteExactPod(podName: string, uid: string)
    | DeleteCleanupResource
    | EnsureRoutingService
    | Persist(status: Status)
    | RemoveRouting
    | PublishRouting(primary: Identity)

  datatype Plan =
    | PlanStable(status: Status)
    | PlanApply(changes: seq<Change>)
    | PlanExecute(command: Command)
    | PlanWait(status: Status)
    | PlanUnsafe(status: Status)

  // ---------------------------------------------------------------- configurations

  predicate IsPrimary(configuration: Configuration, member: Member)
  {
    member.identity.replicaId == configuration.primaryId && member.role == Primary
  }

  predicate HasPrimary(configuration: Configuration)
  {
    exists i :: 0 <= i < |configuration.members| && IsPrimary(configuration, configuration.members[i])
  }

  /** The first member satisfying the primary test, as a search over the members. */
  function FindPrimary(configuration: Configuration, from: nat): (i: nat)
    requires from <= |configuration.members|
    requires exists k :: from <= k < |configuration.members| && IsPrimary(configuration, configuration.members[k])
    ensures from <= i < |configuration.members| && IsPrimary(configuration, configuration.members[i])
    decreases |configuration.members| - from
  {
    if IsPrimary(configuration, configuration.members[from]) then from else FindPrimary(configuration, from + 1)
  }

  function PrimaryOf(configuration: Configuration): (m: Member)
    requires HasPrimary(configuration)
    ensures m in configuration.members && IsPrimary(configuration, m)
  {
    configuration.members[FindPrimary(configuration, 0)]
  }

  predicate HasIdentity(configuration: Configuration, identity: Identity)
  {
    exists i :: 0 <= i < |configuration.members| && configuration.members[i].identity == identity
  }

  /** Position of an identity, or the length when it is not a member. */
  function IndexOf(members: seq<Member>, identity: Identity): (i: nat)
    ensures i <= |members|
    ensures i < |members| ==> members[i].identity == identity
    ensures i == |members| <==> forall k :: 0 <= k < |members| ==> members[k].identity != identity
  {
    if members == [] then 0
    else if members[0].identity == identity then 0
    else
      assert forall k :: 0 <= k < |members[1..]| ==> members[1..][k] == members[k + 1];
      1 + IndexOf(members[1..], identity)
  }

  /** First member at or after `from` satisfying the test, or the length. */
  function FirstWhere(members: seq<Member>, test: Member -> bool, from: nat): (i: nat)
    requires from <= |members|
    ensures from <= i <= |members|
    ensures i < |members| ==> test(members[i])
    ensures forall k :: from <= k < i ==> !test(members[k])
    decreases |members| - from
  {
    if from == |members| then from
    else if test(members[from]) then from
    else FirstWhere(members, test, from + 1)
  }

  /** How many members satisfy the test. */
  function Count(members: seq<Member>, test: Member -> bool): (n: nat)
    ensures n <= |members|
  {
    if members == [] then 0
    else Count(members[..|members| - 1], test) + (if test(members[|members| - 1]) then 1 else 0)
  }

  predicate DistinctReplicas(members: seq<Member>)
  {
    forall i, j :: 0 <= i < j < |members| ==> members[i].identity.replicaId != members[j].identity.replicaId
  }

  /** `EffectivePolicy::fixed`: majority writes and the smallest reads that meet every majority. */
  function FixedPolicy(size: u32, delay: u64): (p: Option<Policy>)
    ensures p.Some? ==> p.value.readQuorum + p.value.writeQuorum > size
  {
    if size == 0 then None
    else
      var write := size / 2 + 1;
      Some(Policy(size, write, size - write + 1, delay))
  }

  predicate ValidPolicy(policy: Policy)
  {
    FixedPolicy(policy.size, policy.failoverDelay) == Some(policy)
  }

  predicate ValidConfiguration(configuration: Configuration, policy: Policy)
  {
    && configuration.epoch.dataLoss >= 0 && configuration.epoch.number >= 0
    && |configuration.members| == policy.size
    && configuration.writeQuorum == policy.writeQuorum
    && DistinctReplicas(configuration.members)
    && HasPrimary(configuration)
    && (forall i :: 0 <= i < |configuration.members| && configuration.members[i].role == Primary ==>
          configuration.members[i].identity.replicaId == configuration.primaryId)
  }

  /** A strictly newer configuration of the same data-loss authority. */
  predicate Newer(previous: Configuration, current: Configuration)
  {
    current.epoch.dataLoss == previous.epoch.dataLoss && current.epoch.number > previous.epoch.number
  }

  predicate SameMembers(a: Configuration, b: Configuration)
  {
    && (forall i :: 0 <= i < |a.members| ==> HasIdentity(b, a.members[i].identity))
    && (forall i :: 0 <= i < |b.members| ==> HasIdentity(a, b.members[i].identity))
  }

  /** A configuration number one above `n`; the unchecked addition wraps at the maximum. */
  function NextNumber(n: i64): (m: i64)
  {
    if n == I64_MAX then I64_MIN else n + 1
  }

  // ---------------------------------------------------------------- well-formed status

  /** The switchover part of `validate_status`. */
  predicate ValidIntent(topology: Configuration, transition: Transition, intent: Intent)
  {
    && HasPrimary(topology)
    && intent.source == PrimaryOf(topology).identity
    && intent.target.replicaId != topology.primaryId
    && HasIdentity(topology, intent.target)
    && ValidConfiguration(intent.requested, transition.policy)
    && Newer(topology, intent.requested)
    && SameMembers(topology, intent.requested)
    && intent.requested.primaryId == intent.target.replicaId
    && (match intent.resolution
        case RequestedTarget => transition.current == intent.requested
        case RestoringOldPrimary => transition.current == intent.requested
        case CompensatingOldPrimary =>
          && Newer(intent.requested, transition.current)
          && SameMembers(intent.requested, transition.current)
          && transition.current.primaryId == intent.source.replicaId
          && intent.handoff.Some?
        case Unresolvable =>
          transition.current == intent.requested ||
          (&& Newer(intent.requested, transition.current)
           && SameMembers(intent.requested, transition.current)
           && transition.current.primaryId == intent.source.replicaId))
    && (intent.handoff.Some? ==>
          && intent.handoff.value.source == intent.source && intent.handoff.value.target == intent.target
          && intent.handoff.value.starting == topology && intent.handoff.value.startingEpoch == topology.epoch
          && intent.handoff.value.lsn >= 0)
  }

  predicate ValidTransition(status: Status, transition: Transition)
  {
    && ValidPolicy(transition.policy)
    && ValidConfiguration(transition.current, transition.policy)
    && (status.policy.Some? ==> status.policy.value == transition.policy)
    && (transition.kind != Bootstrap ==> status.policy.Some? && status.topology.Some?)
    && if transition.kind == Bootstrap then transition.switchover.None? && status.topology.None?
       else if transition.kind == Switchover then
         && transition.switchover.Some?
         && transition.previous == status.topology
         && ValidIntent(status.topology.value, transition, transition.switchover.value)
       else
         && transition.switchover.None?
         && transition.previous == status.topology
         && Newer(status.topology.value, transition.current)
         && (transition.kind == Replacement ==>
               transition.current.primaryId == status.topology.value.primaryId && transition.buildId.Some?)
         && (transition.repair.Some? ==> HasIdentity(transition.current, transition.repair.value.target))
  }

  /** The parts of `validate_status` that authority decisions rest on. */
  predicate ValidStatus(status: Status)
  {
    && (status.initialized <==> status.topology.Some?)
    && (status.initialized ==> status.policy.Some?)
    && (status.policy.Some? ==> ValidPolicy(status.policy.value))
    && (status.topology.Some? ==> ValidConfiguration(status.topology.value, status.policy.value))
    && (status.provisioning.Some? ==> status.initialized && status.transition.None?)
    && (status.lastReplacement.Some? ==> status.provisioning.None? && status.transition.None?)
    && (status.primaryFailure.Some? ==>
          status.topology.Some? && status.primaryFailure.value.primary == PrimaryOf(status.topology.value).identity)
    && (status.transition.Some? ==> ValidTransition(status, status.transition.value))
  }
}
