/** Genesis in `kuberic-controller/src/evaluator.rs`: the write-closed first topology and its supersession. */
module BootstrapPlan {
  import opened Base
  import opened ControlTypes
  import opened Evidence

  // ---------------------------------------------------------------- before the first transition

  /** The only Kubernetes observation of a replica, when there is exactly one. */
  function ScaffoldingOf(entries: seq<Entry>, replicaId: i64): (r: seq<Observation>)
    ensures forall i :: 0 <= i < |r| ==> r[i].kubernetes.Some?
  {
    if entries == [] then []
    else
      var e := entries[|entries| - 1];
      ScaffoldingOf(entries[..|entries| - 1], replicaId)
      + (if e.key.replicaId == replicaId && e.observation.kubernetes.Some? then [e.observation] else [])
  }

  predicate Scaffolded(s: Snapshot, replicaId: i64)
  {
    var found := ScaffoldingOf(s.replicas, replicaId);
    |found| == 1 && found[0].kubernetes.value.podUid.Some? && found[0].kubernetes.value.pvcUid.Some?
  }

  function GenesisMember(s: Snapshot, replicaId: i64): (m: Member)
    requires Scaffolded(s, replicaId)
    ensures m.identity.replicaId == replicaId && m.role == (if replicaId == 1 then Primary else ActiveSecondary)
  {
    var k := ScaffoldingOf(s.replicas, replicaId)[0].kubernetes.value;
    Member(Identity(replicaId, k.podUid.value, Generation(replicaId, k.podUid.value, k.pvcUid.value)),
           if replicaId == 1 then Primary else ActiveSecondary)
  }

  /** Replicas are numbered from one and the first is the initial primary. */
  function Genesis(s: Snapshot, policy: Policy): (c: Configuration)
    requires forall i: int :: 1 <= i <= s.desiredReplicas ==> Scaffolded(s, i)
    ensures c.epoch == Epoch(0, 1)
  {
    Configuration(Epoch(0, 1), 1,
                  seq(s.desiredReplicas, i requires 0 <= i < s.desiredReplicas => GenesisMember(s, i + 1)),
                  policy.writeQuorum)
  }

  function GenesisTransition(s: Snapshot, policy: Policy, generation: u64, current: Configuration): (t: Transition)
  {
    Transition(TransitionId(Bootstrap, current, None), Bootstrap, generation, policy, None, current, None, None, None, None)
  }

  predicate DurableEvidence(s: Snapshot)
  {
    s.durableEvidence || exists i :: 0 <= i < |s.replicas| && s.replicas[i].observation.agent.AgentReported?
  }

  function FirstStaleImage(entries: seq<Entry>): (k: Option<Kube>)
  {
    if entries == [] then None
    else if entries[0].observation.kubernetes.Some? && entries[0].observation.kubernetes.value.staleImage then entries[0].observation.kubernetes
    else FirstStaleImage(entries[1..])
  }

  function EvaluateNeverInitialized(s: Snapshot): (p: Plan)
  {
    var policy := FixedPolicy(s.desiredReplicas, s.desiredDelay);
    if DurableEvidence(s) then PlanUnsafe(s.status)
    else if policy.None? then PlanUnsafe(s.status)
    else if exists i: int :: 1 <= i <= s.desiredReplicas && !Scaffolded(s, i) then
      PlanApply([EnsureScaffolding(seq(s.desiredReplicas, i requires 0 <= i < s.desiredReplicas => i + 1))])
    else if !s.routing.servicePresent then PlanApply([EnsureRoutingService])
    else if exists i: int :: 1 <= i <= s.desiredReplicas && Scaffolded(s, i) && !ScaffoldingOf(s.replicas, i)[0].agent.AgentUninitialized? then
      PlanWait(s.status)
    else if FirstStaleImage(s.replicas).Some? then
      var k := FirstStaleImage(s.replicas).value;
      PlanApply([DeleteScaffolding(k.podUid, k.pvcUid)])
    else
      PlanApply([Persist(s.status.(transition := Some(GenesisTransition(s, policy.value, s.desiredGeneration, Genesis(s, policy.value)))))])
  }

  // ---------------------------------------------------------------- supersession

  predicate Orphaned(s: Snapshot, member: Member)
  {
    KubernetesMissing(s, member.identity) && OrphanedStorage(s, member.identity.replicaId)
  }

  function Supersede(configuration: Configuration, missing: Identity, replacement: Identity): (c: Configuration)
    ensures c.epoch == Epoch(configuration.epoch.dataLoss, NextNumber(configuration.epoch.number))
  {
    Configuration(Epoch(configuration.epoch.dataLoss, NextNumber(configuration.epoch.number)), configuration.primaryId,
                  seq(|configuration.members|, i requires 0 <= i < |configuration.members| =>
                    if configuration.members[i].identity == missing then Member(replacement, configuration.members[i].role)
                    else configuration.members[i]),
                  configuration.writeQuorum)
  }

  function SupersessionPlan(s: Snapshot, transition: Transition): (p: Option<Plan>)
  {
    var current := transition.current;
    var i := FirstWhere(current.members, (m: Member) => Orphaned(s, m), 0);
    if i == |current.members| then None
    else
      var missing := current.members[i].identity;
      var candidate := FindCandidate(s.replicas, missing);
      if exists k :: 0 <= k < |s.replicas| && s.replicas[k].observation.agent.AgentReported?
           && s.replicas[k].observation.agent.report.current == Some(current) then Some(PlanWait(s.status))
      else if candidate.None? then Some(PlanApply([EnsureReplacement(missing)]))
      else
        var k := candidate.value.observation.kubernetes.value;
        var replacement := Identity(missing.replicaId, candidate.value.key.instanceId,
                                    Generation(missing.replicaId, k.podUid.value, k.pvcUid.value));
        Some(PlanApply([Persist(s.status.(transition :=
          Some(GenesisTransition(s, transition.policy, transition.specGeneration, Supersede(current, missing, replacement)))))]))
  }

  // ---------------------------------------------------------------- installation

  /** The observed incarnation is not the persisted one. */
  predicate Mismatched(s: Snapshot, member: Member)
  {
    var o := ObservationFor(s, member.identity);
    && o.Some?
    && (|| (o.value.agent.AgentUninitialized? && !UninitializedMatches(o.value, member))
        || (o.value.agent.AgentReported? && o.value.agent.report.identity != member.identity))
  }

  predicate UninitializedMatches(o: Observation, member: Member)
  {
    && o.kubernetes.Some? && o.kubernetes.value.podUid.Some? && o.kubernetes.value.pvcUid.Some?
    && o.kubernetes.value.podUid.value == member.identity.instanceId
    && Generation(member.identity.replicaId, o.kubernetes.value.podUid.value, o.kubernetes.value.pvcUid.value) == member.identity.generation
  }

  predicate GenesisInstalled(report: Report, transition: Transition, member: Member)
  {
    && report.identity == member.identity
    && report.healthy
    && report.role == member.role
    && report.access != Granted
    && CurrentOnly(report, transition.current)
    && report.progress == 0 && report.committed == 0
    && report.pending.None?
    && report.retained == Some(OnTransition("install", transition, Some(member.identity)))
  }

  /** The member reports genesis installed exactly. */
  predicate HasGenesis(s: Snapshot, transition: Transition, member: Member)
  {
    var o := ObservationFor(s, member.identity);
    o.Some? && o.value.agent.AgentReported? && GenesisInstalled(o.value.agent.report, transition, member)
  }

  /** The member answers, with a report or as uninitialized. */
  predicate Commandable(s: Snapshot, member: Member)
  {
    var o := ObservationFor(s, member.identity);
    o.Some? && (o.value.agent.AgentUninitialized? || o.value.agent.AgentReported?)
  }

  /** Everyone up to `k` installed genesis, and the member at `k` did not. */
  predicate FirstUninstalled(s: Snapshot, transition: Transition, from: nat, k: int)
  {
    var members := transition.current.members;
    from <= k < |members| && !HasGenesis(s, transition, members[k]) && forall j :: from <= j < k ==> HasGenesis(s, transition, members[j])
  }

  /** The installation pass: wait, one command, or the number of installed members. */
  datatype InstallPass = InstallWaits | InstallInitializes(member: Member) | InstallConfigures(member: Member) | InstallCounts(installed: nat)

  function InstallFrom(s: Snapshot, transition: Transition, from: nat, installed: nat): (r: InstallPass)
    requires from <= |transition.current.members|
    ensures r.InstallCounts? ==> r.installed == installed + |transition.current.members| - from
    ensures r.InstallCounts? ==> forall k :: from <= k < |transition.current.members| ==> HasGenesis(s, transition, transition.current.members[k])
    ensures r.InstallWaits? ==> exists k :: FirstUninstalled(s, transition, from, k) && !Commandable(s, transition.current.members[k])
    ensures r.InstallInitializes? ==>
      exists k :: FirstUninstalled(s, transition, from, k) && transition.current.members[k] == r.member && Commandable(s, r.member)
        && ObservationFor(s, r.member.identity).value.agent.AgentUninitialized?
    ensures r.InstallConfigures? ==>
      exists k :: FirstUninstalled(s, transition, from, k) && transition.current.members[k] == r.member && Commandable(s, r.member)
        && ObservationFor(s, r.member.identity).value.agent.AgentReported?
    decreases |transition.current.members| - from
  {
    if from == |transition.current.members| then InstallCounts(installed)
    else
      hide GenesisInstalled;
      hide ObservationFor;
      var member := transition.current.members[from];
      var o := ObservationFor(s, member.identity);
      assert !HasGenesis(s, transition, member) ==> FirstUninstalled(s, transition, from, from);
      if o.None? then InstallWaits
      else if o.value.agent.AgentUninitialized? then InstallInitializes(member)
      else if !o.value.agent.AgentReported? then InstallWaits
      else if GenesisInstalled(o.value.agent.report, transition, member) then InstallFrom(s, transition, from + 1, installed + 1)
      else InstallConfigures(member)
  }

  method InstallGenesis(s: Snapshot, transition: Transition) returns (r: InstallPass)
    ensures r == InstallFrom(s, transition, 0, 0)
    ensures r.InstallCounts? ==> forall m :: m in transition.current.members ==> HasGenesis(s, transition, m)
    ensures r.InstallInitializes? || r.InstallConfigures? ==>
      exists k :: FirstUninstalled(s, transition, 0, k) && transition.current.members[k] == r.member
  {
    var installed := 0;
    var i := 0;
    while i < |transition.current.members|
      invariant 0 <= i <= |transition.current.members|
      invariant InstallFrom(s, transition, 0, 0) == InstallFrom(s, transition, i, installed)
    {
      var member := transition.current.members[i];
      var o := ObservationFor(s, member.identity);
      if o.None? { return InstallWaits; }
      if o.value.agent.AgentUninitialized? { return InstallInitializes(member); }
      if !o.value.agent.AgentReported? { return InstallWaits; }
      if !GenesisInstalled(o.value.agent.report, transition, member) { return InstallConfigures(member); }
      installed := installed + 1;
      i := i + 1;
    }
    r := InstallCounts(installed);
  }

  function EvaluateBootstrap(s: Snapshot, transition: Transition): (p: Plan)
  {
    var superseded := SupersessionPlan(s, transition);
    if superseded.Some? then superseded.value
    else if exists i :: 0 <= i < |transition.current.members| && Mismatched(s, transition.current.members[i]) then PlanUnsafe(s.status)
    else
      match InstallFrom(s, transition, 0, 0)
      case InstallWaits => PlanWait(s.status)
      case InstallInitializes(member) => PlanExecute(InitializeStore(member.identity, transition.current))
      case InstallConfigures(member) =>
        PlanExecute(Ensure(PlainCommand(transition.current, member.identity, transition.policy,
                                        OnTransition("install", transition, Some(member.identity)), ReconfigurationPending)))
      case InstallCounts(installed) =>
        if installed == |transition.current.members| then
          PlanApply([Persist(s.status.(initialized := true, observedGeneration := transition.specGeneration,
                                       policy := Some(transition.policy), topology := Some(transition.current), transition := None))])
        else PlanWait(s.status)
  }
}
