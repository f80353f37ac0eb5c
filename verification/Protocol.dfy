/**
 * The reconfiguration protocol without its evidence: how one persisted status may follow another, and
 * which commands a status may issue. Every plan of the evaluator obeys it.
 */
module Protocol {
  import opened Base
  import opened ControlTypes

  /** The outstanding configuration is strictly above the accepted one; genesis has none to be above. */
  predicate Sound(status: Status)
  {
    status.transition.Some? ==>
      if status.transition.value.kind == Bootstrap then status.topology.None?
      else status.topology.Some? && Newer(status.topology.value, status.transition.value.current)
  }

  /**
   * The one configuration write access may be granted under: the accepted one while nothing is outstanding, the
   * outstanding one of a failover or replacement, and none during genesis or a planned switchover.
   */
  function Authority(status: Status): (c: Option<Configuration>)
  {
    if status.transition.None? then status.topology
    else if status.transition.value.kind in {Failover, Replacement} && Sound(status) then Some(status.transition.value.current)
    else None
  }

  function RankOf(resolution: Resolution): (n: nat)
  {
    match resolution
    case RequestedTarget => 0
    case RestoringOldPrimary => 1
    case CompensatingOldPrimary => 2
    case Unresolvable => 3
  }

  /** A frozen switchover only moves forward: what was asked never changes, the handoff is set once, the resolution rises. */
  predicate IntentAdvances(a: Intent, b: Intent)
  {
    && b == a.(resolution := b.resolution, handoff := b.handoff)
    && (a.handoff.Some? ==> b.handoff == a.handoff)
    && RankOf(a.resolution) <= RankOf(b.resolution)
  }

  /** The same authority is outstanding. */
  predicate SameAuthority(a: Option<Transition>, b: Option<Transition>)
  {
    || (a.None? && b.None?)
    || (&& a.Some? && b.Some?
        && a.value.kind == b.value.kind && a.value.current == b.value.current && a.value.policy == b.value.policy
        && a.value.previous == b.value.previous
        && (a.value.switchover.None? <==> b.value.switchover.None?)
        && (a.value.switchover.Some? ==> IntentAdvances(a.value.switchover.value, b.value.switchover.value)))
  }

  predicate NextEpoch(a: Epoch, b: Epoch)
  {
    b == Epoch(a.dataLoss, NextNumber(a.number))
  }

  /** A transition allocated over the accepted topology, or genesis when there is none. */
  predicate Begins(status: Status, transition: Transition)
  {
    && status.transition.None?
    && if status.topology.None? then transition.kind == Bootstrap && transition.switchover.None?
       else
         && transition.kind != Bootstrap
         && transition.previous == status.topology
         && NextEpoch(status.topology.value.epoch, transition.current.epoch)
         && (transition.kind == Switchover ==>
               && transition.switchover.Some? && transition.switchover.value.resolution == RequestedTarget
               && transition.switchover.value.handoff.None? && transition.switchover.value.requested == transition.current)
         && (transition.kind != Switchover ==> transition.switchover.None?)
  }

  /** An outstanding transition reallocated at a newer epoch. */
  predicate Reallocates(a: Transition, b: Transition)
  {
    || (a.kind == Bootstrap && b.kind == Bootstrap && b.switchover.None?)
    || (&& a.kind in {Failover, Replacement} && b.kind == Failover && b.switchover.None?
        && NextEpoch(a.current.epoch, b.current.epoch) && b.previous == a.previous)
    || (&& a.kind == Switchover && b.kind == Switchover && a.switchover.Some? && b.switchover.Some?
        && IntentAdvances(a.switchover.value, b.switchover.value)
        && a.switchover.value.resolution in {RequestedTarget, RestoringOldPrimary}
        && b.switchover.value.resolution == CompensatingOldPrimary
        && b.previous == a.previous
        && b.current.epoch.dataLoss == a.current.epoch.dataLoss
        && b.current.epoch.number == NextNumber(a.switchover.value.requested.epoch.number))
  }

  /** How the authority of one persisted status may follow another's. */
  predicate AuthorityStep(s: Status, t: Status)
  {
    || (t.topology == s.topology && SameAuthority(s.transition, t.transition))
    || (t.topology == s.topology && t.transition.Some? && Begins(s, t.transition.value))
    || (Sound(s) && t.topology == s.topology && s.transition.Some? && t.transition.Some? && Reallocates(s.transition.value, t.transition.value))
    || (Sound(s) && s.transition.Some? && t.transition.None? && t.topology == Some(s.transition.value.current))
    || (s.transition.Some? && s.transition.value.kind == Switchover && t.transition.None? && t.topology == s.topology)
  }

  /** A receipt of an unsafe outcome is written only for a switchover already persisted as unsafe. */
  predicate ReceiptStep(s: Status, t: Status)
  {
    t.lastSwitchover == s.lastSwitchover || (t.lastSwitchover.Some? && t.lastSwitchover.value.outcome != OutcomeUnsafe) || IsUnsafe(s)
  }

  predicate StatusStep(s: Status, t: Status)
  {
    AuthorityStep(s, t) && ReceiptStep(s, t)
  }

  /** A command that opens writes names the primary of the one grantable configuration. */
  predicate CommandAllowed(status: Status, command: Command)
  {
    command.Ensure? && command.ensured.access == Granted ==>
      && Authority(status) == Some(command.ensured.current)
      && HasPrimary(command.ensured.current)
      && command.ensured.target == PrimaryOf(command.ensured.current).identity
  }

  /** Routing is published only to the primary of the accepted topology with nothing outstanding. */
  predicate ChangeAllowed(status: Status, change: Change)
  {
    match change
    case Persist(next) => StatusStep(status, next)
    case PublishRouting(primary) =>
      && status.topology.Some? && status.transition.None? && HasPrimary(status.topology.value)
      && primary == PrimaryOf(status.topology.value).identity
    case _ => true
  }

  predicate PlanAllowed(status: Status, plan: Plan)
  {
    match plan
    case PlanStable(next) => StatusStep(status, next)
    case PlanWait(next) => StatusStep(status, next)
    case PlanUnsafe(next) => StatusStep(status, next)
    case PlanExecute(command) => CommandAllowed(status, command)
    case PlanApply(changes) => forall i :: 0 <= i < |changes| ==> ChangeAllowed(status, changes[i])
  }

  /** The plan persists this status. */
  ghost predicate Persists(plan: Plan, t: Status)
  {
    || plan == PlanStable(t) || plan == PlanWait(t) || plan == PlanUnsafe(t)
    || (plan.PlanApply? && Persist(t) in plan.changes)
  }

  /** The plan neither grants writes nor publishes routing. */
  predicate OpensNothing(plan: Plan)
  {
    && (plan.PlanExecute? && plan.command.Ensure? ==> plan.command.ensured.access != Granted)
    && (plan.PlanApply? ==> forall i :: 0 <= i < |plan.changes| ==> !plan.changes[i].PublishRouting?)
  }

  /** Neither authority nor the switchover receipt changed. */
  predicate Untouched(s: Status, t: Status)
  {
    t.topology == s.topology && t.transition == s.transition && t.lastSwitchover == s.lastSwitchover
  }

  /** Fields other than authority may change freely. */
  lemma KeepsAuthority(s: Status, t: Status)
    requires Untouched(s, t)
    ensures StatusStep(s, t)
  {
  }
}
