/**
 * Whole runs of the controller: any number of reconciliations, each from a persisted status that may be stale and
 * from any evidence at all, each effect of its plan carried out separately, late, or never. A status write is
 * conditional on the revision that was read, so the persisted statuses form one history.
 */
module ControlRuns {
  import opened Base
  import opened ControlTypes
  import opened Evaluator
  import opened Protocol
  import opened Lawful

  /** What a plan does to authority. Other Kubernetes changes do not touch it. */
  datatype Effect = Write(status: Status) | Send(command: Command) | Route(primary: Identity)

  ghost predicate Offers(plan: Plan, effect: Effect)
  {
    match effect
    case Write(t) => Persists(plan, t)
    case Send(command) => plan == PlanExecute(command)
    case Route(primary) => plan.PlanApply? && PublishRouting(primary) in plan.changes
  }

  /** Some evidence makes the evaluator decide this effect from this status. */
  ghost predicate Decides(status: Status, effect: Effect)
  {
    exists s: Snapshot :: s.status == status && Offers(Evaluate(s), effect)
  }

  lemma DecidesLawful(status: Status, effect: Effect)
    requires Decides(status, effect)
    ensures effect.Write? ==> StatusStep(status, effect.status)
    ensures effect.Send? ==> CommandAllowed(status, effect.command)
    ensures effect.Route? ==> ChangeAllowed(status, PublishRouting(effect.primary))
  {
    hide Evaluate;
    hide StatusStep;
    hide CommandAllowed;
    var s: Snapshot :| s.status == status && Offers(Evaluate(s), effect);
    EvaluateLawful(s);
  }

  // ---------------------------------------------------------------- runs

  /** An effect that left the controller, and the position of the status it was decided from. */
  datatype Issue = Issue(index: nat, effect: Effect)

  datatype Control = Control(history: seq<Status>, issued: seq<Issue>)

  const START := Control([FreshStatus], [])

  datatype Event = Event(index: nat, snapshot: Snapshot, effect: Effect)

  function Performed(c: Control, index: nat, effect: Effect): (d: Control)
  {
    if !effect.Write? then c.(issued := c.issued + [Issue(index, effect)])
    else if index + 1 == |c.history| then c.(history := c.history + [effect.status])
    else c
  }

  function After(events: seq<Event>): (c: Control)
  {
    if events == [] then START
    else
      var last := events[|events| - 1];
      Performed(After(events[..|events| - 1]), last.index, last.effect)
  }

  ghost predicate Legal(c: Control, e: Event)
  {
    e.index < |c.history| && e.snapshot.status == c.history[e.index] && Offers(Evaluate(e.snapshot), e.effect)
  }

  ghost predicate Possible(events: seq<Event>)
  {
    events == [] || (Possible(events[..|events| - 1]) && Legal(After(events[..|events| - 1]), events[|events| - 1]))
  }

  /** Every persisted status was decided from the one before it, every issued effect from a persisted status. */
  ghost predicate Decided(c: Control)
  {
    && |c.history| > 0 && c.history[0] == FreshStatus
    && (forall k :: 0 < k < |c.history| ==> Decides(c.history[k - 1], Write(c.history[k])))
    && (forall i :: 0 <= i < |c.issued| ==>
          c.issued[i].index < |c.history| && !c.issued[i].effect.Write? && Decides(c.history[c.issued[i].index], c.issued[i].effect))
  }

  lemma {:induction false} RunDecided(events: seq<Event>)
    requires Possible(events)
    ensures Decided(After(events))
  {
    hide Evaluate;
    hide Offers;
    hide Decides;
    if events != [] {
      var prefix, e := events[..|events| - 1], events[|events| - 1];
      RunDecided(prefix);
      var c := After(prefix);
      EventDecides(c, e);
      assert After(events) == Performed(c, e.index, e.effect);
    }
  }

  lemma EventDecides(c: Control, e: Event)
    requires Legal(c, e)
    ensures Decides(c.history[e.index], e.effect)
  {
    hide Evaluate;
    hide Offers;
  }

  // ---------------------------------------------------------------- authority never falls back

  /** No transition can leave this status: its number wrapped below the accepted one. */
  predicate Wedged(status: Status)
  {
    status.transition.Some? && status.transition.value.kind in {Failover, Replacement} && !Sound(status)
  }

  /** The newest configuration that has carried write authority. */
  function Newest(status: Status): (c: Configuration)
    requires status.topology.Some?
  {
    if status.transition.Some? && status.transition.value.kind in {Failover, Replacement} then status.transition.value.current
    else status.topology.value
  }

  /** `c` is the newest write authority of the status, or lies strictly below it. */
  predicate Bounds(status: Status, c: Configuration)
  {
    && status.topology.Some?
    && c.epoch.dataLoss == status.topology.value.epoch.dataLoss
    && (Wedged(status) || c == Newest(status) || c.epoch.number < Newest(status).epoch.number)
  }

  lemma BoundsKept(s: Status, t: Status, c: Configuration)
    requires AuthorityStep(s, t) && Bounds(s, c)
    ensures Bounds(t, c)
  {
  }

  lemma {:induction false} AuthorityBounded(c: Control, i: nat, j: nat)
    requires Decided(c) && i <= j < |c.history| && Authority(c.history[i]).Some?
    ensures Bounds(c.history[j], Authority(c.history[i]).value)
    decreases j
  {
    hide Decides;
    hide AuthorityStep;
    if i < j {
      AuthorityBounded(c, i, j - 1);
      DecidesLawful(c.history[j - 1], Write(c.history[j]));
      BoundsKept(c.history[j - 1], c.history[j], Authority(c.history[i]).value);
    }
  }

  /** Along a run, write authority only moves to higher epochs, and one epoch carries one configuration. */
  lemma AuthorityMonotone(c: Control, i: nat, j: nat)
    requires Decided(c) && i <= j < |c.history|
    requires Authority(c.history[i]).Some? && Authority(c.history[j]).Some?
    ensures
      var a, b := Authority(c.history[i]).value, Authority(c.history[j]).value;
      && a.epoch.dataLoss == b.epoch.dataLoss
      && (a == b || a.epoch.number < b.epoch.number)
  {
    hide Decides;
    AuthorityBounded(c, i, j);
  }

  // ---------------------------------------------------------------- election safety

  /** The effect lets a replica take writes: an explicit grant, or client routing. */
  predicate Opens(effect: Effect)
  {
    effect.Route? || (effect.Send? && effect.command.Ensure? && effect.command.ensured.access == Granted)
  }

  function Opened(effect: Effect): (i: Identity)
    requires Opens(effect)
  {
    if effect.Route? then effect.primary else effect.command.ensured.target
  }

  /** Writes are opened only to the primary of the authority of the status the decision was made from. */
  lemma OpensUnderAuthority(status: Status, effect: Effect)
    requires Decides(status, effect) && Opens(effect)
    ensures Authority(status).Some? && HasPrimary(Authority(status).value)
    ensures Opened(effect) == PrimaryOf(Authority(status).value).identity
    ensures effect.Send? ==> effect.command.ensured.current == Authority(status).value
  {
    hide Decides;
    DecidesLawful(status, effect);
  }

  /**
   * Election safety. In every run, whatever the evidence, the staleness and the order of effects: any two effects that
   * open writes are under the same data-loss number; the one decided from the earlier status has the lower epoch or the
   * same configuration; and under one epoch both name the same replica.
   */
  lemma ElectionSafety(events: seq<Event>, i: nat, j: nat)
    requires Possible(events) && i < |After(events).issued| && j < |After(events).issued|
    requires Opens(After(events).issued[i].effect) && Opens(After(events).issued[j].effect)
    ensures
      var c := After(events);
      var x, y := c.issued[i], c.issued[j];
      && x.index < |c.history| && y.index < |c.history|
      && Authority(c.history[x.index]).Some? && Authority(c.history[y.index]).Some?
      && var a, b := Authority(c.history[x.index]).value, Authority(c.history[y.index]).value;
         && (x.effect.Send? ==> x.effect.command.ensured.current == a)
         && (y.effect.Send? ==> y.effect.command.ensured.current == b)
         && a.epoch.dataLoss == b.epoch.dataLoss
         && (x.index <= y.index ==> a == b || a.epoch.number < b.epoch.number)
         && (a.epoch == b.epoch ==> a == b && Opened(x.effect) == Opened(y.effect))
  {
    hide Decides;
    hide Authority;
    hide After;
    RunDecided(events);
    var c := After(events);
    var x, y := c.issued[i], c.issued[j];
    OpensUnderAuthority(c.history[x.index], x.effect);
    OpensUnderAuthority(c.history[y.index], y.effect);
    if x.index <= y.index { AuthorityMonotone(c, x.index, y.index); } else { AuthorityMonotone(c, y.index, x.index); }
  }

  // ---------------------------------------------------------------- exhausted epochs

  /** Allocation is above the accepted number exactly below the maximum. */
  lemma AllocationGrows(n: i64)
    ensures NextNumber(n) > n <==> n < I64_MAX
  {
  }

  /** A failover frozen at the maximum number wraps; from then on nothing but the unchanged unsafe status is planned. */
  lemma WedgedHalts(s: Snapshot)
    requires Wedged(s.status)
    ensures Evaluate(s) == PlanUnsafe(s.status)
  {
    hide EvaluateValid;
    assert !ValidStatus(s.status);
  }
}
