/** Literal snapshots: the decisions the theorems speak about do happen, and so do the failures they bound. */
module Scenarios {
  import opened Base
  import opened ControlTypes
  import opened Election
  import opened Evidence
  import opened FailoverPlan
  import opened Evaluator
  import opened ControlRuns
  import opened FailoverTheorems

  const FIRST := Identity(1, "a", Generation(1, "a", "x"))
  const SECOND := Identity(2, "b", Generation(2, "b", "y"))
  const PAIR_POLICY := Policy(2, 2, 1, 0)

  /** Two replicas at this configuration number. */
  function Pair(n: i64): (c: Configuration)
  {
    Configuration(Epoch(0, n), 1, [Member(FIRST, Primary), Member(SECOND, ActiveSecondary)], 2)
  }

  /** The secondary's healthy report under the accepted configuration. */
  function SecondReport(n: i64): (r: Report)
  {
    Report(1, true, SECOND, "s", 1, ActiveSecondary, NotPrimary, true, false, Epoch(0, n), None, Some(Pair(n)), 7, None, 7,
           None, 7, None, false, None, None, None, None, [], None, true)
  }

  function FailedPrimary(n: i64): (s: Status)
  {
    FreshStatus.(initialized := true, policy := Some(PAIR_POLICY), topology := Some(Pair(n)), primaryFailure := Some(PrimaryFailure(FIRST, 0)))
  }

  /** Only the secondary is observed. */
  function WithoutPrimary(n: i64): (s: Snapshot)
  {
    Snapshot(1, 1, 2, 0, None, true, false, FailedPrimary(n),
             [Entry(Key(2, "b"), Observation(Some(Kube("p", Some("b"), Some("y"), true, true, false)), AgentReported(SecondReport(n))))],
             map[], false, true, Routing(true, false, None), false, ValidEvidence, map[], CleanupUnproven, 0)
  }

  lemma PairPrimary(n: i64)
    ensures HasPrimary(Pair(n)) && PrimaryOf(Pair(n)) == Member(FIRST, Primary)
  {
    assert IsPrimary(Pair(n), Pair(n).members[0]);
  }

  lemma PairValid(n: i64)
    requires n >= 0
    ensures ValidStatus(FailedPrimary(n))
  {
    PairPrimary(n);
    assert ValidPolicy(PAIR_POLICY);
    assert ValidConfiguration(Pair(n), PAIR_POLICY);
  }

  lemma SecondObserved(n: i64)
    ensures ObservationFor(WithoutPrimary(n), FIRST).None?
    ensures HealthyReport(WithoutPrimary(n), SECOND) == Some(SecondReport(n))
    ensures HealthyReport(WithoutPrimary(n), FIRST).None?
  {
    assert WithoutPrimary(n).replicas[1..] == [];
    assert Find(WithoutPrimary(n).replicas, KeyOf(FIRST)) == Find([], KeyOf(FIRST));
  }

  lemma PairUnion(n: i64)
    ensures Union(Pair(n).members, Pair(n).members) == Pair(n).members
  {
    var m := Pair(n).members;
    assert m[..1][..0] == [] && m[..2] == m && m[..1] == [m[0]];
    assert Union(m, []) == m;
    assert Union(m, m[..1]) == m;
  }

  lemma OneReport(n: i64)
    ensures AvailableReports(WithoutPrimary(n), Pair(n).members) == [SecondReport(n)]
  {
    hide HealthyReport;
    SecondObserved(n);
    var m := Pair(n).members;
    var found := (i: Identity) => HealthyReport(WithoutPrimary(n), i);
    assert m[..1] == [m[0]] && [m[0]][..0] == [];
    assert Collect([], found) == [];
    assert Collect([m[0]], found) == [];
    assert Collect(m, found) == [SecondReport(n)];
  }

  lemma SecondElected(n: i64)
    ensures ReadQuorum(Pair(n), [SecondReport(n)], 1)
    ensures SelectCandidate(Pair(n), [SecondReport(n)]) == Some(SecondReport(n))
  {
    var m := Pair(n).members;
    assert [SecondReport(n)][0].identity == m[1].identity;
    assert Reports([SecondReport(n)], m[1].identity);
    assert m[1].identity == SECOND;
    assert HasIdentity(Pair(n), SECOND);
    assert [SecondReport(n)][..0] == [];
  }

  /** With the recorded failure ripe, the evaluator freezes a failover to the surviving replica. */
  lemma FailoverHappens(n: i64) returns (t: Status)
    requires n >= 0
    ensures !IsFailover(FailedPrimary(n))
    ensures Offers(Evaluate(WithoutPrimary(n)), Write(t)) && IsFailover(t)
    ensures t.transition.value.current == WithPrimary(Pair(n), SECOND, Epoch(0, NextNumber(n)))
  {
    hide ValidStatus;
    hide Union;
    hide AvailableReports;
    hide ReadQuorum;
    hide SelectCandidate;
    hide HealthyReport;
    hide HasPrimary;
    hide PrimaryOf;
    hide CorrectionPlan;
    hide ConvergePlan;
    PairValid(n);
    PairPrimary(n);
    PairUnion(n);
    OneReport(n);
    SecondElected(n);
    SecondObserved(n);
    var s := WithoutPrimary(n);
    assert !VersionMismatch(s) && !InvalidAgent(s);
    assert BeginStableFailover(s, s.status.(observedGeneration := 1), Pair(n), PAIR_POLICY).Some?;
    var p := BeginStableFailover(s, s.status.(observedGeneration := 1), Pair(n), PAIR_POLICY).value;
    assert Evaluate(s) == p;
    t := p.changes[0].status;
  }

  /** At the last configuration number the evaluator persists a status it can never leave. */
  lemma FailoverWedges() returns (t: Status)
    ensures Offers(Evaluate(WithoutPrimary(I64_MAX)), Write(t)) && Wedged(t)
  {
    hide Evaluate;
    hide WithoutPrimary;
    t := FailoverHappens(I64_MAX);
  }

  // ---------------------------------------------------------------- an election below the failed primary

  const THIRD := Identity(3, "c", Generation(3, "c", "z"))
  const TRIO := Configuration(Epoch(0, 1), 1, [Member(FIRST, Primary), Member(SECOND, ActiveSecondary), Member(THIRD, ActiveSecondary)], 2)
  const ELECTED := Configuration(Epoch(0, 2), 2, [Member(FIRST, ActiveSecondary), Member(SECOND, Primary), Member(THIRD, ActiveSecondary)], 2)
  const TRIO_POLICY := Policy(3, 2, 2, 0)

  const ELECTION := Transition(TransitionId(Failover, ELECTED, None), Failover, 1, TRIO_POLICY, Some(TRIO), ELECTED, Some(3), None, None, None)

  /** A joint report fenced at the election epoch at this position. */
  function FencedAt(identity: Identity, role: Role, healthy: bool, lsn: i64): (r: Report)
  {
    Report(1, true, identity, "s", 1, role, ReconfigurationPending, healthy, false, Epoch(0, 2), Some(TRIO), Some(ELECTED), lsn, None, lsn,
           None, lsn, None, false, Some(lsn), Some(Epoch(0, 2)), None, None, [], None, true)
  }

  /** The failed primary still reports, further than the survivor. */
  const FIRST_FENCED := FencedAt(FIRST, ActiveSecondary, false, 10)
  const SECOND_FENCED := FencedAt(SECOND, Primary, true, 3)

  const ELECTING := FreshStatus.(initialized := true, policy := Some(TRIO_POLICY), topology := Some(TRIO), transition := Some(ELECTION),
                                 primaryFailure := Some(PrimaryFailure(FIRST, 0)))

  const THIRD_SILENT := Snapshot(1, 1, 3, 0, None, true, false, ELECTING,
                                 [Entry(Key(1, "a"), Observation(Some(Kube("p", Some("a"), Some("x"), true, true, false)), AgentReported(FIRST_FENCED))),
                                  Entry(Key(2, "b"), Observation(Some(Kube("q", Some("b"), Some("y"), true, true, false)), AgentReported(SECOND_FENCED)))],
                                 map[], false, true, Routing(true, false, None), false, ValidEvidence, map[], CleanupUnproven, 0)

  lemma TrioPrimaries()
    ensures HasPrimary(TRIO) && PrimaryOf(TRIO) == Member(FIRST, Primary)
    ensures HasPrimary(ELECTED) && PrimaryOf(ELECTED) == Member(SECOND, Primary)
  {
    assert IsPrimary(TRIO, TRIO.members[0]);
    assert IsPrimary(ELECTED, ELECTED.members[1]);
    assert !IsPrimary(ELECTED, ELECTED.members[0]);
  }

  lemma TrioValid()
    ensures ValidPolicy(TRIO_POLICY) && ValidConfiguration(ELECTED, TRIO_POLICY)
    ensures ValidStatus(ELECTING)
  {
    TrioPrimaries();
    assert ValidConfiguration(TRIO, TRIO_POLICY);
    assert ValidConfiguration(ELECTED, TRIO_POLICY);
  }

  lemma TrioObserved()
    ensures ReportFor(THIRD_SILENT, FIRST) == Some(FIRST_FENCED) && HealthyReport(THIRD_SILENT, FIRST).None?
    ensures ReportFor(THIRD_SILENT, SECOND) == Some(SECOND_FENCED) && HealthyReport(THIRD_SILENT, SECOND) == Some(SECOND_FENCED)
    ensures ReportFor(THIRD_SILENT, THIRD).None? && HealthyReport(THIRD_SILENT, THIRD).None?
  {
    var entries := THIRD_SILENT.replicas;
    assert entries[1..][1..] == [];
    assert Find(entries, KeyOf(SECOND)) == Find(entries[1..], KeyOf(SECOND));
    assert Find(entries, KeyOf(THIRD)) == Find(entries[1..], KeyOf(THIRD)) == Find([], KeyOf(THIRD));
  }

  lemma TrioUnion()
    ensures Union(TRIO.members, ELECTED.members) == TRIO.members
  {
    var left, right := TRIO.members, ELECTED.members;
    assert left[0].identity == right[0].identity && left[1].identity == right[1].identity && left[2].identity == right[2].identity;
    assert right[..2][..1] == right[..1] && right[..1][..0] == [];
    assert Union(left, []) == left;
    assert Union(left, right[..1]) == left;
    assert Union(left, right[..2]) == left;
  }

  lemma TrioFenced()
    ensures ExactJointReports(THIRD_SILENT, TRIO, ELECTED, TRIO.members) == [FIRST_FENCED, SECOND_FENCED]
  {
    hide ReportFor;
    TrioObserved();
    var m := TRIO.members;
    var found := (i: Identity) => ExactJoint(THIRD_SILENT, TRIO, ELECTED, i);
    assert m[..2][..1] == m[..1] && m[..1][..0] == [];
    assert Collect(m[..1], found) == Collect([], found) + [FIRST_FENCED];
    assert Collect(m[..2], found) == Collect(m[..1], found) + [SECOND_FENCED];
    assert Collect(m, found) == Collect(m[..2], found);
  }

  lemma FilterTwo(a: Report, b: Report, keep: Report -> bool)
    ensures Filter([a, b], keep) == (if keep(a) then [a] else []) + (if keep(b) then [b] else [])
  {
    assert [a, b][..1] == [a] && [a][..0] == [];
    assert Filter([], keep) == [];
    assert Filter([a], keep) == Filter([], keep) + (if keep(a) then [a] else []);
  }

  lemma TrioReports()
    ensures HeardReports(THIRD_SILENT, ELECTION, TRIO) == [FIRST_FENCED, SECOND_FENCED]
    ensures ElectionReports(THIRD_SILENT, ELECTING, ELECTION, TRIO) == [SECOND_FENCED]
    ensures Winner(THIRD_SILENT, ELECTING, ELECTION, TRIO) == Some(SECOND_FENCED)
  {
    hide Union;
    hide ExactJointReports;
    TrioUnion();
    TrioFenced();
    FilterTwo(FIRST_FENCED, SECOND_FENCED, (r: Report) => r.deactivationEpoch == Some(ELECTED.epoch));
    FilterTwo(FIRST_FENCED, SECOND_FENCED, (r: Report) => Electing(ELECTING, ELECTED, r));
    assert ELECTED.members[1].identity == SECOND;
    assert [SECOND_FENCED][..0] == [];
    assert SelectCandidate(ELECTED, []).None?;
  }

  lemma TrioQuorum(configuration: Configuration)
    requires configuration in {TRIO, ELECTED}
    ensures Reporting(configuration.members, [FIRST_FENCED, SECOND_FENCED]) == 2
  {
    var m, reports := configuration.members, [FIRST_FENCED, SECOND_FENCED];
    assert reports[0].identity == m[0].identity && reports[1].identity == m[1].identity;
    assert m[2].identity == THIRD && !Reports(reports, THIRD);
    assert m[..2][..1] == m[..1] && m[..1][..0] == [];
    assert Reporting(m[..1], reports) == 1;
    assert Reporting(m[..2], reports) == 2;
  }

  /** The read-quorum test passes on both configurations, yet the winner is below what the failed primary and the silent member may hold. */
  lemma ElectionMissesFailedPrimary()
    ensures ReadQuorum(TRIO, FencedReports(THIRD_SILENT, ELECTION, TRIO), 2)
    ensures ReadQuorum(ELECTED, FencedReports(THIRD_SILENT, ELECTION, TRIO), 2)
    ensures Winner(THIRD_SILENT, ELECTING, ELECTION, TRIO) == Some(SECOND_FENCED)
    ensures Secured(ELECTED, HeardReports(THIRD_SILENT, ELECTION, TRIO), {FIRST, THIRD}, 10)
    ensures OrZero(SECOND_FENCED.deactivatedLsn) < 10
    ensures !ElectionCovers(THIRD_SILENT, ELECTING, ELECTION, TRIO)
  {
    hide Union;
    hide ExactJointReports;
    hide ElectionReports;
    hide HeardReports;
    hide Winner;
    hide Reporting;
    TrioUnion();
    TrioFenced();
    TrioReports();
    TrioQuorum(TRIO);
    TrioQuorum(ELECTED);
    var heard := [FIRST_FENCED, SECOND_FENCED];
    var m := ELECTED.members;
    assert m[..2][..1] == m[..1] && m[..1][..0] == [];
    assert Within(m[..1], {FIRST, THIRD}) == 1;
    assert Within(m[..2], {FIRST, THIRD}) == 1;
    assert Within(m, {FIRST, THIRD}) == 2;
    assert Secured(ELECTED, heard, {FIRST, THIRD}, 10);
    CandidateBelow();
  }

  lemma CandidateBelow()
    ensures !CandidateReaches(ELECTED, ElectionReports(THIRD_SILENT, ELECTING, ELECTION, TRIO), 10)
  {
    hide ElectionReports;
    TrioReports();
  }

  function GrantSecond(): (p: Plan)
  {
    PlanExecute(Ensure(FailoverCommand(TRIO, ELECTED, SECOND, TRIO_POLICY, OnTransition("grant-write", ELECTION, Some(SECOND)), Some(3), Granted, false, [])))
  }

  lemma ElectGrants()
    ensures HasPrimary(ELECTED) && ElectPlan(THIRD_SILENT, ELECTING, ELECTION, TRIO) == Some(GrantSecond())
  {
    hide Union;
    hide ExactJointReports;
    hide ElectionReports;
    hide Winner;
    hide HealthyReport;
    hide PrimaryOf;
    TrioPrimaries();
    TrioObserved();
    TrioUnion();
    TrioFenced();
    TrioReports();
    FilterTwo(FIRST_FENCED, SECOND_FENCED, (r: Report) => HealthyReport(THIRD_SILENT, r.identity).Some?);
    assert FindReport([SECOND_FENCED], SECOND) == Some(SECOND_FENCED);
  }

  lemma FailoverGrants()
    ensures HasPrimary(ELECTED) && EvaluateFailover(THIRD_SILENT, ELECTING, ELECTION, TRIO) == GrantSecond()
  {
    hide ElectPlan;
    hide FinishFailover;
    hide Union;
    hide ExactJointReports;
    hide HealthyReport;
    hide PrimaryOf;
    hide Reporting;
    hide NextElection;
    hide GrantSecond;
    TrioObserved();
    TrioUnion();
    TrioFenced();
    TrioQuorum(TRIO);
    TrioQuorum(ELECTED);
    NobodyWaits();
    ElectGrants();
    assert !CurrentOnlyStarted(THIRD_SILENT, ELECTED);
  }

  /** And on that snapshot the evaluator grants writes to the winner. */
  lemma GrantBelowFailedPrimary()
    ensures Evaluate(THIRD_SILENT) == GrantSecond()
  {
    hide ValidStatus;
    hide EvaluateFailover;
    hide HasPrimary;
    hide GrantSecond;
    TrioValid();
    TrioKept();
    FailoverGrants();
    assert !VersionMismatch(THIRD_SILENT) && !InvalidAgent(THIRD_SILENT);
  }

  lemma TrioKept()
    ensures !Retires(TRIO, ELECTED)
  {
    assert ELECTED.members[0].identity == FIRST && ELECTED.members[1].identity == SECOND && ELECTED.members[2].identity == THIRD;
    assert HasIdentity(ELECTED, FIRST) && HasIdentity(ELECTED, SECOND) && HasIdentity(ELECTED, THIRD);
  }

  /** Every healthy member already has the joint configuration. */
  lemma NobodyWaits()
    ensures
      && HasPrimary(ELECTED)
      && var order := InstallOrder(Union(TRIO.members, ELECTED.members), PrimaryOf(ELECTED));
         NextElection(THIRD_SILENT, TRIO, ELECTED, order) == |order|
  {
    hide HealthyReport;
    hide Union;
    hide PrimaryOf;
    TrioObserved();
    TrioUnion();
    TrioPrimaries();
    var m := TRIO.members;
    var p := Member(SECOND, Primary);
    assert m[1..][1..] == m[2..] && m[2..][1..] == [];
    assert InstallOrder([], p) == [p];
    assert InstallOrder(m[2..], p) == [m[2], p];
    assert InstallOrder(m[1..], p) == [m[2], p];
    assert InstallOrder(m, p) == [m[0], m[2], p];
    assert !NeedsElection(THIRD_SILENT, TRIO, ELECTED, m[0]);
    assert !NeedsElection(THIRD_SILENT, TRIO, ELECTED, m[2]);
    assert !NeedsElection(THIRD_SILENT, TRIO, ELECTED, p);
  }
}
