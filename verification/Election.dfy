/** Quorum counting and failover candidate selection of `kuberic-controller/src/evaluator.rs`. */
module Election {
  import opened Base
  import opened ControlTypes

  // ---------------------------------------------------------------- counting members

  /** Some report comes from this exact member. */
  predicate Reports(reports: seq<Report>, identity: Identity)
  {
    exists i :: 0 <= i < |reports| && reports[i].identity == identity
  }

  /** How many members some report comes from. */
  function Reporting(members: seq<Member>, reports: seq<Report>): (n: nat)
    ensures n <= |members|
  {
    Count(members, (m: Member) => Reports(reports, m.identity))
  }

  predicate ReadQuorum(configuration: Configuration, reports: seq<Report>, readQuorum: u32)
  {
    Reporting(configuration.members, reports) >= readQuorum
  }

  predicate ReportQuorum(configuration: Configuration, reports: seq<Report>)
  {
    Reporting(configuration.members, reports) >= configuration.writeQuorum
  }

  predicate Deactivated(report: Report, epoch: Epoch)
  {
    report.deactivationEpoch == Some(epoch) && report.deactivatedLsn.Some?
  }

  predicate DeactivationQuorum(configuration: Configuration, reports: seq<Report>, readQuorum: u32, epoch: Epoch)
  {
    Reporting(configuration.members, Filter(reports, (r: Report) => Deactivated(r, epoch))) >= readQuorum
  }

  function Filter(reports: seq<Report>, keep: Report -> bool): (r: seq<Report>)
    ensures forall x :: x in r <==> x in reports && keep(x)
  {
    if reports == [] then []
    else
      assert reports == reports[..|reports| - 1] + [reports[|reports| - 1]];
      Filter(reports[..|reports| - 1], keep)
      + (if keep(reports[|reports| - 1]) then [reports[|reports| - 1]] else [])
  }

  // ---------------------------------------------------------------- candidate order

  function OrDefault(epoch: Option<Epoch>): (e: Epoch)
  {
    if epoch.Some? then epoch.value else Epoch(0, 0)
  }

  function OrZero(lsn: Option<i64>): (n: i64)
  {
    if lsn.Some? then lsn.value else 0
  }

  /** Deactivation epoch, deactivated LSN, progress, committed LSN, then the smaller replica. */
  predicate NotAbove(left: Report, right: Report)
  {
    var a, b := OrDefault(left.deactivationEpoch), OrDefault(right.deactivationEpoch);
    if a != b then EpochBelow(a, b)
    else
      var x, y := OrZero(left.deactivatedLsn), OrZero(right.deactivatedLsn);
      if x != y then x < y
      else if left.progress != right.progress then left.progress < right.progress
      else if left.committed != right.committed then left.committed < right.committed
      else right.identity.replicaId <= left.identity.replicaId
  }

  lemma NotAboveTotal(a: Report, b: Report)
    ensures NotAbove(a, b) || NotAbove(b, a)
    ensures NotAbove(a, b) && NotAbove(b, a) ==> a.identity.replicaId == b.identity.replicaId
  {
  }

  lemma NotAboveTransitive(a: Report, b: Report, c: Report)
    requires NotAbove(a, b) && NotAbove(b, c)
    ensures NotAbove(a, c)
  {
  }

  predicate Eligible(configuration: Configuration, report: Report)
  {
    && HasIdentity(configuration, report.identity)
    && (report.access != Granted
        || (report.identity.replicaId == configuration.primaryId && report.deactivationEpoch == Some(configuration.epoch)))
    && (report.role != Primary || report.identity.replicaId == configuration.primaryId)
  }

  /** The last greatest eligible report. */
  function SelectCandidate(configuration: Configuration, reports: seq<Report>): (r: Option<Report>)
    ensures r.Some? ==> r.value in reports && Eligible(configuration, r.value)
    ensures r.None? <==> forall x :: x in reports ==> !Eligible(configuration, x)
  {
    if reports == [] then None
    else
      assert reports == reports[..|reports| - 1] + [reports[|reports| - 1]];
      var best := SelectCandidate(configuration, reports[..|reports| - 1]);
      var last := reports[|reports| - 1];
      if !Eligible(configuration, last) then best
      else if best.None? || NotAbove(best.value, last) then Some(last)
      else best
  }

  /** The scan that keeps the best report seen so far. */
  method SelectFailoverCandidate(configuration: Configuration, reports: seq<Report>) returns (best: Option<Report>)
    ensures best == SelectCandidate(configuration, reports)
  {
    best := None;
    assert reports[..0] == [];
    for i := 0 to |reports|
      invariant best == SelectCandidate(configuration, reports[..i])
    {
      assert reports[..i + 1][..i] == reports[..i];
      if Eligible(configuration, reports[i]) && (best.None? || NotAbove(best.value, reports[i])) {
        best := Some(reports[i]);
      }
    }
    assert reports[..|reports|] == reports;
  }

  /** The candidate is not below any eligible report. */
  lemma {:induction false} CandidateIsGreatest(configuration: Configuration, reports: seq<Report>, other: Report)
    requires other in reports && Eligible(configuration, other)
    ensures
      var best := SelectCandidate(configuration, reports);
      best.Some? && NotAbove(other, best.value)
  {
    var n := |reports| - 1;
    assert reports == reports[..n] + [reports[n]];
    var earlier := SelectCandidate(configuration, reports[..n]);
    var last := reports[n];
    if other in reports[..n] {
      CandidateIsGreatest(configuration, reports[..n], other);
      NotAboveTotal(earlier.value, last);
      if Eligible(configuration, last) && NotAbove(earlier.value, last) {
        NotAboveTransitive(other, earlier.value, last);
      }
    } else {
      assert other == last;
      NotAboveTotal(last, last);
      if earlier.Some? { NotAboveTotal(earlier.value, last); }
    }
  }

  /** The choice depends only on which reports there are, not on their order. */
  lemma CandidateOrderIndependent(configuration: Configuration, a: seq<Report>, b: seq<Report>)
    requires forall x :: x in a <==> x in b
    requires forall x, y ::
      x in a && y in a && Eligible(configuration, x) && Eligible(configuration, y) && x.identity.replicaId == y.identity.replicaId ==> x == y
    ensures SelectCandidate(configuration, a) == SelectCandidate(configuration, b)
  {
    var left, right := SelectCandidate(configuration, a), SelectCandidate(configuration, b);
    if left.Some? && right.Some? {
      CandidateIsGreatest(configuration, a, right.value);
      CandidateIsGreatest(configuration, b, left.value);
      NotAboveTotal(left.value, right.value);
    }
  }

  // ---------------------------------------------------------------- coverage

  /** How many members have their identity in the set. */
  function Within(members: seq<Member>, identities: set<Identity>): (n: nat)
    ensures n <= |members|
  {
    Count(members, (m: Member) => m.identity in identities)
  }

  /** A read quorum of reporting members and a write quorum of members cannot miss each other. */
  lemma {:induction false} QuorumsMeet(members: seq<Member>, reports: seq<Report>, writers: set<Identity>) returns (i: nat)
    requires Reporting(members, reports) + Within(members, writers) > |members|
    ensures i < |members| && members[i].identity in writers && Reports(reports, members[i].identity)
  {
    var n := |members| - 1;
    var last := members[n].identity;
    if last in writers && Reports(reports, last) {
      i := n;
    } else {
      i := QuorumsMeet(members[..n], reports, writers);
    }
  }

  /** Reports the selection looks at. */
  function EligibleOf(configuration: Configuration, reports: seq<Report>): (r: seq<Report>)
  {
    Filter(reports, (r: Report) => Eligible(configuration, r))
  }

  /** A write quorum whose members, as far as they were heard from, are all deactivated at `lsn` or beyond. */
  predicate Secured(configuration: Configuration, heard: seq<Report>, writers: set<Identity>, lsn: int)
  {
    && Within(configuration.members, writers) >= configuration.writeQuorum
    && forall r :: r in heard && r.identity in writers ==> OrZero(r.deactivatedLsn) >= lsn
  }

  predicate CandidateReaches(configuration: Configuration, reports: seq<Report>, lsn: int)
  {
    var candidate := SelectCandidate(configuration, reports);
    candidate.Some? && OrZero(candidate.value.deactivatedLsn) >= lsn
  }

  /** Whatever some write quorum may have secured, judging by every report that was heard, the chosen candidate has. */
  ghost predicate Covers(configuration: Configuration, heard: seq<Report>, reports: seq<Report>)
  {
    forall writers: set<Identity>, lsn: int :: Secured(configuration, heard, writers, lsn) ==> CandidateReaches(configuration, reports, lsn)
  }

  /**
   * Failover coverage: if the eligible reports fenced at the election epoch include a read quorum,
   * and some write quorum secured `lsn`, then the chosen candidate is deactivated at `lsn` or beyond.
   */
  lemma FailoverCoverage(configuration: Configuration, heard: seq<Report>, reports: seq<Report>, readQuorum: u32, writers: set<Identity>, lsn: int)
    requires forall r :: r in reports ==> r in heard && r.deactivationEpoch == Some(configuration.epoch)
    requires ReadQuorum(configuration, EligibleOf(configuration, reports), readQuorum)
    requires readQuorum + configuration.writeQuorum > |configuration.members|
    requires Secured(configuration, heard, writers, lsn)
    ensures CandidateReaches(configuration, reports, lsn)
  {
    var eligible := EligibleOf(configuration, reports);
    var i := QuorumsMeet(configuration.members, eligible, writers);
    var k :| 0 <= k < |eligible| && eligible[k].identity == configuration.members[i].identity;
    assert eligible[k] in eligible;
    CandidateIsGreatest(configuration, reports, eligible[k]);
  }

  // ---------------------------------------------------------------- exactly when an election covers

  /** The member was not heard from, or only with a deactivated position above `lsn`. */
  predicate MayBeAhead(heard: seq<Report>, identity: Identity, lsn: int)
  {
    forall r :: r in heard && r.identity == identity ==> OrZero(r.deactivatedLsn) > lsn
  }

  function AheadCount(members: seq<Member>, heard: seq<Report>, lsn: int): (n: nat)
    ensures n <= |members|
  {
    Count(members, (m: Member) => MayBeAhead(heard, m.identity, lsn))
  }

  function AheadSet(members: seq<Member>, heard: seq<Report>, lsn: int): (s: set<Identity>)
  {
    set i | 0 <= i < |members| && MayBeAhead(heard, members[i].identity, lsn) :: members[i].identity
  }

  lemma {:induction false} AheadWithin(members: seq<Member>, all: seq<Member>, heard: seq<Report>, lsn: int)
    requires members <= all
    ensures Within(members, AheadSet(all, heard, lsn)) == AheadCount(members, heard, lsn)
  {
    hide MayBeAhead;
    if members != [] {
      var n := |members| - 1;
      AheadWithin(members[..n], all, heard, lsn);
      assert all[n] == members[n];
    }
  }

  lemma {:induction false} WritersAhead(members: seq<Member>, heard: seq<Report>, writers: set<Identity>, lsn: int)
    requires forall m :: m in writers ==> MayBeAhead(heard, m, lsn)
    ensures Within(members, writers) <= AheadCount(members, heard, lsn)
  {
    hide MayBeAhead;
    if members != [] { WritersAhead(members[..|members| - 1], heard, writers, lsn); }
  }

  lemma {:induction false} EveryoneWithin(members: seq<Member>, all: set<Identity>)
    requires forall m :: m in members ==> m.identity in all
    ensures Within(members, all) == |members|
  {
    if members != [] { EveryoneWithin(members[..|members| - 1], all); }
  }

  /**
   * An election covers every write quorum if and only if it has a candidate and fewer members than a write quorum are
   * unheard or were heard above the candidate.
   */
  lemma CoverageIff(configuration: Configuration, heard: seq<Report>, reports: seq<Report>)
    requires configuration.writeQuorum <= |configuration.members|
    ensures
      var candidate := SelectCandidate(configuration, reports);
      Covers(configuration, heard, reports) <==>
        candidate.Some? && AheadCount(configuration.members, heard, OrZero(candidate.value.deactivatedLsn)) < configuration.writeQuorum
  {
    hide SelectCandidate;
    hide MayBeAhead;
    var members := configuration.members;
    var candidate := SelectCandidate(configuration, reports);
    if candidate.None? {
      NobodyCovers(configuration, heard, reports);
    } else {
      var lsn := OrZero(candidate.value.deactivatedLsn);
      if AheadCount(members, heard, lsn) < configuration.writeQuorum {
        forall writers: set<Identity>, l: int | Secured(configuration, heard, writers, l) ensures CandidateReaches(configuration, reports, l) {
          if l > lsn {
            forall m | m in writers ensures MayBeAhead(heard, m, lsn) { SecuredAhead(configuration, heard, writers, l, lsn, m); }
            WritersAhead(members, heard, writers, lsn);
            assert false;
          }
        }
      } else {
        AheadWithin(members, members, heard, lsn);
        AheadSecured(configuration, heard, lsn);
      }
    }
  }

  lemma SecuredAhead(configuration: Configuration, heard: seq<Report>, writers: set<Identity>, l: int, lsn: int, m: Identity)
    requires Secured(configuration, heard, writers, l) && l > lsn && m in writers
    ensures MayBeAhead(heard, m, lsn)
  {
  }

  lemma AheadSecured(configuration: Configuration, heard: seq<Report>, lsn: int)
    requires Within(configuration.members, AheadSet(configuration.members, heard, lsn)) >= configuration.writeQuorum
    ensures Secured(configuration, heard, AheadSet(configuration.members, heard, lsn), lsn + 1)
  {
  }

  /** An election without a candidate covers nothing: some position is secured by everyone. */
  lemma NobodyCovers(configuration: Configuration, heard: seq<Report>, reports: seq<Report>)
    requires configuration.writeQuorum <= |configuration.members| && SelectCandidate(configuration, reports).None?
    ensures !Covers(configuration, heard, reports)
  {
    hide SelectCandidate;
    var all := set i | 0 <= i < |configuration.members| :: configuration.members[i].identity;
    EveryoneWithin(configuration.members, all);
    assert Secured(configuration, heard, all, I64_MIN);
  }

  /** Members not heard from count as possibly ahead, and so does one heard above the position. */
  lemma {:induction false} UnheardAhead(members: seq<Member>, heard: seq<Report>, lsn: int, above: Identity)
    ensures AheadCount(members, heard, lsn) >= |members| - Reporting(members, heard)
    ensures
      (exists i :: 0 <= i < |members| && members[i].identity == above) && Reports(heard, above) && MayBeAhead(heard, above, lsn) ==>
        AheadCount(members, heard, lsn) > |members| - Reporting(members, heard)
  {
    if members != [] {
      var n := |members| - 1;
      UnheardAhead(members[..n], heard, lsn, above);
      if i: nat :| i < |members| && members[i].identity == above {
        if i < n { assert members[..n][i].identity == above; }
      }
    }
  }
}
