/** Counting exposures, waits and refusals of one position along a trace. */
module Exposures {
  import opened Base
  import opened Identity
  import opened Effects
  import opened Records
  import opened EncodedSize
  import opened Checkpoint
  import opened Capacity
  import opened Replay
  import opened Steps
  import opened Traces

  ghost function ExposedBy(step: Step, q: nat): (ids: seq<AttemptId>)
  {
    if Exposing(step, q) then [step.move.attemptId] else []
  }

  ghost function WaitsBy(step: Step, q: nat): (n: nat)
  {
    if step.move.Wait? && At(step, q) then 1 else 0
  }

  ghost function RefusalsBy(step: Step, q: nat): (n: nat)
  {
    if step.move.NoAdmission? && At(step, q) then 1 else 0
  }

  /** The attempt identities exposed at position `q`, in order. */
  ghost function ExposedIds(trace: seq<Step>, q: nat): (ids: seq<AttemptId>)
  {
    if trace == [] then []
    else
      ExposedIds(trace[..|trace| - 1], q) + ExposedBy(trace[|trace| - 1], q)
  }

  ghost function Waits(trace: seq<Step>, q: nat): (n: nat)
  {
    if trace == [] then 0
    else
      Waits(trace[..|trace| - 1], q) + WaitsBy(trace[|trace| - 1], q)
  }

  ghost function Refusals(trace: seq<Step>, q: nat): (n: nat)
  {
    if trace == [] then 0
    else
      Refusals(trace[..|trace| - 1], q) + RefusalsBy(trace[|trace| - 1], q)
  }

  function Ids(attempts: seq<EffectAttempt>): (ids: seq<AttemptId>)
    ensures |ids| == |attempts|
  {
    seq(|attempts|, i requires 0 <= i < |attempts| => attempts[i].attemptId)
  }

  /** The conservation law of one record against its counters. */
  ghost predicate Conserved(record: ActivityRecord, exposed: seq<AttemptId>, waits: nat, refusals: nat)
  {
    if record.prepared.None? then
      && |exposed| == record.attempt.ordinal + waits - (if record.state.Scheduled? then 1 else 0)
      && refusals == 0
    else
      && exposed == Ids(record.attempts)
      && waits == 0
      && record.attempt.ordinal == 1
      && refusals == (if record.attempts != [] && record.attempts[0].state == ProvenNoAdmission then 1 else 0)
  }

  /** A newly appended record starts the law. */
  lemma FreshConserved(record: ActivityRecord)
    requires record.attempt == FirstAttempt && record.attempts == [] && record.state.Scheduled?
    ensures Conserved(record, [], 0, 0)
  {
  }

  /** Every advance of a valid record keeps the law. */
  lemma AdvanceConserved(record: ActivityRecord, move: Move, next: ActivityRecord, exposed: seq<AttemptId>, waits: nat, refusals: nat)
    requires !move.Append? && !move.Compact? && Advances(record, move, next)
    requires WellFormedLedger(record) && WellFormedLedger(next)
    requires Conserved(record, exposed, waits, refusals)
    ensures Conserved(next,
                      exposed + (if move.Expose? then [move.attemptId] else []),
                      waits + (if move.Wait? then 1 else 0),
                      refusals + (if move.NoAdmission? then 1 else 0))
  {
    hide ResultOf;
    assert exposed + [] == exposed;
  }

  /** The law at one position of a checkpoint; nothing has happened at positions not yet appended. */
  ghost predicate ConservedAt(payload: CheckpointPayload, q: nat, exposed: seq<AttemptId>, waits: nat, refusals: nat)
    requires payload.state.Active?
  {
    if q < |payload.state.activities| then Conserved(payload.state.activities[q], exposed, waits, refusals)
    else exposed == [] && waits == 0 && refusals == 0
  }

  lemma StepConserved(program: Program, step: Step, q: nat, exposed: seq<AttemptId>, waits: nat, refusals: nat)
    requires ValidStep(program, step) && step.after.state.Active?
    requires HistoryError(step.before.state.activities, 0).None? && HistoryError(step.after.state.activities, 0).None?
    requires ConservedAt(step.before, q, exposed, waits, refusals)
    ensures ConservedAt(step.after, q, exposed + ExposedBy(step, q), waits + WaitsBy(step, q), refusals + RefusalsBy(step, q))
  {
    hide EncodeWithLimits;
    hide Reserved;
    hide Advances;
    hide Conserved;
    hide HistoryError;
    hide WellFormedLedger;
    var before, after := step.before.state.activities, step.after.state.activities;
    assert exposed + [] == exposed;
    if q < |before| {
      StepKeeps(program, step, q);
      ValidSequence(before, q);
      ValidSequence(after, q);
      if At(step, q) && !step.move.Append? {
        AdvanceConserved(before[q], step.move, after[q], exposed, waits, refusals);
      }
    } else if q < |after| {
      FreshConserved(after[q]);
    }
  }

  /**
   * Exposure conservation: in every reachable active state, the exposures applied to a record equal
   * its ordinal plus its applied waits, less one while it is only scheduled; a strict effect's
   * exposures are its ledger.
   */
  lemma {:induction false} ExposureConservation(program: Program, base: CheckpointPayload, trace: seq<Step>, end: CheckpointPayload, q: nat)
    requires Trace(program, base, trace, end) && end.state.Active?
    ensures ConservedAt(end, q, ExposedIds(trace, q), Waits(trace, q), Refusals(trace, q))
  {
    hide EncodeWithLimits;
    hide Moves;
    hide Conserved;
    hide HistoryError;
    if trace != [] {
      var n := |trace| - 1;
      var step := trace[n];
      ExposureConservation(program, base, trace[..n], step.before, q);
      TraceValid(program, base, trace[..n], step.before);
      TraceValid(program, base, trace, end);
      StepConserved(program, step, q, ExposedIds(trace[..n], q), Waits(trace[..n], q), Refusals(trace[..n], q));
    }
  }

  /** Exposures of an ordinary activity never exceed its attempts plus its waits. */
  lemma OrdinaryExposureBound(program: Program, base: CheckpointPayload, trace: seq<Step>, end: CheckpointPayload, q: nat)
    requires Trace(program, base, trace, end) && end.state.Active?
    requires q < |end.state.activities| && end.state.activities[q].prepared.None?
    ensures |ExposedIds(trace, q)| <= end.state.activities[q].spec.options.maxAttempts + Waits(trace, q)
  {
    hide Path;
    hide HistoryError;
    ExposureConservation(program, base, trace, end, q);
    TraceValid(program, base, trace, end);
    ValidSequence(end.state.activities, q);
  }

  // ---------------------------------------------------------------- strict effects

  lemma {:induction false} ExposedCounts(trace: seq<Step>, q: nat, i: nat)
    requires i < |trace| && Exposing(trace[i], q)
    ensures ExposedIds(trace, q) != [] && trace[i].move.attemptId in ExposedIds(trace, q)
  {
    hide At;
    var n := |trace| - 1;
    if i < n {
      assert trace[..n][i] == trace[i];
      ExposedCounts(trace[..n], q, i);
    }
  }

  lemma {:induction false} RefusalExists(trace: seq<Step>, q: nat, i: nat)
    requires i <= |trace| && Refusals(trace[..i], q) < Refusals(trace, q)
    ensures exists k :: i <= k < |trace| && trace[k].move.NoAdmission? && At(trace[k], q)
    decreases |trace|
  {
    assert trace[..|trace|] == trace;
    var n := |trace| - 1;
    if RefusalsBy(trace[n], q) == 0 {
      assert trace[..n][..i] == trace[..i];
      RefusalExists(trace[..n], q, i);
      var k :| i <= k < n && trace[..n][k].move.NoAdmission? && At(trace[..n][k], q);
      assert trace[k] == trace[..n][k];
    }
  }

  /** The record a position holds right before a step acts on it. */
  ghost function Target(step: Step): (r: ActivityRecord)
    requires step.before.state.Active? && step.before.state.activities != []
  {
    Last(step.before.state.activities)
  }

  /** What the ledger says when a strict effect is exposed: it is empty, or holds one proven non-admission. */
  lemma StrictExposure(program: Program, base: CheckpointPayload, trace: seq<Step>, end: CheckpointPayload, q: nat, j: nat)
    requires Trace(program, base, trace, end) && j < |trace| && Exposing(trace[j], q) && Target(trace[j]).prepared.Some?
    ensures
      var earlier := ExposedIds(trace[..j], q);
      || (earlier == [] && Refusals(trace[..j], q) == 0)
      || (&& |earlier| == 1 && earlier[0] != trace[j].move.attemptId && Refusals(trace[..j], q) == 1)
    ensures |ExposedIds(trace[..j + 1], q)| == |ExposedIds(trace[..j], q)| + 1
    ensures Refusals(trace[..j + 1], q) == Refusals(trace[..j], q)
  {
    hide EncodeWithLimits;
    hide Path;
    hide HistoryError;
    hide Reserved;
    PathPrefix(program, base, trace, end, j);
    var before := trace[j].before;
    ExposureConservation(program, base, trace[..j], before, q);
    TraceValid(program, base, trace[..j], before);
    ValidSequence(before.state.activities, q);
    assert trace[..j + 1][..j] == trace[..j];
  }

  /**
   * A strict effect is exposed at most twice: two exposures carry the same command and distinct
   * attempt identities, an accepted proven non-admission lies between them, and there is no third.
   */
  lemma StrictRedelivery(program: Program, base: CheckpointPayload, trace: seq<Step>, end: CheckpointPayload, q: nat, i: nat, j: nat)
    requires Trace(program, base, trace, end) && i < j < |trace|
    requires Exposing(trace[i], q) && Exposing(trace[j], q) && Target(trace[i]).prepared.Some?
    ensures Target(trace[j]).prepared == Target(trace[i]).prepared
    ensures trace[i].move.attemptId != trace[j].move.attemptId
    ensures exists k :: i < k < j && trace[k].move == NoAdmission(trace[i].move.attemptId) && At(trace[k], q)
    ensures forall m :: 0 <= m < |trace| && Exposing(trace[m], q) ==> m == i || m == j
  {
    hide EncodeWithLimits;
    hide Path;
    hide ValidStep;
    SameCommand(program, base, trace, end, q, i, j);
    StrictExposure(program, base, trace, end, q, i);
    StrictExposure(program, base, trace, end, q, j);
    assert trace[..j][i] == trace[i];
    ExposedCounts(trace[..j], q, i);
    if Refusals(trace[..i], q) == 1 {
      EarlierExposure(program, base, trace, end, q, i, j);
      assert false;
    }
    assert trace[..j][..i + 1] == trace[..i + 1];
    RefusalExists(trace[..j], q, i + 1);
    var k :| i + 1 <= k < j && trace[..j][k].move.NoAdmission? && At(trace[..j][k], q);
    assert trace[k] == trace[..j][k];
    RefusedAttempt(program, base, trace, end, q, i, k, trace[k].move.refused);
    forall m | 0 <= m < |trace| && Exposing(trace[m], q) ensures m == i || m == j {
      NoThird(program, base, trace, end, q, i, j, m);
    }
  }

  /** A refused attempt is the one that was exposed before. */
  lemma RefusedAttempt(program: Program, base: CheckpointPayload, trace: seq<Step>, end: CheckpointPayload, q: nat, i: nat, k: nat,
                       refused: AttemptId)
    requires Trace(program, base, trace, end) && i < k < |trace|
    requires Exposing(trace[i], q) && trace[k].move == NoAdmission(refused) && At(trace[k], q)
    ensures trace[i].move == Expose(refused)
  {
    hide EncodeWithLimits;
    hide Path;
    hide HistoryError;
    hide Reserved;
    hide WellFormedLedger;
    PathPrefix(program, base, trace, end, k);
    ExposureConservation(program, base, trace[..k], trace[k].before, q);
    RefusedLedger(program, trace[k], q, refused);
    assert trace[..k][i] == trace[i];
    ExposedCounts(trace[..k], q, i);
  }

  lemma RefusedLedger(program: Program, step: Step, q: nat, refused: AttemptId)
    requires ValidStep(program, step) && step.move == NoAdmission(refused) && At(step, q)
    ensures |step.before.state.activities| == q + 1
    ensures
      var record := step.before.state.activities[q];
      record.prepared.Some? && Ids(record.attempts) == [refused]
  {
    hide EncodeWithLimits;
    hide Reserved;
    var record := Last(step.before.state.activities);
    assert record.attempts == [EffectAttempt(refused, Exposed)];
    assert record.attempts[..0] == [];
  }

  lemma SameCommand(program: Program, base: CheckpointPayload, trace: seq<Step>, end: CheckpointPayload, q: nat, i: nat, j: nat)
    requires Trace(program, base, trace, end) && i < j < |trace|
    requires Exposing(trace[i], q) && Exposing(trace[j], q)
    ensures SameIdentity(Target(trace[i]), Target(trace[j]))
  {
    hide ValidStep;
    PathPrefix(program, base, trace, end, j);
    PathSuffix(program, base, trace[..j], trace[j].before, i);
    PathPrefix(program, base, trace[..j], trace[j].before, i);
    assert trace[..j][i] == trace[i];
    PathKeeps(program, trace[i].before, trace[..j][i..], trace[j].before, q);
  }

  lemma {:induction false} PathSuffix(program: Program, base: CheckpointPayload, trace: seq<Step>, end: CheckpointPayload, i: nat)
    requires Path(program, base, trace, end) && i < |trace|
    ensures Path(program, trace[i].before, trace[i..], end)
  {
    hide ValidStep;
    var n := |trace| - 1;
    if i == n {
      assert trace[i..] == [trace[n]];
      assert [trace[n]][..0] == [];
    } else {
      PathSuffix(program, base, trace[..n], trace[n].before, i);
      assert trace[i..][..|trace[i..]| - 1] == trace[..n][i..];
    }
  }

  lemma {:induction false} ExposedGrows(trace: seq<Step>, q: nat, i: nat)
    requires i <= |trace|
    ensures |ExposedIds(trace[..i], q)| <= |ExposedIds(trace, q)|
  {
    if i == |trace| {
      assert trace[..i] == trace;
    } else {
      var n := |trace| - 1;
      assert trace[..n][..i] == trace[..i];
      ExposedGrows(trace[..n], q, i);
    }
  }

  /** A second exposure leaves no room for an earlier one before the first. */
  lemma EarlierExposure(program: Program, base: CheckpointPayload, trace: seq<Step>, end: CheckpointPayload, q: nat, i: nat, j: nat)
    requires Trace(program, base, trace, end) && i < j < |trace|
    requires Exposing(trace[i], q) && Exposing(trace[j], q) && Target(trace[i]).prepared.Some?
    ensures ExposedIds(trace[..i], q) == []
  {
    hide Path;
    hide ValidStep;
    SameCommand(program, base, trace, end, q, i, j);
    StrictExposure(program, base, trace, end, q, i);
    StrictExposure(program, base, trace, end, q, j);
    assert trace[..j][..i + 1] == trace[..i + 1];
    ExposedGrows(trace[..j], q, i + 1);
  }

  lemma NoThird(program: Program, base: CheckpointPayload, trace: seq<Step>, end: CheckpointPayload, q: nat, i: nat, j: nat, m: nat)
    requires Trace(program, base, trace, end) && i < j < |trace| && m < |trace|
    requires Exposing(trace[i], q) && Exposing(trace[j], q) && Exposing(trace[m], q) && Target(trace[i]).prepared.Some?
    ensures m == i || m == j
  {
    hide Path;
    hide ValidStep;
    if m < i {
      SameCommand(program, base, trace, end, q, m, i);
      EarlierExposure(program, base, trace, end, q, i, j);
      assert trace[..i][m] == trace[m];
      ExposedCounts(trace[..i], q, m);
    } else if i < m < j {
      SameCommand(program, base, trace, end, q, i, m);
      EarlierExposure(program, base, trace, end, q, m, j);
      assert trace[..m][i] == trace[i];
      ExposedCounts(trace[..m], q, i);
    } else if j < m {
      SameCommand(program, base, trace, end, q, i, j);
      EarlierExposure(program, base, trace, end, q, j, m);
      assert trace[..j][i] == trace[i];
      ExposedCounts(trace[..j], q, i);
    }
  }

  // ---------------------------------------------------------------- reservation

  /** While an ordinary activity is exposed, its declared result stays reserved. */
  lemma ReservedWhileExposed(program: Program, base: CheckpointPayload, trace: seq<Step>, end: CheckpointPayload)
    requires Trace(program, base, trace, end) && end.state.Active? && end.state.activities != []
    requires Last(end.state.activities).state.DispatchExposed? && Last(end.state.activities).prepared.None?
    ensures Reserved(end, end.execution.admittedActive)
  {
    hide EncodeWithLimits;
    hide HistoryError;
    hide MaximumActivityCompletedLen;
    hide RecordLen;
    var step := trace[|trace| - 1];
    assert step.move.Expose?;
    var before, after := Last(step.before.state.activities), Last(end.state.activities);
    ExposedCompletedLen(before, step.move.attemptId);
    ReservationSurvives(step.before, after, end.execution.admittedActive);
  }

  lemma ExposedCompletedLen(record: ActivityRecord, attemptId: AttemptId)
    requires record.prepared.None?
    ensures ExposeAttempt(record, attemptId).Ok?
    ensures RecordLen(ExposeAttempt(record, attemptId).value.(state := Completed([]))) <= RecordLen(record.(state := Completed([])))
  {
    hide Width;
    hide SpecLen;
  }
}
