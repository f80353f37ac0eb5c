/** What the two capacity projections of `kuberic-dex/src/checkpoint.rs` guarantee. */
module Capacity {
  import opened Base
  import opened Identity
  import opened Effects
  import opened Records
  import opened EncodedSize
  import opened Checkpoint

  // ---------------------------------------------------------------- terminal admission

  /** Some projected form has a metadata part at least as wide as any authentic one. */
  lemma MetadataDominated(metadata: Option<CompletionMetadata>, count: u64)
    requires metadata.Some? ==> metadata.value.external + metadata.value.passive == metadata.value.completed
    ensures MetadataLen(metadata) <= MetadataLen(Some(MaximumSplitMetadata))
    ensures Width(count) <= Width(U64_MAX)
  {
    WidthBounds(count);
    WidthBounds(U64_MAX);
    WidthBounds(MAXIMUM_SPLIT);
    WidthBounds(U64_MAX - MAXIMUM_SPLIT);
    TenPowers();
    assert Pow(10, 18) * 10 == Pow(10, 19);
    WidthBelow(U64_MAX - MAXIMUM_SPLIT, 18);
    if metadata.Some? {
      var m := metadata.value;
      WidthBounds(m.completed);
      WidthBounds(m.external);
      WidthBounds(m.passive);
      // The two classified counts cannot both need twenty digits.
      assert m.external < MAXIMUM_SPLIT || m.passive < MAXIMUM_SPLIT;
    }
  }

  /** The widest projected form of an outcome's kind. */
  function WidestForm(outcome: TerminalOutcome): (s: CheckpointState)
    ensures s in TerminalForms()
  {
    var form := if outcome.Succeeded? then 4 else 5;
    assert TerminalForms()[form] in TerminalForms();
    TerminalForms()[form]
  }

  lemma TerminalTextDominated(outcome: TerminalOutcome, count: u64, metadata: Option<CompletionMetadata>, bound: nat)
    requires |outcome.payload| <= bound
    requires metadata.Some? ==> metadata.value.external + metadata.value.passive == metadata.value.completed
    ensures StateJsonLen(Terminal(outcome, count, metadata)) <= StateJsonLen(WidestForm(outcome)) + Base64Len(bound)
  {
    hide Width;
    MetadataDominated(metadata, count);
    Base64Monotone(|outcome.payload|, bound);
  }

  lemma ProjectionDominates(contract: ExecutionContract, form: CheckpointState)
    requires form in TerminalForms()
    requires MaximumTerminalEncodedLen(contract).Ok?
    ensures
      var p := Projected(CheckpointPayload(contract, form), Base64Len(contract.spec.maxTerminalPayload));
      p.Ok? && p.value <= MaximumTerminalEncodedLen(contract).value
  {
    hide Width;
    hide PayloadLen;
    var i :| 0 <= i < |TerminalForms()| && TerminalForms()[i] == form;
  }

  /** The six projected forms dominate every terminal checkpoint with an authentic completion summary. */
  lemma TerminalFormsDominate(contract: ExecutionContract, outcome: TerminalOutcome, count: u64, metadata: Option<CompletionMetadata>)
    requires |outcome.payload| <= contract.spec.maxTerminalPayload
    requires metadata.Some? ==> metadata.value.external + metadata.value.passive == metadata.value.completed
    requires MaximumTerminalEncodedLen(contract).Ok?
    ensures
      var len := EncodedLen(Encode(CheckpointPayload(contract, Terminal(outcome, count, metadata))));
      len.Ok? && len.value <= MaximumTerminalEncodedLen(contract).value
  {
    hide Width;
    hide MaximumTerminalEncodedLen;
    hide StateJsonLen;
    hide ContractLen;
    hide WidestForm;
    var extra := Base64Len(contract.spec.maxTerminalPayload);
    var form := WidestForm(outcome);
    ProjectionDominates(contract, form);
    TerminalTextDominated(outcome, count, metadata, contract.spec.maxTerminalPayload);
    EnvelopeMonotone(CHECKPOINT_FORMAT_VERSION, PayloadLen(CheckpointPayload(contract, Terminal(outcome, count, metadata))),
                     PayloadLen(CheckpointPayload(contract, form)) + extra);
  }

  /**
   * An admitted execution can always be terminalized: compaction of a valid active checkpoint with
   * any outcome within the declared bound is accepted under the same limits, and its counts are
   * those of the history it replaces.
   */
  lemma AdmittedTerminalizes(payload: CheckpointPayload, outcome: TerminalOutcome, limits: CheckpointLimits)
    requires payload.state.Active?
    requires InternalError(payload, limits).None?
    requires |outcome.payload| <= payload.execution.spec.maxTerminalPayload
    ensures |payload.state.activities| <= U64_MAX
    ensures
      var activities := payload.state.activities;
      var terminal := IntoTerminal(payload, outcome, |activities|);
      && terminal.Ok?
      && EncodeWithLimits(terminal.value, limits) == Ok(Encode(terminal.value))
      && terminal.value.execution == payload.execution
      && terminal.value.state.Terminal?
      && terminal.value.state.outcome == outcome
      && terminal.value.state.completedCount == |activities|
      && (terminal.value.state.metadata.Some? <==> activities != [] && AllClassified(activities))
      && (terminal.value.state.metadata.Some? ==>
            && terminal.value.state.metadata.value.external == CountOf(Classes(activities), ExternalEffect)
            && terminal.value.state.metadata.value.passive == CountOf(Classes(activities), PassiveObservation))
  {
    hide MaximumTerminalEncodedLen;
    hide PayloadLen;
    hide HistoryError;
    var activities := payload.state.activities;
    var terminal := IntoTerminal(payload, outcome, |activities|).value;
    TerminalFormsDominate(payload.execution, outcome, |activities|, terminal.state.metadata);
    assert TerminalError(payload.execution, outcome, |activities|, terminal.state.metadata).None?;
  }

  // ---------------------------------------------------------------- result reservation

  /** The final record is exposed and its declared maximum result is reserved within the active limit. */
  ghost predicate Reserved(payload: CheckpointPayload, limit: u64)
  {
    && payload.state.Active?
    && payload.state.activities != []
    && var reserved := MaximumActivityCompletedLen(payload); reserved.Ok? && reserved.value <= limit
  }

  /** The text around the final record. */
  function RestLen(payload: CheckpointPayload): (n: nat)
    requires payload.state.Active? && payload.state.activities != []
    ensures n + RecordLen(Last(payload.state.activities)) == PayloadLen(payload)
  {
    PayloadLen(payload) - RecordLen(Last(payload.state.activities))
  }

  lemma WithLastLen(payload: CheckpointPayload, record: ActivityRecord)
    requires payload.state.Active? && payload.state.activities != []
    ensures PayloadLen(WithLast(payload, record)) == RestLen(payload) + RecordLen(record)
    ensures RestLen(WithLast(payload, record)) == RestLen(payload)
  {
    ReplaceLastLen(payload.state.activities, record);
  }

  /** The text the reservation counts: the final record with an empty result, plus the declared bound. */
  function ReservedText(payload: CheckpointPayload): (n: nat)
    requires payload.state.Active? && payload.state.activities != []
  {
    var record := Last(payload.state.activities);
    RestLen(payload) + RecordLen(record.(state := Completed([]))) + Base64Len(record.spec.maxResult)
  }

  /** The reservation test is the envelope around that text. */
  lemma ReservationLen(payload: CheckpointPayload)
    requires payload.state.Active? && payload.state.activities != []
    ensures MaximumActivityCompletedLen(payload) == EnvelopeLen(CHECKPOINT_FORMAT_VERSION, ReservedText(payload))
  {
    hide RecordLen;
    hide PayloadLen;
    var record := Last(payload.state.activities);
    WithLastLen(payload, record.(state := Completed([])));
  }

  /** A replaced final record that only shortens the completed text keeps the reservation. */
  lemma ReservationSurvives(payload: CheckpointPayload, record: ActivityRecord, limit: u64)
    requires Reserved(payload, limit)
    requires record.spec == Last(payload.state.activities).spec
    requires RecordLen(record.(state := Completed([]))) <= RecordLen(Last(payload.state.activities).(state := Completed([])))
    ensures Reserved(WithLast(payload, record), limit)
  {
    hide RecordLen;
    hide PayloadLen;
    hide MaximumActivityCompletedLen;
    ReservationLen(payload);
    ReservationLen(WithLast(payload, record));
    WithLastLen(payload, record);
    var before := Last(payload.state.activities);
    EnvelopeMonotone(CHECKPOINT_FORMAT_VERSION,
                     RestLen(payload) + RecordLen(record.(state := Completed([]))) + Base64Len(record.spec.maxResult),
                     RestLen(payload) + RecordLen(before.(state := Completed([]))) + Base64Len(record.spec.maxResult));
  }

  /** A single valid replacement of the final record keeps the history valid. */
  lemma ReplaceLastValid(activities: seq<ActivityRecord>, record: ActivityRecord)
    requires activities != [] && HistoryError(activities, 0).None?
    requires RecordError(record, |activities| - 1, true).None?
    ensures HistoryError(ReplaceLast(activities, record), 0).None?
  {
    HistoryAcceptedIff(activities);
    HistoryAcceptedIff(ReplaceLast(activities, record));
    var replaced := ReplaceLast(activities, record);
    forall i | 0 <= i < |replaced| ensures RecordError(replaced[i], i, i + 1 == |replaced|).None? {
      assert RecordError(activities[i], i, i + 1 == |activities|).None?;
    }
  }

  lemma InternalReplaceLast(payload: CheckpointPayload, record: ActivityRecord, limits: CheckpointLimits)
    requires payload.state.Active? && payload.state.activities != [] && InternalError(payload, limits).None?
    requires RecordError(record, |payload.state.activities| - 1, true).None?
    ensures InternalError(WithLast(payload, record), limits).None?
  {
    ReplaceLastValid(payload.state.activities, record);
  }

  /** An active payload of `inner` characters fits the active limit. */
  predicate Fits(inner: nat, limits: CheckpointLimits)
  {
    var size := EnvelopeLen(CHECKPOINT_FORMAT_VERSION, inner);
    size.Ok? && size.value <= limits.maxActive
  }

  /** An internally valid active payload is encodable exactly when its text fits. */
  lemma EncodesIffFits(payload: CheckpointPayload, limits: CheckpointLimits)
    requires payload.state.Active? && InternalError(payload, limits).None?
    ensures EncodeWithLimits(payload, limits).Ok? <==> Fits(PayloadLen(payload), limits)
    ensures EncodeWithLimits(payload, limits).Ok? ==> EncodeWithLimits(payload, limits).value == Encode(payload)
  {
    hide PayloadLen;
    hide InternalError;
  }

  /** Replacing the final record with a valid one is encodable exactly when the new text fits. */
  lemma ReplacedEncodesIffFits(payload: CheckpointPayload, record: ActivityRecord, limits: CheckpointLimits)
    requires payload.state.Active? && payload.state.activities != [] && InternalError(payload, limits).None?
    requires RecordError(record, |payload.state.activities| - 1, true).None?
    ensures
      var replaced := EncodeWithLimits(WithLast(payload, record), limits);
      && (replaced.Ok? <==> Fits(RestLen(payload) + RecordLen(record), limits))
      && (replaced.Ok? ==> replaced.value == Encode(WithLast(payload, record)))
  {
    hide InternalError;
    hide RecordError;
    hide PayloadLen;
    hide RecordLen;
    InternalReplaceLast(payload, record, limits);
    EncodesIffFits(WithLast(payload, record), limits);
    WithLastLen(payload, record);
  }

  lemma LastRecordValid(payload: CheckpointPayload, limits: CheckpointLimits)
    requires payload.state.Active? && payload.state.activities != [] && InternalError(payload, limits).None?
    ensures RecordError(Last(payload.state.activities), |payload.state.activities| - 1, true).None?
  {
    hide CapacityError;
    hide RecordError;
    var activities := payload.state.activities;
    HistoryErrorFrom(activities, 0);
    var i := |activities| - 1;
    assert RecordError(activities[i], i, i + 1 == |activities|).None?;
  }

  lemma CompletedLen(record: ActivityRecord, result: Bytes)
    requires record.failure.None?
    ensures RecordLen(WithState(record, Completed(result)))
         == RecordLen(record.(state := Completed([]))) + Base64Len(|result|)
  {
    hide Width;
  }

  /** A reserved ordinary activity can complete with any result within its declared bound. */
  lemma ReservedResultFits(payload: CheckpointPayload, result: Bytes, limits: CheckpointLimits)
    requires Reserved(payload, limits.maxActive) && InternalError(payload, limits).None?
    requires Last(payload.state.activities).state.DispatchExposed?
    requires Last(payload.state.activities).prepared.None?
    requires |result| <= Last(payload.state.activities).spec.maxResult
    ensures
      var completed := WithLast(payload, WithState(Last(payload.state.activities), Completed(result)));
      EncodeWithLimits(completed, limits) == Ok(Encode(completed))
  {
    hide InternalError;
    hide PayloadLen;
    hide RecordLen;
    hide MaximumActivityCompletedLen;
    var record := Last(payload.state.activities);
    var done := WithState(record, Completed(result));
    LastRecordValid(payload, limits);
    ReservationLen(payload);
    CompletedLen(record, result);
    Base64Monotone(|result|, record.spec.maxResult);
    EnvelopeMonotone(CHECKPOINT_FORMAT_VERSION, RestLen(payload) + RecordLen(done),
                     RestLen(payload) + RecordLen(record.(state := Completed([]))) + Base64Len(record.spec.maxResult));
    ReplacedEncodesIffFits(payload, done, limits);
  }

  /** The text a strict effect adds after its reservation: the pushed ledger entry, grown to `observed`. */
  function LedgerGrowth(record: ActivityRecord, attemptId: AttemptId): (n: int)
  {
    LedgerLen(record.attempts + [EffectAttempt(attemptId, Observed)]) - LedgerLen(record.attempts)
  }

  lemma LedgerGrowthExact(attempts: seq<EffectAttempt>, entry: EffectAttempt)
    ensures LedgerLen(attempts + [entry]) - LedgerLen(attempts)
         == (if attempts == [] then 14 else 1) + LedgerEntryLen(entry)
  {
    hide LedgerEntryLen;
    var longer := attempts + [entry];
    assert longer[..|longer| - 1] == attempts && longer[|longer| - 1] == entry;
    assert LedgerEntries(longer) == LedgerEntries(longer[..|longer| - 1]) + LedgerEntryLen(longer[|longer| - 1]);
  }

  lemma LedgerGrows(record: ActivityRecord, attemptId: AttemptId)
    ensures LedgerGrowth(record, attemptId) == (if record.attempts == [] then 14 else 1) + LedgerEntryLen(EffectAttempt(attemptId, Observed))
  {
    hide LedgerEntryLen;
    hide LedgerLen;
    LedgerGrowthExact(record.attempts, EffectAttempt(attemptId, Observed));
  }

  /** The record a strict effect's successful observation leaves behind. */
  function ObservedRecord(record: ActivityRecord, attemptId: AttemptId, result: Bytes): (r: ActivityRecord)
  {
    record.(attempt := record.attempt.(handlerWait := None),
            attempts := record.attempts + [EffectAttempt(attemptId, Observed)],
            state := Completed(result))
  }

  lemma ObservedRecordLen(record: ActivityRecord, attemptId: AttemptId, result: Bytes)
    ensures RecordLen(ObservedRecord(record, attemptId, result))
         == RecordLen(record.(attempt := record.attempt.(handlerWait := None), state := Completed([])))
            + LedgerGrowth(record, attemptId) + Base64Len(|result|)
  {
    hide Width;
    hide LedgerLen;
    hide SpecLen;
  }

  /** Exposing and observing a scheduled strict effect succeeds and leaves a valid completed record. */
  lemma StrictObservation(record: ActivityRecord, index: nat, attemptId: AttemptId, result: Bytes)
    requires RecordError(record, index, true).None?
    requires record.state.Scheduled? && record.prepared.Some?
    requires ExposeAttempt(record, attemptId).Ok?
    requires |result| <= record.spec.maxResult
    ensures
      var exposed := ExposeAttempt(record, attemptId).value;
      ObserveEffectAttempt(exposed, attemptId, DispositionCompleted, result, None) == Ok(ObservedRecord(record, attemptId, result))
    ensures RecordError(ObservedRecord(record, attemptId, result), index, true).None?
  {
    var exposed := ExposeAttempt(record, attemptId).value;
    var n := |exposed.attempts|;
    assert exposed.attempts[n - 1 := EffectAttempt(attemptId, Observed)]
        == record.attempts + [EffectAttempt(attemptId, Observed)];
  }

  /** The strict effect, exposed under this attempt, can be stored completed with this result. */
  predicate StrictFits(payload: CheckpointPayload, attemptId: AttemptId, result: Bytes, limits: CheckpointLimits)
    requires payload.state.Active? && payload.state.activities != []
    requires ExposeAttempt(Last(payload.state.activities), attemptId).Ok?
  {
    var exposed := ExposeAttempt(Last(payload.state.activities), attemptId).value;
    var observed := ObserveEffectAttempt(exposed, attemptId, DispositionCompleted, result, None);
    observed.Ok? && EncodeWithLimits(WithLast(payload, observed.value), limits).Ok?
  }

  lemma StrictOneFits(payload: CheckpointPayload, attemptId: AttemptId, result: Bytes, limits: CheckpointLimits)
    requires payload.state.Active? && payload.state.activities != [] && InternalError(payload, limits).None?
    requires Last(payload.state.activities).state.Scheduled? && Last(payload.state.activities).prepared.Some?
    requires ExposeAttempt(Last(payload.state.activities), attemptId).Ok?
    requires |result| <= Last(payload.state.activities).spec.maxResult
    ensures
      var record := Last(payload.state.activities);
      StrictFits(payload, attemptId, result, limits) <==>
        Fits(RestLen(payload)
             + RecordLen(record.(attempt := record.attempt.(handlerWait := None), state := Completed([])))
             + LedgerGrowth(record, attemptId) + Base64Len(|result|), limits)
  {
    hide InternalError;
    hide PayloadLen;
    hide RecordLen;
    hide LedgerGrowth;
    hide ExposeAttempt;
    hide ObserveEffectAttempt;
    hide Fits;
    var record := Last(payload.state.activities);
    LastRecordValid(payload, limits);
    StrictObservation(record, |payload.state.activities| - 1, attemptId, result);
    ObservedRecordLen(record, attemptId, result);
    ReplacedEncodesIffFits(payload, ObservedRecord(record, attemptId, result), limits);
  }

  /** The text of a handler's wait, which exposure drops. */
  function WaitText(attempt: AttemptState): (n: nat)
  {
    AttemptLen(attempt) - AttemptLen(attempt.(handlerWait := None))
  }

  /** The reserved text once the exposure has dropped the wait and pushed its attempt. */
  function StrictText(payload: CheckpointPayload, attemptId: AttemptId): (n: nat)
    requires payload.state.Active? && payload.state.activities != []
    ensures
      var record := Last(payload.state.activities);
      n == ReservedText(payload) - WaitText(record.attempt) + LedgerGrowth(record, attemptId)
  {
    hide Width;
    hide SpecLen;
    hide PayloadLen;
    hide LedgerEntries;
    var record := Last(payload.state.activities);
    LedgerGrowthExact(record.attempts, EffectAttempt(attemptId, Observed));
    RestLen(payload) + RecordLen(record.(attempt := record.attempt.(handlerWait := None), state := Completed([])))
    + LedgerGrowth(record, attemptId) + Base64Len(record.spec.maxResult)
  }

  /**
   * A strict effect is reserved before its attempt is pushed: every result within its declared bound fits
   * if and only if the reserved text, grown by the ledger entry, does.
   */
  lemma StrictResultFits(payload: CheckpointPayload, attemptId: AttemptId, limits: CheckpointLimits)
    requires payload.state.Active? && payload.state.activities != [] && InternalError(payload, limits).None?
    requires Last(payload.state.activities).state.Scheduled? && Last(payload.state.activities).prepared.Some?
    requires ExposeAttempt(Last(payload.state.activities), attemptId).Ok?
    ensures
      (forall result: Bytes :: |result| <= Last(payload.state.activities).spec.maxResult ==> StrictFits(payload, attemptId, result, limits))
      <==> Fits(StrictText(payload, attemptId), limits)
  {
    hide InternalError;
    hide PayloadLen;
    hide RecordLen;
    hide LedgerGrowth;
    hide ExposeAttempt;
    hide StrictFits;
    hide ReservedText;
    hide WaitText;
    var record := Last(payload.state.activities);
    var largest: Bytes := seq(record.spec.maxResult, i => 0);
    LedgerGrows(record, attemptId);
    StrictOneFits(payload, attemptId, largest, limits);
    if Fits(StrictText(payload, attemptId), limits) {
      forall result: Bytes | |result| <= record.spec.maxResult ensures StrictFits(payload, attemptId, result, limits) {
        StrictOneFits(payload, attemptId, result, limits);
        Base64Monotone(|result|, record.spec.maxResult);
        EnvelopeMonotone(CHECKPOINT_FORMAT_VERSION,
                         RestLen(payload) + RecordLen(record.(attempt := record.attempt.(handlerWait := None), state := Completed([])))
                         + LedgerGrowth(record, attemptId) + Base64Len(|result|), StrictText(payload, attemptId));
      }
    }
  }

  lemma FailedLen(record: ActivityRecord, failure: ActivityFailure)
    requires record.failure.None?
    ensures RecordLen(WithFailure(record, failure)) == RecordLen(record.(state := Completed([]))) + FailureLen(Some(failure))
  {
    hide Width;
    hide LedgerLen;
    hide SpecLen;
  }

  /**
   * A failure's text is not what was reserved: an exposed ordinary activity can complete with it if and only if
   * the reserved text, with the failure's wrapper and payload in place of the declared bound, fits.
   */
  lemma FailureFits(payload: CheckpointPayload, failure: ActivityFailure, limits: CheckpointLimits)
    requires payload.state.Active? && payload.state.activities != [] && InternalError(payload, limits).None?
    requires Last(payload.state.activities).state.DispatchExposed? && Last(payload.state.activities).prepared.None?
    requires failure.Application? ==> |failure.payload| <= Last(payload.state.activities).spec.maxResult
    ensures
      var record := Last(payload.state.activities);
      EncodeWithLimits(WithLast(payload, WithFailure(record, failure)), limits).Ok? <==>
        Fits(ReservedText(payload) - Base64Len(record.spec.maxResult) + FailureLen(Some(failure)), limits)
  {
    hide InternalError;
    hide PayloadLen;
    hide RecordLen;
    hide Fits;
    hide FailureLen;
    var record := Last(payload.state.activities);
    LastRecordValid(payload, limits);
    FailedLen(record, failure);
    ReplacedEncodesIffFits(payload, WithFailure(record, failure), limits);
  }

  /** The wrapper of an application failure is 45 characters: all within the bound fit if and only if there is room for it. */
  lemma ApplicationFailuresFit(payload: CheckpointPayload, limits: CheckpointLimits)
    requires payload.state.Active? && payload.state.activities != [] && InternalError(payload, limits).None?
    requires Last(payload.state.activities).state.DispatchExposed? && Last(payload.state.activities).prepared.None?
    ensures
      var record := Last(payload.state.activities);
      (forall detail: Bytes :: |detail| <= record.spec.maxResult ==>
         EncodeWithLimits(WithLast(payload, WithFailure(record, Application(detail))), limits).Ok?)
      <==> Fits(ReservedText(payload) + 45, limits)
  {
    hide InternalError;
    hide PayloadLen;
    hide RecordLen;
    hide EncodeWithLimits;
    hide ReservedText;
    var record := Last(payload.state.activities);
    var largest: Bytes := seq(record.spec.maxResult, i => 0);
    FailureFits(payload, Application(largest), limits);
    if Fits(ReservedText(payload) + 45, limits) {
      forall detail: Bytes | |detail| <= record.spec.maxResult
        ensures EncodeWithLimits(WithLast(payload, WithFailure(record, Application(detail))), limits).Ok?
      {
        FailureFits(payload, Application(detail), limits);
        Base64Monotone(|detail|, record.spec.maxResult);
        ReservedAtLeast(payload);
        EnvelopeMonotone(CHECKPOINT_FORMAT_VERSION,
                         ReservedText(payload) - Base64Len(record.spec.maxResult) + 45 + Base64Len(|detail|), ReservedText(payload) + 45);
      }
    }
  }

  lemma ReservedAtLeast(payload: CheckpointPayload)
    requires payload.state.Active? && payload.state.activities != []
    ensures ReservedText(payload) >= Base64Len(Last(payload.state.activities).spec.maxResult)
  {
    hide RecordLen;
    hide PayloadLen;
  }
}
