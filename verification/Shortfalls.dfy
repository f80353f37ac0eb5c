/** Literal executions at which an easy capacity claim fails: what is encodable is not always readable, nor what is reserved always enough. */
module Shortfalls {
  import opened Base
  import opened Identity
  import opened Effects
  import opened Records
  import opened EncodedSize
  import opened Checkpoint
  import opened Capacity
  import opened Replay
  import opened Store
  import opened Host
  import opened Steps
  import opened Rejections

  const ZEROS: Bytes16 := [0, 0, 0, 0, 0, 0, 0, 0, 0, 0, 0, 0, 0, 0, 0, 0]

  // ---------------------------------------------------------------- lengths

  lemma {:induction false} SmallBytes(bytes: Bytes)
    requires forall i :: 0 <= i < |bytes| ==> bytes[i] < 10
    ensures SumOfWidths(bytes) == |bytes|
  {
    if bytes != [] { SmallBytes(bytes[..|bytes| - 1]); }
  }

  lemma ZerosLen()
    ensures Array16Len(ZEROS) == 33
  {
    SmallBytes(ZEROS);
  }

  lemma SmallWidth(n: nat)
    ensures n < 10 ==> Width(n) == 1
    ensures 100 <= n < 1000 ==> Width(n) == 3
    ensures 1000 <= n < 10000 ==> Width(n) == 4
  {
    assert DigitsFrom(n, 10) == if n < 10 then 1 else 1 + DigitsFrom(n, 100);
    assert DigitsFrom(n, 100) == if n < 100 then 1 else 1 + DigitsFrom(n, 1000);
    assert DigitsFrom(n, 1000) == if n < 1000 then 1 else 1 + DigitsFrom(n, 10000);
    assert n < 10000 ==> DigitsFrom(n, 10000) == 1;
  }

  /** A contract with four-digit limits, no input, and this outcome bound. */
  function Contract(active: u64, terminal: u64, outcome: u64): (c: ExecutionContract)
  {
    ExecutionContract(ExecutionSpec(ZEROS, [], outcome), active, Some(terminal))
  }

  lemma ContractText(active: u64, terminal: u64, outcome: u64)
    requires 1000 <= active < 10000 && 1000 <= terminal < 10000
    ensures ContractLen(Contract(active, terminal, outcome)) == 208 + Width(outcome)
  {
    hide Width;
    ZerosLen();
    SmallWidth(active);
    SmallWidth(terminal);
  }

  /** Room for the outcome within the terminal limit admits the contract. */
  lemma ContractAdmitted(active: u64, terminal: u64, outcome: u64, maxRecords: u64)
    requires 1000 <= active < 10000 && 1000 <= terminal < 10000
    requires EnvelopeLen(CHECKPOINT_FORMAT_VERSION, 541 + Base64Len(outcome)).Ok?
    requires EnvelopeLen(CHECKPOINT_FORMAT_VERSION, 541 + Base64Len(outcome)).value <= terminal
    ensures CapacityError(Contract(active, terminal, outcome), CheckpointLimits(maxRecords, active, terminal)).None?
  {
    hide LargestProjection;
    hide EnvelopeLen;
    var contract := Contract(active, terminal, outcome);
    forall i | 0 <= i < |TerminalForms()|
      ensures
        var p := Projected(CheckpointPayload(contract, TerminalForms()[i]), Base64Len(outcome));
        p.Ok? && p.value <= terminal
    {
      FormText(contract, active, terminal, outcome, TerminalForms()[i]);
      EnvelopeMonotone(CHECKPOINT_FORMAT_VERSION, PayloadLen(CheckpointPayload(contract, TerminalForms()[i])) + Base64Len(outcome),
                       541 + Base64Len(outcome));
    }
    ProjectionBounded(contract, TerminalForms(), Base64Len(outcome), terminal);
  }

  lemma FormText(contract: ExecutionContract, active: u64, terminal: u64, outcome: u64, form: CheckpointState)
    requires 1000 <= active < 10000 && 1000 <= terminal < 10000 && contract == Contract(active, terminal, outcome)
    requires form in TerminalForms()
    ensures PayloadLen(CheckpointPayload(contract, form)) <= 541
  {
    hide Width;
    hide ContractLen;
    ContractText(active, terminal, outcome);
    WidthBounds(outcome);
    WidthBounds(U64_MAX);
    WidthBounds(MAXIMUM_SPLIT);
    WidthBounds(U64_MAX - MAXIMUM_SPLIT);
    SmallWidth(0);
  }

  lemma {:induction false} ProjectionBounded(contract: ExecutionContract, forms: seq<CheckpointState>, extra: nat, bound: nat)
    requires forall i :: 0 <= i < |forms| ==>
      var p := Projected(CheckpointPayload(contract, forms[i]), extra); p.Ok? && p.value <= bound
    ensures LargestProjection(contract, forms, extra).Ok? && LargestProjection(contract, forms, extra).value <= bound
  {
    hide Projected;
    if forms != [] {
      var n := |forms| - 1;
      forall i | 0 <= i < n ensures forms[..n][i] == forms[i] {}
      ProjectionBounded(contract, forms[..n], extra, bound);
    }
  }

  // ---------------------------------------------------------------- a terminal checkpoint nobody can read

  /** So many zero bytes. */
  function Blank(n: nat): (b: Bytes)
    ensures |b| == n
  {
    if n == 0 then [] else Blank(n - 1) + [0]
  }

  const ANSWER: TerminalOutcome := Succeeded(Blank(3000))
  const BRIEF_LIMITS := CheckpointLimits(10, 1000, 9000)
  const BRIEF := Contract(1000, 9000, 3000)

  /** A workflow that answers at once. */
  function Immediate(input: Bytes, results: seq<ActivityResult>): (s: WorkflowStep)
  {
    Done(ANSWER)
  }

  lemma BriefAdmitted()
    ensures CapacityError(BRIEF, BRIEF_LIMITS).None?
    ensures ContractLen(BRIEF) == 212
  {
    ContractAdmitted(1000, 9000, 3000, 10);
    ContractText(1000, 9000, 3000);
    SmallWidth(3000);
  }

  lemma BriefStarts()
    ensures InternalError(Initial(BRIEF.spec, BRIEF_LIMITS), BRIEF_LIMITS).None?
    ensures EncodeWithLimits(Initial(BRIEF.spec, BRIEF_LIMITS), BRIEF_LIMITS).Ok?
  {
    hide CapacityError;
    hide ContractLen;
    BriefAdmitted();
    SmallWidth(CHECKPOINT_FORMAT_VERSION);
    assert PayloadLen(Initial(BRIEF.spec, BRIEF_LIMITS)) == 273;
  }

  /** The terminal checkpoint is encodable under the terminal limit and beyond the active one. */
  lemma AnswerTooLong(terminal: CheckpointPayload)
    requires terminal.execution == BRIEF && terminal.state == Terminal(ANSWER, 0, None)
    ensures EncodedLen(Encode(terminal)).Ok? && EncodedLen(Encode(terminal)).value > BRIEF_LIMITS.maxActive
    ensures EncodeWithLimits(terminal, BRIEF_LIMITS).Ok?
    ensures DecodeAndValidate(Encode(terminal), BRIEF.spec, BRIEF_LIMITS) == Err(EncodedCheckpointLimitExceeded)
  {
    hide CapacityError;
    hide ContractLen;
    BriefAdmitted();
    SmallWidth(0);
    SmallWidth(CHECKPOINT_FORMAT_VERSION);
    assert PayloadLen(terminal) == 23 + 212 + 63 + 35 + 4000 + 1;
  }

  /** The host stores the answer, and from then on rejects what it stored. */
  lemma AnswerUnreadable(host: HostState, accepted: Revision)
    requires host.limits == BRIEF_LIMITS
    ensures
      var c := Turn(Immediate, BRIEF.spec, None, host);
      && c.Propose? && c.payload == CheckpointPayload(BRIEF, Terminal(ANSWER, 0, None))
      && Turn(Immediate, BRIEF.spec, Some(Stored(accepted, Encode(c.payload))), host)
         == Finished(CheckpointRejected(EncodedCheckpointLimitExceeded), host.counter)
  {
    hide InternalError;
    hide EncodeWithLimits;
    hide DecodeAndValidate;
    hide EncodedLen;
    hide IntoTerminal;
    BriefStarts();
    var blank := Initial(BRIEF.spec, BRIEF_LIMITS);
    assert blank.execution == BRIEF;
    assert Evaluate(Immediate, BRIEF.spec, None, BRIEF_LIMITS, IdentityResolver) == EvaluatedComplete(ANSWER, 0, blank);
    CompletionAccepted(None, BRIEF.spec, ANSWER, blank, AtCompletion, host);
    CompletedIs(blank, host);
    AnswerTooLong(CheckpointPayload(BRIEF, Terminal(ANSWER, 0, None)));
  }

  lemma CompletedIs(blank: CheckpointPayload, host: HostState)
    requires blank == Initial(BRIEF.spec, BRIEF_LIMITS) && host.limits == BRIEF_LIMITS
    requires CommitCompletion(None, BRIEF.spec, ANSWER, 0, Encode(blank), AtCompletion, host).Propose?
    ensures CommitCompletion(None, BRIEF.spec, ANSWER, 0, Encode(blank), AtCompletion, host).payload == CheckpointPayload(BRIEF, Terminal(ANSWER, 0, None))
  {
    hide EncodeWithLimits;
    hide InternalError;
  }

  // ---------------------------------------------------------------- a reservation that is not enough

  /** An activity with a 300-byte result bound. */
  const ROOMY := ActivitySpec(ActivityName([97], 1), [], 0, 300, ActivityOptions(1, 0, None, None))
  const ATTEMPT := AttemptId(ZEROS, 1)
  const AT_BOUND: Bytes := Blank(300)

  lemma RoomyText()
    ensures SpecLen(ROOMY) == 208
    ensures AttemptIdLen(ATTEMPT) == 60
  {
    hide Width;
    ZerosLen();
    SmallWidth(0);
    SmallWidth(1);
    SmallWidth(300);
    assert [97 as Byte][..0] == [];
    assert EscapedLen([97]) == 1;
  }

  /** One record on its own, under this active limit. */
  function Alone(active: u64, record: ActivityRecord): (p: CheckpointPayload)
  {
    CheckpointPayload(Contract(active, 5000, 0), Active([record]))
  }

  function AloneLimits(active: u64): (l: CheckpointLimits)
  {
    CheckpointLimits(10, active, 5000)
  }

  lemma AloneText(active: u64, record: ActivityRecord)
    requires 1000 <= active < 10000
    ensures PayloadLen(Alone(active, record)) == 270 + RecordLen(record)
    ensures RestLen(Alone(active, record)) == 270
  {
    hide Width;
    hide ContractLen;
    hide RecordLen;
    ContractText(active, 5000, 0);
    SmallWidth(0);
    assert [record][..0] == [];
    assert RecordsLen([record]) == RecordsLen([record][..0]) + RecordLen(record);
  }

  lemma AloneValid(active: u64, record: ActivityRecord)
    requires 1000 <= active < 10000 && RecordError(record, 0, true).None?
    ensures InternalError(Alone(active, record), AloneLimits(active)).None?
  {
    hide CapacityError;
    hide RecordError;
    SmallWidth(CHECKPOINT_FORMAT_VERSION);
    ContractAdmitted(active, 5000, 0, 10);
    assert HistoryError([record], 1).None?;
  }

  /** The strict effect: scheduled, with an empty command. */
  const STRICT := NewEffect(0, ROOMY, PreparedCommand([], 0), ExternalEffect)

  lemma StrictLengths()
    ensures RecordLen(STRICT.(state := Completed([]))) == 416
    ensures LedgerGrowth(STRICT, ATTEMPT) == 119
    ensures ReservedText(Alone(1600, STRICT)) == 1086
    ensures StrictText(Alone(1600, STRICT), ATTEMPT) == 1205
  {
    hide Width;
    hide SpecLen;
    hide AttemptIdLen;
    RoomyText();
    SmallWidth(0);
    SmallWidth(1);
    LedgerGrows(STRICT, ATTEMPT);
    assert LedgerEntryLen(EffectAttempt(ATTEMPT, Observed)) == 105;
    AloneText(1600, STRICT);
  }

  /** The strict effect is reserved and its exposure is stored, and yet the result at its bound does not fit. */
  lemma StrictShort()
    ensures Reserved(Alone(1600, STRICT), AloneLimits(1600).maxActive)
    ensures InternalError(Alone(1600, STRICT), AloneLimits(1600)).None?
    ensures ExposeAttempt(STRICT, ATTEMPT).Ok?
    ensures EncodeWithLimits(WithLast(Alone(1600, STRICT), ExposeAttempt(STRICT, ATTEMPT).value), AloneLimits(1600)).Ok?
    ensures |AT_BOUND| <= ROOMY.maxResult && !StrictFits(Alone(1600, STRICT), ATTEMPT, AT_BOUND, AloneLimits(1600))
  {
    hide InternalError;
    hide PayloadLen;
    hide RecordLen;
    hide LedgerGrowth;
    hide MaximumActivityCompletedLen;
    hide StrictFits;
    hide EncodeWithLimits;
    hide RestLen;
    var payload := Alone(1600, STRICT);
    StrictLengths();
    SmallWidth(CHECKPOINT_FORMAT_VERSION);
    AloneValid(1600, STRICT);
    ReservationLen(payload);
    StrictOneFits(payload, ATTEMPT, AT_BOUND, AloneLimits(1600));
    AloneText(1600, STRICT);
    StrictExposed();
  }

  lemma StrictExposed()
    ensures
      var exposed := ExposeAttempt(STRICT, ATTEMPT);
      exposed.Ok? && EncodeWithLimits(WithLast(Alone(1600, STRICT), exposed.value), AloneLimits(1600)).Ok?
  {
    hide InternalError;
    hide PayloadLen;
    hide RecordLen;
    hide EncodeWithLimits;
    hide RestLen;
    var exposed := ExposeAttempt(STRICT, ATTEMPT).value;
    ExposedText();
    AloneValid(1600, STRICT);
    AloneText(1600, STRICT);
    SmallWidth(CHECKPOINT_FORMAT_VERSION);
    ReplacedEncodesIffFits(Alone(1600, STRICT), exposed, AloneLimits(1600));
  }

  lemma ExposedText()
    ensures ExposeAttempt(STRICT, ATTEMPT).Ok? && RecordError(ExposeAttempt(STRICT, ATTEMPT).value, 0, true).None?
    ensures RecordLen(ExposeAttempt(STRICT, ATTEMPT).value) <= 700
  {
    hide Width;
    hide SpecLen;
    hide AttemptIdLen;
    RoomyText();
    SmallWidth(0);
    SmallWidth(1);
    var entry := EffectAttempt(ATTEMPT, Exposed);
    assert [] + [entry] == [entry];
    LedgerGrowthExact([], entry);
    assert LedgerEntryLen(entry) == 104;
  }

  /** The ordinary activity: exposed. */
  const ORDINARY := NewRecord(0, ROOMY, None).(state := DispatchExposed(ATTEMPT))

  lemma OrdinaryLengths()
    ensures RecordLen(ORDINARY.(state := Completed([]))) == 333
    ensures RecordLen(ORDINARY) <= 500
    ensures ReservedText(Alone(1400, ORDINARY)) == 1003
  {
    hide Width;
    hide SpecLen;
    hide AttemptIdLen;
    RoomyText();
    SmallWidth(0);
    SmallWidth(1);
    AloneText(1400, ORDINARY);
  }

  /** The exposed activity is reserved and stored, and yet an application failure at its bound does not fit. */
  lemma FailureShort()
    ensures Reserved(Alone(1400, ORDINARY), AloneLimits(1400).maxActive)
    ensures EncodeWithLimits(Alone(1400, ORDINARY), AloneLimits(1400)).Ok?
    ensures InternalError(Alone(1400, ORDINARY), AloneLimits(1400)).None?
    ensures |AT_BOUND| <= ROOMY.maxResult
    ensures EncodeWithLimits(WithLast(Alone(1400, ORDINARY), WithFailure(ORDINARY, Application(AT_BOUND))), AloneLimits(1400)).Err?
  {
    hide InternalError;
    hide PayloadLen;
    hide RecordLen;
    hide MaximumActivityCompletedLen;
    hide EncodeWithLimits;
    hide RestLen;
    hide ReservedText;
    var payload := Alone(1400, ORDINARY);
    OrdinaryLengths();
    SmallWidth(CHECKPOINT_FORMAT_VERSION);
    AloneValid(1400, ORDINARY);
    AloneText(1400, ORDINARY);
    ReservationLen(payload);
    EncodesIffFits(payload, AloneLimits(1400));
    FailureFits(payload, Application(AT_BOUND), AloneLimits(1400));
  }

  // ---------------------------------------------------------------- what the host answers

  /** A stored checkpoint that ends in this record is located by its own identity. */
  lemma AloneLocated(active: u64, record: ActivityRecord, revision: Revision)
    requires EncodeWithLimits(Alone(active, record), AloneLimits(active)).Ok?
    ensures
      var payload := Alone(active, record);
      Locate(payload.execution.spec, LogicalId(record, ZEROS), Some(Stored(revision, Encode(payload))), AloneLimits(active))
      == Ok(Located(revision, payload, record))
  {
    hide EncodeWithLimits;
    hide DecodeAndValidate;
    EncodedFacts(Alone(active, record), AloneLimits(active));
  }

  /**
   * Under a 1600-byte limit the strict effect's result is reserved and its exposure stored, and yet the host refuses the
   * observation of a result at the declared bound for capacity.
   */
  lemma StrictResultRefused(workflow: Workflow, revision: Revision, host: HostState, allow: bool)
    requires host.limits == AloneLimits(1600)
    ensures Reserved(Alone(1600, STRICT), host.limits.maxActive)
    ensures ExposeAttempt(STRICT, ATTEMPT).Ok? && |AT_BOUND| <= ROOMY.maxResult
    ensures
      var exposed := Alone(1600, ExposeAttempt(STRICT, ATTEMPT).value);
      var observation := EffectObservation(LogicalId(STRICT, ZEROS), ATTEMPT, AT_BOUND, None, DispositionCompleted);
      var c := Compute(workflow, exposed.execution.spec, OpEffect(observation, allow), Some(Stored(revision, Encode(exposed))), host);
      && EncodeWithLimits(exposed, host.limits).Ok?
      && c.Finished? && c.outcome.CheckpointRejected? && IsCapacity(c.outcome.error)
  {
    hide EncodeWithLimits;
    hide DecodeAndValidate;
    hide InternalError;
    hide Locate;
    hide Reserved;
    hide RecordError;
    StrictShort();
    var record := ExposeAttempt(STRICT, ATTEMPT).value;
    var exposed := Alone(1600, record);
    AloneReplaced(1600, STRICT, record);
    AloneLocated(1600, record, revision);
    StrictValid();
    StrictObservation(STRICT, 0, ATTEMPT, AT_BOUND);
    var observed := ObservedRecord(STRICT, ATTEMPT, AT_BOUND);
    AloneReplaced(1600, STRICT, observed);
    AloneReplaced(1600, record, observed);
    ReplacedRejects(Alone(1600, STRICT), observed, host.limits);
  }

  lemma AloneReplaced(active: u64, record: ActivityRecord, next: ActivityRecord)
    ensures WithLast(Alone(active, record), next) == Alone(active, next)
  {
    var replaced := ReplaceLast([record], next);
    assert replaced == replaced[..0] + [next];
  }

  lemma StrictValid()
    ensures RecordError(STRICT, 0, true).None?
  {
  }

  /**
   * Under a 1400-byte limit the exposed activity's result is reserved and stored, and yet the host refuses an application
   * failure at the declared bound for capacity.
   */
  lemma FailureRefused(workflow: Workflow, revision: Revision, host: HostState)
    requires host.limits == AloneLimits(1400)
    ensures Reserved(Alone(1400, ORDINARY), host.limits.maxActive) && |AT_BOUND| <= ROOMY.maxResult
    ensures
      var exposed := Alone(1400, ORDINARY);
      var op := OpFailure(LogicalId(ORDINARY, ZEROS), Application(AT_BOUND));
      var c := Compute(workflow, exposed.execution.spec, op, Some(Stored(revision, Encode(exposed))), host);
      && EncodeWithLimits(exposed, host.limits).Ok?
      && c.Finished? && c.outcome.CheckpointRejected? && IsCapacity(c.outcome.error)
  {
    hide EncodeWithLimits;
    hide DecodeAndValidate;
    hide InternalError;
    hide Locate;
    hide Reserved;
    hide RecordError;
    FailureShort();
    AloneLocated(1400, ORDINARY, revision);
    OrdinaryValid();
    FailedValid(ORDINARY, 0, Application(AT_BOUND));
    ReplacedRejects(Alone(1400, ORDINARY), WithFailure(ORDINARY, Application(AT_BOUND)), host.limits);
  }

  lemma OrdinaryValid()
    ensures RecordError(ORDINARY, 0, true).None?
  {
  }
}
