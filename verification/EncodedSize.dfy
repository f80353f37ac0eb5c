/**
 * Lengths of the canonical JSON that `kuberic-dex/src/checkpoint.rs` persists: fixed field text
 * plus decimal widths plus padded base64 for every exact byte string. The literal lengths count
 * the compact rendering of the derived serializers, with absent optional fields omitted where the
 * declaration skips them and rendered `null` where it does not.
 */
module EncodedSize {
  import opened Base
  import opened Identity
  import opened Effects
  import opened Records

  function SumOfWidths(bytes: Bytes): (n: nat)
  {
    if bytes == [] then 0 else SumOfWidths(bytes[..|bytes| - 1]) + Width(bytes[|bytes| - 1])
  }

  /** A sixteen-element JSON array of small integers. */
  function Array16Len(bytes: Bytes16): (n: nat)
  {
    2 + 15 + SumOfWidths(bytes)
  }

  /** JSON string contents: two characters for the short escapes, six for other control characters. */
  function EscapedLen(bytes: Bytes): (n: nat)
  {
    if bytes == [] then 0
    else
      var b := bytes[|bytes| - 1];
      EscapedLen(bytes[..|bytes| - 1]) +
      (if b in {0x22, 0x5C, 0x08, 0x09, 0x0A, 0x0C, 0x0D} then 2 else if b < 0x20 then 6 else 1)
  }

  function OptionalLen(value: Option<int>): (n: nat)
  {
    match value
    case None => 4
    case Some(v) => SignedWidth(v)
  }

  function AttemptIdLen(id: AttemptId): (n: nat)
  {
    26 + Array16Len(id.hostEpoch) + Width(id.counter)
  }

  function OptionsLen(options: ActivityOptions): (n: nat)
  {
    100 + Width(options.maxAttempts) + Width(options.initialBackoff)
    + OptionalLen(options.actionDeadline) + OptionalLen(options.attemptTimeout)
  }

  function SpecLen(spec: ActivitySpec): (n: nat)
  {
    70 + 22 + EscapedLen(spec.name.name) + Width(spec.name.version) + Base64Len(|spec.input|)
    + Width(spec.maxInput) + Width(spec.maxResult) + OptionsLen(spec.options)
  }

  function AttemptLen(attempt: AttemptState): (n: nat)
  {
    44 + Width(attempt.ordinal) + OptionalLen(attempt.retryNotBefore)
    + (if attempt.handlerWait.Some? then 34 + SignedWidth(attempt.handlerWait.value) else 0)
  }

  function CommandLen(prepared: Option<PreparedCommand>): (n: nat)
  {
    match prepared
    case None => 0
    case Some(command) => 20 + 25 + Base64Len(|command.bytes|) + Width(command.maxBytes)
  }

  function ClassLen(completionClass: Option<CompletionClass>): (n: nat)
  {
    match completionClass
    case None => 0
    case Some(ExternalEffect) => 37
    case Some(PassiveObservation) => 41
  }

  function LedgerEntryLen(attempt: EffectAttempt): (n: nat)
  {
    24 + AttemptIdLen(attempt.attemptId)
    + (match attempt.state case Exposed => 20 case ProvenNoAdmission => 32 case Observed => 21)
  }

  function LedgerEntries(attempts: seq<EffectAttempt>): (n: nat)
  {
    if attempts == [] then 0
    else LedgerEntries(attempts[..|attempts| - 1]) + LedgerEntryLen(attempts[|attempts| - 1])
  }

  function LedgerLen(attempts: seq<EffectAttempt>): (n: nat)
  {
    if attempts == [] then 0 else 14 + (|attempts| - 1) + LedgerEntries(attempts)
  }

  function FailureLen(failure: Option<ActivityFailure>): (n: nat)
  {
    match failure
    case None => 0
    case Some(Application(payload)) => 11 + 34 + Base64Len(|payload|)
    case Some(TimedOut) => 11 + 20
    case Some(ActionDeadlineExceeded) => 11 + 35
  }

  function StateLen(state: ActivityState): (n: nat)
  {
    match state
    case Scheduled => 22
    case DispatchExposed(id) => 43 + AttemptIdLen(id)
    case Completed(result) => 34 + Base64Len(|result|)
  }

  function RecordLen(record: ActivityRecord): (n: nat)
  {
    41 + Width(record.sequence) + SpecLen(record.spec) + AttemptLen(record.attempt)
    + CommandLen(record.prepared) + ClassLen(record.completionClass) + LedgerLen(record.attempts)
    + FailureLen(record.failure) + StateLen(record.state)
  }

  function RecordsLen(activities: seq<ActivityRecord>): (n: nat)
  {
    if activities == [] then 0
    else RecordsLen(activities[..|activities| - 1]) + RecordLen(Last(activities))
  }

  function OutcomeLen(outcome: TerminalOutcome): (n: nat)
  {
    (if outcome.Succeeded? then 35 else 32) + Base64Len(|outcome.payload|)
  }

  function MetadataLen(metadata: Option<CompletionMetadata>): (n: nat)
  {
    match metadata
    case None => 0
    case Some(m) => 23 + 83 + Width(m.completed) + Width(m.external) + Width(m.passive)
  }

  function StateJsonLen(state: CheckpointState): (n: nat)
  {
    match state
    case Active(activities) =>
      38 + (if activities == [] then 0 else |activities| - 1) + RecordsLen(activities)
    case Terminal(outcome, count, metadata) =>
      63 + OutcomeLen(outcome) + Width(count) + MetadataLen(metadata)
  }

  function ContractLen(contract: ExecutionContract): (n: nat)
  {
    50 + 67 + Array16Len(contract.spec.executionId) + Base64Len(|contract.spec.workflowInput|)
    + Width(contract.spec.maxTerminalPayload) + Width(contract.admittedActive)
    + (if contract.admittedTerminal.Some? then 50 + Width(contract.admittedTerminal.value) else 0)
  }

  function PayloadLen(payload: CheckpointPayload): (n: nat)
  {
    23 + ContractLen(payload.execution) + StateJsonLen(payload.state)
  }

  /** The envelope around `inner` payload bytes, or overflow when a `usize` cannot hold it. */
  function EnvelopeLen(version: u32, inner: nat): (r: Result<nat, CheckpointError>)
  {
    if 32 + Width(version) + Base64Len(inner) > U64_MAX then Err(EncodedLengthOverflow)
    else Ok(32 + Width(version) + Base64Len(inner))
  }

  /** The persisted size grows with the payload. */
  lemma EnvelopeMonotone(version: u32, a: nat, b: nat)
    requires a <= b && EnvelopeLen(version, b).Ok?
    ensures EnvelopeLen(version, a).Ok? && EnvelopeLen(version, a).value <= EnvelopeLen(version, b).value
  {
    Base64Monotone(a, b);
  }

  /** Only the final record's own text changes when it is replaced. */
  lemma ReplaceLastLen(activities: seq<ActivityRecord>, record: ActivityRecord)
    requires activities != []
    ensures RecordsLen(ReplaceLast(activities, record)) + RecordLen(Last(activities))
         == RecordsLen(activities) + RecordLen(record)
  {
  }
}
