/** Deterministic replay of `kuberic-dex/src/replay.rs` over the context of `kuberic-dex/src/workflow.rs`. */
module Replay {
  import opened Base
  import opened Identity
  import opened Effects
  import opened Records
  import opened Checkpoint

  /** A durable call: an ordinary activity, or a strict effect with its command bound. */
  datatype Call =
    | ActivityCall(spec: ActivitySpec, completionClass: Option<CompletionClass>)
    | EffectCall(spec: ActivitySpec, maxCommandBytes: u64, class_: CompletionClass)

  datatype WorkflowStep = Request(call: Call) | Done(outcome: TerminalOutcome) | Stall

  /** A deterministic workflow: its next step as a function of its input and the results so far. */
  type Workflow = (Bytes, seq<ActivityResult>) -> WorkflowStep

  type ActivityResolver = (ActivitySpec, Option<ActivitySpec>) -> Result<ActivitySpec, PreparedActivityError>

  type EffectResolver =
    (ExecutionId, ActivitySpec, u64, CompletionClass, Option<PreparedCommand>) -> Result<PreparedCommand, PreparedActivityError>

  /** The preparation bridges of one replay; strict effects need an explicit one. */
  datatype Resolver = Resolver(activity: ActivityResolver, effect: Option<EffectResolver>)

  function IdentityActivity(logical: ActivitySpec, recorded: Option<ActivitySpec>): (r: Result<ActivitySpec, PreparedActivityError>)
  {
    Ok(logical)
  }

  const IdentityResolver := Resolver(IdentityActivity, None)

  datatype Nondeterminism =
    | ActivityMismatch(sequence: nat)
    | PreparedCommandMismatch(sequence: nat)
    | CompletionClassMismatch(sequence: nat)
    | UnusedHistory(consumed: nat, remaining: nat)
    | UnsupportedSuspension

  datatype Decision =
    | Schedule(record: ActivityRecord)
    | ExistingPending(logicalId: LogicalActivityId, state: ActivityState)
    | Mismatch(reason: Nondeterminism)
    | Refused(error: PreparedActivityError)

  datatype Poll = Ready(result: ActivityResult) | Suspend(decision: Decision)

  /** How a matched record answers the poll. */
  function Answer(record: ActivityRecord, logicalId: LogicalActivityId): (p: Poll)
  {
    if record.state.Completed? then Ready(ResultOf(record)) else Suspend(ExistingPending(logicalId, record.state))
  }

  function PollActivity(executionId: ExecutionId, history: seq<ActivityRecord>, resolver: ActivityResolver, cursor: nat,
                        spec: ActivitySpec, completionClass: Option<CompletionClass>): (p: Poll)
    requires cursor <= |history|
    ensures p.Ready? ==> cursor < |history| && history[cursor].state.Completed? && p.result == ResultOf(history[cursor])
  {
    var recorded := if cursor < |history| then Some(history[cursor].spec) else None;
    var prepared := resolver(spec, recorded);
    if prepared.Err? then Suspend(Refused(prepared.error))
    else if cursor == |history| then Suspend(Schedule(NewRecord(cursor, prepared.value, completionClass)))
    else
      var record := history[cursor];
      if record.spec != prepared.value then Suspend(Mismatch(ActivityMismatch(cursor)))
      else if record.completionClass != completionClass then Suspend(Mismatch(CompletionClassMismatch(cursor)))
      else Answer(record, LogicalActivityId(executionId, cursor, prepared.value))
  }

  function PollEffect(executionId: ExecutionId, history: seq<ActivityRecord>, resolver: Option<EffectResolver>, cursor: nat,
                      spec: ActivitySpec, maxCommandBytes: u64, class_: CompletionClass): (p: Poll)
    requires cursor <= |history|
    ensures p.Ready? ==> cursor < |history| && history[cursor].state.Completed? && p.result == ResultOf(history[cursor])
  {
    if cursor < |history| && history[cursor].spec != spec then Suspend(Mismatch(ActivityMismatch(cursor)))
    else if resolver.None? then Suspend(Refused(Validation))
    else
      var recorded := if cursor < |history| then history[cursor].prepared else None;
      var prepared := resolver.value(executionId, spec, maxCommandBytes, class_, recorded);
      if prepared.Err? then Suspend(Refused(prepared.error))
      else if prepared.value.maxBytes != maxCommandBytes then Suspend(Refused(CommandBoundMismatch))
      else if |prepared.value.bytes| > maxCommandBytes then Suspend(Refused(PreparedCommandTooLarge))
      else if cursor == |history| then Suspend(Schedule(NewEffect(cursor, spec, prepared.value, class_)))
      else
        var record := history[cursor];
        if record.prepared != Some(prepared.value) then Suspend(Mismatch(PreparedCommandMismatch(cursor)))
        else if record.completionClass != Some(class_) then Suspend(Mismatch(CompletionClassMismatch(cursor)))
        else Answer(record, LogicalActivityId(executionId, cursor, spec))
  }

  function PollCall(executionId: ExecutionId, history: seq<ActivityRecord>, resolver: Resolver, cursor: nat, call: Call): (p: Poll)
    requires cursor <= |history|
    ensures p.Ready? ==> cursor < |history| && history[cursor].state.Completed? && p.result == ResultOf(history[cursor])
  {
    match call
    case ActivityCall(spec, class_) => PollActivity(executionId, history, resolver.activity, cursor, spec, class_)
    case EffectCall(spec, bound, class_) => PollEffect(executionId, history, resolver.effect, cursor, spec, bound, class_)
  }

  /** What one poll of the workflow future leaves in the context. */
  datatype ReplayEnd =
    | Decided(decision: Decision)
    | Returned(outcome: TerminalOutcome, cursor: nat)
    | Suspended

  function ReplayFrom(workflow: Workflow, input: Bytes, executionId: ExecutionId, history: seq<ActivityRecord>,
                      resolver: Resolver, results: seq<ActivityResult>): (e: ReplayEnd)
    requires |results| <= |history|
    ensures e.Returned? ==> e.cursor <= |history|
    decreases |history| - |results|
  {
    match workflow(input, results)
    case Stall => Suspended
    case Done(outcome) => Returned(outcome, |results|)
    case Request(call) =>
      match PollCall(executionId, history, resolver, |results|, call)
      case Suspend(decision) => Decided(decision)
      case Ready(result) => ReplayFrom(workflow, input, executionId, history, resolver, results + [result])
  }

  /** The cursor loop driven by one poll of the workflow. */
  method RunReplay(workflow: Workflow, input: Bytes, executionId: ExecutionId, history: seq<ActivityRecord>,
                   resolver: Resolver) returns (e: ReplayEnd)
    ensures e == ReplayFrom(workflow, input, executionId, history, resolver, [])
  {
    var results: seq<ActivityResult> := [];
    while true
      invariant |results| <= |history|
      invariant ReplayFrom(workflow, input, executionId, history, resolver, [])
             == ReplayFrom(workflow, input, executionId, history, resolver, results)
      decreases |history| - |results|
    {
      match workflow(input, results) {
        case Stall => return Suspended;
        case Done(outcome) => return Returned(outcome, |results|);
        case Request(call) =>
          match PollCall(executionId, history, resolver, |results|, call) {
            case Suspend(decision) => return Decided(decision);
            case Ready(result) => results := results + [result];
          }
      }
    }
  }

  datatype Evaluation =
    | EvaluatedScheduled(record: ActivityRecord, payload: CheckpointPayload)
    | EvaluatedPending(activity: LogicalActivityId, state: ActivityState)
    | EvaluatedComplete(outcome: TerminalOutcome, count: u64, payload: CheckpointPayload)
    | EvaluatedTerminal(outcome: TerminalOutcome, count: u64)
    | EvaluatedNondeterminism(reason: Nondeterminism)
    | EvaluatedRejected(error: CheckpointError)
    | EvaluatedPreparation(refusal: PreparedActivityError)
    | EvaluatedStalled

  /** The checkpoint of an execution nothing has been stored for. */
  function Initial(execution: ExecutionSpec, limits: CheckpointLimits): (p: CheckpointPayload)
  {
    CheckpointPayload(ExecutionContract(execution, limits.maxActive, Some(limits.maxTerminal)), Active([]))
  }

  /** The validated payload replay starts from. */
  function Start(execution: ExecutionSpec, checkpoint: Option<Envelope>, limits: CheckpointLimits): (r: Result<CheckpointPayload, CheckpointError>)
    ensures r.Ok? && checkpoint.Some? ==> checkpoint.value == Encode(r.value)
    ensures r.Ok? && checkpoint.None? ==> r.value == Initial(execution, limits)
    ensures r.Ok? ==> r.value.execution.spec == execution && InternalError(r.value, limits).None?
  {
    hide InternalError;
    match checkpoint
    case Some(envelope) => DecodeAndValidate(envelope, execution, limits)
    case None =>
      var invalid := PayloadError(Initial(execution, limits), execution, limits);
      if invalid.Some? then Err(invalid.value) else Ok(Initial(execution, limits))
  }

  function Push(payload: CheckpointPayload, record: ActivityRecord): (p: CheckpointPayload)
    requires payload.state.Active?
  {
    payload.(state := Active(payload.state.activities + [record]))
  }

  /** The evaluation of an active validated payload. */
  function EvaluateActive(workflow: Workflow, execution: ExecutionSpec, payload: CheckpointPayload, limits: CheckpointLimits,
                          resolver: Resolver): (e: Evaluation)
    requires payload.state.Active?
  {
    var history := payload.state.activities;
    match ReplayFrom(workflow, execution.workflowInput, execution.executionId, history, resolver, [])
    case Decided(Schedule(record)) =>
      var encoded := EncodeWithLimits(Push(payload, record), limits);
      if encoded.Err? then EvaluatedRejected(encoded.error) else EvaluatedScheduled(record, Push(payload, record))
    case Decided(ExistingPending(id, state)) => EvaluatedPending(id, state)
    case Decided(Mismatch(reason)) => EvaluatedNondeterminism(reason)
    case Decided(Refused(error)) => EvaluatedPreparation(error)
    case Suspended => EvaluatedStalled
    case Returned(outcome, cursor) =>
      if cursor != |history| then EvaluatedNondeterminism(UnusedHistory(cursor, |history| - cursor))
      else if cursor > U64_MAX then EvaluatedRejected(HistoryTooLong)
      else
        var encoded := EncodeWithLimits(payload, limits);
        if encoded.Err? then EvaluatedRejected(encoded.error) else EvaluatedComplete(outcome, cursor, payload)
  }

  function Evaluate(workflow: Workflow, execution: ExecutionSpec, checkpoint: Option<Envelope>, limits: CheckpointLimits,
                    resolver: Resolver): (e: Evaluation)
  {
    var start := Start(execution, checkpoint, limits);
    if start.Err? then EvaluatedRejected(start.error)
    else
      match start.value.state
      case Terminal(outcome, count, _) => EvaluatedTerminal(outcome, count)
      case Active(_) => EvaluateActive(workflow, execution, start.value, limits, resolver)
  }
}
