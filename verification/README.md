# Kuberic in Dafny

Kuberic keeps a replicated, stateful service running on Kubernetes. This project models the two protocols it rests on
and proves what they promise.

**The durable-execution kernel (`kuberic-dex`).** A workflow is a deterministic function of its input and of the results
it has been given so far. A host loads the checkpoint of one execution, replays the workflow against the recorded
history, and writes at most one new checkpoint with a compare-and-swap. It hands out a permit to dispatch an activity
only when the store has accepted the checkpoint that exposes it. Several hosts may share the store, any of them may crash
at any point, and a compare-and-swap may be accepted, refused, or left unknown whether or not it was applied.

The model computes every host operation exactly (`Host.Compute`). Each proposed write is shown to be a path of small
moves: append a record, advance the pending final record, compact. Runs (`Runs.System`) interleave calls, deliveries,
losses, crashes and restarts at will. The theorems about runs follow from one fact, that the accepted writes form one
trace. Mutable objects of the source are classes: the in-memory store, the durable host and the activity runner, and each
of their calls is tied to the run model (`HostProcess.PerformIsRun`).

**The reconfiguration evaluator (`kuberic-controller`).** A pure function turns the persisted status and the observed
evidence into one plan. Run over and over, it carries out genesis, failover, replacement and planned switchover with
joint configurations, epochs and quorums. The model keeps its branches and their order, with arbitrary replica reports as
evidence. `Protocol` says, without any evidence, how one persisted status may follow another and what a status may grant.
`Lawful` shows that every plan on every snapshot obeys it. `ControlRuns` then lets any number of reconciliations act from
persisted statuses that may be stale, each effect carried out separately, late or never.

| modules | subject |
|---|---|
| Base, Identity, Effects, Records, EncodedSize, Checkpoint, Capacity, Shortfalls | records, ledgers, checkpoints, their validation and exact encoded sizes |
| Replay, Store, Host | replay, compare-and-swap store, host operations |
| Steps, Derivation, ObservationSteps, StrictEffects | host writes as paths of moves |
| Traces, Exposures, Determinism, Fusion | properties of traces and of single operations |
| Runs, RunTheorems, RunPermits, AttemptIds, Backoff | properties of whole runs |
| HostProcess, Runner, Progress, Rejections, BoundedCompletion, Delivery | the mutable host and runner, bounded completion, delivery of results |
| ExternalId, CanonicalJson | activity identity text, canonical JSON |
| ControlTypes, Election, Evidence | controller data, quorums and candidate selection |
| SwitchoverPlan, SwitchoverExecution, FailoverPlan, ReplacementPlan, BootstrapPlan, Evaluator | the evaluator |
| Protocol, Lawful, ControlRuns, SwitchoverTheorems, FailoverTheorems, ServiceTheorems, Admissions, Scenarios | the protocol, its refinement, and properties of controller decisions and runs |

`dafny verify dfyconfig.toml` checks the whole project.

## Where an easy claim is not what the code does

- Decoding applies the active size limit to terminal checkpoints too, so the encode/decode round trip holds exactly for
  payloads within that limit (`Checkpoint.EncodedDecodes`). `Shortfalls.AnswerUnreadable` is an execution whose stored
  answer can no longer be read.
- The retry shift drops high bits silently. `Identity.RetryIsExact` gives the exact condition and
  `Identity.RetryDropsHighBits` a case that fails it.
- A strict effect's result is reserved before its attempt is pushed on the ledger, and a failure's wrapper is not reserved.
  `Capacity.StrictResultFits` and `Capacity.FailureFits` give the exact conditions, `Shortfalls.StrictResultRefused` and
  `Shortfalls.FailureRefused` reserved activities that fail them.
- The failover's read-quorum test runs before the failed primary is dropped from the election, so the test alone does not
  make the election cover every write quorum. `FailoverPlan.ElectionCoversIff` gives the exact condition,
  `FailoverPlan.FailedPrimaryCostsCoverage` a failing family, and `Scenarios.ElectionMissesFailedPrimary` with
  `Scenarios.GrantBelowFailedPrimary` a snapshot on which writes are granted below the failed primary.
- Failover and replacement allocate configuration numbers with an unchecked addition. A wrapped number leaves a status that
  fails validation, from which nothing more is granted (`ControlRuns.WedgedHalts`), so election safety needs no bound.
  `Scenarios.FailoverWedges` is the decision that leads there.
- Two activity identities that differ only in retry options or input bound render alike (`ExternalId.OptionsNotRendered`).

## Model

| member | source | states |
|---|---|---|
| `Base.WidthIsRenderedLength` | kuberic-dex/src/checkpoint.rs:99-109 | the width used in every size is the length of the decimal rendering |
| `Identity.RetryIsExact` | kuberic-dex/src/identity.rs:328-340 | the retry time is the observed time plus initial backoff doubled per attempt if and only if an attempt is left, the product fits a signed 64-bit integer and so does the sum |
| `Identity.RetryDropsHighBits` | kuberic-dex/src/identity.rs:328-340 | the shift drops high bits: doubling a backoff of two to the 63 schedules an immediate retry |
| `Effects.CountsPartition` | kuberic-dex/src/effect.rs:30-79 | external and passive counts of any class list add up to its length |
| `Effects.FromClasses` | kuberic-dex/src/effect.rs:51-79 | the counting loop gives the summary of the classes, or the error of the first overflow |
| `Effects.ValidateEffectAttempts` | kuberic-dex/src/effect.rs:125-143 | a ledger is accepted if and only if it has at most one attempt, or two distinct ones of which the first is proven not admitted |
| `Checkpoint.ValidateActiveHistory` | kuberic-dex/src/checkpoint.rs:985-1075 | the validation loop returns the first error of the history |
| `Checkpoint.HistoryAcceptedIff` | kuberic-dex/src/checkpoint.rs:985-1107 | validation accepts exactly the histories with contiguous sequences, a completed prefix, at most one pending final record and consistent ledgers |
| `Checkpoint.EncodedDecodes` | kuberic-dex/src/checkpoint.rs:80-169 | an encodable payload decodes back to itself if and only if it also fits the active limit; for active payloads always |
| `Checkpoint.IntoTerminal` | kuberic-dex/src/checkpoint.rs:322-355 | compaction keeps the contract, carries exactly the outcome and count, summarises the classes exactly when all records have one, and at the history's own count succeeds if and only if the outcome is within its bound |
| `Capacity.MetadataDominated` | kuberic-dex/src/checkpoint.rs:386-444 | the widest completion summary whose parts add up is among the projected ones |
| `Capacity.TerminalFormsDominate` | kuberic-dex/src/checkpoint.rs:386-444 | the projected terminal length bounds the encoding of every terminal checkpoint with an outcome within the bound and any counts that add up |
| `Capacity.AdmittedTerminalizes` | kuberic-dex/src/checkpoint.rs:322-507 | an admitted active checkpoint can always be compacted within its limits, with any outcome within the bound, and its counts are those of the history |
| `Capacity.ReservationLen` | kuberic-dex/src/checkpoint.rs:448-482 | the reservation is the envelope around the record with an empty result plus the base64 length of the bound |
| `Capacity.EncodesIffFits` | kuberic-dex/src/checkpoint.rs:80-169 | a valid active payload is encodable if and only if its text fits the active limit |
| `Capacity.ReservedResultFits` | kuberic-dex/src/checkpoint.rs:448-482 | a reserved ordinary activity can complete with every result within its declared bound |
| `Capacity.LedgerGrowthExact` | kuberic-dex/src/checkpoint.rs:741-751 | the exact number of characters one pushed attempt adds to the ledger |
| `Capacity.StrictObservation` | kuberic-dex/src/checkpoint.rs:741-796 | exposing and observing a scheduled strict effect succeeds and leaves a valid completed record |
| `Capacity.StrictResultFits` | kuberic-dex/src/checkpoint.rs:741-796 | a strict effect is reserved before its attempt is pushed: every result within its bound fits if and only if the reserved text grown by the ledger entry does |
| `Capacity.FailureFits` | kuberic-dex/src/host.rs:944-1017 | a failure of any kind fits if and only if the reserved text does with the failure's wrapper and payload in place of the bound |
| `Capacity.ApplicationFailuresFit` | kuberic-dex/src/host.rs:944-1017 | all application failures within the bound fit if and only if there is room for the unreserved 45-character wrapper |
| `Shortfalls.AnswerUnreadable` | kuberic-dex/src/checkpoint.rs:111-129 | an execution whose host stores its terminal answer under the terminal limit and from then on rejects it under the active limit |
| `Shortfalls.StrictResultRefused` | kuberic-dex/src/checkpoint.rs:741-796 | the host answers a capacity rejection to the result, at the declared bound, of a strict effect that was reserved, encoded and exposed |
| `Shortfalls.FailureRefused` | kuberic-dex/src/host.rs:944-1017 | the host answers a capacity rejection to the application failure, at the declared bound, of an ordinary activity that was reserved, stored and exposed |
| `Replay.RunReplay` | kuberic-dex/src/replay.rs:117-281 | the cursor loop over recorded results is the recursive replay |
| `Replay.PollCall` | kuberic-dex/src/workflow.rs:547-730 | a call is answered only from a completed record at the cursor, with that record's result |
| `Replay.Start` | kuberic-dex/src/replay.rs:117-166 | replay starts from the decoded checkpoint of this execution, or a fresh admitted one, and it is internally valid |
| `Steps.ReplayMeaning` | kuberic-dex/src/replay.rs:167-281 | scheduling means all history was consumed and the workflow asks for exactly that record; returning means the workflow is done on the recorded results; pending names the first open record |
| `Derivation.EvaluateMeaning` | kuberic-dex/src/replay.rs:117-281 | every evaluation outcome is tied to the loaded checkpoint and the workflow's own answer |
| `Determinism.ReplayAgrees` | kuberic-dex/src/replay.rs:167-281 | replay of a history the workflow produced never mismatches and never leaves records unused |
| `Store.CasMeaning` | kuberic-dex/src/in_memory.rs:93-145 | acceptance replaced exactly the expected revision with a token never used before; conflict and error change nothing; other executions are untouched |
| `Store.InMemoryCheckpointStore.constructor` | kuberic-dex/src/in_memory.rs:38-42 | an empty store with no armed fault |
| `Store.InMemoryCheckpointStore.FailCompareAndSwapAfter` | kuberic-dex/src/in_memory.rs:44-61 | arms one compare-and-swap fault after a number of matching calls |
| `Store.InMemoryCheckpointStore.FailNextLoad` | kuberic-dex/src/in_memory.rs:63-68 | arms one load error |
| `Store.InMemoryCheckpointStore.Load` | kuberic-dex/src/in_memory.rs:82-91 | a load returns the stored checkpoint or the armed error once |
| `Store.InMemoryCheckpointStore.CompareAndSwap` | kuberic-dex/src/in_memory.rs:93-145 | result and new state of one compare-and-swap under every fault mode |
| `Derivation.TurnDerives` | kuberic-dex/src/host.rs:337-493 | whatever a turn writes is a path of valid moves from what it loaded, and it completes no record |
| `Derivation.TurnAndExposeDerives` | kuberic-dex/src/host.rs:562-764 | the same for the fused schedule-and-expose turn |
| `Derivation.ExposureDerives` | kuberic-dex/src/host.rs:1389-1424 | an exposure write exposes the pending final record under a new attempt, after its result was reserved |
| `Derivation.CompletionDerives` | kuberic-dex/src/host.rs:1475-1514 | a completion write compacts an all-completed history with the workflow's own outcome |
| `ObservationSteps.ObserveDerives` | kuberic-dex/src/host.rs:767-853 | an observation write is one valid move that accepts exactly the delivered result |
| `ObservationSteps.FailureDerives` | kuberic-dex/src/host.rs:944-1017 | a failure write is one valid move that accepts exactly that failure |
| `ObservationSteps.RetryDerives` | kuberic-dex/src/host.rs:860-940 | a retry write is one valid move that accepts no result |
| `ObservationSteps.WaitDerives` | kuberic-dex/src/host.rs:1020-1083 | a deferral write is one valid move that accepts no result |
| `ObservationSteps.EffectDerives` | kuberic-dex/src/host.rs:1109-1205 | a strict observation write is one valid move that accepts nothing when it reopens the effect and otherwise exactly the failure or result the observation carries |
| `ObservationSteps.ObserveAndTurnDerives` | kuberic-dex/src/host.rs:1230-1367 | the fused observation write is a path of valid moves that accepts exactly the delivered result |
| `ObservationSteps.ComputeDerives` | kuberic-dex/src/host.rs:337-1367 | every write any host operation can propose is a path of valid moves from the checkpoint it loaded, and accepts exactly the results its arguments deliver |
| `StrictEffects.LedgerRefuses` | kuberic-dex/src/checkpoint.rs:1077-1107 | an exposed strict effect cannot be stored in another state while its ledger says exposed |
| `StrictEffects.StrictRefusesObservation` | kuberic-dex/src/host.rs:767-853 | an ordinary observation of an exposed strict effect is refused by ledger validation |
| `StrictEffects.StrictRefusesFailure` | kuberic-dex/src/host.rs:944-1017 | so is a failure observation |
| `StrictEffects.StrictRefusesWait` | kuberic-dex/src/host.rs:1020-1083 | so is a deferral |
| `StrictEffects.StrictRefusesRetry` | kuberic-dex/src/host.rs:860-940 | so is a retry, or it is refused for the attempt limit |
| `StrictEffects.StrictRefusesFusedObservation` | kuberic-dex/src/host.rs:1230-1367 | so is the fused observation |
| `StrictEffects.QuarantineNeverReopens` | kuberic-dex/src/host.rs:1109-1205 | a quarantine resolution only ever completes the effect |
| `StrictEffects.RedeliveryIff` | kuberic-dex/src/host.rs:1109-1205 | with redelivery allowed the effect is reopened if and only if its only attempt is proven not admitted |
| `StrictEffects.OversizedRefused` | kuberic-dex/src/host.rs:767-1205 | a result or failure beyond the declared bound is answered with that bound and proposes nothing, for every kind of observation |
| `Traces.PathKeeps` | kuberic-dex/src/host.rs:1542-1548 | along any path completed records never change and no record is dropped or changes identity |
| `Traces.AcceptedResults` | kuberic-dex/src/checkpoint.rs:322-355 | completed records hold exactly the accepted results, and a terminal outcome is the workflow's answer to them |
| `Traces.TerminalMeaning` | kuberic-dex/src/host.rs:1475-1514 | a terminal outcome and count equal one straight run of the workflow on the accepted results |
| `Exposures.ExposureConservation` | kuberic-dex/src/checkpoint.rs:702-751 | exposures equal ordinal plus waits, less one while scheduled; for strict effects they are the ledger |
| `Exposures.StrictRedelivery` | kuberic-dex/src/checkpoint.rs:741-796 | two exposures of a strict effect carry one command and distinct attempts, a proven non-admission of the first lies between, and there is no third |
| `Exposures.ReservedWhileExposed` | kuberic-dex/src/host.rs:1389-1424 | the declared result stays reserved while an ordinary activity is exposed |
| `Runs.NoLostUpdate` | kuberic-dex/src/in_memory.rs:93-145 | tokens never repeat, so a proposal can replace only the very checkpoint it was computed from |
| `Runs.NextKeeps` | kuberic-dex/src/host.rs:337-1454 | every call, delivery, loss, crash and restart keeps the run invariant |
| `Runs.LogIsTrace` | kuberic-dex/src/host.rs:337-1454 | the accepted writes of a run form one trace from a fresh checkpoint to the stored one |
| `RunTheorems.StoredValid` | kuberic-dex/src/checkpoint.rs:985-1075 | in every run every stored checkpoint is a well-formed history of the same execution, and a terminal one is the last |
| `RunTheorems.PredecessorActive` | kuberic-dex/src/host.rs:1426-1514 | in every run each accepted write is a path of moves from the active checkpoint before it, so terminal is absorbing |
| `RunTheorems.HistoryEvolves` | kuberic-dex/src/host.rs:1542-1548 | in every run completed records are frozen from one accepted write to any later one |
| `RunTheorems.MeaningPreserved` | kuberic-dex/src/host.rs:1475-1514 | in every run, whatever crashed, conflicted or stayed unknown, the stored terminal outcome equals one straight run on the results the accepted operations delivered, in order |
| `RunTheorems.ActiveResults` | kuberic-dex/src/host.rs:767-853 | in every run the completed records of the stored checkpoint hold exactly the results the accepted operations delivered |
| `RunTheorems.NeverNondeterministic` | kuberic-dex/src/replay.rs:167-281 | in every run no operation reports nondeterminism, except that the workflow stalls on the very history it replayed |
| `RunPermits.PermitSafety` | kuberic-dex/src/host.rs:1389-1454 | every permit names the activity, attempt, ordinal and command that end an accepted checkpoint, no two permits share an accepted write, and between any two permits of one sequence an accepted write took the record out of the exposed state |
| `RunPermits.StrictEffectSafety` | kuberic-dex/src/host.rs:1109-1205 | in every run a prepared effect is exposed at most twice, with one command and distinct attempts, and between lies an accepted redelivering observation that proved the first attempt not admitted |
| `RunPermits.ExposuresConserved` | kuberic-dex/src/host.rs:860-1083 | in every run accepted exposures of an ordinary activity equal ordinal plus waits, less one while scheduled, and never exceed maximum attempts plus waits |
| `RunPermits.LedgerIsExposures` | kuberic-dex/src/checkpoint.rs:741-751 | in every run the accepted exposures of a strict effect are exactly its ledger, at most two |
| `RunPermits.ReservationHonoured` | kuberic-dex/src/host.rs:767-853 | in every run, while an ordinary activity is exposed, a host that can read the checkpoint is never refused any result within the declared bound |
| `AttemptIds.ComputeCounts` | kuberic-dex/src/host.rs:1516-1523 | no operation lowers the attempt counter, and an exposure uses up exactly the number its permit carries |
| `AttemptIds.AttemptsNeverReused` | kuberic-dex/src/host.rs:1516-1523 | in every run whose host epochs are unique no attempt identity is accepted for two exposures |
| `Fusion.FusedScheduleExposure` | kuberic-dex/src/host.rs:562-764 | where a turn would schedule, the fused turn computes exactly what two turns compute: same checkpoint, permit or rejection |
| `Fusion.FusedTurn` | kuberic-dex/src/host.rs:562-764 | in every other case the fused turn is one turn |
| `Fusion.FusedObservation` | kuberic-dex/src/host.rs:1230-1367 | the fused observation computes exactly what observe followed by turn-and-expose computes |
| `Fusion.FusedObservationRefused` | kuberic-dex/src/host.rs:1230-1367 | where the observation alone is refused the fused form is refused alike |
| `HostProcess.DurableHost.constructor` | kuberic-dex/src/host.rs:318-325 | a host starts with attempt counter one over the given store |
| `HostProcess.DurableHost.Commit` | kuberic-dex/src/host.rs:1426-1514 | one compare-and-swap at most, and the outcome its answer justifies |
| `HostProcess.DurableHost.TurnOnce` | kuberic-dex/src/host.rs:337-493 | `turn` on the mutable host and store is load, compute, compare-and-swap: new store, counter and outcome |
| `HostProcess.DurableHost.TurnAndExposeResolved` | kuberic-dex/src/host.rs:562-764 | `turn_and_expose_resolved` on the mutable host and store is load, compute, compare-and-swap: new store, counter and outcome |
| `HostProcess.DurableHost.ObserveResult` | kuberic-dex/src/host.rs:767-853 | `observe` on the mutable host and store is load, compute, compare-and-swap: new store, counter and outcome |
| `HostProcess.DurableHost.ScheduleRetryAt` | kuberic-dex/src/host.rs:860-940 | `schedule_retry` on the mutable host and store is load, compute, compare-and-swap: new store, counter and outcome |
| `HostProcess.DurableHost.ObserveFailed` | kuberic-dex/src/host.rs:944-1017 | `observe_failure` on the mutable host and store is load, compute, compare-and-swap: new store, counter and outcome |
| `HostProcess.DurableHost.DeferWaitUntil` | kuberic-dex/src/host.rs:1020-1083 | `defer_wait` on the mutable host and store is load, compute, compare-and-swap: new store, counter and outcome |
| `HostProcess.DurableHost.ObserveEffectWithRedelivery` | kuberic-dex/src/host.rs:1109-1205 | `observe_effect_with_redelivery` on the mutable host and store is load, compute, compare-and-swap: new store, counter and outcome |
| `HostProcess.DurableHost.ObserveAndTurnWith` | kuberic-dex/src/host.rs:1230-1367 | `observe_and_turn_with` on the mutable host and store is load, compute, compare-and-swap: new store, counter and outcome |
| `HostProcess.PerformIsRun` | kuberic-dex/src/host.rs:337-1454 | one call of the host object under any store fault is a call and a delivery of a run, with the same permits |
| `HostProcess.ComputeNeverPermits` | kuberic-dex/src/host.rs:1426-1454 | a permit is only ever the answer to an accepted compare-and-swap |
| `HostProcess.PanicsOnlyWhenExhausted` | kuberic-dex/src/host.rs:1516-1523 | the host's internal expectations always hold: it panics only on an exhausted attempt counter |
| `Runner.InvokeMeaning` | kuberic-dex/src/registry.rs:248-321 | the classification of an invocation, exactly: elapsed deadline, missing timeout runtime, success, codec error, retry, wait, timeout of the deadline or of the attempt, and failure, each if and only if |
| `Runner.ActivityRunner.Step` | kuberic-dex/src/registry.rs:809-918 | one `run_once`: its host calls in order, the new store, counter and outcome |
| `Runner.ActivityRunner.Lost` | kuberic-dex/src/registry.rs:819-846 | recovery of a result lost after exposure: a retry, or a failure once attempts are used up |
| `Runner.ActivityRunner.Run` | kuberic-dex/src/registry.rs:848-918 | dispatch of a permit and the observation of its classified result |
| `Progress.PathDecreases` | kuberic-dex/src/host.rs:860-1083 | every productive move lowers the measure of records left, attempts left and exposure |
| `Progress.ProposalProgress` | kuberic-dex/src/registry.rs:809-918 | an accepted write of a runner operation lowers the measure or ends the execution |
| `Rejections.TurnRejects` | kuberic-dex/src/host.rs:562-764 | with a workflow that keeps its declared bounds, a fused turn on a checkpoint written under the same limits is rejected only for the record limit or encoded capacity |
| `Rejections.RetryRejects` | kuberic-dex/src/host.rs:860-940 | a retry of an exposed ordinary activity is rejected only for its attempts or encoded capacity |
| `Rejections.FailureRejects` | kuberic-dex/src/host.rs:944-1017 | a failure within the bound of an exposed ordinary activity is rejected only for encoded capacity |
| `Rejections.CompletionAccepted` | kuberic-dex/src/host.rs:1475-1514 | completing with an outcome within the declared bound is never rejected |
| `BoundedCompletion.StepMoves` | kuberic-dex/src/registry.rs:809-918 | one runner step on a fault-free store lowers the measure, or reports the terminal state, a record or capacity rejection (or one that a workflow breaking its own declared bounds brings on itself), the stall of the history it replayed, a gate, a strict effect or a result bound below 27 bytes |
| `BoundedCompletion.RunnerCompletes` | kuberic-dex/src/registry.rs:809-918 | repeated runner steps reach a terminal state or a record or capacity rejection within a bound linear in the record limit, however many results are lost |
| `Backoff.ExposureRespectsGate` | kuberic-dex/src/host.rs:614-643 | a clocked exposure never precedes the retry gate of its record |
| `Backoff.RetryBetween` | kuberic-dex/src/host.rs:905-922 | between exposures of consecutive attempts lies the retry that gates the later one |
| `Backoff.BackoffSpacing` | kuberic-dex/src/registry.rs:809-918 | in every run with a clock that never goes back, every permit of attempt k+1 comes after every permit of attempt k, and no earlier than its time plus the exact exponential delay, when that fits |
| `Delivery.GatedIff` | kuberic-dex/src/host.rs:614-643 | a scheduled record is gated exactly while its retry time or its handler wait lies ahead |
| `Delivery.WakeupIsLatestGate` | kuberic-dex/src/host.rs:614-643 | the reported wakeup is the latest gate unless the action deadline cuts it short |
| `Delivery.ExposureWaitsForGates` | kuberic-dex/src/host.rs:562-764 | a clocked turn exposes a stored scheduled record only once every gate has elapsed |
| `Delivery.PermitStored` | kuberic-dex/src/host.rs:1426-1454 | on a fault-free store a permit names the exposed, decodable end of what is then stored |
| `Delivery.RunnerDelivers` | kuberic-dex/src/registry.rs:848-918 | a successful handler result within the bound is recorded by the step, for exactly the permitted attempt |
| `Delivery.RunnerRetries` | kuberic-dex/src/registry.rs:848-918 | a retryable failure with an attempt left reschedules exactly that attempt behind its backoff, or is rejected and changes nothing |
| `ExternalId.PushHex` | kuberic-dex/src/identity.rs:497-501 | appends two lower-case hex digits per byte |
| `ExternalId.ToExternalId` | kuberic-dex/src/identity.rs:451-469 | the rendered text of the six identifying members |
| `ExternalId.ParseRendered` | kuberic-dex/src/identity.rs:451-469 | a parser recovers all six members from every rendering |
| `ExternalId.RenderingUnambiguous` | kuberic-dex/src/identity.rs:451-469 | equal renderings have equal execution, sequence, name, version, input and result bound |
| `ExternalId.OptionsNotRendered` | kuberic-dex/src/identity.rs:451-469 | identities differing only in retry options or input bound render alike |
| `CanonicalJson.CanonIdempotent` | kuberic-dex/src/typed.rs:353-379 | key sorting is idempotent |
| `CanonicalJson.LookupsPreserved` | kuberic-dex/src/typed.rs:353-379 | every lookup at every depth finds the canonical form of what it found before |
| `CanonicalJson.CanonicalIff` | kuberic-dex/src/typed.rs:353-379 | two values have one canonical form if and only if they are equal up to object-key order |
| `CanonicalJson.CanonicalizeObjectKeys` | kuberic-dex/src/typed.rs:353-379 | the recursive pass computes the canonical form |
| `CanonicalJson.SortEntries` | kuberic-dex/src/typed.rs:360-372 | the entries of one object in key order |
| `ControlTypes.FixedPolicy` | kuberic-runtime/src/protocol/types.rs:372-384 | read and write quorum of a fixed policy always overlap |
| `Election.SelectFailoverCandidate` | kuberic-controller/src/evaluator.rs:4268-4299 | the scan keeps the last greatest eligible report |
| `Election.CandidateIsGreatest` | kuberic-controller/src/evaluator.rs:4268-4299 | no eligible report ranks above the candidate |
| `Election.CandidateOrderIndependent` | kuberic-controller/src/evaluator.rs:4268-4299 | the choice does not depend on report order, given one report per eligible replica |
| `Election.QuorumsMeet` | kuberic-controller/src/evaluator.rs:4196-4211 | a reporting read quorum and a write quorum share a member |
| `Election.FailoverCoverage` | kuberic-controller/src/evaluator.rs:3034-3060 | with a read quorum of eligible reports at the election epoch, the candidate has whatever a write quorum secured, judging by every report heard |
| `Election.CoverageIff` | kuberic-controller/src/evaluator.rs:4196-4299 | an election covers every write quorum if and only if it has a candidate and fewer members than a write quorum are unheard or were heard above it |
| `FailoverPlan.ElectionCoversIff` | kuberic-controller/src/evaluator.rs:2996-3060 | the election of an active failover covers every write quorum, judged by all fenced reports, if and only if it has a winner and fewer members than a write quorum are unheard or were heard above it |
| `FailoverPlan.FailedPrimaryCostsCoverage` | kuberic-controller/src/evaluator.rs:3012-3049 | the read-quorum test runs before the failed primary is dropped: met with none to spare, and with the failed primary heard above the winner, coverage is lost |
| `FailoverPlan.ElectionCoversByQuorum` | kuberic-controller/src/evaluator.rs:3034-3060 | a read quorum of eligible reports left after filtering is enough to cover |
| `Scenarios.ElectionMissesFailedPrimary` | kuberic-controller/src/evaluator.rs:3012-3060 | three replicas whose read-quorum test passes while the winner is below what the failed primary and the silent member may hold |
| `Scenarios.GrantBelowFailedPrimary` | kuberic-controller/src/evaluator.rs:3034-3200 | on that snapshot the evaluator grants writes to the winner |
| `FailoverPlan.ScanElection` | kuberic-controller/src/evaluator.rs:2961-2995 | the election scan stops at the first healthy member that has neither the joint configuration nor a pending operation |
| `SwitchoverPlan.ScanForOpenPod` | kuberic-controller/src/evaluator.rs:1463-1556 | the closing scan stops at the first Pod not proven closed |
| `SwitchoverExecution.InstallJoint` | kuberic-controller/src/evaluator.rs:2166-2209 | the pass stops at the first member not done, for want of its report or to install it; or everyone is done, the collected reports are exactly those of the jointly complete members, and it tells whether a member is already past it |
| `SwitchoverExecution.FinishCurrentOnly` | kuberic-controller/src/evaluator.rs:2223-2238 | the pass commands the first member not finished, or everyone that is not skipped is write-closed under current-only authority |
| `BootstrapPlan.InstallGenesis` | kuberic-controller/src/evaluator.rs:3441-3527 | the pass commands the first member without genesis, or every member has it |
| `Evaluator.CountAttestations` | kuberic-controller/src/evaluator.rs:969-996 | the attestation pass counts the attesting members and keeps the primary's own attestation |
| `Lawful.BeginSwitchoverLawful` | kuberic-controller/src/evaluator.rs:1259-1370 | admission freezes the request at the next epoch over the accepted topology, or changes no authority |
| `Lawful.RestoreLawful` | kuberic-controller/src/evaluator.rs:1640-1774 | restoring keeps the topology, only advances the frozen intent or drops the transition, and opens nothing |
| `Lawful.CompensateLawful` | kuberic-controller/src/evaluator.rs:1775-1882 | compensation keeps the topology, opens nothing, and reallocates only at the epoch above the requested one under the same intent |
| `Lawful.EvaluateSwitchoverLawful` | kuberic-controller/src/evaluator.rs:1884-2266 | a switchover changes authority only by acceptance, compensation or return, and grants nothing |
| `Lawful.SwitchoverUnsafeLawful` | kuberic-controller/src/evaluator.rs:1413-1577 | closing an unsafe switchover keeps the topology and the outstanding configuration and opens nothing |
| `Lawful.BeginStableFailoverLawful` | kuberic-controller/src/evaluator.rs:2344-2513 | a failover takes the epoch above the accepted one |
| `Lawful.BeginReplacementFailoverLawful` | kuberic-controller/src/evaluator.rs:2729-2922 | a failover out of a replacement takes the epoch above the outstanding one |
| `Lawful.RepairLawful` | kuberic-controller/src/evaluator.rs:3990-4115 | repair keeps the topology and the outstanding configuration and opens nothing |
| `Lawful.EvaluateFailoverLawful` | kuberic-controller/src/evaluator.rs:2924-3288 | a failover grants only to the primary of its own configuration, corrects itself only to a higher epoch and accepts only what it installed |
| `Lawful.ReplacementLawful` | kuberic-controller/src/evaluator.rs:3766-3971 | a replacement grants only to the primary of its own configuration and accepts only what it installed |
| `Lawful.ProvisioningLawful` | kuberic-controller/src/evaluator.rs:3556-3764 | provisioning opens nothing and keeps the topology; it begins only a replacement, at the epoch above the accepted one |
| `Lawful.BootstrapLawful` | kuberic-controller/src/evaluator.rs:3303-3527 | genesis grants nothing before it is accepted |
| `Lawful.NeverInitializedLawful` | kuberic-controller/src/evaluator.rs:2515-2651 | a fresh resource allocates at most genesis |
| `Lawful.ServiceLawful` | kuberic-controller/src/evaluator.rs:681-1150 | stable service grants and routes only to the accepted primary with nothing outstanding |
| `Lawful.StableLawful` | kuberic-controller/src/evaluator.rs:681-1150 | every stable plan obeys the protocol |
| `Lawful.EvaluateLawful` | kuberic-controller/src/evaluator.rs:65-360 | every plan on every snapshot, valid or not, obeys the protocol |
| `Lawful.CleanupLawful` | kuberic-controller/src/evaluator/replacement_cleanup.rs:5-158 | cleanup keeps topology and transition and opens nothing |
| `ControlRuns.RunDecided` | kuberic-controller/src/reconciler.rs:33-101 | in every run each persisted status was decided from the one before it and each effect from some persisted status |
| `ControlRuns.AuthorityMonotone` | kuberic-controller/src/evaluator.rs:681-3971 | along every run write authority moves only to higher epochs of one data-loss number, and one epoch carries one configuration |
| `ControlRuns.OpensUnderAuthority` | kuberic-controller/src/evaluator.rs:681-3971 | writes are opened only to the primary of the authority of the status the decision was made from |
| `ControlRuns.ElectionSafety` | kuberic-controller/src/evaluator.rs:65-4115 | in every run, stale snapshots included, all grants and routings under one epoch name the same replica |
| `ControlRuns.AllocationGrows` | kuberic-controller/src/evaluator.rs:2476-2484 | an allocated configuration number is above its basis if and only if the basis is below the maximum |
| `ControlRuns.WedgedHalts` | kuberic-controller/src/evaluator.rs:65-140 | a wrapped number leaves a status from which only the unchanged unsafe plan is made |
| `Scenarios.FailoverWedges` | kuberic-controller/src/evaluator.rs:2344-2513 | at the last configuration number the evaluator persists such a status |
| `Admissions.GenesisAccepts` | kuberic-controller/src/evaluator.rs:3303-3527 | genesis is accepted only when every member is installed, write-closed and empty |
| `Admissions.ReplacementBegins` | kuberic-controller/src/evaluator.rs:3556-3764 | a replacement begins only while the primary works and both ends report the copy complete, and swaps in exactly the provisioned incarnation |
| `Admissions.SwitchoverBegins` | kuberic-controller/src/evaluator.rs:1259-1370 | a switchover begins only on a new, allowed request with nothing else going on and every member attesting the accepted configuration |
| `Admissions.SwitchoverMoves` | kuberic-controller/src/evaluator.rs:1775-2060 | a handoff is frozen only as the write-closed source's own certificate for this operation; compensation begins only with the source caught up, a write quorum surviving and a read quorum write-closed |
| `FailoverTheorems.FailoverBegins` | kuberic-controller/src/evaluator.rs:2344-2922 | a failover begins only when the accepted primary's recorded failure outlasted its delay, routing is gone and a read quorum is healthy, and elects the greatest report at the next epoch |
| `Scenarios.FailoverHappens` | kuberic-controller/src/evaluator.rs:2344-2513 | with two replicas at any configuration number and the primary gone past its delay, the evaluator does freeze a failover to the survivor at the next number |
| `FailoverTheorems.FailoverRests` | kuberic-controller/src/evaluator.rs:2924-3288 | during a failover writes open only behind a fenced read quorum of both configurations with the elected primary, final installation starts only behind a deactivation quorum of both, corrections go only to the elected member, and acceptance needs a granted primary and a write quorum on the new configuration alone |
| `FailoverTheorems.ElectedMayFinish` | kuberic-controller/src/evaluator.rs:3034-3200 | the election leaves nothing to do only once the primary serves behind a deactivation quorum of both configurations |
| `ServiceTheorems.ServiceOpens` | kuberic-controller/src/evaluator.rs:969-1150 | with nothing outstanding writes are granted or routed only when the primary and a write quorum attest the accepted configuration |
| `ServiceTheorems.ReplacementAccepts` | kuberic-controller/src/evaluator.rs:3766-3971 | a replacement is accepted only when its primary is granted, a write quorum runs the new configuration alone and every reporting member finished installing it |
| `SwitchoverTheorems.ResolutionOneWay` | kuberic-controller/src/evaluator.rs:1579-1882 | along every run the request of an outstanding switchover is fixed, its handoff is frozen once set, and its resolution only rises |
| `SwitchoverTheorems.UnsafeDecision` | kuberic-controller/src/evaluator.rs:1413-1577 | from an unsafe switchover no decision opens writes or changes anything but the receipt |
| `SwitchoverTheorems.UnsafeForever` | kuberic-controller/src/evaluator.rs:91-108 | once unsafe is persisted no later status changes topology or transition |
| `SwitchoverTheorems.UnsafeNeverOpens` | kuberic-controller/src/evaluator.rs:91-108 | in every run nothing decided from an unsafe status or later grants writes or publishes routing |
| `SwitchoverTheorems.UnsafeEndsIffClosed` | kuberic-controller/src/evaluator.rs:1451-1577 | the unsafe receipt is planned if and only if routing is gone, observation is complete and every Pod is proven closed |
| `SwitchoverTheorems.UnsafeReceiptOnlyWhenClosed` | kuberic-controller/src/evaluator.rs:1413-1577 | no decision from any status newly records an unsafe outcome before that |
| `SwitchoverTheorems.SwitchoverNeverGrants` | kuberic-controller/src/evaluator.rs:1884-2342 | no decision opens writes while a switchover is outstanding |
| `SwitchoverTheorems.SwitchoverEnds` | kuberic-controller/src/evaluator.rs:1579-2266 | a switchover ends only by acceptance, behind joint write quorums, with the handoff verified by a healthy primary and every member settled, or by return with the requested epoch never admitted |
| `SwitchoverTheorems.TopologyChangesOnlyByAcceptance` | kuberic-controller/src/evaluator.rs:1884-2266 | the topology changes under a switchover only by such an acceptance |
| `SwitchoverTheorems.HandoffPreserved` | kuberic-controller/src/evaluator.rs:1884-2342 | over a run, a handoff frozen earlier is verified by the primary that the switchover installs |

## Left out

- Kubernetes and gRPC input and output, object normalisation and schemas: a snapshot and a plan's effects are the boundary of the model.
- Asynchronous futures, timers, wakers and mutexes: a host call is load, compute, compare-and-swap, interleaved at those points.
- The byte layout of serialized JSON: sizes are fixed field lengths plus decimal and base64 lengths; an envelope is held as its payload.
- Derived digests (configuration, transition, operation and generation identifiers): held as the content they are derived from.
- Status conditions, messages, requeue delays and metrics: only the switchover-rejection condition decides anything and is kept.
- Routing removal that accompanies an unsafe plan: only removal, so it is not listed among the plan's effects.
- Scale-up, scale-down, preview and fault-injection features of the controller: both scale flags are off.
- Evidence validation of a snapshot beyond the status itself: its verdict is an arbitrary input of the model, as are report self-consistency, cleanup progress and image staleness.
- Status validation: the model keeps the parts that authority decisions rest on; the source checks more.
- Expectations of the evaluator that abort the process: modelled as a plan that changes nothing.
- Agent-side behaviour (durability, catch-up, session fencing): replica reports are arbitrary.
- Whether every status the evaluator persists passes its own validation: a status that does not is planned for as contradictory, and that is what the theorems use.
- Record transitions consume and return a record in the source, so they are functions on values here.
- The activity registry, typed codecs and handler lookup: a handler is a function from invocation to result.
- The two replay cursors of activities and effects: one cursor, since both advance together.
- BackoffSpacing: assumes clock readings that never go back along the accepted writes and exposures made by clocked turns, which is how the runner drives the host.
- AttemptsNeverReused: assumes that no host epoch is started twice, which is what a host epoch is for.
- NeverNondeterministic: assumes resolvers that accept the specifications and commands they recorded, which is what replay validates against.
- RunnerCompletes: assumes a fault-free store, elapsed gates, no handler waits, and a workflow that never stalls, asks only for ordinary activities within their declared bounds with result bounds of at least 27 bytes, and answers within its own; without them the runner may legitimately wait, or be rejected, forever.
- ReservationHonoured: is about results of ordinary activities; strict effects and failures have the exact conditions of StrictResultFits and FailureFits.
