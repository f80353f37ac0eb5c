/** Strict-effect ledger and completion metadata of `kuberic-dex/src/effect.rs`. */
module Effects {
  import opened Base
  import opened Identity

  datatype CompletionClass = ExternalEffect | PassiveObservation

  datatype CompletionMetadata = CompletionMetadata(completed: u64, external: u64, passive: u64)

  datatype EffectContractError =
    | CompletionCountOverflow
    | CompletionCountMismatch
    | DuplicateAttemptIdentity
    | TooManyAttempts
    | InvalidRedelivery
    | CommandTooLarge
    | NoRecordedAttempt
    | AttemptMismatch
    | LedgerMismatch
    | ReplayCountMismatch
    | TerminalCountMismatch

  /** Classified counts must add up to the completed count without overflow. */
  function FromCounts(completed: u64, external: u64, passive: u64): (r: Result<CompletionMetadata, EffectContractError>)
  {
    if external + passive > U64_MAX then Err(CompletionCountOverflow)
    else if external + passive != completed then Err(CompletionCountMismatch)
    else Ok(CompletionMetadata(completed, external, passive))
  }

  function CountOf(classes: seq<CompletionClass>, class_: CompletionClass): (n: nat)
    ensures n <= |classes|
  {
    if classes == [] then 0
    else CountOf(classes[..|classes| - 1], class_) + (if classes[|classes| - 1] == class_ then 1 else 0)
  }

  lemma {:induction false} CountsPartition(classes: seq<CompletionClass>)
    ensures CountOf(classes, ExternalEffect) + CountOf(classes, PassiveObservation) == |classes|
  {
    if classes != [] { CountsPartition(classes[..|classes| - 1]); }
  }

  /** The metadata of a classified history, or overflow when it is longer than a counter can hold. */
  function Summary(classes: seq<CompletionClass>): (r: Result<CompletionMetadata, EffectContractError>)
    ensures r.Ok? <==> |classes| <= U64_MAX
    ensures r.Ok? ==> r.value.external + r.value.passive == r.value.completed == |classes|
  {
    if |classes| > U64_MAX then Err(CompletionCountOverflow)
    else
      CountsPartition(classes);
      Ok(CompletionMetadata(|classes|, CountOf(classes, ExternalEffect), CountOf(classes, PassiveObservation)))
  }

  method FromClasses(classes: seq<CompletionClass>) returns (r: Result<CompletionMetadata, EffectContractError>)
    ensures r == Summary(classes)
  {
    var completed: u64, external: u64, passive: u64 := 0, 0, 0;
    for i := 0 to |classes|
      invariant completed == i
      invariant external == CountOf(classes[..i], ExternalEffect)
      invariant passive == CountOf(classes[..i], PassiveObservation)
    {
      assert classes[..i + 1][..i] == classes[..i];
      if completed == U64_MAX { return Err(CompletionCountOverflow); }
      completed := completed + 1;
      match classes[i]
      case ExternalEffect => external := external + 1;
      case PassiveObservation => passive := passive + 1;
    }
    assert classes[..|classes|] == classes;
    CountsPartition(classes);
    r := FromCounts(completed, external, passive);
  }

  datatype EffectAttemptState = Exposed | ProvenNoAdmission | Observed

  datatype EffectAttempt = EffectAttempt(attemptId: AttemptId, state: EffectAttemptState)

  datatype Disposition = DispositionCompleted | DispositionProvenNoAdmission

  /** An exact prepared command with the bound it was declared under. */
  datatype PreparedCommand = PreparedCommand(bytes: Bytes, maxBytes: u64)

  /** The at-most-two-attempt redelivery model; nothing means the ledger is accepted. */
  function ValidateEffectAttempts(attempts: seq<EffectAttempt>): (e: Option<EffectContractError>)
    ensures e.None? <==>
      || |attempts| <= 1
      || (&& |attempts| == 2
          && attempts[0].state == ProvenNoAdmission
          && attempts[0].attemptId != attempts[1].attemptId)
  {
    if |attempts| <= 1 then None
    else if |attempts| > 2 then Some(TooManyAttempts)
    else if attempts[0].state == ProvenNoAdmission && attempts[0].attemptId != attempts[1].attemptId then None
    else if attempts[0].attemptId == attempts[1].attemptId then Some(DuplicateAttemptIdentity)
    else Some(InvalidRedelivery)
  }
}
