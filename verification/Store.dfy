/** The compare-and-swap checkpoint store of `kuberic-dex/src/in_memory.rs` and `kuberic-dex/src/store.rs`. */
module Store {
  import opened Base
  import opened Identity
  import opened Checkpoint

  datatype StoreErrorKind = Authorization | Unavailable | Timeout | MalformedResponse | Other

  datatype StoreError = StoreError(kind: StoreErrorKind)

  /** The opaque token renders the counter value it was minted from, so it is held as that value. */
  type Revision = u64

  datatype Stored = Stored(revision: Revision, checkpoint: Envelope)

  datatype CasOutcome = Accepted(revision: Revision) | Conflict | OutcomeUnknown

  /** One-shot behaviour of the next matching compare-and-swap. */
  datatype Fault =
    | FailBeforeRequest(kind: StoreErrorKind)
    | ConflictWithoutApply
    | OutcomeUnknownWithoutApply
    | OutcomeUnknownAfterApply

  datatype StoreState = StoreState(
    checkpoints: map<ExecutionId, Stored>,
    nextCasFault: Option<Fault>,
    matchingCasBeforeFault: u64,
    nextLoadError: Option<StoreError>,
    revisionCounter: u64)

  function Lookup(state: StoreState, id: ExecutionId): (s: Option<Stored>)
  {
    if id in state.checkpoints then Some(state.checkpoints[id]) else None
  }

  function ActualRevision(state: StoreState, id: ExecutionId): (r: Option<Revision>)
  {
    if id in state.checkpoints then Some(state.checkpoints[id].revision) else None
  }

  function LoadResult(state: StoreState, id: ExecutionId): (r: Result<Option<Stored>, StoreError>)
  {
    if state.nextLoadError.Some? then Err(state.nextLoadError.value) else Ok(Lookup(state, id))
  }

  function AfterLoad(state: StoreState): (s: StoreState)
  {
    state.(nextLoadError := None)
  }

  /** The fault consumed by a matching request, if one is due. */
  function DueFault(state: StoreState): (f: Option<Fault>)
  {
    if state.matchingCasBeforeFault == 0 then state.nextCasFault else None
  }

  predicate Applies(state: StoreState, id: ExecutionId, expected: Option<Revision>)
  {
    && ActualRevision(state, id) == expected
    && (DueFault(state).None? || DueFault(state).value.OutcomeUnknownAfterApply?)
    && state.revisionCounter < U64_MAX
  }

  function CasResult(state: StoreState, id: ExecutionId, expected: Option<Revision>): (r: Result<CasOutcome, StoreError>)
  {
    if ActualRevision(state, id) != expected then Ok(Conflict)
    else
      match DueFault(state)
      case Some(FailBeforeRequest(kind)) => Err(StoreError(kind))
      case Some(ConflictWithoutApply) => Ok(Conflict)
      case Some(OutcomeUnknownWithoutApply) => Ok(OutcomeUnknown)
      case Some(OutcomeUnknownAfterApply) =>
        if state.revisionCounter == U64_MAX then Err(StoreError(Other)) else Ok(OutcomeUnknown)
      case None =>
        if state.revisionCounter == U64_MAX then Err(StoreError(Other)) else Ok(Accepted(state.revisionCounter + 1))
  }

  function AfterCas(state: StoreState, id: ExecutionId, expected: Option<Revision>, checkpoint: Envelope): (s: StoreState)
  {
    if ActualRevision(state, id) != expected then state
    else
      var consumed :=
        if state.matchingCasBeforeFault == 0 then state.(nextCasFault := None)
        else state.(matchingCasBeforeFault := state.matchingCasBeforeFault - 1);
      if Applies(state, id, expected) then
        consumed.(revisionCounter := state.revisionCounter + 1,
                  checkpoints := state.checkpoints[id := Stored(state.revisionCounter + 1, checkpoint)])
      else consumed
  }

  /** Every stored token was minted from a counter value already passed. */
  ghost predicate TokensMinted(state: StoreState)
  {
    forall id :: id in state.checkpoints ==> state.checkpoints[id].revision <= state.revisionCounter
  }

  /**
   * What a caller may conclude from one compare-and-swap: an accepted write replaced exactly the
   * expected revision with a token never seen before, a conflict or an error changed no checkpoint,
   * an unknown outcome did one or the other, and no other execution was touched.
   */
  lemma CasMeaning(state: StoreState, id: ExecutionId, expected: Option<Revision>, checkpoint: Envelope)
    requires TokensMinted(state)
    ensures
      var r := CasResult(state, id, expected);
      var next := AfterCas(state, id, expected, checkpoint);
      && TokensMinted(next)
      && state.revisionCounter <= next.revisionCounter
      && (forall other :: other in state.checkpoints && other != id ==>
            other in next.checkpoints && next.checkpoints[other] == state.checkpoints[other])
      && (Lookup(next, id) != Lookup(state, id) ==>
            && ActualRevision(state, id) == expected
            && Lookup(next, id) == Some(Stored(next.revisionCounter, checkpoint))
            && (forall i :: i in state.checkpoints ==> state.checkpoints[i].revision < next.revisionCounter))
      && (r.Ok? && r.value.Accepted? ==>
            && ActualRevision(state, id) == expected
            && Lookup(next, id) == Some(Stored(r.value.revision, checkpoint))
            && (forall i :: i in state.checkpoints ==> state.checkpoints[i].revision < r.value.revision))
      && (r.Err? || r.value.Conflict? ==> next.checkpoints == state.checkpoints)
  {
  }

  class InMemoryCheckpointStore {
    var checkpoints: map<ExecutionId, Stored>
    var nextCasFault: Option<Fault>
    var matchingCasBeforeFault: u64
    var nextLoadError: Option<StoreError>
    var revisionCounter: u64

    function State(): (s: StoreState)
      reads this
    {
      StoreState(checkpoints, nextCasFault, matchingCasBeforeFault, nextLoadError, revisionCounter)
    }

    constructor ()
      ensures State() == StoreState(map[], None, 0, None, 0)
    {
      checkpoints := map[];
      nextCasFault := None;
      matchingCasBeforeFault := 0;
      nextLoadError := None;
      revisionCounter := 0;
    }

    method FailCompareAndSwapAfter(matchingBefore: u64, fault: Fault)
      modifies this
      ensures State() == old(State()).(matchingCasBeforeFault := matchingBefore, nextCasFault := Some(fault))
    {
      matchingCasBeforeFault := matchingBefore;
      nextCasFault := Some(fault);
    }

    method FailNextLoad(error: StoreError)
      modifies this
      ensures State() == old(State()).(nextLoadError := Some(error))
    {
      nextLoadError := Some(error);
    }

    method Load(id: ExecutionId) returns (r: Result<Option<Stored>, StoreError>)
      modifies this
      ensures r == LoadResult(old(State()), id)
      ensures State() == AfterLoad(old(State()))
    {
      if nextLoadError.Some? {
        r := Err(nextLoadError.value);
        nextLoadError := None;
        return;
      }
      r := Ok(if id in checkpoints then Some(checkpoints[id]) else None);
    }

    method CompareAndSwap(id: ExecutionId, expected: Option<Revision>, checkpoint: Envelope)
      returns (r: Result<CasOutcome, StoreError>)
      modifies this
      ensures r == CasResult(old(State()), id, expected)
      ensures State() == AfterCas(old(State()), id, expected, checkpoint)
    {
      var actual := if id in checkpoints then Some(checkpoints[id].revision) else None;
      if actual != expected { return Ok(Conflict); }
      var fault := None;
      if matchingCasBeforeFault == 0 {
        fault := nextCasFault;
        nextCasFault := None;
      } else {
        matchingCasBeforeFault := matchingCasBeforeFault - 1;
      }
      if fault.Some? && fault.value.FailBeforeRequest? { return Err(StoreError(fault.value.kind)); }
      if fault == Some(ConflictWithoutApply) { return Ok(Conflict); }
      if fault == Some(OutcomeUnknownWithoutApply) { return Ok(OutcomeUnknown); }
      if revisionCounter == U64_MAX { return Err(StoreError(Other)); }
      revisionCounter := revisionCounter + 1;
      checkpoints := checkpoints[id := Stored(revisionCounter, checkpoint)];
      r := Ok(if fault.Some? then OutcomeUnknown else Accepted(revisionCounter));
    }
  }
}
