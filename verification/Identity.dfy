/** Durable identities of `kuberic-dex/src/identity.rs`. */
module Identity {
  import opened Base

  type ExecutionId = Bytes16
  type HostEpoch = Bytes16

  /** Immutable caller authority for one durable execution. */
  datatype ExecutionSpec = ExecutionSpec(executionId: ExecutionId, workflowInput: Bytes, maxTerminalPayload: u64)

  /** The name is held as its UTF-8 bytes. */
  datatype ActivityName = ActivityName(name: Bytes, version: u32)

  datatype ActivityOptions = ActivityOptions(
    maxAttempts: u32,
    initialBackoff: u64,
    actionDeadline: Option<i64>,
    attemptTimeout: Option<u64>)

  datatype ActivitySpec = ActivitySpec(
    name: ActivityName,
    input: Bytes,
    maxInput: u64,
    maxResult: u64,
    options: ActivityOptions)

  datatype AttemptId = AttemptId(hostEpoch: HostEpoch, counter: u64)

  datatype LogicalActivityId = LogicalActivityId(executionId: ExecutionId, sequence: nat, spec: ActivitySpec)

  /** `u64::checked_shl` for shifts below 64: the high bits are dropped. */
  function ShiftLeft(value: u64, shift: nat): (r: u64)
    requires shift < 64
  {
    PowPositive(2, shift);
    value * Pow(2, shift) % (U64_MAX + 1)
  }

  /** The earliest time of the attempt that follows `completedAttempt`, or nothing when no
      attempt is left or the sum cannot be represented. */
  function RetryNotBefore(options: ActivityOptions, completedAttempt: u32, observedAt: i64): (r: Option<i64>)
  {
    if completedAttempt >= options.maxAttempts then None
    else
      var shift := if completedAttempt == 0 then 0 else if completedAttempt - 1 < 63 then completedAttempt - 1 else 63;
      var delay := ShiftLeft(options.initialBackoff, shift);
      if delay > I64_MAX || observedAt + delay > I64_MAX then None else Some(observedAt + delay)
  }

  /** The exact exponential delay the retry policy documents. */
  function ExactBackoff(options: ActivityOptions, completedAttempt: u32): (d: nat)
    requires completedAttempt >= 1
  {
    options.initialBackoff * Pow(2, completedAttempt - 1)
  }

  lemma {:induction false} PowAtLeast(k: nat)
    requires k >= 63
    ensures Pow(2, k) >= I64_MAX + 1
  {
    if k == 63 {
      PowSplit(2, 32, 31);
      PowSplit(2, 16, 16);
      PowSplit(2, 16, 15);
      PowSplit(2, 8, 8);
      PowSplit(2, 8, 7);
      assert Pow(2, 8) == 256 && Pow(2, 7) == 128;
    } else {
      PowAtLeast(k - 1);
    }
  }

  /**
   * Doubling is exact precisely when an attempt is left, the documented product fits a signed
   * 64-bit integer and so does the resulting time; the shift itself never reports lost bits.
   */
  lemma RetryIsExact(options: ActivityOptions, completedAttempt: u32, observedAt: i64)
    requires completedAttempt >= 1
    ensures
      var exact := ExactBackoff(options, completedAttempt);
      && completedAttempt < options.maxAttempts
      && exact <= I64_MAX
      && observedAt + exact <= I64_MAX
      <==>
      RetryNotBefore(options, completedAttempt, observedAt) == Some(observedAt + exact)
  {
    var exact := ExactBackoff(options, completedAttempt);
    var backoff := options.initialBackoff;
    if completedAttempt - 1 < 63 {
      var product := backoff * Pow(2, completedAttempt - 1);
      if product <= I64_MAX {
        assert product % (U64_MAX + 1) == product;
      }
    } else {
      PowAtLeast(completedAttempt - 1);
      PowAtLeast(63);
      if backoff == 0 {
        assert exact == 0;
        assert backoff * Pow(2, 63) == 0;
      } else {
        MulAtLeast(backoff, Pow(2, completedAttempt - 1));
        assert exact > I64_MAX;
      }
    }
  }

  /** The dropped bits are observable: doubling a backoff of two to the 63 schedules an immediate retry. */
  lemma RetryDropsHighBits(observedAt: i64)
    ensures
      var options := ActivityOptions(3, 0x8000_0000_0000_0000, None, None);
      RetryNotBefore(options, 2, observedAt) == Some(observedAt)
  {
    assert Pow(2, 1) == 2 * Pow(2, 0);
  }
}
