/** Machine integers, byte strings and decimal rendering shared by every module. */
module Base {

  datatype Option<+T> = None | Some(value: T)

  datatype Result<+T, +E> = Ok(value: T) | Err(error: E)

  type Byte = x: int | 0 <= x < 256

  /** Bytes compared and persisted without normalization. */
  type Bytes = seq<Byte>

  type u32 = x: int | 0 <= x < 0x1_0000_0000
  type u64 = x: int | 0 <= x < 0x1_0000_0000_0000_0000
  type i64 = x: int | -0x8000_0000_0000_0000 <= x < 0x8000_0000_0000_0000

  const U32_MAX: u32 := 0xFFFF_FFFF
  const U64_MAX: u64 := 0xFFFF_FFFF_FFFF_FFFF
  const I64_MAX: i64 := 0x7FFF_FFFF_FFFF_FFFF
  const I64_MIN: i64 := -0x8000_0000_0000_0000

  /** Sixteen raw identity bytes. */
  type Bytes16 = s: Bytes | |s| == 16 witness [0, 0, 0, 0, 0, 0, 0, 0, 0, 0, 0, 0, 0, 0, 0, 0]

  function Digit(d: nat): (c: char)
    requires d < 10
  {
    '0' + d as char
  }

  /** Decimal rendering without leading zeros, as integer formatting produces it. */
  function Decimal(n: nat): (s: string)
    ensures |s| > 0
  {
    if n < 10 then [Digit(n)] else Decimal(n / 10) + [Digit(n % 10)]
  }

  function Pow(base: nat, exponent: nat): (p: nat)
  {
    if exponent == 0 then 1 else base * Pow(base, exponent - 1)
  }

  lemma {:induction false} PowPositive(base: nat, k: nat)
    requires base > 0
    ensures Pow(base, k) > 0
  {
    if k > 0 { PowPositive(base, k - 1); }
  }

  lemma TenPowers()
    ensures Pow(10, 19) == 10_000_000_000_000_000_000
    ensures Pow(10, 20) == 100_000_000_000_000_000_000
  {
    assert Pow(10, 4) == 10_000;
    assert Pow(10, 8) == 10_000 * Pow(10, 4) by { PowSplit(10, 4, 4); }
    assert Pow(10, 16) == Pow(10, 8) * Pow(10, 8) by { PowSplit(10, 8, 8); }
    assert Pow(10, 3) == 1_000;
    assert Pow(10, 19) == Pow(10, 16) * Pow(10, 3) by { PowSplit(10, 16, 3); }
    assert Pow(10, 20) == Pow(10, 16) * Pow(10, 4) by { PowSplit(10, 16, 4); }
  }

  lemma {:induction false} PowSplit(base: nat, a: nat, b: nat)
    ensures Pow(base, a + b) == Pow(base, a) * Pow(base, b)
  {
    if a == 0 {
      assert Pow(base, 0) == 1;
    } else {
      PowSplit(base, a - 1, b);
      var x, y := Pow(base, a - 1), Pow(base, b);
      assert base * (x * y) == (base * x) * y;
    }
  }

  /** Digits of `n` beyond those a number below `bound` needs. */
  function DigitsFrom(n: nat, bound: nat): (w: nat)
    requires bound > 0
    ensures w >= 1
    decreases n - bound
  {
    if n < bound then 1 else 1 + DigitsFrom(n, 10 * bound)
  }

  /** Number of characters of the decimal rendering. */
  function Width(n: nat): (w: nat)
    ensures w >= 1
  {
    DigitsFrom(n, 10)
  }

  lemma {:induction false} DigitsShift(n: nat, bound: nat)
    requires bound > 0
    ensures DigitsFrom(n, 10 * bound) == DigitsFrom(n / 10, bound)
    decreases n - bound
  {
    if n >= 10 * bound { DigitsShift(n, 10 * bound); }
  }

  lemma {:induction false} WidthIsRenderedLength(n: nat)
    ensures Width(n) == |Decimal(n)|
  {
    if n >= 10 {
      WidthIsRenderedLength(n / 10);
      DigitsShift(n, 10);
    }
  }

  lemma {:induction false} DigitsBelow(n: nat, bound: nat, k: nat)
    requires bound > 0 && k > 0
    ensures DigitsFrom(n, bound) <= k <==> n < bound * Pow(10, k - 1)
    decreases k
  {
    PowPositive(10, k - 1);
    if k > 1 {
      DigitsBelow(n, 10 * bound, k - 1);
      assert (10 * bound) * Pow(10, k - 2) == bound * Pow(10, k - 1);
      if n < bound { MulAtLeast(Pow(10, k - 1), bound); }
    }
  }

  lemma MulAtLeast(a: nat, b: nat)
    requires a >= 1
    ensures a * b >= b
  {
  }

  /** The rendering of `n` has at most `k` digits exactly when `n` is below ten to the `k`. */
  lemma WidthBelow(n: nat, k: nat)
    requires k > 0
    ensures Width(n) <= k <==> n < Pow(10, k)
  {
    DigitsBelow(n, 10, k);
  }

  function SignedWidth(n: int): (w: nat)
    ensures w >= 1
  {
    if n < 0 then 1 + Width(-n) else Width(n)
  }

  lemma WidthBounds(n: u64)
    ensures Width(n) <= 20
    ensures Width(n) <= 19 <==> n < 10_000_000_000_000_000_000
  {
    TenPowers();
    WidthBelow(n, 19);
    WidthBelow(n, 20);
  }

  /** Padded base64 length of `n` bytes (section 4 of RFC 4648). */
  function Base64Len(n: nat): (len: nat)
  {
    (n + 2) / 3 * 4
  }

  lemma Base64Monotone(a: nat, b: nat)
    requires a <= b
    ensures Base64Len(a) <= Base64Len(b)
  {
  }
}
