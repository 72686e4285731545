/** Shared vocabulary of the contract: optional values, results of calls that may
    abort, the fixed-width integer types of the Rust source, and the checked and
    saturating arithmetic the source uses on them. */
module Base {

  datatype Option<+T> = None | Some(value: T) {
    function GetOr(default: T): T {
      match this
      case Some(v) => v
      case None => default
    }
  }

  /** The outcome of a call that either completes or panics with an error. */
  datatype Result<+T, +E> = Ok(value: T) | Err(error: E) {
    predicate IsFailure() {
      Err?
    }

    function PropagateFailure<U>(): Result<U, E>
      requires Err?
    {
      Err(error)
    }

    function Extract(): T
      requires Ok?
    {
      value
    }
  }

  /** NEAR account identifiers, compared as strings. */
  type AccountId = string

  const U16_MAX: int := 0xFFFF
  const U32_MAX: int := 0xFFFF_FFFF
  const U64_MAX: int := 0xFFFF_FFFF_FFFF_FFFF
  const U128_MAX: int := 0xFFFF_FFFF_FFFF_FFFF_FFFF_FFFF_FFFF_FFFF
  const I32_MIN: int := -0x8000_0000
  const I32_MAX: int := 0x7FFF_FFFF

  type U16 = x: int | 0 <= x <= U16_MAX
  type U32 = x: int | 0 <= x <= U32_MAX
  type U64 = x: int | 0 <= x <= U64_MAX
  type U128 = x: int | 0 <= x <= U128_MAX
  type I32 = x: int | I32_MIN <= x <= I32_MAX

  function Min(a: int, b: int): (m: int)
    ensures m <= a && m <= b && (m == a || m == b)
  {
    if a <= b then a else b
  }

  /** `a.saturating_sub(b)` on any unsigned width. */
  function SaturatingSub(a: nat, b: nat): (d: nat)
    ensures d <= a
    ensures a >= b ==> d + b == a
    ensures a < b ==> d == 0
  {
    if a >= b then a - b else 0
  }

  /** `a.saturating_add(b)` on u32. */
  function SaturatingAddU32(a: U32, b: U32): (s: U32)
    ensures a + b <= U32_MAX ==> s == a + b
    ensures a + b > U32_MAX ==> s == U32_MAX
  {
    if a + b <= U32_MAX then a + b else U32_MAX
  }

  /** `a.checked_add(b)` on u128. */
  function CheckedAdd(a: U128, b: U128): (r: Option<U128>)
    ensures r.Some? <==> a + b <= U128_MAX
    ensures r.Some? ==> r.value == a + b
  {
    if a + b <= U128_MAX then Some(a + b) else None
  }

  /** `a.checked_mul(b)` on u128; `b` is a count already widened losslessly. */
  function CheckedMul(a: U128, b: nat): (r: Option<U128>)
    ensures r.Some? <==> a * b <= U128_MAX
    ensures r.Some? ==> r.value == a * b
  {
    if a * b <= U128_MAX then Some(a * b) else None
  }

  /** `a - b` on i32 in a build with overflow checks: out of range is a panic. */
  function CheckedSubI32(a: I32, b: I32): (r: Option<I32>)
    ensures r.Some? <==> I32_MIN <= a - b <= I32_MAX
    ensures r.Some? ==> r.value == a - b
  {
    if I32_MIN <= a - b <= I32_MAX then Some(a - b) else None
  }

  /** `v as i32` for a u32 `v`: the same 32 bits read as two's complement. */
  function U32AsI32(v: U32): (r: I32)
    ensures v <= I32_MAX ==> r == v
    ensures v > I32_MAX ==> r < 0 && r + 0x1_0000_0000 == v
  {
    if v <= I32_MAX then v else v - 0x1_0000_0000
  }
}
