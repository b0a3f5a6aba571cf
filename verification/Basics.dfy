/** Shapes shared by every component: optional values, the outcome of one
    fallible operation, and the service's 64-bit amounts. */
module Basics {
  datatype Option<+T> = None | Some(value: T)

  /** The error replies that callers tell apart. */
  datatype Error = Liquidity | ProgressLimit | Rejected | Unavailable | Mismatch | Invalid | Pending

  /** One awaited operation either returns a value, returns an error, or never
      returns because the process stopped. `Crashed` is what makes a restart
      possible between any two operations; `:-` stops at it like at an error. */
  datatype Outcome<+T> = Ok(value: T) | Err(error: Error) | Crashed {
    predicate IsFailure() {
      !Ok?
    }

    function PropagateFailure<U>(): Outcome<U>
      requires IsFailure()
    {
      if Err? then Err(error) else Crashed
    }

    function Extract(): T
      requires Ok?
    {
      value
    }
  }

  const U64_MAX: nat := 0xFFFF_FFFF_FFFF_FFFF

  type u64 = n: nat | n <= U64_MAX witness 0

  /** The checked operations return None instead of wrapping. */
  function CheckedAdd(a: u64, b: u64): (r: Option<u64>)
    ensures r.Some? <==> a + b <= U64_MAX
    ensures r.Some? ==> r.value == a + b
  {
    if a + b <= U64_MAX then Some(a + b) else None
  }

  function CheckedSub(a: u64, b: u64): (r: Option<u64>)
    ensures r.Some? <==> b <= a
    ensures r.Some? ==> r.value == a - b
  {
    if b <= a then Some(a - b) else None
  }

  function CheckedMul(a: u64, b: u64): (r: Option<u64>)
    ensures r.Some? <==> a * b <= U64_MAX
    ensures r.Some? ==> r.value == a * b
  {
    if a * b <= U64_MAX then Some(a * b) else None
  }

  function SaturatingSub(a: u64, b: u64): (r: u64)
    ensures a <= r + b && (r > 0 ==> a == r + b)
  {
    if b <= a then a - b else 0
  }

  function Max(a: u64, b: u64): u64 {
    if a >= b then a else b
  }
}
