/** Results, checked 128-bit arithmetic and identifiers shared by all pallets. */
module Basics {

  datatype Option<+T> = None | Some(value: T) {
    predicate IsFailure() { None? }
    function PropagateFailure<U>(): Option<U>
      requires None?
    {
      None
    }
    function Extract(): T
      requires Some?
    {
      value
    }
  }

  datatype Result<+T, +E> = Ok(value: T) | Err(error: E) {
    predicate IsFailure() { Err? }
    function PropagateFailure<U>(): Result<U, E>
      requires Err?
    {
      Err(error)
    }
    function Extract(): T
      requires Ok?
    {
      value
    }
  }

  datatype Outcome<+E> = Pass | Fail(error: E) {
    predicate IsFailure() { Fail? }
    function PropagateFailure<U>(): Result<U, E>
      requires Fail?
    {
      Err(error)
    }
  }

  function Need<E>(condition: bool, error: E): (r: Outcome<E>)
    ensures r.Pass? <==> condition
  {
    if condition then Pass else Fail(error)
  }

  function Require<T, E>(o: Option<T>, error: E): (r: Result<T, E>)
    ensures r.Ok? <==> o.Some?
  {
    match o
    case Some(v) => Ok(v)
    case None => Err(error)
  }

  /** A call that rewrites storage ended as its specification says, leaving `after`; what an error leaves half-written
      is
      for the caller to undo. */
  predicate Ran<S(==), E(==)>(spec: Result<S, E>, r: Result<(), E>, after: S) {
    match r
    case Ok(_) => spec == Ok(after)
    case Err(e) => spec == Err(e)
  }

  function Min(a: int, b: int): int { if a <= b then a else b }

  // Widths of the source's integers.
  const MAX_U32: nat := 0xFFFF_FFFF
  const MAX_U64: nat := 0xFFFF_FFFF_FFFF_FFFF
  const MAX_U128: nat := 0xFFFF_FFFF_FFFF_FFFF_FFFF_FFFF_FFFF_FFFF

  // One in the 18-decimal fixed-point type FixedU128.
  const FIXED_ONE: nat := 1_000_000_000_000_000_000

  function CheckedAdd(a: nat, b: nat): Option<nat> { if a + b <= MAX_U128 then Some(a + b) else None }
  function CheckedSub(a: nat, b: nat): Option<nat> { if b <= a then Some(a - b) else None }
  function CheckedMul(a: nat, b: nat): Option<nat> { if a * b <= MAX_U128 then Some(a * b) else None }
  function CheckedDiv(a: nat, b: nat): Option<nat> { if b != 0 then Some(a / b) else None }
  function SaturatingSub(a: nat, b: nat): nat { if b <= a then a - b else 0 }

  /** `FixedU128::checked_mul_int`: the product rounded down. */
  function FixedMul(fixed: nat, n: nat): nat { fixed * n / FIXED_ONE }
}
