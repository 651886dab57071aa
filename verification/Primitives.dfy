/** Machine integers with Rust's saturating operations, and the identifiers every
    other module speaks about. */
module Primitives {

  const MAX_U32: nat := 0xFFFF_FFFF
  const MAX_U64: nat := 0xFFFF_FFFF_FFFF_FFFF

  type u32 = n: nat | n <= MAX_U32
  type u64 = n: nat | n <= MAX_U64

  datatype Option<+T> = None | Some(value: T)

  datatype Result<+T, +E> = Ok(value: T) | Err(error: E)

  /** A transaction signature. Only its identity matters outside the journal codec. */
  datatype Signature = Signature(id: nat)

  /** A monitored account in its textual form, the key of every cursor map. */
  type Address = string

  function SaturatingSub(a: u64, b: u64): (difference: u64)
    ensures difference + b >= a && (difference == 0 || difference + b == a)
  {
    if a < b then 0 else a - b
  }

  function SaturatingAdd(a: u64, b: u64): (sum: u64)
    ensures sum <= a + b && (sum == a + b || sum == MAX_U64)
  {
    if a + b > MAX_U64 then MAX_U64 else a + b
  }

  function Max(a: u64, b: u64): (greater: u64)
    ensures a <= greater && b <= greater && (greater == a || greater == b)
  {
    if a < b then b else a
  }

  function Min(a: nat, b: nat): (lesser: nat)
    ensures lesser <= a && lesser <= b && (lesser == a || lesser == b)
  {
    if a < b then a else b
  }

  /** A predicate that speaks of "every `same` that is `x`" says what it says of `x`, but
      only in proofs that ask for it by asserting `Same(x, x)`. */
  ghost predicate Same<T>(x: T, same: T) {
    same == x
  }
}
