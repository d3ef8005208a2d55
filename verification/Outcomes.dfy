/** Results and optional values shared by every component. */
module Outcomes {

  datatype Option<+T> = None | Some(value: T)

  datatype Result<+T, +E> = Ok(value: T) | Err(error: E)

  /** One more than the largest `u64`. */
  const U64_RANGE: nat := 0x1_0000_0000_0000_0000

  function Min(a: int, b: int): int { if a <= b then a else b }

  function Max(a: int, b: int): int { if a >= b then a else b }

  /** Subtraction that stops at zero, as `saturating_sub` and `duration_since` do. */
  function Minus(a: nat, b: nat): nat { if a >= b then a - b else 0 }
}
