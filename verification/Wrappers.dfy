// Failure-aware results shared by every component.

module Wrappers {
  datatype Option<+T> = None | Some(value: T)

  datatype Result<+T, +E> = Ok(value: T) | Err(error: E)

  // The width of the program's `usize` counters, and its saturating operators.
  const USIZE_MAX: nat := 0xFFFF_FFFF_FFFF_FFFF

  function SaturatingAdd(a: nat, b: nat): nat {
    if a + b <= USIZE_MAX then a + b else USIZE_MAX
  }

  function SaturatingMul(a: nat, b: nat): nat {
    if a * b <= USIZE_MAX then a * b else USIZE_MAX
  }

  function SaturatingSub(a: nat, b: nat): nat {
    if b <= a then a - b else 0
  }
}
