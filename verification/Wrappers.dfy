/** Optional and fallible values, as the scanner's sources use them. */
module Wrappers {
  datatype Option<+T> = None | Some(value: T)

  datatype Result<+T, +E> = Ok(value: T) | Err(error: E)
}

/** The small amount of 64-bit arithmetic the scanner does. */
module U64 {
  const U64_MAX: nat := 0xFFFF_FFFF_FFFF_FFFF

  function Min(x: nat, y: nat): nat {
    if x <= y then x else y
  }

  function Max(x: nat, y: nat): nat {
    if x <= y then y else x
  }

  function SaturatingAdd(x: nat, y: nat): nat {
    Min(x + y, U64_MAX)
  }

  /** Addition that wraps around at 64 bits. */
  function WrappingAdd(x: nat, y: nat): nat
    requires x <= U64_MAX && y <= U64_MAX
  {
    if x + y <= U64_MAX then x + y else x + y - U64_MAX - 1
  }

  function SaturatingSub(x: nat, y: nat): nat {
    if y <= x then x - y else 0
  }
}
