/** A value that may be missing: Go's nil results, errors and panics. */
module Options {
  datatype Option<T> = None | Some(value: T)
}

/** Go's 32-bit integers. */
module MachineInts {
  const TWO_31 := 0x8000_0000
  const TWO_32 := 0x1_0000_0000

  type uint32 = x: int | 0 <= x < TWO_32
  type int64 = x: int | -0x8000_0000_0000_0000 <= x < 0x8000_0000_0000_0000
  type int32 = x: int | -TWO_31 <= x < TWO_31

  /** How often one addition or subtraction of 1 carries out of Go's int32 (two's complement). */
  function Carry32(x: int): int {
    if x == TWO_31 then 1 else if x == -TWO_31 - 1 then -1 else 0
  }

  /** The int32 left by one addition or subtraction of 1. */
  function Wrap32(x: int): (r: int32)
    requires -TWO_31 - 1 <= x <= TWO_31
    ensures r == x - Carry32(x) * TWO_32
  {
    if x == TWO_31 then -TWO_31 else if x == -TWO_31 - 1 then TWO_31 - 1 else x
  }
}
