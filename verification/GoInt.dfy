/** The fixed-width integers of Go, as subset types with explicit wrap-around. */
module GoInt {
  const MAX_INT32 := 0x7FFF_FFFF
  const TWO_32 := 0x1_0000_0000

  type Int32 = x: int | -0x8000_0000 <= x < 0x8000_0000
  type UInt32 = x: int | 0 <= x < 0x1_0000_0000
  type UInt64 = x: int | 0 <= x < 0x1_0000_0000_0000_0000
  type Byte = x: int | 0 <= x < 256
  type Bytes = seq<Byte>

  /** Conversion to int32: keep the low 32 bits and read them as two's complement. */
  function Wrap32(x: int): Int32 {
    (x + 0x8000_0000) % 0x1_0000_0000 - 0x8000_0000
  }

  /** Conversion to uint32. */
  function WrapU32(x: int): UInt32 {
    x % 0x1_0000_0000
  }

  function Min(a: int, b: int): int {
    if a < b then a else b
  }

  function Max(a: int, b: int): int {
    if a > b then a else b
  }
}

module Options {
  datatype Option<+T> = None | Some(value: T)
}
