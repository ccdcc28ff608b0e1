/** Fixed-width integers with the source's checked and saturating operators, and result types. */
module Machine {
  type u8 = x: nat | x < 0x100
  type u16 = x: nat | x < 0x1_0000
  type u32 = x: nat | x < 0x1_0000_0000
  type u64 = x: nat | x <= U64_MAX
  type u128 = x: nat | x <= U128_MAX

  const U64_MAX: nat := 0xFFFF_FFFF_FFFF_FFFF
  const U128_MAX: nat := 0xFFFF_FFFF_FFFF_FFFF_FFFF_FFFF_FFFF_FFFF

  type Bytes16 = s: seq<u8> | |s| == 16 witness seq(16, _ => 0)
  type Bytes32 = s: seq<u8> | |s| == 32 witness seq(32, _ => 0)

  const ZERO16: Bytes16 := [0, 0, 0, 0, 0, 0, 0, 0, 0, 0, 0, 0, 0, 0, 0, 0]
  const ZERO32: Bytes32 := ZERO16 + ZERO16

  datatype Option<+T> = None | Some(value: T)

  datatype Result<+T, +E> = Ok(value: T) | Err(error: E)

  function Min(a: nat, b: nat): nat {
    if a <= b then a else b
  }

  function Max(a: nat, b: nat): nat {
    if a <= b then b else a
  }

  /** `u64::saturating_add`. */
  function SatAdd64(a: nat, b: nat): u64 {
    Min(a + b, U64_MAX)
  }

  /** `u128::saturating_add`. */
  function SatAdd128(a: nat, b: nat): u128 {
    Min(a + b, U128_MAX)
  }

  /** `n as u32`. */
  function Truncate32(n: nat): u32 {
    n % 0x1_0000_0000
  }
}
