/** Rust's fixed-width integers as bounded integers, with the saturating
    operators the sources use written out. */
module MachineInts {
  const U32_MAX := 0xffff_ffff
  const U64_MAX := 0xffff_ffff_ffff_ffff
  const U128_MAX := 0xffff_ffff_ffff_ffff_ffff_ffff_ffff_ffff
  const I64_MAX := 0x7fff_ffff_ffff_ffff

  type byte = x: int | 0 <= x < 256
  type u32 = x: int | 0 <= x <= U32_MAX
  type u64 = x: int | 0 <= x <= U64_MAX
  type u128 = x: int | 0 <= x <= U128_MAX
  type i64 = x: int | -I64_MAX - 1 <= x <= I64_MAX

  datatype Option<+T> = None | Some(value: T)

  datatype Result<+T, +E> = Ok(value: T) | Err(error: E)

  function SatAdd64(a: u64, b: u64): u64 {
    if a + b > U64_MAX then U64_MAX else a + b
  }

  function SatSub64(a: u64, b: u64): u64 {
    if a < b then 0 else a - b
  }

  function SatDouble64(a: u64): u64 {
    if 2 * a > U64_MAX then U64_MAX else 2 * a
  }

  function SatSub128(a: u128, b: u128): u128 {
    if a < b then 0 else a - b
  }

  function SatAddI64(a: i64, b: i64): i64 {
    if a + b > I64_MAX then I64_MAX else if a + b < -I64_MAX - 1 then -I64_MAX - 1 else a + b
  }

  function SatSubI64(a: i64, b: i64): i64 {
    if a - b > I64_MAX then I64_MAX else if a - b < -I64_MAX - 1 then -I64_MAX - 1 else a - b
  }
}
