/** Machine integers and the two wrapper types shared by every module. */
module Machine {

  const U16_MAX: int := 0xFFFF
  const U32_MAX: int := 0xFFFF_FFFF
  const U64_MAX: int := 0xFFFF_FFFF_FFFF_FFFF

  newtype u32 = x: int | 0 <= x <= 0xFFFF_FFFF
  newtype u64 = x: int | 0 <= x <= 0xFFFF_FFFF_FFFF_FFFF

  type byte = x: int | 0 <= x < 256

  /** Plain integers in a machine word's range. */
  type word16 = x: int | 0 <= x <= 0xFFFF
  type word32 = x: int | 0 <= x <= 0xFFFF_FFFF
  type word64 = x: int | 0 <= x <= 0xFFFF_FFFF_FFFF_FFFF

  datatype Option<+T> = None | Some(value: T)

  /** The client's negative return codes. */
  datatype Code = ErrIo | ErrTimeout | ErrProtocol | ErrAuth | ErrDns | ErrConfig

  datatype Result<+T> = Ok(value: T) | Err(code: Code)

  /** Unsigned 64-bit addition and multiplication, which wrap. */
  function Add64(a: nat, b: nat): nat { (a + b) % (U64_MAX + 1) }

  function Mul64(a: nat, b: nat): nat { (a * b) % (U64_MAX + 1) }

  function Min(a: int, b: int): int { if a < b then a else b }
}
