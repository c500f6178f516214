// Machine integers of the payment engine and the two result types it returns.
//
// Amounts, fees, clock readings and reservation ids are unsigned 64-bit
// integers in the source. They are a subset type here, so every place where
// the source computes in `u64` carries a proof that the value fits, and the
// saturating operations are written out.

module Numbers {

  const U64_MAX: nat := 0xFFFF_FFFF_FFFF_FFFF

  type U64 = x: int | 0 <= x <= 0xFFFF_FFFF_FFFF_FFFF

  datatype Option<+T> = None | Some(value: T)
  {
    function GetOr(default: T): T {
      if Some? then value else default
    }
  }

  datatype Result<+T, +E> = Ok(value: T) | Err(error: E)

  /** The errors a caller can see. Message texts are not modelled. */
  datatype ClientError =
    | FeeLimitUnsupported
    | PaymentRejected
    | PaymentUncertain
    | PaymentFailed
    | BudgetExceeded
    | BackendError
    | ProtocolError

  function Min(a: int, b: int): int {
    if a <= b then a else b
  }

  function Max(a: nat, b: nat): nat {
    if a < b then b else a
  }

  /** The value a saturating `u64` computation shows for an exact sum. */
  function Cap(x: nat): (r: U64)
    ensures x <= 0xFFFF_FFFF_FFFF_FFFF ==> r == x
    ensures x > 0xFFFF_FFFF_FFFF_FFFF ==> r == 0xFFFF_FFFF_FFFF_FFFF
  {
    if x <= U64_MAX then x else U64_MAX
  }

  function SatAdd(a: U64, b: U64): U64 {
    Cap(a + b)
  }

  function SatSub(a: nat, b: nat): nat {
    if b <= a then a - b else 0
  }

  function SatMul(a: U64, b: U64): U64 {
    if a * b <= U64_MAX then assert 0 <= a * b; a * b else U64_MAX
  }

  function CheckedAdd(a: U64, b: U64): Option<U64> {
    if a + b <= U64_MAX then Some(a + b) else None
  }

  /** `div_ceil`. */
  function CeilDiv(a: nat, d: nat): nat
    requires d > 0
  {
    if a % d == 0 then a / d else a / d + 1
  }
}
