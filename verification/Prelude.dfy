/** Shared value types: optional values, results, machine integers and protocol identifiers. */
module Prelude {

  datatype Option<+T> = None | Some(value: T)

  datatype Result<+T, +E> = Ok(value: T) | Err(error: E)

  const U64_MAX: int := 0xFFFF_FFFF_FFFF_FFFF

  /** Rust's `u64`; `usize` is the same type on the 64-bit targets modelled here. */
  type u64 = x: int | 0 <= x <= 0xFFFF_FFFF_FFFF_FFFF

  /** `u64::checked_add`. */
  function CheckedAdd(a: u64, b: u64): Option<u64> {
    if a + b <= U64_MAX then Some(a + b) else None
  }

  /** `u64::saturating_add`. */
  function SaturatingAdd(a: u64, b: u64): u64 {
    if a + b <= U64_MAX then a + b else U64_MAX
  }

  type byte = x: int | 0 <= x < 256

  /** `trim().is_empty()`, for the ASCII blanks. */
  predicate IsBlank(text: string) {
    forall i :: 0 <= i < |text| ==> text[i] in {' ', '\t', '\n', '\r'}
  }

  // UUID identifiers. Each is its own type, as in the source, so they cannot be confused.
  datatype SessionId = SessionId(uuid: nat)
  datatype ActorId = ActorId(uuid: nat)
  datatype ActionId = ActionId(uuid: nat)
  datatype EventId = EventId(uuid: nat)
  datatype MessageId = MessageId(uuid: nat)
  datatype CanvasId = CanvasId(uuid: nat)
  datatype LayerId = LayerId(uuid: nat)
  datatype StrokeId = StrokeId(uuid: nat)

  type Timestamp = int
}
