/** Small types shared by every module: options, bytes, Bluetooth addresses and the clock. */
module Prelude {
  datatype Option<+T> = None | Some(value: T)

  type byte = b: nat | b < 256

  /** A BD_ADDR in display order. */
  datatype Address = Address(b0: byte, b1: byte, b2: byte, b3: byte, b4: byte, b5: byte)

  /** The first three octets of an address. */
  datatype Oui = Oui(o0: byte, o1: byte, o2: byte)

  /** Clock readings and waits are milliseconds. */
  type Millis = nat

  /** `Instant::saturating_duration_since`: never negative, even for a later instant. */
  function Since(now: Millis, at: Millis): Millis {
    if now <= at then 0 else now - at
  }

  /** `at` is known and less than `window` ago. */
  predicate Within(now: Millis, at: Option<Millis>, window: Millis) {
    at.Some? && Since(now, at.value) < window
  }
}
