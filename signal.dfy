/** Values shared by the unit machinery and the filters: the symbolic
    signal values that `route` propagates, the structural hash accumulator
    and the engine-wide constants. */
module Signals {

  /** Unsigned 64-bit integers, as used for unit ids and hash states. */
  newtype u64 = x: int | 0 <= x < 0x1_0000_0000_0000_0000

  datatype Option<+T> = None | Some(value: T)

  /** Result of an operation whose source panics on some inputs. */
  datatype Outcome<+T> = Ok(value: T) | Panic

  /** The default sample rate of every unit, in Hz. */
  const DEFAULT_SR: real := 44100.0

  /** A complex number by its real and imaginary parts. */
  datatype Complex = Complex(re: real, im: real)

  /** One channel of a signal frame as seen by frequency-response and
      latency analysis. A `Response` carries a complex gain and an extra
      scalar that keeps independent delayless paths from being summed. */
  datatype Signal =
    | Unknown
    | Value(constant: real)
    | Latency(samples: real)
    | Response(gain: Complex, extra: real)

  type SignalFrame = seq<Signal>

  /** The running accumulator of the structural hash. */
  datatype AttoHash = AttoHash(bits: u64)

  /** The two operations of the accumulator that the unit machinery uses:
      `hash` combines the accumulator with a unit id, `state` extracts the
      64-bit seed. Their definitions are not part of this model, so they
      are parameters: every property proved here holds for any choice. */
  datatype HashScheme = HashScheme(hash: (AttoHash, u64) -> AttoHash, state: AttoHash -> u64)
}
