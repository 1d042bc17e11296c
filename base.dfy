/**
 * Helpers shared by the simulation, the controller and the PDP model:
 * draws of the random source, total division, and an optional value.
 */
module Base {

  /** A value returned by the random source: uniformly drawn from [0, 1). */
  type Unit = r: real | 0.0 <= r < 1.0 witness 0.0

  /** A count held in a Rust `u32`. */
  type U32 = n: nat | n < 0x1_0000_0000

  /**
   * Division over the reals. Where the divisor is zero the floating-point
   * source produces an infinity or NaN; the model produces 0.0 there.
   */
  function Quot(a: real, b: real): real
  {
    if b == 0.0 then 0.0 else a / b
  }

  datatype Option<T> = None | Some(value: T)

  /** Sum of a sequence, adding left to right as the source's accumulating loops do. */
  function Sum(xs: seq<real>): real
  {
    if xs == [] then 0.0 else Sum(xs[..|xs| - 1]) + xs[|xs| - 1]
  }

  /** Arithmetic mean; 0.0 for the empty sequence (see Quot). */
  function Mean(xs: seq<real>): real
  {
    Quot(Sum(xs), |xs| as real)
  }
}
