/** Option and Result, the two failure-carrying shapes used across the model:
    `None` stands for a lookup whose `std::map::at` would throw, `Failure`
    for an exception that the source lets escape to its caller. */
module Outcomes {

  datatype Option<+T> = None | Some(value: T)

  datatype Result<+R, +E> = Success(value: R) | Failure(error: E) {
    predicate IsFailure() { Failure? }

    function PropagateFailure<U>(): Result<U, E>
      requires Failure?
    {
      Failure(error)
    }

    function Extract(): R
      requires Success?
    {
      value
    }
  }

  /** Unsigned 32-bit values (`uint32_t`) and their wrap-around on conversion. */
  const U32_MODULUS: int := 0x1_0000_0000

  newtype uint32 = x: int | 0 <= x < 0x1_0000_0000

  /** The value C++ produces when an `int` is converted to `uint32_t`
      (reduction modulo 2^32). */
  function ToUint32(x: int): (r: uint32)
    ensures 0 <= x < U32_MODULUS ==> r as int == x
    ensures x < 0 && -U32_MODULUS <= x ==> r as int == x + U32_MODULUS
  {
    (x % U32_MODULUS) as uint32
  }
}
