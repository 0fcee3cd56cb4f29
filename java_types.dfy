/** Java's fixed-width integers, the exceptions the modelled code can raise,
    and the result types that stand for a call that either returns or throws. */
module JavaTypes {

  /** Java `byte`: signed, 8 bits. */
  newtype int8 = x: int | -0x80 <= x < 0x80

  /** Java `int`: signed, 32 bits. */
  newtype int32 = x: int | -0x8000_0000 <= x < 0x8000_0000

  /** The value a 32-bit `int` operation yields for the mathematical result `x`
      (two's-complement wrap-around). */
  function Wrap32(x: int): (r: int32)
    ensures (r as int - x) % 0x1_0000_0000 == 0
    ensures -0x8000_0000 <= x < 0x8000_0000 ==> r as int == x
  {
    var m := x % 0x1_0000_0000;
    if m < 0x8000_0000 then m as int32 else (m - 0x1_0000_0000) as int32
  }

  /** The exceptions the modelled code lets escape to its caller. */
  datatype Error =
    | NullPointer        // a method called on a field that is still null
    | IllegalArgument    // Arrays.copyOfRange with from > to
    | IndexOutOfBounds   // an array range outside the array
    | IOError            // the native device refused a read, write, flush or close
    | OpenDenied         // the native driver refused to open the device
    | NegativeArraySize  // `new byte[n]` with n < 0

  /** A call without a result value: it returns normally or throws. */
  datatype Outcome = Done | Fail(error: Error)

  /** A call with a result value: it returns one or throws. */
  datatype Result<T> = Ok(value: T) | Err(error: Error)

  /** A reference that may be null. */
  datatype Option<T> = None | Some(value: T)
}
