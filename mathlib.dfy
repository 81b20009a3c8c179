/** The interface of the checked-arithmetic library the front end calls. Its
    implementation is not part of this model: each operation is a parameter
    that returns a status code and, possibly, a value stored through its
    `int*` out-argument. */
module MathLib {
  import opened CTypes

  /** MATH_OK, the three named error codes, and any other code the library may return. */
  datatype MathStatus =
    | MathOk
    | MathErrOverflow
    | MathErrDivByZero
    | MathErrInvalidArg
    | MathErrOther(code: int)

  /** One call's outcome: its status, and the value it stored through the
      out-pointer (None when it left the pointee alone). */
  datatype MathReply = MathReply(status: MathStatus, stored: Option<Int32>)

  /** math_add, math_sub, math_mul, math_div, math_pow and math_fact. */
  datatype MathOps = MathOps(
    add: (Int32, Int32) -> MathReply,
    sub: (Int32, Int32) -> MathReply,
    mul: (Int32, Int32) -> MathReply,
    div: (Int32, Int32) -> MathReply,
    pow: (Int32, Int32) -> MathReply,
    fact: Int32 -> MathReply)
}
