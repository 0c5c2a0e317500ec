/** Numbers. Lox numbers are `f64` in the source; the model uses exact
    reals. IEEE rounding is therefore not modelled (`0.1 + 0.2` is exactly
    `0.3` here and not in the source), nor are infinities, NaN and signed
    zero. Division by zero, where IEEE arithmetic leaves the reals
    altogether, is written out explicitly. */
module Num {

  /** `a / b`. IEEE division by zero yields an infinity or NaN, which the
      model does not represent; it yields 0 there instead. */
  function Div(a: real, b: real): (q: real)
    ensures b != 0.0 ==> q * b == a
  {
    if b == 0.0 then 0.0 else a / b
  }
}
