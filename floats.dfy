/** A float64 reduced to the classification that validation and encoding
    inspect: a finite value, NaN, or one of the two infinities. */
module Floats {

  datatype Float = Finite(x: real) | NaN | PosInf | NegInf {

    /** math.IsNaN */
    predicate IsNaN() { NaN? }

    /** math.IsInf(f, 0): either infinity */
    predicate IsInf() { PosInf? || NegInf? }
  }
}
