/** The few facts about double-precision values that the fitter relies on. */
module Floats {

  /** `sys.float_info.max`, the largest finite double, exactly 2^1024 - 2^971. */
  const MaxFloat: real := 179769313486231570814527423731704356798070567525844996598917476803157260780028538760589558632766878171540458953514382464234321326889464182768467546703537516986049910576551282076245490090389328944075868508455133942304583236903222948165808559332123348274797826204144723168738177180919299881250404026184124858368.0

  /** `-sys.float_info.max`: the log-likelihood of a failed evaluation. */
  const Sentinel: real := -MaxFloat

  /** A real a double holds without overflowing to an infinity (`np.isfinite`). */
  predicate IsFinite(x: real) {
    -MaxFloat <= x <= MaxFloat
  }

  /** A product of two reals, named so that facts about it are proved once and reused. */
  function Mul(a: real, b: real): real {
    a * b
  }

  /** A product of two factors of the same sign is positive. */
  lemma MulSameSign(a: real, b: real)
    requires (0.0 < a && 0.0 < b) || (a < 0.0 && b < 0.0)
    ensures 0.0 < Mul(a, b)
  {
    if a < 0.0 {
      assert Mul(a, b) == (-a) * (-b);
    }
  }

  /** A log-probability: a finite double, or the `-np.inf` of a rejected prior. */
  datatype LogP = NegInf | Fin(v: real) {

    /** `this > x` for a finite `x`; `-inf` is above nothing. */
    predicate Above(x: real) {
      Fin? && v > x
    }
  }
}
