/** Floating-point constants the solver uses, as exact reals. */
module NumericConstants {

  /** M_PI, the binary64 value closest to pi, written out exactly. */
  const PI: real := 3.141592653589793115997963468544185161590576171875

  /** DBL_MAX = (2 - 2^-52) * 2^1023, written out exactly. */
  const DBL_MAX: real := 179769313486231570814527423731704356798070567525844996598917476803157260780028538760589558632766878171540458953514382464234321326889464182768467546703537516986049910576551282076245490090389328944075868508455133942304583236903222948165808559332123348274797826204144723168738177180919299881250404026184124858368.0
}
