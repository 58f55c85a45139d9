/**
  JavaScript numbers, as far as the codec needs them: NaN, the two
  infinities and finite values. Finite values are exact reals; rounding and
  the sign of zero are not modelled.
*/
module Numbers {

  datatype Float = NaN | PosInf | NegInf | Finite(r: real)

  /** Number.MAX_VALUE, (2^53 - 1) * 2^971. */
  const MaxValue: real := 179769313486231570814527423731704356798070567525844996598917476803157260780028538760589558632766878171540458953514382464234321326889464182768467546703537516986049910576551282076245490090389328944075868508455133942304583236903222948165808559332123348274797826204144723168738177180919299881250404026184124858368.0

  /** The value an integer takes as a JavaScript number. */
  function FromInt(i: int): Float {
    Finite(i as real)
  }

  /** Integers widened to numbers, element by element. */
  function FromInts(ints: seq<int>): (r: seq<Float>)
    ensures |r| == |ints| && forall i :: 0 <= i < |ints| ==> r[i] == FromInt(ints[i])
  {
    seq(|ints|, i requires 0 <= i < |ints| => FromInt(ints[i]))
  }
}
