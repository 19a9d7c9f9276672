/** Reals compared and rounded the way the sources do. */
module Numbers {
  function Min(a: real, b: real): real {
    if b < a then b else a
  }

  function Max(a: real, b: real): real {
    if b > a then b else a
  }

  function Abs(a: real): real {
    if a < 0.0 then -a else a
  }

  /** The nearest integer, ties to even. */
  function NearestEven(x: real): (n: int)
    ensures -0.5 <= n as real - x <= 0.5
  {
    var low := x.Floor;
    var above := x - low as real;
    if above < 0.5 || (above == 0.5 && low % 2 == 0) then low else low + 1
  }
}
