/** Go's integer division, which truncates toward zero (Dafny's `/` is Euclidean). */
module GoArith {

  /** `a / b` as Go evaluates it on signed integers with a positive divisor. */
  function Div(a: int, b: int): (q: int)
    requires b > 0
    ensures 0 <= a ==> 0 <= q * b <= a < q * b + b
    ensures a < 0 ==> q * b - b < a <= q * b <= 0
  {
    if a >= 0 then
      var q := a / b;
      assert a == q * b + a % b && 0 <= a % b < b;
      assert 0 <= q by { if q < 0 { MulNegative(q, b); } }
      q
    else
      var p := (-a) / b;
      assert -a == p * b + (-a) % b && 0 <= (-a) % b < b;
      assert (-p) * b == -(p * b);
      assert 0 <= p by { if p < 0 { MulNegative(p, b); } }
      -p
  }

  lemma MulNegative(q: int, b: int)
    requires q < 0 < b
    ensures q * b <= -b
  {
  }
}
