/**
 * Java's integer division and remainder (section 15.17.2 and 15.17.3 of the
 * Java Language Specification). Both truncate toward zero, so the remainder
 * takes the sign of the dividend; Dafny's own `/` and `%` are Euclidean and
 * differ from Java's whenever the dividend is negative.
 */
module JavaInt {

  function Abs(x: int): (r: nat)
    ensures r == x || r == -x
  {
    if x >= 0 then x else -x
  }

  /** Java's `a / b` for a positive divisor: the quotient truncated toward zero. */
  function Div(a: int, b: int): (q: int)
    requires b > 0
    ensures a >= 0 ==> 0 <= q * b <= a < q * b + b
    ensures a <= 0 ==> q * b - b < a <= q * b <= 0
  {
    if a >= 0 then a / b else -((-a) / b)
  }

  /** Java's `a % b` for a positive divisor: what is left after Div. */
  function Rem(a: int, b: int): (r: int)
    requires b > 0
    ensures Div(a, b) * b + r == a
    ensures -b < r < b
    ensures a >= 0 ==> r >= 0
    ensures a <= 0 ==> r <= 0
  {
    if a >= 0 then a % b else -((-a) % b)
  }

  /** A value already strictly inside (-b, b) is its own remainder. */
  lemma RemOfSmall(a: int, b: int)
    requires b > 0 && -b < a < b
    ensures Rem(a, b) == a && Div(a, b) == 0
  {
  }

  /** A multiple of b leaves no Euclidean remainder. */
  lemma MultipleHasNoRemainder(k: int, b: int)
    requires b > 0
    ensures (k * b) % b == 0
  {
    var n := k - (k * b) / b;
    assert (k * b) % b == n * b;
    assert n >= 1 ==> n * b >= b;
    assert n <= -1 ==> n * b <= -b;
  }

  /** Java's remainder is zero exactly when Dafny's is: both mean "b divides a". */
  lemma RemZeroIff(a: int, b: int)
    requires b > 0
    ensures Rem(a, b) == 0 <==> a % b == 0
  {
    if a < 0 {
      if (-a) % b == 0 {
        var q := (-a) / b;
        assert a == (-q) * b;
        MultipleHasNoRemainder(-q, b);
      }
      if a % b == 0 {
        var q := a / b;
        assert -a == (-q) * b;
        MultipleHasNoRemainder(-q, b);
      }
    }
  }
}
