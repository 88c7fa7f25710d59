/**
 * The integer arithmetic the ruler draws with: the fade of a tick with its
 * distance from the centre line, and how far from the centre the two side
 * labels sit.
 */
module LayoutMath {
  import opened JavaInt

  /** 255/3 in Java's integer division: the alpha of the two side labels. */
  const SideLabelAlpha: int := 85

  /**
   * The alpha of a tick at `pos`: 255 minus 255 times its distance from the
   * centre divided by the centre (Java integer arithmetic on non-negative
   * operands), never below 0. It is opaque only within 1/255 of the centre
   * and fully transparent exactly at or beyond the view's edges.
   */
  function Alpha(pos: int, center: int): (alpha: int)
    requires center > 0
    ensures 0 <= alpha <= 255
    ensures alpha == 255 <==> 255 * Abs(pos - center) < center
    ensures alpha == 0 <==> Abs(pos - center) >= center
  {
    var x := Abs(pos - center);
    DivAtLeast(255 * x, center, 255);
    DivAtLeast(255 * x, center, 1);
    DivAtLeast(255 * x, center, 0);
    var faded := 255 - 255 * x / center;
    if faded >= 0 then faded else 0
  }

  /** Multiplying by a non-negative number keeps order. */
  lemma MulMono(a: int, b: int, c: int)
    requires a <= b && c >= 0
    ensures a * c <= b * c
  {
    assert (b - a) * c >= 0;
    assert (b - a) * c == b * c - a * c;
  }

  /** Dividing by a positive number reaches `k` exactly when the dividend reaches `k` times it. */
  lemma DivAtLeast(y: int, c: int, k: int)
    requires c > 0 && y >= 0 && k >= 0
    ensures y / c >= k <==> y >= k * c
  {
    var q := y / c;
    assert y == q * c + y % c;
    if q >= k {
      MulMono(k, q, c);
    } else {
      MulMono(q + 1, k, c);
      assert (q + 1) * c == q * c + c;
    }
  }

  /** Division by a positive number is monotone. */
  lemma DivMonotone(x: int, y: int, c: int)
    requires c > 0 && 0 <= x <= y
    ensures x / c <= y / c
  {
    var qx, qy := x / c, y / c;
    assert x == qx * c + x % c;
    assert y == qy * c + y % c;
    assert (qy + 1) * c == qy * c + c;
    if qx > qy {
      MulMono(qy + 1, qx, c);
    }
  }

  /** Alpha never grows as the distance from the centre grows. */
  lemma AlphaFades(p1: int, p2: int, center: int)
    requires center > 0
    requires Abs(p1 - center) <= Abs(p2 - center)
    ensures Alpha(p2, center) <= Alpha(p1, center)
  {
    DivMonotone(255 * Abs(p1 - center), 255 * Abs(p2 - center), center);
  }

  /**
   * `(int) Math.ceil(halfNum * 1f / textInterval - 1)`: how many label
   * intervals fit strictly inside the half ruler. The label offset
   * `k * textInterval` is the largest multiple of the interval below halfNum.
   */
  function LabelSteps(halfNum: int, textInterval: int): (k: int)
    requires halfNum >= 0 && textInterval > 0
    ensures k * textInterval < halfNum <= (k + 1) * textInterval
  {
    var n := (halfNum + textInterval - 1) / textInterval;
    assert halfNum + textInterval - 1 == n * textInterval + (halfNum + textInterval - 1) % textInterval;
    assert (n - 1) * textInterval == n * textInterval - textInterval;
    n - 1
  }

  /** Labels are drawn at all exactly when the half ruler is longer than one label interval. */
  lemma LabelsShownIff(halfNum: int, textInterval: int)
    requires halfNum >= 0 && textInterval > 0
    ensures LabelSteps(halfNum, textInterval) > 0 <==> halfNum > textInterval
  {
    var k := LabelSteps(halfNum, textInterval);
    if k >= 1 {
      MulMono(1, k, textInterval);
    } else {
      MulMono(k + 1, 1, textInterval);
    }
  }

  function Max(a: int, b: int): int {
    if a >= b then a else b
  }

  function Min(a: int, b: int): int {
    if a <= b then a else b
  }

  /** The number of integers from lo to hi inclusive. */
  function Count(lo: int, hi: int): nat {
    if lo <= hi then hi - lo + 1 else 0
  }
}
