/** Rounding to the nearest representable value, ties to the even neighbour. */
module Rounding {

  function Nearest(x: real): int {
    var f := x.Floor;
    var d := x - f as real;
    if d < 0.5 then f
    else if d > 0.5 then f + 1
    else if f % 2 == 0 then f
    else f + 1
  }

  /** Two decimals: how kilometres are published. */
  function Round2(x: real): real {
    Nearest(x * 100.0) as real / 100.0
  }

  /** One decimal: how shares and indices are published. */
  function Round1(x: real): real {
    Nearest(x * 10.0) as real / 10.0
  }

  lemma NearestError(x: real)
    ensures -0.5 <= Nearest(x) as real - x <= 0.5
  {
  }

  lemma NearestMonotone(x: real, y: real)
    requires x <= y
    ensures Nearest(x) <= Nearest(y)
  {
    assert x.Floor <= y.Floor;
  }

  lemma NearestOdd(x: real)
    ensures Nearest(-x) == -Nearest(x)
  {
    var f := x.Floor;
    assert (-x).Floor == if x == f as real then -f else -f - 1;
  }

  lemma Round2Error(x: real)
    ensures -0.005 <= Round2(x) - x <= 0.005
  {
    NearestError(x * 100.0);
  }

  lemma Round1Error(x: real)
    ensures -0.05 <= Round1(x) - x <= 0.05
  {
    NearestError(x * 10.0);
  }

  lemma Round1Monotone(x: real, y: real)
    requires x <= y
    ensures Round1(x) <= Round1(y)
  {
    NearestMonotone(x * 10.0, y * 10.0);
  }

  lemma Round2Monotone(x: real, y: real)
    requires x <= y
    ensures Round2(x) <= Round2(y)
  {
    NearestMonotone(x * 100.0, y * 100.0);
  }

  lemma Round2Odd(x: real)
    ensures Round2(-x) == -Round2(x)
  {
    assert (-x) * 100.0 == -(x * 100.0);
    NearestOdd(x * 100.0);
  }

  /** A published length is positive exactly beyond half a hundredth: the tie goes to zero. */
  lemma Round2Positive(x: real)
    ensures Round2(x) > 0.0 <==> x > 0.005
  {
    var y := x * 100.0;
    if x > 0.005 {
      assert y > 0.5;
      assert y.Floor >= 0;
      assert Nearest(y) >= 1;
    } else {
      assert y <= 0.5;
      NearestMonotone(y, 0.5);
      assert 0.5.Floor == 0;
      assert Nearest(0.5) == 0;
    }
  }
}
