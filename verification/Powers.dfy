/** Powers of reals. */
module Powers {
  function Power(b: real, n: nat): real {
    if n == 0 then 1.0 else Power(b, n - 1) * b
  }

  lemma {:induction false} PowerMonotone(x: real, y: real, n: nat)
    requires 0.0 <= x <= y
    ensures 0.0 <= Power(x, n) <= Power(y, n)
  {
    if n > 0 {
      PowerMonotone(x, y, n - 1);
      ProductMonotone(Power(x, n - 1), Power(y, n - 1), x, y);
    }
  }

  lemma ProductMonotone(a: real, b: real, x: real, y: real)
    requires 0.0 <= a <= b && 0.0 <= x <= y
    ensures 0.0 <= a * x <= b * y
  {
    assert b * y - a * x == b * (y - x) + (b - a) * x;
  }

  lemma ProductStrict(a: real, b: real, x: real, y: real)
    requires 0.0 <= a < b && 0.0 <= x < y
    ensures a * x < b * y
  {
    assert b * y - a * x == b * (y - x) + (b - a) * x;
    assert b * (y - x) > 0.0;
  }

  lemma PowerOne(x: real)
    ensures Power(x, 1) == x
  {
    assert Power(x, 0) == 1.0;
  }

  lemma {:induction false} PowerStrict(x: real, y: real, n: nat)
    requires 0.0 <= x < y && n > 0
    ensures 0.0 <= Power(x, n) < Power(y, n)
  {
    if n == 1 {
      PowerOne(x);
      PowerOne(y);
    } else {
      PowerStrict(x, y, n - 1);
      ProductStrict(Power(x, n - 1), Power(y, n - 1), x, y);
      PowerMonotone(x, y, n);
    }
  }

  lemma {:induction false} PowerAdds(x: real, m: nat, n: nat)
    ensures Power(x, m + n) == Power(x, m) * Power(x, n)
  {
    if n > 0 {
      PowerAdds(x, m, n - 1);
      assert Power(x, m) * Power(x, n - 1) * x == Power(x, m) * (Power(x, n - 1) * x);
    }
  }

  /** Powers order non-negative numbers as the numbers themselves. */
  lemma PowerOrder(x: real, y: real, n: nat)
    requires 0.0 <= x && 0.0 <= y && n > 0
    ensures Power(x, n) <= Power(y, n) <==> x <= y
    ensures Power(x, n) < Power(y, n) <==> x < y
  {
    if x < y {
      PowerStrict(x, y, n);
    } else if y < x {
      PowerStrict(y, x, n);
    }
  }
}
