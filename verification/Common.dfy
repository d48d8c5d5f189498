/** Small shared datatypes and conversions. */
module Common {

  datatype Option<+T> = None | Some(value: T)

  /** Go's conversion of a float to an integer: rounding toward zero. */
  function Trunc(x: real): (n: int)
    ensures x >= 0.0 ==> n as real <= x < n as real + 1.0
    ensures x < 0.0 ==> n as real - 1.0 < x <= n as real
  {
    if x >= 0.0 then x.Floor else -((-x).Floor)
  }

  /** Go's integer division: rounding toward zero. */
  function Quot(a: int, b: int): int
    requires b != 0
  {
    if (a >= 0) == (b > 0) || a % b == 0 then
      (if a >= 0 then a / b else if b > 0 then -((-a) / b) else (-a) / (-b))
    else if a >= 0 then -(a / -b) else -((-a) / b)
  }

  /** The remainder is smaller than the divisor and has the sign of the dividend. */
  lemma QuotRoundsTowardZero(a: int, b: int)
    requires b != 0
    ensures var r := a - b * Quot(a, b);
            (a >= 0 ==> 0 <= r < if b > 0 then b else -b) && (a <= 0 ==> (if b > 0 then -b else b) < r <= 0)
  {
    if a >= 0 {
      PositiveQuotient(a, b, if b > 0 then b else -b);
    } else {
      PositiveQuotient(-a, b, if b > 0 then b else -b);
      assert Quot(a, b) == -Quot(-a, b);
      assert b * -Quot(-a, b) == -(b * Quot(-a, b));
    }
  }

  lemma PositiveQuotient(a: int, b: int, size: int)
    requires a >= 0 && b != 0 && size == if b > 0 then b else -b
    ensures 0 <= a - b * Quot(a, b) < size
  {
    var q := a / size;
    assert Quot(a, b) == if b > 0 then q else -q;
    assert b * Quot(a, b) == size * q;
  }
}
