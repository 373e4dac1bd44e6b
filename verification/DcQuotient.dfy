/** The numeric argument behind `div`'s guesses of quotient digits.

    A guess is taken from the three leading digits of the dividend and the leading digits of the
    divisor. Below, X and Y stand for the dividend and the shifted divisor, each times two
    million; U is the unit in which the leading digits count, 200 units for the third digit. */
module DcQuotient {

  lemma MulLe(a: int, b: int, u: int)
    requires 0 <= u && a <= b
    ensures a * u <= b * u
  {
  }

  lemma MulLt(a: int, b: int, u: int)
    requires 0 < u && a < b
    ensures a * u < b * u
  {
  }

  lemma MulLtInv(a: int, b: int, u: int)
    requires 0 < u && a * u < b * u
    ensures a < b
  {
    if a >= b {
      MulLe(b, a, u);
    }
  }

  /** dig * Y is below (dig * k) * U when Y is below k * U. */
  lemma Scale(dig: int, k: int, U: int, Y: int)
    requires 0 <= dig
    ensures Y <= k * U ==> dig * Y <= (dig * k) * U
    ensures Y >= k * U ==> dig * Y >= (dig * k) * U
  {
    assert dig * (k * U) == (dig * k) * U;
    if Y <= k * U {
      MulLe(Y, k * U, dig);
    }
    if Y >= k * U {
      MulLe(k * U, Y, dig);
    }
  }

  /** What the leading digits say about the operands: td for the dividend, and the divisor lies
      between lo and hi units. */
  ghost predicate Leading(X: int, Y: int, U: int, td: int, lo: int, hi: int)
  {
    U > 0 && td >= 0 && lo > 0 && 200 * td * U <= X < (200 * td + 200) * U && lo * U <= Y <= hi * U
  }

  /** A guess is at most k when k + 1 would already overshoot. */
  lemma GuessBound(X: int, Y: int, U: int, td: int, lo: int, hi: int)
    requires Leading(X, Y, U, td, lo, hi) && X < 117 * Y
    ensures 200 * td < 117 * hi
  {
    Scale(117, hi, U, Y);
    MulLtInv(200 * td, 117 * hi, U);
  }

  /** From units back to values: below and above. */
  lemma Below(X: int, Y: int, U: int, td: int, lo: int, hi: int, dig: int)
    requires Leading(X, Y, U, td, lo, hi) && 0 <= dig && dig * hi <= 200 * td
    ensures dig * Y <= X
  {
    Scale(dig, hi, U, Y);
    MulLe(dig * hi, 200 * td, U);
  }

  lemma Above(X: int, Y: int, U: int, td: int, lo: int, hi: int, num: int)
    requires Leading(X, Y, U, td, lo, hi) && 0 <= num && 100 * (200 * td + 200) <= num * lo
    ensures 100 * X < num * Y
  {
    Scale(num, lo, U, Y);
    MulLe(100 * (200 * td + 200), num * lo, U);
    assert (100 * (200 * td + 200)) * U == 100 * ((200 * td + 200) * U);
  }

  /** dig full divisors d in n, with n below 118 of them. */
  lemma DigitRange(n: int, d: int, dig: int, r: int)
    requires d > 0 && n == dig * d + r && 0 <= r < d && 0 <= n < 118 * d
    ensures 0 <= dig <= 117
  {
    if dig >= 118 {
      MulLe(118, dig, d);
    } else if dig < 0 {
      MulLe(dig, -1, d);
    }
  }

  /** A middle digit, divisor's top digit at least 10: the guess never exceeds the true digit and
      leaves less than 1.17 divisors. */
  lemma MiddlePlain(X: int, Y: int, U: int, td: int, c: int, dig: int, r: int)
    requires c >= 1000 && Leading(X, Y, U, td, 200 * c, 200 * c + 200) && X < 117 * Y
    requires td == dig * (c + 1) + r && 0 <= r <= c
    ensures 0 <= dig <= 117 && dig * Y <= X && 100 * X < (100 * dig + 117) * Y
  {
    GuessBound(X, Y, U, td, 200 * c, 200 * c + 200);
    DigitRange(td, c + 1, dig, r);
    var m := dig * c;
    assert dig * (c + 1) == m + dig;
    assert dig * (200 * c + 200) == 200 * m + 200 * dig;
    Below(X, Y, U, td, 200 * c, 200 * c + 200, dig);
    assert (100 * dig + 117) * (200 * c) == 20000 * m + 23400 * c;
    Above(X, Y, U, td, 200 * c, 200 * c + 200, 100 * dig + 117);
  }

  /** The same with the divisor scaled by 8, when the division leaves at least 8. */
  lemma MiddleScaled(X: int, Y: int, U: int, td: int, c: int, dig: int, r: int)
    requires c >= 800 && Leading(X, Y, U, td, 25 * c, 25 * c + 26) && X < 117 * Y
    requires 8 * td == dig * (c + 1) + r && 0 <= r <= c && (r >= 8 || dig <= 0)
    ensures 0 <= dig <= 117 && dig * Y <= X && 100 * X < (100 * dig + 117) * Y
  {
    GuessBound(X, Y, U, td, 25 * c, 25 * c + 26);
    DigitRange(8 * td, c + 1, dig, r);
    var m := dig * c;
    assert dig * (c + 1) == m + dig;
    assert dig * (25 * c + 26) == 25 * m + 26 * dig;
    Below(X, Y, U, td, 25 * c, 25 * c + 26, dig);
    assert (100 * dig + 117) * (25 * c) == 2500 * m + 2925 * c;
    Above(X, Y, U, td, 25 * c, 25 * c + 26, 100 * dig + 117);
  }

  /** The same when it leaves less than 8: `div` takes one off. */
  lemma MiddleReduced(X: int, Y: int, U: int, td: int, c: int, dig: int, r: int)
    requires c >= 800 && Leading(X, Y, U, td, 25 * c, 25 * c + 26) && X < 117 * Y
    requires 8 * td == dig * (c + 1) + r && 0 <= r < 8 && dig > 0
    ensures 0 <= dig - 1 <= 117 && (dig - 1) * Y <= X && 100 * X < (100 * (dig - 1) + 117) * Y
  {
    GuessBound(X, Y, U, td, 25 * c, 25 * c + 26);
    DigitRange(8 * td, c + 1, dig, r);
    var m := dig * c;
    assert dig * (c + 1) == m + dig;
    assert (dig - 1) * (25 * c + 26) == 25 * m + 26 * dig - 25 * c - 26;
    Below(X, Y, U, td, 25 * c, 25 * c + 26, dig - 1);
    assert (100 * (dig - 1) + 117) * (25 * c) == 2500 * m + 425 * c;
    Above(X, Y, U, td, 25 * c, 25 * c + 26, 100 * (dig - 1) + 117);
  }

  /** The last digit, divisor's top digit at least 10: the guess is the true digit or one more. */
  lemma LastPlain(X: int, Y: int, U: int, td: int, c: int, dig: int, r: int)
    requires c >= 1000 && Leading(X, Y, U, td, 200 * c, 200 * c + 200) && X < 117 * Y
    requires td + 1 == dig * c + r && 0 <= r < c
    ensures 0 <= dig <= 117 && (dig - 1) * Y <= X && 100 * X < (100 * dig + 100) * Y
  {
    GuessBound(X, Y, U, td, 200 * c, 200 * c + 200);
    DigitRange(td + 1, c, dig, r);
    var m := dig * c;
    assert (100 * dig + 100) * (200 * c) == 20000 * m + 20000 * c;
    Above(X, Y, U, td, 200 * c, 200 * c + 200, 100 * dig + 100);
    LastLow(X, Y, U, td, 200 * c, 200, dig) by {
      assert dig * (200 * c) == 200 * m;
    }
  }

  lemma LastLow(X: int, Y: int, U: int, td: int, lo: int, slack: int, dig: int)
    requires Leading(X, Y, U, td, lo, lo + slack) && 0 <= slack && 0 <= dig
    requires dig * lo <= 200 * td + 200 && 200 + slack * dig <= lo + slack
    ensures (dig - 1) * Y <= X
  {
    if dig >= 1 {
      var m := dig * lo;
      assert (dig - 1) * (lo + slack) == m - lo + slack * dig - slack;
      Below(X, Y, U, td, lo, lo + slack, dig - 1);
    } else {
      assert 0 <= lo * U;
      assert (0 - 1) * Y <= 0;
      assert 0 <= 200 * td * U;
    }
  }

  /** The last digit with the divisor scaled by 8. */
  lemma LastScaled(X: int, Y: int, U: int, td: int, c: int, dig: int, r: int)
    requires c >= 800 && Leading(X, Y, U, td, 25 * c, 25 * c + 26) && X < 117 * Y
    requires 8 * (td + 1) == dig * c + r && 0 <= r < c
    ensures 0 <= dig <= 117 && (dig - 1) * Y <= X && 100 * X < (100 * dig + 100) * Y
  {
    GuessBound(X, Y, U, td, 25 * c, 25 * c + 26);
    DigitRange(8 * (td + 1), c, dig, r);
    var m := dig * c;
    assert (100 * dig + 100) * (25 * c) == 2500 * m + 2500 * c;
    Above(X, Y, U, td, 25 * c, 25 * c + 26, 100 * dig + 100);
    assert dig * (25 * c) == 25 * m;
    LastLow(X, Y, U, td, 25 * c, 26, dig);
  }
}
