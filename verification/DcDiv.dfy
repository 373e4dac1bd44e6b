/** Long division of `dc` blocks. */
module DcDiv {
  import opened DcNumber
  import opened DcBlk
  import opened DcArith
  import opened DcQuotient

  // ----- leading digits ------------------------------------------------------------------

  /** The three leading digits, zeros standing in for missing ones. */
  function Lead3(s: seq<int>): int
    requires s != []
  {
    (s[|s| - 1] * 100 + AtInt(s, |s| - 2)) * 100 + AtInt(s, |s| - 3)
  }

  function AtInt(s: seq<int>, k: int): int { if 0 <= k < |s| then s[k] else 0 }

  /** A dividend under division: ordinary digits, except that the top one may be a folded one. */
  ghost predicate Folded(s: seq<int>)
  {
    s != [] && (forall i :: 0 <= i < |s| - 1 ==> 0 <= s[i] < 100) && 0 <= s[|s| - 1] < 128
  }

  lemma {:induction false} Lead3Split(s: seq<int>)
    requires |s| >= 3
    ensures Val(s) == Val(s[..|s| - 3]) + Pow100(|s| - 3) * Lead3(s)
    ensures Pow100(|s|) == 1000000 * Pow100(|s| - 3)
  {
    var k := |s| - 3;
    ValSplit(s, k);
    var t := s[k..];
    assert Val(t) == t[0] + 100 * Val(t[1..]);
    assert Val(t[1..]) == t[1] + 100 * Val(t[2..]);
    assert Val(t[2..]) == t[2];
    assert Pow100(k + 1) == 100 * Pow100(k);
    assert Pow100(k + 2) == 100 * Pow100(k + 1);
    assert Pow100(k + 3) == 100 * Pow100(k + 2);
  }

  lemma LeadArith(p: int, l: int, low: int)
    requires 0 <= low < p
    ensures l * (1000000 * p) <= 1000000 * (low + p * l) < (l + 1) * (1000000 * p)
  {
    assert l * (1000000 * p) == 1000000 * (p * l);
    assert (l + 1) * (1000000 * p) == 1000000 * (p * l) + 1000000 * p;
  }

  lemma {:induction false} Lead3Short(s: seq<int>)
    requires 1 <= |s| <= 2
    ensures Lead3(s) * Pow100(|s|) == 1000000 * Val(s) && Pow100(|s|) > 0
  {
    assert Pow100(1) == 100 && Pow100(2) == 10000;
    if |s| == 2 {
      assert Val(s) == s[0] + 100 * Val(s[1..]) && Val(s[1..]) == s[1];
    } else {
      assert Val(s) == s[0];
    }
  }

  /** The leading digits bound the number from both sides. */
  lemma {:induction false} Lead3Bounds(s: seq<int>)
    requires Folded(s)
    ensures Lead3(s) * Pow100(|s|) <= 1000000 * Val(s) < (Lead3(s) + 1) * Pow100(|s|)
  {
    if |s| >= 3 {
      Lead3Split(s);
      ValBound(s[..|s| - 3]);
      LeadArith(Pow100(|s| - 3), Lead3(s), Val(s[..|s| - 3]));
    } else {
      Lead3Short(s);
      var l, p := Lead3(s), Pow100(|s|);
      assert (l + 1) * p == l * p + p;
    }
  }

  /** What div keeps of the divisor: its two leading digits, or 8/100 of the three leading ones
      when the top digit is below 10. */
  function DivisorLead(s: seq<int>): int
    requires s != []
  {
    if s[|s| - 1] < 10 then Lead3(s) * 2 / 25 else s[|s| - 1] * 100 + AtInt(s, |s| - 2)
  }

  ghost predicate Divisor(s: seq<int>)
  {
    s != [] && Digits(s) && Trim(s)
  }

  /** The two ends between which the divisor lies, in units. */
  function LeadLow(s: seq<int>): int
    requires s != []
  {
    if s[|s| - 1] < 10 then 25 * DivisorLead(s) else 200 * DivisorLead(s)
  }

  function LeadHigh(s: seq<int>): int
    requires s != []
  {
    if s[|s| - 1] < 10 then 25 * DivisorLead(s) + 26 else 200 * DivisorLead(s) + 200
  }

  lemma {:induction false} DivisorBounds(s: seq<int>)
    requires Divisor(s)
    ensures s[|s| - 1] < 10 ==> DivisorLead(s) >= 800
    ensures s[|s| - 1] >= 10 ==> DivisorLead(s) >= 1000
    ensures LeadLow(s) <= 2 * Lead3(s) && 2 * Lead3(s) + 2 <= LeadHigh(s)
  {
  }

  lemma DividendUnits(u: int, td: int, a: int)
    requires td * (100 * u) <= 1000000 * a < (td + 1) * (100 * u)
    ensures 200 * td * u <= 2000000 * a < (200 * td + 200) * u
  {
    var m := td * u;
    assert td * (100 * u) == 100 * m && (td + 1) * (100 * u) == 100 * m + 100 * u;
    assert 200 * td * u == 200 * m && (200 * td + 200) * u == 200 * m + 200 * u;
  }

  /** Dividend a, divisor v and place value o, put in the units of the digit guesses. */
  lemma {:induction false} LeadingHolds(d: seq<int>, v: seq<int>, offset: nat)
    requires Folded(d) && Divisor(v) && |d| == |v| + offset + 1
    ensures Leading(2000000 * Val(d), 2000000 * (Val(v) * Pow100(offset)), Pow100(|v|) * Pow100(offset),
                    Lead3(d), LeadLow(v), LeadHigh(v))
  {
    var p, o := Pow100(|v|), Pow100(offset);
    PowAdd(|v|, offset);
    Lead3Bounds(d);
    Lead3Bounds(v);
    DivisorBounds(v);
    assert Pow100(|d|) == 100 * (p * o);
    DividendUnits(p * o, Lead3(d), Val(d));
    ShiftBounds(p, o, Lead3(v), Val(v), LeadLow(v), LeadHigh(v));
    MulPos(p, o);
    assert Lead3(d) >= 0;
  }

  lemma ShiftBounds(p: int, o: int, t: int, y: int, lo: int, hi: int)
    requires p >= 1 && o >= 1 && t * p <= 1000000 * y < (t + 1) * p && lo <= 2 * t && 2 * t + 2 <= hi
    ensures lo * (p * o) <= 2000000 * (y * o) <= hi * (p * o)
  {
    var u := p * o;
    assert u > 0;
    MulLe(t * p, 1000000 * y, o);
    MulLe(1000000 * y, (t + 1) * p, o);
    assert (t * p) * o == t * u && ((t + 1) * p) * o == t * u + u;
    assert (1000000 * y) * o == 1000000 * (y * o);
    MulLe(lo, 2 * t, u);
    MulLe(2 * t + 2, hi, u);
    assert (2 * t) * u == 2 * (t * u) && (2 * t + 2) * u == 2 * (t * u) + 2 * u;
  }

  // ----- guessing a digit ----------------------------------------------------------------

  /** The guess and whether it was taken one down. */
  function Guess(td3: int, c: int, magic: bool, last: bool): (r: (int, bool))
    requires c >= 1
  {
    var td := if last then td3 + 1 else td3;
    var cc := if last then c else c + 1;
    var td' := if magic then 8 * td else td;
    if td' % cc < 8 && td' / cc > 0 && magic then (td' / cc - 1, true) else (td' / cc, false)
  }

  ghost function GuessFor(d: seq<int>, v: seq<int>, offset: nat): (r: (int, bool))
    requires d != [] && Divisor(v)
  {
    DivisorBounds(v);
    Guess(Lead3(d), DivisorLead(v), v[|v| - 1] < 10, offset == 0)
  }

  lemma MiddleGuess(X: int, Y: int, U: int, td: int, c: int, magic: bool)
    requires if magic then c >= 800 && Leading(X, Y, U, td, 25 * c, 25 * c + 26)
             else c >= 1000 && Leading(X, Y, U, td, 200 * c, 200 * c + 200)
    requires X < 117 * Y
    ensures var dig := Guess(td, c, magic, false).0;
      0 <= dig <= 117 && dig * Y <= X && 100 * X < (100 * dig + 117) * Y
  {
    if magic {
      var dig, r := (8 * td) / (c + 1), (8 * td) % (c + 1);
      if r < 8 && dig > 0 {
        MiddleReduced(X, Y, U, td, c, dig, r);
      } else {
        MiddleScaled(X, Y, U, td, c, dig, r);
      }
    } else {
      MiddlePlain(X, Y, U, td, c, td / (c + 1), td % (c + 1));
    }
  }

  lemma LastGuess(X: int, Y: int, U: int, td: int, c: int, magic: bool)
    requires if magic then c >= 800 && Leading(X, Y, U, td, 25 * c, 25 * c + 26)
             else c >= 1000 && Leading(X, Y, U, td, 200 * c, 200 * c + 200)
    requires X < 117 * Y
    ensures var (dig, under) := Guess(td, c, magic, true); var g := if under then dig + 1 else dig;
      0 <= dig <= 117 && (g - 1) * Y <= X && 100 * X < (100 * g + 100) * Y
  {
    if magic {
      LastScaled(X, Y, U, td, c, (8 * (td + 1)) / c, (8 * (td + 1)) % c);
    } else {
      LastPlain(X, Y, U, td, c, (td + 1) / c, (td + 1) % c);
    }
  }

  /** An inequality in units of two million holds of the plain values. */
  lemma Unscale(g: int, a: int, h: int, y: int)
    requires g * (2000000 * a) <= h * (2000000 * y)
    ensures g * a <= h * y
  {
    assert g * (2000000 * a) == 2000000 * (g * a) && h * (2000000 * y) == 2000000 * (h * y);
  }

  lemma UnscaleLt(g: int, a: int, h: int, y: int)
    requires g * (2000000 * a) < h * (2000000 * y)
    ensures g * a < h * y
  {
    assert g * (2000000 * a) == 2000000 * (g * a) && h * (2000000 * y) == 2000000 * (h * y);
  }

  /** Every digit but the last: the guess never exceeds the true digit, and what is left is less
      than 1.17 times the shifted divisor. */
  lemma {:induction false} GuessMiddle(d: seq<int>, v: seq<int>, offset: nat)
    requires Folded(d) && Divisor(v) && |d| == |v| + offset + 1 && offset > 0
    requires Val(d) < 117 * (Val(v) * Pow100(offset))
    ensures var dig := GuessFor(d, v, offset).0; var y := Val(v) * Pow100(offset);
      0 <= dig <= 117 && dig * y <= Val(d) && 100 * Val(d) < (100 * dig + 117) * y
  {
    LeadingHolds(d, v, offset);
    DivisorBounds(v);
    var a, y := Val(d), Val(v) * Pow100(offset);
    MiddleGuess(2000000 * a, 2000000 * y, Pow100(|v|) * Pow100(offset), Lead3(d), DivisorLead(v), v[|v| - 1] < 10);
    var dig := GuessFor(d, v, offset).0;
    Unscale(dig, y, 1, a);
    UnscaleLt(100, a, 100 * dig + 117, y);
  }

  lemma LastDown(a: int, y: int, g: int)
    requires (g - 1) * (2000000 * y) <= 2000000 * a && 100 * (2000000 * a) < (100 * g + 100) * (2000000 * y)
    ensures (g - 1) * y <= a < (g + 1) * y
  {
    Unscale(g - 1, y, 1, a);
    UnscaleLt(100, a, 100 * g + 100, y);
    assert (100 * g + 100) * y == 100 * ((g + 1) * y);
  }

  /** The last digit: the guess is the true digit or one more, or, when taken down, the true digit
      or one less. */
  lemma {:induction false} GuessLast(d: seq<int>, v: seq<int>)
    requires Folded(d) && Divisor(v) && |d| == |v| + 1 && Val(d) < 117 * Val(v)
    ensures var (dig, under) := GuessFor(d, v, 0); var g := if under then dig + 1 else dig;
      0 <= dig <= 117 && (g - 1) * Val(v) <= Val(d) < (g + 1) * Val(v)
  {
    LeadingHolds(d, v, 0);
    DivisorBounds(v);
    var a, y := Val(d), Val(v);
    assert y * Pow100(0) == y;
    LastGuess(2000000 * a, 2000000 * y, Pow100(|v|) * Pow100(0), Lead3(d), DivisorLead(v), v[|v| - 1] < 10);
    var (dig, under) := GuessFor(d, v, 0);
    var g := if under then dig + 1 else dig;
    LastDown(a, y, g);
  }
}
