/** The number a text begins with, read by its grammar, and its normal form. */
module SortDecimal {
  import opened SortKey
  import opened SortNumber

  type Text = seq<Octet>

  const ZERO: Octet := 48
  const POINT: Octet := 46

  predicate IsBlank(c: Octet) { c == 32 || c == 9 }

  predicate IsSign(c: Octet) { c == 43 || c == 45 }

  predicate IsDigit(c: Octet) { 48 <= c <= 57 }

  predicate IsE(c: Octet) { c == 101 || c == 69 }

  function DigitOf(c: Octet): Digit
    requires IsDigit(c)
  {
    var d: int := c;
    d - 48
  }

  function SkipBlanks(s: Text): Text { if s != [] && IsBlank(s[0]) then SkipBlanks(s[1..]) else s }

  /** The digits at the front. */
  function Digits(s: Text): seq<Digit> { if s != [] && IsDigit(s[0]) then [DigitOf(s[0])] + Digits(s[1..]) else [] }

  function AfterDigits(s: Text): Text { if s != [] && IsDigit(s[0]) then AfterDigits(s[1..]) else s }

  /** Digits before and after the point, and the exponent. */
  datatype Number = Number(neg: bool, whole: seq<Digit>, frac: seq<Digit>, exp: int)

  function Int10(s: seq<Digit>): int { if s == [] then 0 else Int10(s[..|s| - 1]) * 10 + s[|s| - 1] }

  function Value(n: Number): real
  {
    var v := Times(Int10(n.whole) as real + Frac(n.frac), P(n.exp));
    if n.neg then -v else v
  }

  predicate AllZero(s: seq<Digit>) { forall i :: 0 <= i < |s| ==> s[i] == 0 }

  // ----- reading -------------------------------------------------------------------------

  function ReadExpDigits(n: Number, down: bool, ds: seq<Digit>, rest: Text): Number
  {
    var e := Int10(ds + Digits(rest));
    n.(exp := if down then -e else e)
  }

  function ReadExp(n: Number, rest: Text): Number
  {
    if rest != [] && IsSign(rest[0]) then ReadExpDigits(n, rest[0] == 45, [], rest[1..])
    else ReadExpDigits(n, false, [], rest)
  }

  /** An exponent, where it is allowed and the digits are not all zero. */
  function ReadTail(n: Number, rest: Text, g: bool): Number
  {
    if g && !AllZero(n.whole + n.frac) && rest != [] && IsE(rest[0]) then ReadExp(n, rest[1..]) else n
  }

  function ReadFrac(neg: bool, w: seq<Digit>, f: seq<Digit>, rest: Text, g: bool): Number
  {
    ReadTail(Number(neg, w, f + Digits(rest), 0), AfterDigits(rest), g)
  }

  function ReadWhole(neg: bool, w: seq<Digit>, rest: Text, g: bool): Number
  {
    var w', r := w + Digits(rest), AfterDigits(rest);
    if r != [] && r[0] == POINT then ReadFrac(neg, w', [], r[1..], g) else ReadTail(Number(neg, w', [], 0), r, g)
  }

  function ReadSign(neg: bool, rest: Text, g: bool): Number { ReadWhole(neg, [], SkipBlanks(rest), g) }

  /** Blanks, a sign, blanks, digits, a point, digits, an exponent, each as far as it is there. */
  function Read(s: Text, g: bool): Number
  {
    var r := SkipBlanks(s);
    if r != [] && IsSign(r[0]) then ReadSign(r[0] == 45, r[1..], g) else ReadWhole(false, [], r, g)
  }

  // ----- normal form ---------------------------------------------------------------------

  /** How many zeros s begins with. */
  function Lead(s: seq<Digit>): (k: nat)
    ensures k <= |s| && (forall i :: 0 <= i < k ==> s[i] == 0) && (k < |s| ==> s[k] > 0)
  {
    if s == [] || s[0] > 0 then 0 else
      var k := Lead(s[1..]);
      assert forall i :: 0 < i < k + 1 ==> s[i] == s[1..][i - 1];
      k + 1
  }

  /** How many zeros s ends with. */
  function Trail(s: seq<Digit>): (k: nat)
    ensures k <= |s| && (forall i :: |s| - k <= i < |s| ==> s[i] == 0) && (k < |s| ==> s[|s| - k - 1] > 0)
  {
    if s == [] || s[|s| - 1] > 0 then 0 else Trail(s[..|s| - 1]) + 1
  }

  function Strip(s: seq<Digit>): seq<Digit> { s[..|s| - Trail(s)] }

  function Normal(n: Number): Norm
  {
    var ds := n.whole + n.frac;
    var z := Lead(ds);
    if z == |ds| then Zero else Num(n.neg, Strip(ds[z..]), |n.whole| - z + n.exp)
  }

  lemma NormalOk(n: Number)
    ensures NormOk(Normal(n))
  {
    var ds := n.whole + n.frac;
    var z := Lead(ds);
    if z < |ds| {
      var s := ds[z..];
      assert s[0] > 0;
      assert Trail(s) < |s|;
    }
  }

  lemma {:induction false} FracTrail(s: seq<Digit>)
    ensures Frac(s + [0]) == Frac(s)
  {
    if s == [] {
      assert [0][1..] == [];
      assert Frac([0]) == (0 as real + Frac([])) / 10.0;
    } else {
      FracTrail(s[1..]);
      assert (s + [0])[1..] == s[1..] + [0];
    }
  }

  lemma {:induction false} FracStrip(s: seq<Digit>)
    ensures Frac(Strip(s)) == Frac(s)
  {
    if s != [] && s[|s| - 1] == 0 {
      var t := s[..|s| - 1];
      FracStrip(t);
      FracTrail(t);
      assert s == t + [0];
      assert Strip(s) == Strip(t);
    } else {
      assert Strip(s) == s;
    }
  }

  // ----- products, kept out of the way -----------------------------------------------------

  lemma TimesTen(x: real, y: real)
    ensures Times(x, 10.0 * y) == 10.0 * Times(x, y) && Times(x, y / 10.0) == Times(x, y) / 10.0
  {
  }

  lemma TimesAssoc(x: real, y: real, z: real)
    ensures Times(Times(x, y), z) == Times(x, Times(y, z))
  {
  }

  lemma TimesOne(x: real)
    ensures Times(x, 1.0) == x && Times(0.0, x) == 0.0
  {
  }

  lemma {:induction false} FracLead(s: seq<Digit>, z: nat)
    requires z <= |s| && forall i :: 0 <= i < z ==> s[i] == 0
    ensures Frac(s) == Times(Frac(s[z..]), P(0 - z))
  {
    hide Times;
    if z == 0 {
      assert s[0..] == s;
      TimesOne(Frac(s));
    } else {
      FracLead(s[1..], z - 1);
      assert s[1..][z - 1..] == s[z..];
      var e: int := 0 - z;
      assert P(e) == P(e + 1) / 10.0;
      assert Frac(s) == (0 as real + Frac(s[1..])) / 10.0;
      hide P, Frac;
      TimesTen(Frac(s[z..]), P(e + 1));
    }
  }

  lemma {:induction false} PAdd(a: int, b: int)
    ensures P(a + b) == Times(P(a), P(b))
    decreases if b < 0 then -b else b
  {
    hide Times;
    if b == 0 {
      TimesOne(P(a));
    } else if b > 0 {
      PAdd(a, b - 1);
      PNext(a + b - 1);
      PNext(b - 1);
      hide P;
      TimesTen(P(a), P(b - 1));
    } else {
      PAdd(a, b + 1);
      PNext(a + b);
      PNext(b);
      hide P;
      TimesTen(P(a), P(b));
    }
  }

  lemma IntStep(w: seq<Digit>, f: seq<Digit>)
    requires w != []
    ensures var n := |w| - 1; Int10(w) as real + Frac(f) == 10.0 * (Int10(w[..n]) as real + Frac([w[n]] + f))
  {
    var n := |w| - 1;
    assert ([w[n]] + f)[1..] == f;
    assert Frac([w[n]] + f) == (w[n] as real + Frac(f)) / 10.0;
    assert Int10(w) == Int10(w[..n]) * 10 + w[n];
  }

  /** Whole digits moved behind the point. */
  lemma {:induction false} WholeFrac(w: seq<Digit>, f: seq<Digit>)
    ensures Int10(w) as real + Frac(f) == Times(Frac(w + f), P(|w|))
  {
    hide Times;
    if w == [] {
      assert w + f == f;
      TimesOne(Frac(f));
    } else {
      var n := |w| - 1;
      hide Frac, Int10;
      IntStep(w, f);
      WholeFrac(w[..n], [w[n]] + f);
      assert w[..n] + ([w[n]] + f) == w + f;
      PNext(n);
      hide P;
      TimesTen(Frac(w + f), P(n));
    }
  }

  lemma {:induction false} FracZero(s: seq<Digit>)
    requires AllZero(s)
    ensures Frac(s) == 0.0
  {
    if s != [] {
      FracZero(s[1..]);
    }
  }

  lemma ShiftTo(f: real, z: int, w: int, e: int)
    ensures Times(Times(Times(f, P(-z)), P(w)), P(e)) == Times(f, P(w - z + e))
  {
    hide P, Times;
    PAdd(-z, w);
    PAdd(w - z, e);
    assert -z + w == w - z;
    TimesAssoc(f, P(-z), P(w));
    TimesAssoc(f, P(w - z), P(e));
  }

  /** The normal form has the value of the number. */
  lemma NormalVal(n: Number)
    ensures Val(Normal(n)) == Value(n)
  {
    hide Times, P, Frac, Strip, Lead, Int10;
    var ds := n.whole + n.frac;
    var z := Lead(ds);
    LeadIs(ds);
    WholeFrac(n.whole, n.frac);
    if z == |ds| {
      FracZero(ds);
      TimesOne(P(|n.whole|));
      TimesOne(P(n.exp));
    } else {
      FracLead(ds, z);
      FracStrip(ds[z..]);
      ShiftTo(Frac(ds[z..]), z, |n.whole|, n.exp);
    }
  }

  lemma LeadIs(s: seq<Digit>)
    ensures Lead(s) <= |s| && (forall i :: 0 <= i < Lead(s) ==> s[i] == 0)
  {
  }
}
