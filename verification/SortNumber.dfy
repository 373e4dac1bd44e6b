/** Decimal numbers: what a text denotes, and keys whose order is the order of the numbers. */
module SortNumber {
  import opened SortKey

  type Digit = d: int | 0 <= d < 10

  /** Ten to the power e. */
  function P(e: int): real
    decreases if e < 0 then -e else e
  {
    if e == 0 then 1.0 else if e > 0 then 10.0 * P(e - 1) else P(e + 1) / 10.0
  }

  lemma {:induction false} PNext(e: int)
    ensures P(e + 1) == 10.0 * P(e)
  {
    if e < 0 {
      assert P(e) == P(e + 1) / 10.0;
    }
  }

  lemma {:induction false} PPositive(e: int)
    ensures P(e) > 0.0
    decreases if e < 0 then -e else e
  {
    if e > 0 {
      PPositive(e - 1);
    } else if e < 0 {
      PPositive(e + 1);
    }
  }

  lemma {:induction false} PLess(e: int, f: int)
    requires e < f
    ensures P(e) <= P(f) / 10.0
    decreases f - e
  {
    if e + 1 == f {
      PNext(e);
    } else {
      PLess(e, f - 1);
      PNext(f - 1);
      PPositive(f - 1);
    }
  }

  /** The fraction with these digits after the point. */
  function Frac(s: seq<Digit>): real
  {
    if s == [] then 0.0 else (s[0] as real + Frac(s[1..])) / 10.0
  }

  lemma {:induction false} FracBound(s: seq<Digit>)
    ensures 0.0 <= Frac(s) < 1.0
  {
    if s != [] {
      FracBound(s[1..]);
    }
  }

  function Times(a: real, b: real): real { a * b }

  /** A normal number: 0.digits times ten to the power e, first and last digit not zero. */
  datatype Norm = Zero | Num(neg: bool, digits: seq<Digit>, e: int)

  predicate NormOk(n: Norm) { n.Num? ==> n.digits != [] && n.digits[0] > 0 && n.digits[|n.digits| - 1] > 0 }

  function Size(n: Norm): real
    requires n.Num?
  {
    Times(Frac(n.digits), P(n.e))
  }

  function Val(n: Norm): real
  {
    if n.Zero? then 0.0 else if n.neg then -Size(n) else Size(n)
  }

  // ----- the key -------------------------------------------------------------------------

  const BASE := 0x4040

  function Hi(dp: int): Octet { (dp / 256) % 256 }

  function Lo(dp: int): Octet { dp % 256 }

  function Flip(c: Octet): Octet { 255 - c }

  function Code(d: Digit): Octet
  {
    var c: int := d;
    48 + c
  }

  /** Digits as characters, complemented if down. */
  function Chars(s: seq<Digit>, down: bool): Key
  {
    seq(|s|, i requires 0 <= i < |s| => if down then Flip(Code(s[i])) else Code(s[i]))
  }

  /** The key of a number; down when its order is reversed. */
  function Encode(n: Norm, r: bool): Key
  {
    if n.Zero? then [0x20, 0] else
      var down := n.neg != r;
      var dp := if down then -(BASE + n.e) - 1 else BASE + n.e;
      [if down then 0x10 else 0x30, Hi(dp), Lo(dp)] + Chars(n.digits, down) + [if down then 255 else 0]
  }

  /** The exponent fits the two bytes of the key. */
  predicate InReach(n: Norm) { n.Num? ==> 0 <= BASE + n.e < 0x10000 }

  // ----- comparing sizes -----------------------------------------------------------------

  /** s comes before t, an end before any digit. */
  predicate Less(s: seq<Digit>, t: seq<Digit>)
  {
    t != [] && (s == [] || s[0] < t[0] || (s[0] == t[0] && Less(s[1..], t[1..])))
  }

  /** No zero at the end. */
  predicate Trim(s: seq<Digit>) { s != [] ==> s[|s| - 1] > 0 }

  lemma {:induction false} FracPositive(s: seq<Digit>)
    requires s != [] && Trim(s)
    ensures Frac(s) > 0.0
  {
    FracBound(s[1..]);
    if |s| > 1 {
      FracPositive(s[1..]);
    }
  }

  lemma {:induction false} FracLess(s: seq<Digit>, t: seq<Digit>)
    requires Trim(s) && Trim(t) && Less(s, t)
    ensures Frac(s) < Frac(t)
  {
    FracPositive(t);
    if s != [] {
      FracBound(s[1..]);
      FracBound(t[1..]);
      if s[0] == t[0] {
        FracLess(s[1..], t[1..]);
      }
    }
  }

  lemma {:induction false} LessTotal(s: seq<Digit>, t: seq<Digit>)
    ensures s == t || Less(s, t) || Less(t, s)
  {
    if s != [] && t != [] && s[0] == t[0] {
      LessTotal(s[1..], t[1..]);
      if s[1..] == t[1..] {
        assert s == [s[0]] + s[1..] && t == [t[0]] + t[1..];
      }
    }
  }

  /** The order of sizes: by exponent, then by digits. */
  predicate Smaller(m: Norm, n: Norm)
    requires m.Num? && n.Num?
  {
    m.e < n.e || (m.e == n.e && Less(m.digits, n.digits))
  }

  lemma ScaleLess(a: real, b: real, p: real)
    requires a < b && p > 0.0
    ensures Times(a, p) < Times(b, p)
  {
  }

  lemma ScaleBound(f: real, p: real)
    requires 0.1 <= f < 1.0 && p > 0.0
    ensures p / 10.0 <= Times(f, p) < p
  {
    ScaleLess(f, 1.0, p);
    if f > 0.1 {
      ScaleLess(0.1, f, p);
    }
  }

  lemma FracFirst(s: seq<Digit>)
    requires s != [] && s[0] > 0
    ensures 0.1 <= Frac(s) < 1.0
  {
    FracBound(s);
    FracBound(s[1..]);
  }

  lemma SizeRange(n: Norm)
    requires n.Num? && NormOk(n)
    ensures P(n.e) / 10.0 <= Size(n) < P(n.e) && Size(n) > 0.0
  {
    hide P, Frac, Times;
    PPositive(n.e);
    FracFirst(n.digits);
    ScaleBound(Frac(n.digits), P(n.e));
  }

  lemma SizeLess(m: Norm, n: Norm)
    requires m.Num? && n.Num? && NormOk(m) && NormOk(n) && Smaller(m, n)
    ensures Size(m) < Size(n)
  {
    hide P, Frac, Times;
    if m.e < n.e {
      SizeRange(m);
      SizeRange(n);
      PLess(m.e, n.e);
      hide Size;
    } else {
      FracLess(m.digits, n.digits);
      PPositive(n.e);
      ScaleLess(Frac(m.digits), Frac(n.digits), P(n.e));
    }
  }

  lemma SizeTotal(m: Norm, n: Norm)
    requires m.Num? && n.Num?
    ensures Smaller(m, n) || Smaller(n, m) || (m.e == n.e && m.digits == n.digits)
  {
    LessTotal(m.digits, n.digits);
  }

  // ----- comparing keys ------------------------------------------------------------------

  /** The first difference decides, one way or the other. */
  lemma DifferAt(x: Key, y: Key, n: nat)
    requires n < |x| && n < |y| && (forall i :: 0 <= i < n ==> x[i] == y[i]) && x[n] < y[n]
    ensures Le(x, y) && !Le(y, x) && x != y && Apart(x, y)
  {
    CommonIs(x, y, n);
    CommonIs(y, x, n);
  }

  /** Where two different lists of digits first differ, or one ends. */
  function Split(s: seq<Digit>, t: seq<Digit>): (n: nat)
    requires Less(s, t)
    ensures n <= |s| && n < |t| && (forall i :: 0 <= i < n ==> s[i] == t[i]) && (n < |s| ==> s[n] < t[n])
  {
    if s == [] || s[0] < t[0] then 0 else
      var n := Split(s[1..], t[1..]);
      assert forall i :: 0 < i < n + 1 ==> s[i] == s[1..][i - 1] && t[i] == t[1..][i - 1];
      n + 1
  }

  lemma EncodeParts(n: Norm, r: bool, i: nat)
    requires n.Num?
    ensures |Encode(n, r)| == |n.digits| + 4 && Encode(n, r)[|n.digits| + 3] == if n.neg != r then 255 else 0
    ensures 3 <= i < |n.digits| + 3 ==>
              Encode(n, r)[i] == if n.neg != r then Flip(Code(n.digits[i - 3])) else Code(n.digits[i - 3])
  {
  }

  lemma TwoBytes(a: int, b: int)
    requires 0 <= a < b < 0x10000
    ensures Hi(a) < Hi(b) || (Hi(a) == Hi(b) && Lo(a) < Lo(b))
  {
  }

  lemma FlipBytes(a: int)
    requires 0 <= a < 0x10000
    ensures Hi(-a - 1) == 255 - Hi(a) && Lo(-a - 1) == 255 - Lo(a)
  {
  }

  lemma DigitsBefore(m: Norm, n: Norm, r: bool)
    requires m.Num? && n.Num? && m.neg == n.neg && m.e == n.e && Less(m.digits, n.digits)
    ensures var (x, y) := (Encode(m, r), Encode(n, r)); var k := 3 + Split(m.digits, n.digits);
      k < |x| && k < |y| && (forall i :: 0 <= i < k ==> x[i] == y[i]) && if m.neg == r then x[k] < y[k] else y[k] < x[k]
  {
    var x, y := Encode(m, r), Encode(n, r);
    var k := 3 + Split(m.digits, n.digits);
    forall i: nat | i < |x| && i < |y| ensures i < 3 ==> x[i] == y[i] {
    }
    forall i: nat | i < k ensures i < |x| && i < |y| && x[i] == y[i] {
      EncodeParts(m, r, i);
      EncodeParts(n, r, i);
    }
    EncodeParts(m, r, k);
    EncodeParts(n, r, k);
  }

  lemma HeadBytes(n: Norm, r: bool)
    requires n.Num? && InReach(n)
    ensures |Encode(n, r)| > 2 && Encode(n, r)[0] == Rank(n, r)
    ensures Encode(n, r)[1] == (if n.neg != r then 255 - Hi(BASE + n.e) else Hi(BASE + n.e))
    ensures Encode(n, r)[2] == (if n.neg != r then 255 - Lo(BASE + n.e) else Lo(BASE + n.e))
  {
    FlipBytes(BASE + n.e);
    hide Hi, Lo;
  }

  /** With the same sign the smaller number has the smaller key, or when reversed the larger. */
  lemma SameSign(m: Norm, n: Norm, r: bool)
    requires m.Num? && n.Num? && InReach(m) && InReach(n) && m.neg == n.neg && Smaller(m, n)
    ensures var (x, y) := (Encode(m, r), Encode(n, r));
            Apart(x, y) && x != y && if m.neg == r then Le(x, y) && !Le(y, x) else Le(y, x) && !Le(x, y)
  {
    hide Encode, Le, Apart;
    var x, y := Encode(m, r), Encode(n, r);
    if m.e == n.e {
      DigitsBefore(m, n, r);
      FirstDiffer(x, y, 3 + Split(m.digits, n.digits));
    } else {
      TwoBytes(BASE + m.e, BASE + n.e);
      HeadBytes(m, r);
      HeadBytes(n, r);
      hide Hi, Lo;
      FirstDiffer(x, y, if Hi(BASE + m.e) != Hi(BASE + n.e) then 1 else 2);
    }
  }

  lemma FirstDiffer(x: Key, y: Key, n: nat)
    requires n < |x| && n < |y| && (forall i :: 0 <= i < n ==> x[i] == y[i]) && x[n] != y[n]
    ensures Apart(x, y) && x != y && if x[n] < y[n] then Le(x, y) && !Le(y, x) else Le(y, x) && !Le(x, y)
  {
    if x[n] < y[n] {
      DifferAt(x, y, n);
    } else {
      DifferAt(y, x, n);
      CommonIs(x, y, n);
    }
  }

  /** The rank the first byte gives: below zero, zero, above. */
  function Rank(n: Norm, r: bool): Octet { if n.Zero? then 0x20 else if n.neg != r then 0x10 else 0x30 }

  lemma OtherSign(m: Norm, n: Norm, r: bool)
    requires Rank(m, r) < Rank(n, r)
    ensures var (x, y) := (Encode(m, r), Encode(n, r)); Apart(x, y) && x != y && Le(x, y) && !Le(y, x)
  {
    FirstDiffer(Encode(m, r), Encode(n, r), 0);
  }

  lemma ValSign(n: Norm)
    requires NormOk(n)
    ensures if n.Zero? then Val(n) == 0.0 else if n.neg then Val(n) < 0.0 else Val(n) > 0.0
  {
    hide Size;
    if n.Num? {
      SizeRange(n);
    }
  }

  /** What the keys of two numbers say: equal, or before, as their values are, reversed under r;
      and no key is a prefix of another. */
  ghost predicate Embedded(a: real, b: real, x: Key, y: Key, r: bool)
  {
    Apart(x, y) && (a == b <==> x == y) && (a < b ==> if r then Le(y, x) && !Le(x, y) else Le(x, y) && !Le(y, x)) &&
    (b < a ==> if r then Le(x, y) && !Le(y, x) else Le(y, x) && !Le(x, y))
  }

  lemma SameKey(m: Norm, n: Norm, r: bool)
    requires (m.Zero? && n.Zero?) || (m.Num? && n.Num? && m.neg == n.neg && m.e == n.e && m.digits == n.digits)
    ensures m == n && Apart(Encode(m, r), Encode(n, r))
  {
    CommonIs(Encode(m, r), Encode(n, r), |Encode(m, r)|);
  }

  lemma ValLess(m: Norm, n: Norm)
    requires m.Num? && n.Num? && NormOk(m) && NormOk(n) && m.neg == n.neg && Smaller(m, n)
    ensures if m.neg then Val(n) < Val(m) else Val(m) < Val(n)
  {
    hide Size, Smaller;
    SizeLess(m, n);
  }

  lemma EmbedNums(m: Norm, n: Norm, r: bool)
    requires m.Num? && n.Num? && NormOk(m) && NormOk(n) && InReach(m) && InReach(n) && m.neg == n.neg
    ensures Embedded(Val(m), Val(n), Encode(m, r), Encode(n, r), r)
  {
    hide Val, Encode, Le, Apart, Smaller;
    SizeTotal(m, n);
    if Smaller(m, n) {
      ValLess(m, n);
      SameSign(m, n, r);
    } else if Smaller(n, m) {
      ValLess(n, m);
      SameSign(n, m, r);
      ApartSym(Encode(m, r), Encode(n, r));
    } else {
      SameKey(m, n, r);
    }
  }

  lemma ApartSym(x: Key, y: Key)
    ensures Apart(x, y) <==> Apart(y, x)
  {
    CommonIs(y, x, Common(x, y));
  }

  /** Keys embed the order of numbers. */
  lemma Embed(m: Norm, n: Norm, r: bool)
    requires NormOk(m) && NormOk(n) && InReach(m) && InReach(n)
    ensures Embedded(Val(m), Val(n), Encode(m, r), Encode(n, r), r)
  {
    ValSign(m);
    ValSign(n);
    hide Val, Encode, Le, Apart;
    if Rank(m, r) < Rank(n, r) {
      OtherSign(m, n, r);
    } else if Rank(n, r) < Rank(m, r) {
      OtherSign(n, m, r);
      ApartSym(Encode(m, r), Encode(n, r));
    } else if m.Num? {
      EmbedNums(m, n, r);
    } else {
      SameKey(m, n, r);
    }
  }

  // ----- exactly as far as the exponent fits ---------------------------------------------

  /** The number whose exponent is what the two bytes keep. */
  function Wrapped(n: Norm): Norm { if n.Zero? then n else n.(e := (BASE + n.e) % 0x10000 - BASE) }

  lemma SameBytes(a: int)
    ensures var b := a % 0x10000;
            0 <= b < 0x10000 && Hi(a) == Hi(b) && Lo(a) == Lo(b) && Hi(-a - 1) == Hi(-b - 1) && Lo(-a - 1) == Lo(-b - 1)
  {
    var b, q := a % 0x10000, a / 0x10000;
    assert a == b + 256 * (256 * q);
    assert -a - 1 == -b - 1 + 256 * (256 * -q);
    HighLow(b, q);
    HighLow(-b - 1, -q);
  }

  lemma HighLow(b: int, q: int)
    ensures Hi(b + 256 * (256 * q)) == Hi(b) && Lo(b + 256 * (256 * q)) == Lo(b)
  {
    assert (b + 256 * (256 * q)) / 256 == b / 256 + 256 * q;
    assert (b / 256 + 256 * q) % 256 == (b / 256) % 256;
  }

  lemma WrappedKey(n: Norm, r: bool)
    ensures Encode(Wrapped(n), r) == Encode(n, r) && InReach(Wrapped(n)) && (NormOk(n) ==> NormOk(Wrapped(n)))
  {
    if n.Num? {
      SameBytes(BASE + n.e);
      hide Hi, Lo, Chars;
    }
  }

  lemma WrappedVal(n: Norm)
    requires NormOk(n) && !InReach(n)
    ensures Val(Wrapped(n)) != Val(n)
  {
    var m := Wrapped(n);
    assert m.e != n.e;
    hide Val;
    if m.e < n.e {
      ValLess(m, n);
    } else {
      ValLess(n, m);
    }
  }

  /** A number keeps its place among all numbers in reach exactly if it is in reach itself. */
  lemma ReachExact(n: Norm, r: bool)
    requires NormOk(n)
    ensures InReach(n) <==>
            forall m :: NormOk(m) && InReach(m) ==> Embedded(Val(n), Val(m), Encode(n, r), Encode(m, r), r)
  {
    hide Val, Encode, Le, Apart;
    if InReach(n) {
      forall m | NormOk(m) && InReach(m) ensures Embedded(Val(n), Val(m), Encode(n, r), Encode(m, r), r) {
        Embed(n, m, r);
      }
    } else {
      WrappedKey(n, r);
      WrappedVal(n);
      assert !Embedded(Val(n), Val(Wrapped(n)), Encode(n, r), Encode(Wrapped(n), r), r);
    }
  }
}
