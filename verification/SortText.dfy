/** What a text says as a number, character by character, and that the keys go by it. */
module SortText {
  import opened SortKey
  import opened SortNumber
  import opened SortDecimal
  import SortGn

  function Ch(c: char): Octet
    requires c < 128 as char
  {
    c as int
  }

  function DigitChar(d: Digit): Octet { Ch('0') + (d as int) }

  /** The digits as characters. */
  function Show(ds: seq<Digit>): (s: Text)
    ensures |s| == |ds| && forall i :: 0 <= i < |ds| ==> s[i] == Ch('0') + (ds[i] as int)
  {
    seq(|ds|, i requires 0 <= i < |ds| => DigitChar(ds[i]))
  }

  /** An exponent as written: the letter, a sign or none, and digits. */
  datatype Exponent = NoExponent | Exponent(letter: Octet, sign: Text, ds: seq<Digit>)

  /** A text in its parts: blanks, a sign or none, blanks, digits, a point or none, digits, an exponent or none,
      and whatever follows. */
  datatype Written = Written(pre: Text, sign: Text, post: Text, w: seq<Digit>, point: bool, f: seq<Digit>,
                             exp: Exponent, rest: Text)

  function SpellExp(e: Exponent): Text { if e.NoExponent? then [] else [e.letter] + e.sign + Show(e.ds) }

  function Dot(point: bool): Text { if point then [Ch('.')] else [] }

  function Spell(x: Written): Text
  {
    x.pre + x.sign + x.post + Show(x.w) + Dot(x.point) + Show(x.f) + SpellExp(x.exp) + x.rest
  }

  function ExpOf(e: Exponent): int
  {
    if e.NoExponent? then 0 else if e.sign == [Ch('-')] then -Int10(e.ds) else Int10(e.ds)
  }

  /** What it says: the digits as one integer, times ten to the exponent less the places after the point. */
  function Meant(x: Written): real
  {
    var v := Int10(x.w + x.f) as real * P(ExpOf(x.exp) - |x.f|);
    if x.sign == [Ch('-')] then -v else v
  }

  predicate Blanks(s: Text) { forall i :: 0 <= i < |s| ==> s[i] == Ch(' ') || s[i] == Ch('\t') }

  predicate Signs(s: Text) { s == [] || s == [Ch('+')] || s == [Ch('-')] }

  predicate StartsBlank(s: Text) { s != [] && (s[0] == Ch(' ') || s[0] == Ch('\t')) }

  predicate StartsSign(s: Text) { s != [] && (s[0] == Ch('+') || s[0] == Ch('-')) }

  predicate StartsDigit(s: Text) { s != [] && Ch('0') <= s[0] <= Ch('9') }

  predicate StartsPoint(s: Text) { s != [] && s[0] == Ch('.') }

  predicate StartsE(s: Text) { s != [] && (s[0] == Ch('e') || s[0] == Ch('E')) }

  /** The exponent is one that is read: with -g, behind digits not all zero. */
  predicate ExpOk(x: Written, g: bool)
  {
    x.exp.Exponent? ==>
      g && !AllZero(x.w + x.f) && (x.exp.letter == Ch('e') || x.exp.letter == Ch('E')) && Signs(x.exp.sign)
  }

  /** What follows does not go on with the number. */
  predicate Ends(x: Written, g: bool)
  {
    !StartsDigit(x.rest) &&
    if x.exp.Exponent? then
      x.exp.sign == [] && x.exp.ds == [] ==> !StartsSign(x.rest)
    else
      (g && !AllZero(x.w + x.f) ==> !StartsE(x.rest)) &&
      (!x.point ==> !StartsPoint(x.rest)) &&
      (!x.point && x.w == [] ==> !StartsBlank(x.rest)) &&
      (!x.point && x.w == [] && x.sign == [] ==> !StartsSign(x.rest))
  }

  predicate Parted(x: Written, g: bool)
  {
    Blanks(x.pre) && Signs(x.sign) && Blanks(x.post) && (x.sign == [] ==> x.post == []) &&
    (!x.point ==> x.f == []) && ExpOk(x, g) && Ends(x, g)
  }

  // ----- characters ----------------------------------------------------------------------

  lemma {:induction false} SkipsBlanks(b: Text, r: Text)
    requires Blanks(b) && !StartsBlank(r)
    ensures SkipBlanks(b + r) == r
  {
    if b == [] {
      assert b + r == r;
    } else {
      assert (b + r)[1..] == b[1..] + r;
      SkipsBlanks(b[1..], r);
    }
  }

  lemma {:induction false} ReadsDigits(ds: seq<Digit>, r: Text)
    requires !StartsDigit(r)
    ensures Digits(Show(ds) + r) == ds && AfterDigits(Show(ds) + r) == r
  {
    var s := Show(ds) + r;
    if ds == [] {
      assert s == r;
    } else {
      assert s[1..] == Show(ds[1..]) + r;
      ReadsDigits(ds[1..], r);
    }
  }

  // ----- the parts are what is read ------------------------------------------------------

  function NumberOf(x: Written): Number { Number(x.sign == [Ch('-')], x.w, x.f, ExpOf(x.exp)) }

  lemma ReadsExpDigits(n: Number, down: bool, ds: seq<Digit>, rest: Text)
    requires !StartsDigit(rest)
    ensures ReadExpDigits(n, down, [], Show(ds) + rest) == n.(exp := if down then -Int10(ds) else Int10(ds))
  {
    hide Digits, AfterDigits, Int10, Show;
    ReadsDigits(ds, rest);
    assert [] + ds == ds;
  }

  /** The first character of a text in two parts. */
  lemma FirstOf(a: Text, b: Text)
    ensures (a + b != [] <==> a != [] || b != []) && (a != [] ==> (a + b)[0] == a[0] && (a + b)[1..] == a[1..] + b)
    ensures a == [] ==> a + b == b
  {
    assert a == [] ==> a + b == b;
  }

  lemma ReadsExp(n: Number, e: Exponent, rest: Text)
    requires e.Exponent? && Signs(e.sign) && !StartsDigit(rest)
    requires e.sign == [] && e.ds == [] ==> !StartsSign(rest)
    ensures ReadExp(n, e.sign + Show(e.ds) + rest) == n.(exp := ExpOf(e))
  {
    hide ReadExpDigits;
    var s := Show(e.ds) + rest;
    assert e.sign + Show(e.ds) + rest == e.sign + s;
    FirstOf(e.sign, s);
    FirstOf(Show(e.ds), rest);
    ReadsExpDigits(n, e.sign == [Ch('-')], e.ds, rest);
  }

  lemma NoExpOf()
    ensures ExpOf(NoExponent) == 0
  {
  }

  lemma ReadsTail(x: Written, neg: bool, g: bool)
    requires ExpOk(x, g) && Ends(x, g)
    ensures ReadTail(Number(neg, x.w, x.f, 0), SpellExp(x.exp) + x.rest, g) == Number(neg, x.w, x.f, ExpOf(x.exp))
  {
    hide ReadExp, AllZero, Signs, Show, ExpOf;
    NoExpOf();
    var s := SpellExp(x.exp) + x.rest;
    if x.exp.Exponent? {
      var e := x.exp.sign + Show(x.exp.ds);
      assert SpellExp(x.exp) == [x.exp.letter] + e;
      assert s == [x.exp.letter] + (e + x.rest);
      ReadsExp(Number(neg, x.w, x.f, 0), x.exp, x.rest);
    } else {
      assert s == x.rest;
    }
  }

  /** What comes after the digits is no digit. */
  lemma TailStarts(x: Written, g: bool)
    requires ExpOk(x, g) && Ends(x, g)
    ensures var s := SpellExp(x.exp) + x.rest;
            !StartsDigit(s) && (!x.point ==> !(s != [] && s[0] == POINT)) &&
            (x.exp.NoExponent? ==> s == x.rest) && (x.exp.Exponent? ==> s != [] && IsE(s[0]))
  {
    hide AllZero;
    var s := SpellExp(x.exp) + x.rest;
    FirstOf(SpellExp(x.exp), x.rest);
  }

  function Points(x: Written): Text { if x.point then [Ch('.')] + Show(x.f) else [] }

  lemma ReadsWhole(x: Written, neg: bool, g: bool)
    requires (!x.point ==> x.f == []) && ExpOk(x, g) && Ends(x, g)
    ensures var s := Show(x.w) + (Points(x) + (SpellExp(x.exp) + x.rest));
            ReadWhole(neg, [], s, g) == Number(neg, x.w, x.f, ExpOf(x.exp))
  {
    hide AllZero, ReadTail, SpellExp, ExpOf, ExpOk, Ends;
    var tail := SpellExp(x.exp) + x.rest;
    TailStarts(x, g);
    ReadsTail(x, neg, g);
    var r := Points(x) + tail;
    FirstOf(Points(x), tail);
    ReadsDigits(x.w, r);
    assert [] + x.w == x.w && [] + x.f == x.f;
    if x.point {
      assert r[1..] == Show(x.f) + tail;
      ReadsDigits(x.f, tail);
    }
  }

  /** What follows the blanks is no blank. */
  lemma BodyStarts(x: Written, g: bool)
    requires Parted(x, g)
    ensures var s := Show(x.w) + (Points(x) + (SpellExp(x.exp) + x.rest));
            !StartsBlank(s) && (x.sign == [] ==> !StartsSign(s))
  {
    hide SpellExp;
    var tail := SpellExp(x.exp) + x.rest;
    TailStarts(x, g);
    FirstOf(Points(x), tail);
    FirstOf(Show(x.w), Points(x) + tail);
  }

  lemma SpellParts(x: Written)
    requires !x.point ==> x.f == []
    ensures Spell(x) == x.pre + (x.sign + (x.post + (Show(x.w) + (Points(x) + (SpellExp(x.exp) + x.rest)))))
  {
    assert Show([]) == [];
    hide Show;
  }

  lemma SignStarts(x: Written, body: Text)
    requires Signs(x.sign) && (x.sign == [] ==> x.post == [] && !StartsBlank(body))
    ensures !StartsBlank(x.sign + (x.post + body))
  {
    FirstOf(x.sign, x.post + body);
    FirstOf(x.post, body);
  }

  /** Whatever a text in its parts begins with, the number read is made of these parts. */
  lemma ReadsParts(x: Written, g: bool)
    requires Parted(x, g)
    ensures Read(Spell(x), g) == NumberOf(x)
  {
    hide ReadWhole, Spell, SpellExp, Points, ExpOf, ExpOk, Ends, Blanks, Show, SkipBlanks;
    var body := Show(x.w) + (Points(x) + (SpellExp(x.exp) + x.rest));
    SpellParts(x);
    BodyStarts(x, g);
    SignStarts(x, body);
    var r := x.sign + (x.post + body);
    SkipsBlanks(x.pre, r);
    FirstOf(x.sign, x.post + body);
    SkipsBlanks(x.post, body);
    ReadsWhole(x, x.sign == [Ch('-')], g);
    if x.sign == [] {
      assert r == body;
    } else {
      assert r[1..] == x.post + body;
    }
  }

  // ----- its value -----------------------------------------------------------------------

  /** Digits before and after the point are all digits, as an integer, over a power of ten. */
  lemma PointMoves(w: seq<Digit>, f: seq<Digit>)
    ensures Times(Int10(w) as real + Frac(f), P(|f|)) == Int10(w + f) as real
  {
    hide P, Frac, Int10, Times;
    WholeFrac(w, f);
    WholeFrac(w + f, []);
    assert (w + f) + [] == w + f;
    NoFrac();
    PAdd(|w|, |f|);
    TimesAssoc(Frac(w + f), P(|w|), P(|f|));
  }

  lemma NoFrac()
    ensures Frac([]) == 0.0
  {
  }

  lemma ValueMeant(x: Written)
    ensures Value(NumberOf(x)) == Meant(x)
  {
    var e, n := ExpOf(x.exp), |x.f|;
    var v := Int10(x.w) as real + Frac(x.f);
    hide P, Frac, Int10;
    PointMoves(x.w, x.f);
    PAdd(n, e - n);
    assert n + (e - n) == e;
    TimesAssoc(v, P(n), P(e - n));
  }

  /** The value read from any text is what its characters say. */
  lemma ReadMeans(x: Written, g: bool)
    requires Parted(x, g)
    ensures Value(Read(Spell(x), g)) == Meant(x)
  {
    hide Read, Spell, Meant, Value, NumberOf, Parted;
    ReadsParts(x, g);
    ValueMeant(x);
  }

  // ----- every text has such parts -------------------------------------------------------

  lemma {:induction false} SplitBlanks(s: Text) returns (pre: Text)
    ensures Blanks(pre) && s == pre + SkipBlanks(s) && !StartsBlank(SkipBlanks(s))
  {
    if s != [] && IsBlank(s[0]) {
      var p := SplitBlanks(s[1..]);
      pre := [s[0]] + p;
      assert s == [s[0]] + s[1..];
    } else {
      pre := [];
    }
  }

  lemma {:induction false} SplitDigits(s: Text)
    ensures s == Show(Digits(s)) + AfterDigits(s) && !StartsDigit(AfterDigits(s))
  {
    if s != [] && IsDigit(s[0]) {
      SplitDigits(s[1..]);
      assert s == [s[0]] + s[1..];
      assert Show(Digits(s)) == [s[0]] + Show(Digits(s[1..]));
    }
  }

  /** The exponent, if one is read, and what is left. */
  lemma SplitExp(s: Text) returns (exp: Exponent, rest: Text)
    requires s != [] && IsE(s[0])
    ensures exp.Exponent? && SpellExp(exp) + rest == s && Signs(exp.sign) && IsE(exp.letter)
    ensures !StartsDigit(rest) && (exp.sign == [] && exp.ds == [] ==> !StartsSign(rest))
  {
    hide Show, Digits, AfterDigits, StartsDigit, Signs;
    var r := s[1..];
    var sign, d := SplitSign(r);
    SplitDigits(d);
    ShowNone();
    exp, rest := Exponent(s[0], sign, Digits(d)), AfterDigits(d);
    assert exp.ds == [] ==> rest == d;
    assert s == [s[0]] + r;
    Regroup([s[0]], sign, Show(exp.ds), rest);
  }

  lemma Regroup(a: Text, b: Text, c: Text, d: Text)
    ensures a + b + c + d == a + (b + (c + d))
  {
  }

  lemma SplitSign(r: Text) returns (sign: Text, d: Text)
    ensures r == sign + d && Signs(sign) && (sign == [] ==> d == r && !StartsSign(r))
  {
    sign := if r != [] && IsSign(r[0]) then [r[0]] else [];
    d := r[|sign|..];
    assert r == sign + d;
  }

  lemma ShowNone()
    ensures Show([]) == []
  {
  }

  lemma SplitTail(s: Text, w: seq<Digit>, f: seq<Digit>, g: bool) returns (exp: Exponent, rest: Text)
    requires !StartsDigit(s)
    ensures SpellExp(exp) + rest == s && !StartsDigit(rest)
    ensures exp.Exponent? ==> g && !AllZero(w + f) && IsE(exp.letter) && Signs(exp.sign) && s != [] && IsE(s[0])
    ensures exp.Exponent? && exp.sign == [] && exp.ds == [] ==> !StartsSign(rest)
    ensures exp.NoExponent? ==> rest == s && (g && !AllZero(w + f) ==> !StartsE(rest))
  {
    hide AllZero, Signs;
    if g && !AllZero(w + f) && s != [] && IsE(s[0]) {
      exp, rest := SplitExp(s);
    } else {
      exp, rest := NoExponent, s;
    }
  }

  /** A point and digits, if there is one. */
  lemma SplitPoint(r: Text) returns (point: bool, f: seq<Digit>, tail: Text)
    requires !StartsDigit(r)
    ensures r == Dot(point) + Show(f) + tail && !StartsDigit(tail)
    ensures !point ==> f == [] && tail == r && !StartsPoint(tail)
  {
    hide Show, Digits, AfterDigits;
    ShowNone();
    point, f, tail := r != [] && r[0] == Ch('.'), [], r;
    if point {
      var s := r[1..];
      SplitDigits(s);
      f, tail := Digits(s), AfterDigits(s);
      assert r == [Ch('.')] + s;
    }
  }

  /** Digits, point, digits and exponent. */
  lemma SplitBody(s: Text, g: bool) returns (w: seq<Digit>, point: bool, f: seq<Digit>, exp: Exponent, rest: Text)
    ensures s == Show(w) + (Dot(point) + Show(f) + (SpellExp(exp) + rest)) && (!point ==> f == [])
    ensures exp.Exponent? ==> g && !AllZero(w + f) && IsE(exp.letter) && Signs(exp.sign)
    ensures !StartsDigit(rest) && (exp.Exponent? && exp.sign == [] && exp.ds == [] ==> !StartsSign(rest))
    ensures exp.NoExponent? ==> (g && !AllZero(w + f) ==> !StartsE(rest)) && (!point ==> !StartsPoint(rest))
    ensures exp.NoExponent? && !point && w == [] ==> rest == s
  {
    hide AllZero, Show, SpellExp, Digits, AfterDigits, IsE, Signs;
    SplitDigits(s);
    ShowNone();
    w := Digits(s);
    var tail;
    point, f, tail := SplitPoint(AfterDigits(s));
    exp, rest := SplitTail(tail, w, f, g);
  }

  /** Every text can be parted so. */
  lemma EveryText(s: Text, g: bool) returns (x: Written)
    ensures Parted(x, g) && Spell(x) == s
  {
    hide AllZero, Show, SpellExp, Blanks, Spell, SkipBlanks;
    var pre := SplitBlanks(s);
    var r := SkipBlanks(s);
    var sign, d := SplitSign(r);
    var post: Text := [];
    NoBlanks();
    if sign != [] {
      post := SplitBlanks(d);
      d := SkipBlanks(d);
    }
    var w, point, f, exp, rest := SplitBody(d, g);
    x := Written(pre, sign, post, w, point, f, exp, rest);
    assert Spell(x) == pre + (sign + (post + d)) by { SpellBody(x, d); }
  }

  lemma NoBlanks()
    ensures Blanks([])
  {
  }

  lemma SpellBody(x: Written, d: Text)
    requires d == Show(x.w) + (Dot(x.point) + Show(x.f) + (SpellExp(x.exp) + x.rest))
    ensures Spell(x) == x.pre + (x.sign + (x.post + d))
  {
    hide Show, SpellExp;
  }

  // ----- keys ----------------------------------------------------------------------------

  /** A value for whose exponent the key has room. */
  ghost predicate InKey(v: real)
  {
    var a := if v < 0.0 then -v else v;
    v == 0.0 || P(-BASE - 1) <= a < P(0xFFFF - BASE)
  }

  lemma PNotLess(e: int, f: int)
    ensures P(e) < P(f) <==> e < f
  {
    hide P;
    PPositive(e);
    PPositive(f);
    if e < f {
      PLess(e, f);
    } else if f < e {
      PLess(f, e);
    }
  }

  /** A number is in reach exactly when its value is. */
  lemma ReachValue(n: Norm)
    requires NormOk(n)
    ensures InReach(n) <==> InKey(Val(n))
  {
    hide P, Size;
    if n.Num? {
      SizeRange(n);
      PNext(n.e - 1);
      PNotLess(n.e - 1, -BASE - 1);
      PNotLess(0xFFFF - BASE, n.e);
      PNotLess(-BASE - 1, n.e);
      PNotLess(n.e - 1, 0xFFFF - BASE);
    }
  }

  /** The keys of two texts go by what the texts say. */
  lemma TextsEmbed(x: Written, y: Written, g: bool, r: bool)
    requires Parted(x, g) && Parted(y, g) && InKey(Meant(x)) && InKey(Meant(y))
    ensures Embedded(Meant(x), Meant(y), Encode(Normal(Read(Spell(x), g)), r), Encode(Normal(Read(Spell(y), g)), r), r)
  {
    hide Read, Spell, Meant, Value, Parted, Normal, Encode, Embedded, InKey, Val, InReach, NormOk;
    ReadMeans(x, g);
    ReadMeans(y, g);
    TextReach(x, g);
    TextReach(y, g);
    SortGn.KeysEmbed(Spell(x), Spell(y), g, r);
  }

  lemma TextReach(x: Written, g: bool)
    requires Parted(x, g)
    ensures InReach(Normal(Read(Spell(x), g))) <==> InKey(Meant(x))
  {
    hide Read, Spell, Meant, Value, Parted, Normal, InKey, Val, InReach, NormOk;
    ReadMeans(x, g);
    var n := Read(Spell(x), g);
    NormalOk(n);
    NormalVal(n);
    ReachValue(Normal(n));
  }

  /** The keys that are built for two texts are apart, and in the order of what the texts say. */
  method KeysOfTexts(x: Written, y: Written, g: bool, r: bool) returns (k: Key, l: Key)
    requires Parted(x, g) && Parted(y, g) && InKey(Meant(x)) && InKey(Meant(y))
    ensures Embedded(Meant(x), Meant(y), k, l, r)
  {
    hide Read, Spell, Meant, Parted, Normal, Encode, Embedded, InKey;
    k := SortGn.DokeyGn(Spell(x), g, r);
    l := SortGn.DokeyGn(Spell(y), g, r);
    TextsEmbed(x, y, g, r);
  }
}
