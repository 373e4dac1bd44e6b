/** dokey_gn: the key of a numeric field, built while the text is read character by character. */
module SortGn {
  import opened SortKey
  import opened SortNumber
  import opened SortDecimal

  datatype St = NSstart | NSsign | NSzero | NSdigit | NSpoint | NSfract | NSzerofract | NSexp | NSexpsign | NSexpdigit

  datatype Option<T> = None | Some(value: T)

  /** The variables of the loop: state, digits written, how many zeros they end with, place of the
      point, exponent and its sign, and whether bytes are complemented. */
  datatype Mach = Mach(st: St, kp: Key, nzero: nat, dp: int, exp: int, expsign: bool, rflag: bool)

  function Shown(c: Octet, rflag: bool): Octet { if rflag then Flip(c) else c }

  function OnBlank(m: Mach): Option<Mach> { if m.st in {NSstart, NSsign} then Some(m) else None }

  function OnSign(m: Mach, c: Octet): Option<Mach>
  {
    match m.st
    case NSstart => Some(m.(st := NSsign, rflag := if c == 45 then !m.rflag else m.rflag))
    case NSexp => Some(m.(st := NSexpsign, expsign := c == 45))
    case _ => None
  }

  function OnZero(m: Mach, c: Octet): Option<Mach>
    requires c == ZERO
  {
    match m.st
    case NSdigit => Some(m.(kp := m.kp + [Shown(c, m.rflag)], nzero := m.nzero + 1, dp := m.dp + 1))
    case NSfract => Some(m.(kp := m.kp + [Shown(c, m.rflag)], nzero := m.nzero + 1))
    case NSstart => Some(m.(st := NSzero))
    case NSsign => Some(m.(st := NSzero))
    case NSzero => Some(m)
    case NSzerofract => Some(m.(dp := m.dp - 1))
    case NSpoint => Some(m.(dp := m.dp - 1, st := NSzerofract))
    case _ => Some(m.(exp := m.exp * 10, st := NSexpdigit))
  }

  function OnDigit(m: Mach, c: Octet): Option<Mach>
    requires IsDigit(c)
  {
    match m.st
    case NSzero => Some(m.(kp := m.kp + [Shown(c, m.rflag)], nzero := 0, dp := m.dp + 1, st := NSdigit))
    case NSstart => Some(m.(kp := m.kp + [Shown(c, m.rflag)], nzero := 0, dp := m.dp + 1, st := NSdigit))
    case NSsign => Some(m.(kp := m.kp + [Shown(c, m.rflag)], nzero := 0, dp := m.dp + 1, st := NSdigit))
    case NSdigit => Some(m.(kp := m.kp + [Shown(c, m.rflag)], nzero := 0, dp := m.dp + 1))
    case NSzerofract => Some(m.(kp := m.kp + [Shown(c, m.rflag)], nzero := 0, st := NSfract))
    case NSpoint => Some(m.(kp := m.kp + [Shown(c, m.rflag)], nzero := 0, st := NSfract))
    case NSfract => Some(m.(kp := m.kp + [Shown(c, m.rflag)], nzero := 0))
    case _ => Some(m.(exp := m.exp * 10 + DigitOf(c), st := NSexpdigit))
  }

  function OnPoint(m: Mach): Option<Mach>
  {
    match m.st
    case NSstart => Some(m.(st := NSpoint))
    case NSsign => Some(m.(st := NSpoint))
    case NSzero => Some(m.(st := NSzerofract))
    case NSdigit => Some(m.(st := NSfract))
    case _ => None
  }

  function OnE(m: Mach): Option<Mach> { if m.st in {NSdigit, NSfract} then Some(m.(st := NSexp)) else None }

  /** One character, or None where the loop is left. */
  function Step(m: Mach, c: Octet, g: bool): Option<Mach>
  {
    if IsBlank(c) then OnBlank(m)
    else if IsSign(c) then OnSign(m, c)
    else if c == ZERO then OnZero(m, c)
    else if IsDigit(c) then OnDigit(m, c)
    else if c == POINT then OnPoint(m)
    else if g && IsE(c) then OnE(m)
    else None
  }

  /** The end: zero, or sign, place of the point, digits without their last zeros, and a terminator. */
  function Finish(m: Mach): Key
  {
    if m.st in {NSstart, NSsign, NSzero, NSzerofract, NSpoint} then [0x20, 0] else
      var dp := if m.st in {NSexpsign, NSexp, NSexpdigit} then m.dp + (if m.expsign then -m.exp else m.exp) else m.dp;
      var dp' := if m.rflag then -dp - 1 else dp;
      [if m.rflag then 0x10 else 0x30, Hi(dp'), Lo(dp')] +
        (if m.nzero <= |m.kp| then m.kp[..|m.kp| - m.nzero] else []) + [if m.rflag then 255 else 0]
  }

  // ----- where the reader of the grammar stands ------------------------------------------

  datatype Place =
    | PStart
    | PSign(neg: bool)
    | PWhole(neg: bool, w: seq<Digit>)
    | PFrac(neg: bool, w: seq<Digit>, f: seq<Digit>)
    | PExp(n: Number)
    | PExpSign(n: Number, down: bool)
    | PExpDigits(n: Number, down: bool, ds: seq<Digit>)

  /** The number that is read from here on. */
  function From(p: Place, rest: Text, g: bool): Number
  {
    match p
    case PStart => Read(rest, g)
    case PSign(neg) => ReadSign(neg, rest, g)
    case PWhole(neg, w) => ReadWhole(neg, w, rest, g)
    case PFrac(neg, w, f) => ReadFrac(neg, w, f, rest, g)
    case PExp(n) => ReadExp(n, rest)
    case PExpSign(n, down) => ReadExpDigits(n, down, [], rest)
    case PExpDigits(n, down, ds) => ReadExpDigits(n, down, ds, rest)
  }

  function NextDigit(p: Place, d: Digit): Place
  {
    match p
    case PStart => PWhole(false, [d])
    case PSign(neg) => PWhole(neg, [d])
    case PWhole(neg, w) => PWhole(neg, w + [d])
    case PFrac(neg, w, f) => PFrac(neg, w, f + [d])
    case PExp(n) => PExpDigits(n, false, [d])
    case PExpSign(n, down) => PExpDigits(n, down, [d])
    case PExpDigits(n, down, ds) => PExpDigits(n, down, ds + [d])
  }

  function NextOther(p: Place, c: Octet, g: bool): Option<Place>
  {
    match p
    case PStart =>
      if IsBlank(c) then Some(p)
      else if IsSign(c) then Some(PSign(c == 45))
      else if c == POINT then Some(PFrac(false, [], []))
      else None
    case PSign(neg) => if IsBlank(c) then Some(p) else if c == POINT then Some(PFrac(neg, [], [])) else None
    case PWhole(neg, w) =>
      if c == POINT then Some(PFrac(neg, w, []))
      else if g && IsE(c) && !AllZero(w) then Some(PExp(Number(neg, w, [], 0)))
      else None
    case PFrac(neg, w, f) => if g && IsE(c) && !AllZero(w + f) then Some(PExp(Number(neg, w, f, 0))) else None
    case PExp(n) => if IsSign(c) then Some(PExpSign(n, c == 45)) else None
    case _ => None
  }

  function NextPlace(p: Place, c: Octet, g: bool): Option<Place>
  {
    if IsDigit(c) then Some(NextDigit(p, DigitOf(c))) else NextOther(p, c, g)
  }

  lemma ReadOne(c: Octet, rest: Text)
    ensures ([c] + rest)[1..] == rest
    ensures SkipBlanks([c] + rest) == if IsBlank(c) then SkipBlanks(rest) else [c] + rest
    ensures Digits([c] + rest) == if IsDigit(c) then [DigitOf(c)] + Digits(rest) else []
    ensures AfterDigits([c] + rest) == if IsDigit(c) then AfterDigits(rest) else [c] + rest
  {
    assert ([c] + rest)[1..] == rest;
  }

  lemma Push(w: seq<Digit>, d: Digit, ds: seq<Digit>)
    ensures w + ([d] + ds) == (w + [d]) + ds && [] + ([d] + ds) == [d] + ds
  {
  }

  lemma FromDigit(p: Place, c: Octet, rest: Text, g: bool)
    requires IsDigit(c)
    ensures From(p, [c] + rest, g) == From(NextDigit(p, DigitOf(c)), rest, g)
  {
    hide Digits, AfterDigits, SkipBlanks, ReadTail, Int10;
    ReadOne(c, rest);
    var d := DigitOf(c);
    match p
    case PStart => Push([], d, Digits(rest));
    case PSign(neg) => Push([], d, Digits(rest));
    case PWhole(neg, w) => Push(w, d, Digits(rest));
    case PFrac(neg, w, f) => Push(f, d, Digits(rest));
    case PExp(n) => Push([], d, Digits(rest));
    case PExpSign(n, down) => Push([], d, Digits(rest));
    case PExpDigits(n, down, ds) => Push(ds, d, Digits(rest));
  }

  lemma FromOther(p: Place, c: Octet, rest: Text, g: bool)
    requires !IsDigit(c) && NextOther(p, c, g).Some?
    ensures From(p, [c] + rest, g) == From(NextOther(p, c, g).value, rest, g)
  {
    ReadOne(c, rest);
    assert Digits([]) == [] && SkipBlanks([]) == [];
    assert forall w: seq<Digit> :: w + [] == w;
    hide Digits, AfterDigits, SkipBlanks;
  }

  lemma FromStop(p: Place, c: Octet, rest: Text, g: bool)
    requires !IsDigit(c) && NextOther(p, c, g).None?
    ensures From(p, [c] + rest, g) == From(p, [], g)
  {
    ReadOne(c, rest);
    assert Digits([]) == [] && SkipBlanks([]) == [] && AfterDigits([]) == [];
    assert forall w: seq<Digit> :: w + [] == w;
    hide Digits, AfterDigits, SkipBlanks;
  }

  // ----- the machine and the reader agree ------------------------------------------------

  function Sig(ds: seq<Digit>): seq<Digit> { ds[Lead(ds)..] }

  /** The digits written are the significant ones, and dp is the place of the point. */
  ghost predicate Mantissa(m: Mach, neg: bool, w: seq<Digit>, f: seq<Digit>, r: bool)
  {
    var ds := w + f;
    m.rflag == (r != neg) && m.kp == Chars(Sig(ds), m.rflag) && m.nzero == Trail(Sig(ds)) &&
    m.dp == BASE + if AllZero(ds) then -|f| else |w| - Lead(ds)
  }

  ghost predicate NoExp(m: Mach) { m.exp == 0 && !m.expsign }

  /** The machine stands where the reader stands. */
  ghost predicate Agrees(m: Mach, p: Place, r: bool)
  {
    match p
    case PStart => m == Mach(NSstart, [], 0, BASE, 0, false, r)
    case PSign(neg) => m == Mach(NSsign, [], 0, BASE, 0, false, r != neg)
    case PWhole(neg, w) => w != [] && Mantissa(m, neg, w, [], r) && NoExp(m) &&
    m.st == if AllZero(w) then NSzero else NSdigit
    case PFrac(neg, w, f) =>
      Mantissa(m, neg, w, f, r) && NoExp(m) &&
      if AllZero(w + f) then m.st in {NSpoint, NSzerofract} else m.st == NSfract
    case PExp(n) => ExpPart(m, n, r) && NoExp(m) && m.st == NSexp
    case PExpSign(n, down) => ExpPart(m, n, r) && m.exp == 0 && m.expsign == down && m.st == NSexpsign
    case PExpDigits(n, down, ds) => ExpPart(m, n, r) && m.exp == Int10(ds) && m.expsign == down && m.st == NSexpdigit
  }

  ghost predicate ExpPart(m: Mach, n: Number, r: bool)
  {
    Mantissa(m, n.neg, n.whole, n.frac, r) && !AllZero(n.whole + n.frac)
  }

  lemma {:induction false} LeadAppend(s: seq<Digit>, d: Digit)
    ensures Lead(s + [d]) == if AllZero(s) then (if d == 0 then |s| + 1 else |s|) else Lead(s)
  {
    if s != [] {
      assert (s + [d])[1..] == s[1..] + [d];
      LeadAppend(s[1..], d);
      assert s[0] == 0 ==> (AllZero(s) <==> AllZero(s[1..]));
    } else {
      assert [d][1..] == [];
    }
  }

  lemma TrailAppend(s: seq<Digit>, d: Digit)
    ensures Trail(s + [d]) == if d == 0 then Trail(s) + 1 else 0
  {
    assert (s + [d])[..|s|] == s;
  }

  lemma ZeroAppend(s: seq<Digit>, d: Digit)
    ensures AllZero(s + [d]) <==> AllZero(s) && d == 0
  {
    assert (s + [d])[|s|] == d;
    assert forall i :: 0 <= i < |s| ==> (s + [d])[i] == s[i];
  }

  lemma SigAppend(s: seq<Digit>, d: Digit)
    ensures Sig(s + [d]) == if AllZero(s) && d == 0 then [] else if AllZero(s) then [d] else Sig(s) + [d]
    ensures AllZero(s) ==> Sig(s) == []
  {
    LeadAppend(s, d);
    hide Lead;
  }

  lemma CharsAppend(s: seq<Digit>, d: Digit, down: bool)
    ensures Chars(s + [d], down) == Chars(s, down) + [Shown(Code(d), down)]
  {
  }

  lemma CodeOf(c: Octet)
    requires IsDigit(c)
    ensures Code(DigitOf(c)) == c && (c == ZERO <==> DigitOf(c) == 0)
  {
  }

  lemma TrailOne(d: Digit)
    ensures Trail([d]) == if d == 0 then 1 else 0
  {
    assert [d][..0] == [];
  }

  lemma NoChars(down: bool)
    ensures Chars([], down) == [] && Trail([]) == 0
  {
  }

  /** What the machine holds for the digits ds. */
  ghost predicate Wrote(m: Mach, ds: seq<Digit>) { m.kp == Chars(Sig(ds), m.rflag) && m.nzero == Trail(Sig(ds)) }

  lemma WroteDigit(m: Mach, m': Mach, ds: seq<Digit>, d: Digit)
    requires Wrote(m, ds) && m'.rflag == m.rflag
    requires if AllZero(ds) && d == 0 then m'.kp == m.kp && m'.nzero == m.nzero
      else m'.kp == m.kp + [Shown(Code(d), m.rflag)] && m'.nzero == (if d == 0 then m.nzero + 1 else 0)
    ensures Wrote(m', ds + [d])
  {
    hide Lead, Trail, Chars, Sig, Code, AllZero;
    SigAppend(ds, d);
    TrailAppend(Sig(ds), d);
    TrailOne(d);
    NoChars(m.rflag);
    CharsAppend(Sig(ds), d, m.rflag);
    CharsAppend([], d, m.rflag);
    assert [] + [d] == [d];
  }

  /** One more digit, in the number and in the machine. */
  lemma MantissaDigit(m: Mach, m': Mach, neg: bool, w: seq<Digit>, f: seq<Digit>, w': seq<Digit>, f': seq<Digit>,
                      d: Digit, r: bool)
    requires Mantissa(m, neg, w, f, r) && m'.rflag == m.rflag && w' + f' == (w + f) + [d]
    requires (w' == w && f' == f + [d]) || (f == [] && f' == [] && w' == w + [d])
    requires if AllZero(w + f) && d == 0
      then m'.kp == m.kp && m'.nzero == m.nzero && m'.dp == m.dp - (|f'| - |f|)
      else m'.kp == m.kp + [Shown(Code(d), m.rflag)] && m'.nzero == (if d == 0 then m.nzero + 1 else 0) &&
           m'.dp == m.dp + (|w'| - |w|)
    ensures Mantissa(m', neg, w', f', r) && (AllZero(w' + f') <==> AllZero(w + f) && d == 0)
  {
    hide Lead, Trail, Chars, Sig, Code, AllZero, Shown;
    var ds := w + f;
    WroteDigit(m, m', ds, d);
    ZeroAppend(ds, d);
    LeadAppend(ds, d);
  }

  lemma NoneZero(w: seq<Digit>)
    ensures w == [] ==> AllZero(w)
  {
  }

  lemma AgreesWhole(m: Mach, neg: bool, w: seq<Digit>, r: bool)
    requires w != [] && Mantissa(m, neg, w, [], r) && NoExp(m) && m.st == if AllZero(w) then NSzero else NSdigit
    ensures Agrees(m, PWhole(neg, w), r)
  {
  }

  /** A digit before the point. */
  lemma WholeDigit(m: Mach, neg: bool, w: seq<Digit>, c: Octet, r: bool)
    requires IsDigit(c) && Mantissa(m, neg, w, [], r) && NoExp(m)
    requires if w == [] then m.st in {NSstart, NSsign} else m.st == if AllZero(w) then NSzero else NSdigit
    ensures var n := if c == ZERO then OnZero(m, c) else OnDigit(m, c);
            n.Some? && Agrees(n.value, PWhole(neg, w + [DigitOf(c)]), r)
  {
    hide Mantissa, DigitOf, Code, AllZero, Agrees;
    NoneZero(w);
    var d := DigitOf(c);
    CodeOf(c);
    assert w + [] == w && (w + [d]) + [] == w + [d];
    var n := if c == ZERO then OnZero(m, c) else OnDigit(m, c);
    MantissaDigit(m, n.value, neg, w, [], w + [d], [], d, r);
    AgreesWhole(n.value, neg, w + [d], r);
  }

  /** A digit after the point. */
  lemma FracDigit(m: Mach, neg: bool, w: seq<Digit>, f: seq<Digit>, c: Octet, r: bool)
    requires IsDigit(c) && Agrees(m, PFrac(neg, w, f), r)
    ensures var n := if c == ZERO then OnZero(m, c) else OnDigit(m, c);
            n.Some? && Agrees(n.value, PFrac(neg, w, f + [DigitOf(c)]), r)
  {
    hide Mantissa, DigitOf, Code, AllZero;
    var d := DigitOf(c);
    CodeOf(c);
    assert w + (f + [d]) == (w + f) + [d];
    var n := if c == ZERO then OnZero(m, c) else OnDigit(m, c);
    MantissaDigit(m, n.value, neg, w, f, w, f + [d], d, r);
  }

  lemma IntAppend(ds: seq<Digit>, d: Digit)
    ensures Int10(ds + [d]) == Int10(ds) * 10 + d && Int10([d]) == d
  {
    assert (ds + [d])[..|ds|] == ds && [d][..0] == [];
  }

  lemma StartMantissa(m: Mach, neg: bool, r: bool)
    requires m.kp == [] && m.nzero == 0 && m.dp == BASE && m.rflag == (r != neg)
    ensures Mantissa(m, neg, [], [], r)
  {
    assert Sig([]) == [] && Chars([], m.rflag) == [];
  }

  lemma StepDigit(m: Mach, p: Place, c: Octet, g: bool, r: bool)
    requires Agrees(m, p, r) && IsDigit(c)
    ensures var n := Step(m, c, g); n.Some? && Agrees(n.value, NextDigit(p, DigitOf(c)), r)
  {
    hide Mantissa, Int10;
    match p
    case PStart =>
      StartMantissa(m, false, r);
      WholeDigit(m, false, [], c, r);
      assert [] + [DigitOf(c)] == [DigitOf(c)];
    case PSign(neg) =>
      StartMantissa(m, neg, r);
      WholeDigit(m, neg, [], c, r);
      assert [] + [DigitOf(c)] == [DigitOf(c)];
    case PWhole(neg, w) => WholeDigit(m, neg, w, c, r);
    case PFrac(neg, w, f) => FracDigit(m, neg, w, f, c, r);
    case PExp(n) => ExpDigit(m, p, [], c, r);
    case PExpSign(n, down) => ExpDigit(m, p, [], c, r);
    case PExpDigits(n, down, ds) => ExpDigit(m, p, ds, c, r);
  }

  lemma SameMantissa(m: Mach, m': Mach, n: Number, r: bool)
    requires ExpPart(m, n, r) && m' == m.(st := m'.st, exp := m'.exp, expsign := m'.expsign)
    ensures ExpPart(m', n, r)
  {
  }

  lemma ExpParts(m: Mach, p: Place, r: bool)
    requires Agrees(m, p, r) && (p.PExp? || p.PExpSign? || p.PExpDigits?)
    ensures ExpPart(m, p.n, r) && m.st in {NSexp, NSexpsign, NSexpdigit} &&
            m.exp == (if p.PExpDigits? then Int10(p.ds) else Int10([]))
    ensures m.expsign == if p.PExp? then false else p.down
  {
  }

  lemma AgreesExp(m: Mach, n: Number, down: bool, ds: seq<Digit>, r: bool)
    requires ExpPart(m, n, r) && m.exp == Int10(ds) && m.expsign == down && m.st == NSexpdigit
    ensures Agrees(m, PExpDigits(n, down, ds), r)
  {
  }

  lemma ExpDigit(m: Mach, p: Place, ds: seq<Digit>, c: Octet, r: bool)
    requires Agrees(m, p, r) && IsDigit(c) && (p.PExp? || p.PExpSign? || (p.PExpDigits? && p.ds == ds)) &&
             (!p.PExpDigits? ==> ds == [])
    ensures var n := if c == ZERO then OnZero(m, c) else OnDigit(m, c);
            n.Some? && Agrees(n.value, NextDigit(p, DigitOf(c)), r)
  {
    hide Int10, DigitOf, ExpPart, Agrees;
    ExpParts(m, p, r);
    CodeOf(c);
    IntAppend(ds, DigitOf(c));
    assert [] + [DigitOf(c)] == [DigitOf(c)];
    var n := if c == ZERO then OnZero(m, c) else OnDigit(m, c);
    SameMantissa(m, n.value, p.n, r);
    AgreesExp(n.value, p.n, if p.PExp? then false else p.down, ds + [DigitOf(c)], r);
  }

  lemma PointMantissa(m: Mach, m': Mach, neg: bool, w: seq<Digit>, r: bool)
    requires Mantissa(m, neg, w, [], r) && m' == m.(st := m'.st)
    ensures Mantissa(m', neg, w, [], r) && w + [] == w
  {
    assert w + [] == w;
  }

  lemma ExpMantissa(m: Mach, m': Mach, neg: bool, w: seq<Digit>, f: seq<Digit>, r: bool)
    requires Mantissa(m, neg, w, f, r) && !AllZero(w + f) && m' == m.(st := m'.st)
    ensures ExpPart(m', Number(neg, w, f, 0), r)
  {
  }

  lemma StepStart(m: Mach, p: Place, c: Octet, g: bool, r: bool)
    requires Agrees(m, p, r) && !IsDigit(c) && (p.PStart? || p.PSign?)
    ensures Step(m, c, g).Some? <==> NextOther(p, c, g).Some?
    ensures Step(m, c, g).Some? ==> Agrees(Step(m, c, g).value, NextOther(p, c, g).value, r)
  {
    hide Mantissa;
    if c == POINT {
      StartMantissa(OnPoint(m).value, if p.PStart? then false else p.neg, r);
      assert AllZero([] + []);
    }
  }

  lemma StepMantissa(m: Mach, p: Place, c: Octet, g: bool, r: bool)
    requires Agrees(m, p, r) && !IsDigit(c) && (p.PWhole? || p.PFrac?)
    ensures Step(m, c, g).Some? <==> NextOther(p, c, g).Some?
    ensures Step(m, c, g).Some? ==> Agrees(Step(m, c, g).value, NextOther(p, c, g).value, r)
  {
    hide Mantissa, AllZero, ExpPart;
    if p.PWhole? {
      assert p.w + [] == p.w;
    }
    if p.PWhole? && c == POINT {
      PointMantissa(m, OnPoint(m).value, p.neg, p.w, r);
    } else if g && IsE(c) && OnE(m).Some? {
      ExpMantissa(m, OnE(m).value, p.neg, p.w, if p.PWhole? then [] else p.f, r);
    }
  }

  lemma StepExp(m: Mach, p: Place, c: Octet, g: bool, r: bool)
    requires Agrees(m, p, r) && !IsDigit(c) && (p.PExp? || p.PExpSign? || p.PExpDigits?)
    ensures Step(m, c, g).Some? <==> NextOther(p, c, g).Some?
    ensures Step(m, c, g).Some? ==> Agrees(Step(m, c, g).value, NextOther(p, c, g).value, r)
  {
    hide Mantissa, AllZero, ExpPart, Int10;
    if p.PExp? && IsSign(c) {
      SameMantissa(m, OnSign(m, c).value, p.n, r);
    }
  }

  lemma StepOther(m: Mach, p: Place, c: Octet, g: bool, r: bool)
    requires Agrees(m, p, r) && !IsDigit(c)
    ensures Step(m, c, g).Some? <==> NextOther(p, c, g).Some?
    ensures Step(m, c, g).Some? ==> Agrees(Step(m, c, g).value, NextOther(p, c, g).value, r)
  {
    hide Agrees, Step, NextOther;
    if p.PStart? || p.PSign? {
      StepStart(m, p, c, g, r);
    } else if p.PWhole? || p.PFrac? {
      StepMantissa(m, p, c, g, r);
    } else {
      StepExp(m, p, c, g, r);
    }
  }

  // ----- the key is that of the number ---------------------------------------------------

  lemma CharsTake(s: seq<Digit>, down: bool, n: nat)
    requires n <= |s|
    ensures Chars(s, down)[..n] == Chars(s[..n], down) && |Chars(s, down)| == |s|
  {
  }

  lemma NormalIs(n: Number)
    requires !AllZero(n.whole + n.frac)
    ensures var ds := n.whole + n.frac; Normal(n) == Num(n.neg, Strip(Sig(ds)), |n.whole| - Lead(ds) + n.exp)
  {
    var ds := n.whole + n.frac;
    assert Lead(ds) < |ds|;
  }

  lemma FinishNum(m: Mach, n: Number, r: bool, dp: int)
    requires Mantissa(m, n.neg, n.whole, n.frac, r) && !AllZero(n.whole + n.frac) && dp == m.dp + n.exp
    ensures Normal(n).Num? && m.nzero <= |m.kp|
    ensures Encode(Normal(n), r) == (var dp' := if m.rflag then -dp - 1 else dp;
      [if m.rflag then 0x10 else 0x30, Hi(dp'), Lo(dp')] + m.kp[..|m.kp| - m.nzero] + [if m.rflag then 255 else 0])
  {
    hide Lead, Chars, Hi, Lo, Sig, Normal, AllZero;
    var s := Sig(n.whole + n.frac);
    NormalIs(n);
    TrailBound(s);
    hide Trail;
    CharsTake(s, m.rflag, |s| - Trail(s));
  }

  lemma TrailBound(s: seq<Digit>)
    ensures Trail(s) <= |s|
  {
  }

  lemma FromEnd(p: Place, g: bool)
    ensures var n := From(p, [], g);
      match p
      case PStart => n == Number(false, [], [], 0)
      case PSign(neg) => n == Number(neg, [], [], 0)
      case PWhole(neg, w) => n == Number(neg, w, [], 0)
      case PFrac(neg, w, f) => n == Number(neg, w, f, 0)
      case PExp(x) => n == x.(exp := 0)
      case PExpSign(x, down) => n == x.(exp := 0)
      case PExpDigits(x, down, ds) => n == x.(exp := if down then -Int10(ds) else Int10(ds))
  {
    assert forall w: seq<Digit> :: w + [] == w;
    assert Int10([]) == 0;
  }

  lemma ZeroNormal(n: Number)
    requires AllZero(n.whole + n.frac)
    ensures Normal(n) == Zero
  {
  }

  lemma FinishIs(m: Mach, p: Place, g: bool, r: bool)
    requires Agrees(m, p, r)
    ensures Finish(m) == Encode(Normal(From(p, [], g)), r)
  {
    hide Mantissa, Normal, From, Int10, Hi, Lo;
    FromEnd(p, g);
    var n := From(p, [], g);
    assert forall w: seq<Digit> :: w + [] == w;
    if AllZero(n.whole + n.frac) {
      ZeroNormal(n);
    } else {
      FinishMantissa(m, p, n, r);
      FinishNum(m, n, r, m.dp + n.exp);
    }
  }

  lemma FinishMantissa(m: Mach, p: Place, n: Number, r: bool)
    requires Agrees(m, p, r) && !AllZero(n.whole + n.frac)
    requires match p
      case PStart => n == Number(false, [], [], 0)
      case PSign(neg) => n == Number(neg, [], [], 0)
      case PWhole(neg, w) => n == Number(neg, w, [], 0)
      case PFrac(neg, w, f) => n == Number(neg, w, f, 0)
      case PExp(x) => n == x.(exp := 0)
      case PExpSign(x, down) => n == x.(exp := 0)
      case PExpDigits(x, down, ds) => n == x.(exp := if down then -Int10(ds) else Int10(ds))
    ensures Mantissa(m, n.neg, n.whole, n.frac, r)
  {
  }

  /** The key built for a field is the key of the number its text begins with. */
  method DokeyGn(line: Text, g: bool, r: bool) returns (key: Key)
    ensures key == Encode(Normal(Read(line, g)), r)
  {
    hide Agrees, Read, From, Encode, Normal, Finish, Step;
    var m := Mach(NSstart, [], 0, BASE, 0, false, r);
    ghost var p := PStart;
    AgreesStart(r);
    FromStart(line, g);
    assert line[0..] == line;
    var lp := 0;
    while lp < |line|
      invariant 0 <= lp <= |line| && Agrees(m, p, r) && From(p, line[lp..], g) == Read(line, g)
    {
      var c := line[lp];
      assert line[lp..] == [c] + line[lp + 1..];
      Advance(m, p, c, line[lp + 1..], g, r);
      var n := Step(m, c, g);
      if n.None? {
        FinishIs(m, p, g, r);
        return Finish(m);
      }
      m := n.value;
      p := NextPlace(p, c, g).value;
      lp := lp + 1;
    }
    assert line[lp..] == [];
    FinishIs(m, p, g, r);
    key := Finish(m);
  }

  lemma AgreesStart(r: bool)
    ensures Agrees(Mach(NSstart, [], 0, BASE, 0, false, r), PStart, r)
  {
  }

  lemma FromStart(line: Text, g: bool)
    ensures From(PStart, line, g) == Read(line, g)
  {
  }

  lemma Advance(m: Mach, p: Place, c: Octet, rest: Text, g: bool, r: bool)
    requires Agrees(m, p, r)
    ensures Step(m, c, g).Some? <==> NextPlace(p, c, g).Some?
    ensures Step(m, c, g).Some? ==>
              Agrees(Step(m, c, g).value, NextPlace(p, c, g).value, r) &&
              From(p, [c] + rest, g) == From(NextPlace(p, c, g).value, rest, g)
    ensures Step(m, c, g).None? ==> From(p, [c] + rest, g) == From(p, [], g)
  {
    hide Agrees, From, Step, NextOther, NextDigit;
    if IsDigit(c) {
      StepDigit(m, p, c, g, r);
      FromDigit(p, c, rest, g);
    } else {
      StepOther(m, p, c, g, r);
      if NextOther(p, c, g).Some? {
        FromOther(p, c, rest, g);
      } else {
        FromStop(p, c, rest, g);
      }
    }
  }

  /** Keys of fields are in the order of the numbers they stand for, reversed under r; equal exactly
      for equal numbers; and none is a prefix of another. */
  lemma KeysEmbed(x: Text, y: Text, g: bool, r: bool)
    requires InReach(Normal(Read(x, g))) && InReach(Normal(Read(y, g)))
    ensures Embedded(Value(Read(x, g)), Value(Read(y, g)), Encode(Normal(Read(x, g)), r), Encode(Normal(Read(y, g)), r),
              r)
  {
    hide Read, Normal, Encode, Value, Val;
    NormalOk(Read(x, g));
    NormalOk(Read(y, g));
    NormalVal(Read(x, g));
    NormalVal(Read(y, g));
    Embed(Normal(Read(x, g)), Normal(Read(y, g)), r);
  }
}
