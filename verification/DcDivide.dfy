/** div on blocks: guess a quotient digit, multiply, subtract, fold, and repair at the end. */
module DcDivide {
  import opened DcNumber
  import opened DcBlk
  import opened DcArith
  import opened DcQuotient
  import opened DcDiv

  // ----- the scratch product -------------------------------------------------------------

  /** The scratch block holds dig times the divisor in its first n + 1 bytes; what lies past them is
      left over from earlier divisions. */
  ghost predicate Scratch(x: seq<int>, n: nat)
  {
    n < |x| && (forall i :: 0 <= i < n ==> 0 <= x[i] < 100) && 0 <= x[n] <= 117
  }

  lemma ScratchArith(p: int, x: int, dig: int, carry: int, l: int, v: int, d: int)
    requires d == x * dig + carry && v + p * carry == dig * l
    ensures v + p * (d % 100) + (100 * p) * (d / 100) == dig * (l + p * x)
  {
    CarryArith(p, x * dig, carry, d % 100, d / 100);
    MulDistr(dig, l, p * x);
    assert dig * (p * x) == p * (x * dig);
  }

  lemma ScratchCarry(x: int, dig: int, carry: int)
    requires 0 <= x < 100 && 0 <= carry <= dig
    ensures 0 <= (x * dig + carry) / 100 <= dig
  {
    assert 0 <= x * dig <= 99 * dig;
  }

  ghost predicate ScratchDone(divr: Blk, divxyz: Blk, dig: int, carry: int)
    reads divr, divxyz
  {
    divr.Valid() && divxyz.Valid() && divr.rd == divxyz.rd <= divr.wt && divxyz.rd <= divxyz.wt &&
    0 <= carry <= dig && Digits(divxyz.D()[..divxyz.rd]) &&
    Val(divxyz.D()[..divxyz.rd]) + Pow100(divxyz.rd) * carry == dig * Low(divr.D(), divr.rd)
  }

  method ScratchDigit(divr: Blk, divxyz: Blk, dig: int, c: int) returns (carry: int)
    requires divr != divxyz && 0 <= dig <= 117 && ScratchDone(divr, divxyz, dig, c) && Digits(divr.D())
    requires divr.rd < divr.wt
    modifies divr`rd, divxyz
    ensures ScratchDone(divr, divxyz, dig, carry) && divr.rd == old(divr.rd) + 1
  {
    ghost var o, k := divxyz.D()[..divxyz.rd], divr.rd;
    var x := divr.Sgetc();
    var d := x * dig + c;
    ScratchCarry(x, dig, c);
    ScratchArith(Pow100(k), x, dig, c, Low(divr.D(), k), Val(o), d);
    LowNext(divr.D(), k);
    ValSnoc(o, d % 100);
    carry := d / 100;
    divxyz.Salterc(d % 100);
    assert divxyz.D()[..k + 1] == o + [d % 100];
  }

  /** divxyz = divr * dig. */
  method MulScratch(divr: Blk, dig: int, divxyz: Blk)
    requires divr != divxyz && divr.Valid() && divxyz.Valid() && Digits(divr.D()) && 0 <= dig <= 117
    modifies divr`rd, divxyz
    ensures divxyz.Valid() && Scratch(divxyz.D(), divr.wt)
    ensures Val(divxyz.D()[..divr.wt + 1]) == dig * Val(divr.D())
  {
    divr.rd, divxyz.rd := 0, 0;
    var carry := 0;
    assert Low(divr.D(), 0) == 0;
    while divr.rd != divr.wt
      invariant ScratchDone(divr, divxyz, dig, carry)
      decreases divr.wt - divr.rd
    {
      carry := ScratchDigit(divr, divxyz, dig, carry);
    }
    LowAll(divr.D(), divr.wt);
    ghost var o, n := divxyz.D()[..divxyz.rd], divr.wt;
    ValSnoc(o, carry);
    divxyz.Salterc(carry);
    assert divxyz.D()[..n + 1] == o + [carry];
    assert forall i :: 0 <= i < n ==> divxyz.D()[i] == o[i];
  }

  // ----- subtraction ---------------------------------------------------------------------

  /** The digits of e below k are done: s was there before, x is being subtracted at place offset. */
  ghost predicate Subtracted(e: seq<int>, k: nat, s: seq<int>, x: seq<int>, offset: nat, carry: int)
  {
    |e| == |s| && offset <= k <= |s| && k - offset <= |x| && 0 <= carry <= 1 &&
    (forall i :: k <= i < |s| ==> e[i] == s[i]) &&
    (forall i :: 0 <= i < k && i < |s| - 1 ==> 0 <= e[i] < 100) &&
    (k == |s| && |s| > offset ==> if carry == 0 then 0 <= e[|s| - 1] else e[|s| - 1] < 100) &&
    Val(e[..k]) - Pow100(k) * carry == Val(s[..k]) - Pow100(offset) * Val(x[..k - offset])
  }

  lemma SubArith(pk: int, po: int, pi: int, a: int, b: int, c: int, d: int, c': int, vo: int, vs: int, vx: int)
    requires pk == po * pi && d - 100 * c' == a - b - c && vo - pk * c == vs - po * vx
    ensures vo + pk * d - (100 * pk) * c' == vs + pk * a - po * (vx + pi * b)
  {
    MulDistr(po, vx, pi * b);
    assert po * (pi * b) == pk * b;
    assert pk * d - (100 * pk) * c' == pk * (d - 100 * c');
    assert pk * (a - b - c) == pk * a - pk * b - pk * c;
  }

  lemma {:induction false} SubStep(s: seq<int>, x: seq<int>, o: seq<int>, offset: nat, c: int, d: int, c': int)
    requires offset <= |o| < |s| && |o| - offset < |x|
    requires d - 100 * c' == s[|o|] - x[|o| - offset] - c
    requires Val(o) - Pow100(|o|) * c == Val(s[..|o|]) - Pow100(offset) * Val(x[..|o| - offset])
    ensures Val(o + [d]) - Pow100(|o| + 1) * c' == Val(s[..|o| + 1]) - Pow100(offset) * Val(x[..|o| + 1 - offset])
  {
    var k, i := |o|, |o| - offset;
    ValSnoc(o, d);
    ValTake(s, k);
    ValTake(x, i);
    PowAdd(offset, i);
    SubArith(Pow100(k), Pow100(offset), Pow100(i), s[k], x[i], c, d, c', Val(o), Val(s[..k]), Val(x[..i]));
  }

  lemma {:induction false} SubtractedNext(e: seq<int>, k: nat, s: seq<int>, x: seq<int>, offset: nat, n: nat,
                                          c: int, d: int, carry: int)
    requires Folded(s) && Scratch(x, n) && |s| == offset + n + 1 && k < |s| && Subtracted(e, k, s, x, offset, c)
    requires d - 100 * carry == s[k] - x[k - offset] - c && 0 <= carry <= 1
    requires (if carry == 0 then 0 <= d else d < 100) && (k < |s| - 1 ==> 0 <= d < 100)
    ensures Subtracted(e[k := d], k + 1, s, x, offset, carry)
  {
    SubStep(s, x, e[..k], offset, c, d, carry);
    assert e[k := d][..k + 1] == e[..k] + [d];
  }

  method NextByte(p: Blk) returns (n: int)
    requires p.Valid() && p.rd <= p.wt
    modifies p`rd
    ensures p.rd == Min(old(p.rd) + 1, p.wt) && n == At(p.D(), old(p.rd))
  {
    n := 0;
    if p.rd != p.wt {
      n := p.Sgetc();
    }
  }

  method MinusDigit(a: int, x: int, c: int) returns (d: int, carry: int)
    requires 0 <= a < 128 && 0 <= x <= 117 && 0 <= c <= 1
    ensures d - 100 * carry == a - x - c && 0 <= carry <= 1 && -128 <= d <= 127
    ensures if carry == 0 then 0 <= d else d < 100
    ensures a < 100 && x < 100 ==> 0 <= d < 100
  {
    d := a - x - c;
    carry := 0;
    if d < 0 {
      d := d + 100;
      carry := 1;
    }
  }

  method SubDigit(divd: Blk, divxyz: Blk, ghost s: seq<int>, ghost n: nat, offset: nat, c: int) returns (carry: int)
    requires divd != divxyz && divd.Valid() && divxyz.Valid() && divd.rd < divd.wt && divxyz.rd == divd.rd - offset
    requires Folded(s) && Scratch(divxyz.D(), n) && |s| == offset + n + 1
    requires Subtracted(divd.D(), divd.rd, s, divxyz.D(), offset, c)
    modifies divd, divxyz`rd
    ensures divd.Valid() && divd.rd == old(divd.rd) + 1 && divd.wt == old(divd.wt) && divxyz.rd == divd.rd - offset
    ensures Subtracted(divd.D(), divd.rd, s, divxyz.D(), offset, carry)
  {
    ghost var e, k := divd.D(), divd.rd;
    var x := NextByte(divxyz);
    var d;
    d, carry := MinusDigit(divd.Slookc(), x, c);
    SubtractedNext(e, k, s, divxyz.D(), offset, n, c, d, carry);
    divd.Salterc(d);
    assert divd.D() == e[k := d];
  }

  /** divd -= 100^offset * scratch, with the borrow left at the end. */
  method SubScratch(divd: Blk, divxyz: Blk, n: nat, offset: nat) returns (carry: int)
    requires divd != divxyz && divd.Valid() && divxyz.Valid()
    requires Folded(divd.D()) && Scratch(divxyz.D(), n) && divd.wt == offset + n + 1
    modifies divd, divxyz`rd
    ensures divd.Valid() && divd.wt == old(divd.wt) && 0 <= carry <= 1
    ensures Low99(divd.D())
    ensures if carry == 0 then 0 <= divd.D()[divd.wt - 1] else divd.D()[divd.wt - 1] < 100
    ensures Val(divd.D()) - Pow100(divd.wt) * carry ==
      old(Val(divd.D())) - Pow100(offset) * Val(divxyz.D()[..n + 1])
  {
    ghost var s := divd.D();
    divxyz.rd := 0;
    divd.Seekc(offset);
    assert divd.D() == s;
    carry := 0;
    while divd.rd != divd.wt
      invariant divd.Valid() && divd.rd <= divd.wt == |s|
      invariant Subtracted(divd.D(), divd.rd, s, divxyz.D(), offset, carry) && divxyz.rd == divd.rd - offset
      decreases divd.wt - divd.rd
    {
      carry := SubDigit(divd, divxyz, s, n, offset, carry);
    }
    assert divd.D()[..divd.wt] == divd.D() && s[..divd.wt] == s;
  }

  /** All digits but the top one are ordinary. */
  ghost predicate Low99(s: seq<int>)
  {
    s != [] && forall i :: 0 <= i < |s| - 1 ==> 0 <= s[i] < 100
  }

  // ----- what the borrow and the top digit say -------------------------------------------

  lemma TopArith(low: int, p: int, top: int, r: int)
    requires 0 <= low < p && low + p * top == r
    ensures 0 <= r < 100 * p ==> 0 <= top < 100
    ensures 0 <= r < 2 * p ==> top <= 1
    ensures 99 * p <= r < 100 * p ==> top == 99
    ensures r < 0 ==> top < 0
    ensures r >= 100 * p ==> top >= 100
  {
    if top <= -1 {
      MulLe(top, -1, p);
    }
    if top >= 100 {
      MulLe(100, top, p);
    }
    if top >= 2 {
      MulLe(2, top, p);
    }
    if top <= 98 {
      MulLe(top, 98, p);
    }
  }

  /** A non-negative difference leaves no borrow; a small negative one leaves a borrow and 99 on top. */
  lemma {:induction false} AfterSub(e: seq<int>, carry: int, r: int)
    requires Low99(e) && 0 <= carry <= 1 && (if carry == 0 then 0 <= e[|e| - 1] else e[|e| - 1] < 100)
    requires Val(e) - Pow100(|e|) * carry == r && -Pow100(|e| - 1) <= r < 2 * Pow100(|e| - 1)
    ensures r >= 0 ==> carry == 0 && 0 <= e[|e| - 1] <= 1 && Val(e) == r
    ensures r < 0 ==> carry == 1 && e[|e| - 1] == 99 && Val(e) == r + Pow100(|e|)
  {
    DropTop(e);
    ValBound(e[..|e| - 1]);
    TopArith(Val(e[..|e| - 1]), Pow100(|e| - 1), e[|e| - 1], Val(e));
  }

  // ----- reading the leading digits ------------------------------------------------------

  method BackOrZero(p: Blk) returns (n: int)
    requires p.Valid() && p.rd <= p.wt
    modifies p`rd
    ensures n == AtInt(p.D(), old(p.rd) - 1) && p.rd == if old(p.rd) == 0 then 0 else old(p.rd) - 1
  {
    n := 0;
    if p.rd != 0 {
      n := p.Sbackc();
    }
  }

  method LeadDivisor(divr: Blk) returns (c: int, magic: bool)
    requires divr.Valid() && Divisor(divr.D())
    modifies divr`rd
    ensures c == DivisorLead(divr.D()) && (magic <==> divr.D()[divr.wt - 1] < 10)
  {
    divr.rd := divr.wt;
    c := divr.Sbackc();
    magic := c < 10;
    var d2 := BackOrZero(divr);
    c := c * 100 + d2;
    if magic {
      var d3 := BackOrZero(divr);
      c := (c * 100 + d3) * 2;
      c := c / 25;
    }
  }

  method GuessDigit(divd: Blk, c: int, magic: bool, offset: nat) returns (dig: int, under: bool)
    requires divd.Valid() && divd.wt > 0 && c >= 1
    modifies divd`rd
    ensures (dig, under) == Guess(Lead3(divd.D()), c, magic, offset == 0)
  {
    divd.rd := divd.wt;
    var d1: int := divd.Sbackc();
    var td := d1 * 100;
    var d2 := BackOrZero(divd);
    td := (td + d2) * 100;
    var d3 := BackOrZero(divd);
    td := td + d3;
    var cc := c;
    if offset == 0 {
      td := td + 1;
    } else {
      cc := cc + 1;
    }
    if magic {
      td := td * 8;
    }
    dig := td / cc;
    under := false;
    if td % cc < 8 && dig > 0 && magic {
      dig := dig - 1;
      under := true;
    }
  }

  // ----- folding the top digit -----------------------------------------------------------

  ghost predicate Foldable(e: seq<int>)
  {
    |e| >= 2 && Low99(e) && 0 <= e[|e| - 1] <= 1 && (e[|e| - 1] == 1 ==> e[|e| - 2] < 17)
  }

  function FoldTop(e: seq<int>): (r: seq<int>)
    requires |e| >= 2
  {
    e[..|e| - 2] + [if e[|e| - 1] != 0 then e[|e| - 2] + 100 else e[|e| - 2]]
  }

  lemma FoldKeeps(p: int, x: int, top: int)
    requires 0 <= top <= 1
    ensures p * (if top != 0 then x + 100 else x) == p * x + (100 * p) * top
  {
    if top == 1 {
      MulDistr(p, x, 100);
    }
  }

  /** Dropping the top digit after adding 100 to the one below keeps the value, and the folded
      digit still fits a signed char. */
  lemma {:induction false} FoldTopValue(e: seq<int>)
    requires Foldable(e)
    ensures Val(FoldTop(e)) == Val(e) && Folded(FoldTop(e))
  {
    var k := |e| - 1;
    DropTop(e);
    DropTop(e[..k]);
    assert e[..k][..k - 1] == e[..k - 1];
    ValSnoc(e[..k - 1], if e[k] != 0 then e[k - 1] + 100 else e[k - 1]);
    FoldKeeps(Pow100(k - 1), e[k - 1], e[k]);
  }

  lemma FoldArith(low: int, p: int, x: int)
    requires 0 <= low < p && 100 * (low + p * x + 100 * p) < 117 * (100 * p)
    ensures x < 17
  {
    if x >= 17 {
      MulLe(17, x, p);
    }
  }

  lemma {:induction false} FoldableWhenSmall(e: seq<int>)
    requires |e| >= 2 && Low99(e) && 0 <= e[|e| - 1] <= 1 && 100 * Val(e) < 117 * Pow100(|e| - 1)
    ensures Foldable(e)
  {
    if e[|e| - 1] == 1 {
      var k := |e| - 1;
      DropTop(e);
      DropTop(e[..k]);
      assert e[..k][..k - 1] == e[..k - 1];
      ValBound(e[..k - 1]);
      FoldArith(Val(e[..k - 1]), Pow100(k - 1), e[k - 1]);
    }
  }

  method Fold(divd: Blk)
    requires divd.Valid() && Foldable(divd.D())
    modifies divd
    ensures divd.Valid() && divd.D() == FoldTop(old(divd.D()))
  {
    ghost var e := divd.D();
    divd.rd := divd.wt;
    var d := divd.Sbackc();
    if d != 0 {
      var x := divd.Sbackc();
      divd.Salterc(x + 100);
    }
    divd.wt := divd.wt - 1;
    assert divd.D() == FoldTop(e);
  }
}
