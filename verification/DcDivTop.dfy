/** div: the repairs after the last digit, tidying the quotient, and the signs. */
module DcDivTop {
  import opened DcNumber
  import opened DcBlk
  import opened DcArith
  import opened DcQuotient
  import opened DcDiv
  import opened DcDivide
  import opened DcLongDiv

  /** Overwrite the lowest quotient digit. */
  method Amend(p: Blk, dig: int, ghost old0: int)
    requires p.Valid() && p.rd == 0 < p.wt && QuotDigits(p.D(), 0) && 0 <= dig <= 118 && p.D()[0] == old0
    modifies p
    ensures p.Valid() && p.wt == old(p.wt) && QuotDigits(p.D(), 0)
    ensures Val(p.D()) == old(Val(p.D())) + dig - old0
  {
    ghost var s := p.D();
    p.Salterc(dig);
    assert p.D() == [dig] + s[1..];
    assert p.D()[1..] == s[1..];
  }

  lemma AmendArith(a0: int, r: int, v: int, q: int, step: int)
    requires a0 == r + v * q && -1 <= step <= 1
    ensures a0 == (r - step * v) + v * (q + step)
  {
    MulDistr(v, q, step);
    assert v * step == step * v;
  }

  /** The guess was taken down: add one back if a whole divisor is left. */
  method RepairUnder(divd: Blk, divr: Blk, p: Blk, dig: int, ghost r: int, ghost a0: int) returns (rem: Blk)
    requires divd != divr && divd != p && divr != p
    requires Divided(divd, divr, p, dig, 0, r, a0) && 0 <= r < 2 * Val(divr.D())
    modifies divd, divr`rd, p
    ensures rem.Valid() && p.Valid() && p.wt == old(p.wt) && QuotDigits(p.D(), 0) && Wf(rem.D()) &&
            fresh({rem} - {divd})
    ensures 0 <= Val(rem.D()) < Val(divr.D()) && a0 == Val(rem.D()) + Val(divr.D()) * Val(p.D())
    ensures rem != divr && rem != p
  {
    rem := divd;
    ghost var v, q := Val(divr.D()), Val(p.D());
    AmendArith(a0, r, v, q, 1);
    var px := new Blk.Copy(divr);
    Chsign(px);
    var ps := Add(px, divd);
    SignOfTop(ps.D());
    ps.rd := ps.wt;
    var negative := false;
    if ps.wt > 0 {
      var c := ps.Sbackc();
      negative := c < 0;
    }
    if !negative {
      Amend(p, dig + 1, dig);
      rem := ps;
    }
  }

  /** The guess was one too large: take one off and add the divisor back. */
  method RepairOver(divd: Blk, divr: Blk, p: Blk, dig: int, ghost r: int, ghost a0: int) returns (rem: Blk)
    requires divd != divr && divd != p && divr != p
    requires Divided(divd, divr, p, dig, 1, r, a0) && -Val(divr.D()) <= r < 0 <= a0
    modifies divd, divr`rd, p
    ensures rem.Valid() && p.Valid() && p.wt == old(p.wt) && QuotDigits(p.D(), 0) && Wf(rem.D()) && fresh(rem)
    ensures 0 <= Val(rem.D()) < Val(divr.D()) && a0 == Val(rem.D()) + Val(divr.D()) * Val(p.D())
  {
    ghost var v, q, e := Val(divr.D()), Val(p.D()), divd.D();
    AmendArith(a0, r, v, q, -1);
    Amend(p, dig - 1, dig);
    divd.Salterc(-1);
    assert divd.D() == e[|e| - 1 := -1];
    rem := Add(divr, divd);
  }

  // ----- tidying the quotient ------------------------------------------------------------

  /** Digits below k are ordinary; the pending carry keeps the value. */
  ghost predicate Carried(e: seq<int>, k: nat, q: int, carry: int)
  {
    k <= |e| && 0 <= carry <= 1 && Digits(e[..k]) && QuotDigits(e, k) && Val(e) + Pow100(k) * carry == q
  }

  lemma {:induction false} CarriedNext(e: seq<int>, k: nat, q: int, c: int, d: int, carry: int)
    requires Carried(e, k, q, c) && k < |e| && d + 100 * carry == e[k] + c && 0 <= carry <= 1 && 0 <= d < 100
    ensures Carried(e[k := d], k + 1, q, carry)
  {
    PutValue(e, k, d);
    assert Put(e, k, d) == e[k := d];
    assert e[k := d][..k + 1] == e[..k] + [d];
    var p := Pow100(k);
    assert p * (d - e[k]) + (100 * p) * carry == p * (d - e[k] + 100 * carry);
  }

  /** Bring the guessed digits, which may exceed 99, into range. */
  method NormalizeQuotient(p: Blk)
    requires p.Valid() && QuotDigits(p.D(), 0)
    modifies p
    ensures p.Valid() && Canon(p.D()) && Digits(p.D()) && Val(p.D()) == old(Val(p.D()))
  {
    ghost var q := Val(p.D());
    p.rd := 0;
    var divcarry := 0;
    while p.rd != p.wt
      invariant p.Valid() && p.rd <= p.wt && Carried(p.D(), p.rd, q, divcarry)
      decreases p.wt - p.rd
    {
      ghost var e, k, c := p.D(), p.rd, divcarry;
      var d: int := p.Slookc() + divcarry;
      divcarry := 0;
      if d >= 100 {
        d := d - 100;
        divcarry := 1;
      }
      CarriedNext(e, k, q, c, d, divcarry);
      p.Salterc(d);
      assert p.D() == e[k := d];
    }
    ghost var e := p.D();
    assert e[..p.wt] == e;
    ValSnoc(e, divcarry);
    if divcarry != 0 {
      p.Salterc(divcarry);
      assert p.D() == e + [divcarry];
    }
    StripTop(p);
  }

  /** The loop with which div strips leading zeros. */
  method StripTop(p: Blk)
    requires p.Valid() && Wf(p.D())
    modifies p
    ensures p.Valid() && Wf(p.D()) && Trim(p.D()) && Val(p.D()) == old(Val(p.D()))
    ensures p.D() <= old(p.D())
  {
    ghost var s := p.D();
    p.rd := p.wt;
    assert s[..p.wt] == s;
    while p.rd != 0
      invariant p.Valid() && p.rd == p.wt <= |s| && p.D() == s[..p.wt] && Val(p.D()) == Val(s)
      decreases p.wt
    {
      var c := p.Sbackc();
      if c != 0 {
        break;
      }
      DropZero(s, p.rd);
      p.Truncate();
    }
  }

  // ----- the division of magnitudes ------------------------------------------------------

  lemma {:induction false} FirstBound(d: seq<int>, v: seq<int>, offset: nat)
    requires Digits(d) && Divisor(v) && |d| == |v| + offset
    ensures Val(d) < 117 * (Val(v) * Pow100(offset)) && Val(d + [0]) == Val(d) && Folded(d + [0])
  {
    ValBound(d);
    SignOfTop(v);
    PowAdd(|v| - 1, offset);
    assert Pow100(|d|) == 100 * Pow100(|v| - 1 + offset);
    MulLe(Pow100(|v| - 1), Val(v), Pow100(offset));
    ValSnoc(d, 0);
  }

  /** The digit loop: every quotient digit but the last. */
  method DigitLoop(divd: Blk, divr: Blk, divxyz: Blk, p: Blk, c: int, magic: bool, n: nat, ghost a0: int)
    requires divd != divr && divd != divxyz && divd != p && divr != divxyz && divr != p && divxyz != p
    requires Dividing(divd, divr, p, n, a0) && divxyz.Valid()
    requires c == DivisorLead(divr.D()) && (magic <==> divr.D()[divr.wt - 1] < 10)
    modifies divd, divr`rd, divxyz, p
    ensures Dividing(divd, divr, p, 0, a0) && divxyz.Valid() && p.wt == old(p.wt)
  {
    var offset := n;
    while offset > 0
      invariant Dividing(divd, divr, p, offset, a0) && divxyz.Valid() && p.wt == old(p.wt)
    {
      MiddleDigit(divd, divr, divxyz, p, c, magic, offset, a0);
      offset := offset - 1;
    }
  }

  /** The last digit and its repair. */
  method Finish(divd: Blk, divr: Blk, divxyz: Blk, p: Blk, c: int, magic: bool, ghost a0: int) returns (rem: Blk)
    requires divd != divr && divd != divxyz && divd != p && divr != divxyz && divr != p && divxyz != p
    requires Dividing(divd, divr, p, 0, a0) && divxyz.Valid() && a0 >= 0
    requires c == DivisorLead(divr.D()) && (magic <==> divr.D()[divr.wt - 1] < 10)
    modifies divd, divr`rd, divxyz, p
    ensures rem.Valid() && p.Valid() && divxyz.Valid() && QuotDigits(p.D(), 0) && Wf(rem.D()) && fresh({rem} - {divd})
    ensures rem != divr && rem != p && rem != divxyz
    ensures 0 <= Val(rem.D()) < Val(divr.D()) && a0 == Val(rem.D()) + Val(divr.D()) * Val(p.D())
  {
    var dig, under, divcarry;
    ghost var r;
    dig, under, divcarry, r := LastDigit(divd, divr, divxyz, p, c, magic, a0);
    if under {
      rem := RepairUnder(divd, divr, p, dig, r, a0);
    } else if divcarry != 0 {
      rem := RepairOver(divd, divr, p, dig, r, a0);
    } else {
      rem := divd;
    }
  }

  /** Divide two magnitudes; divd is consumed. */
  method DivMagnitudes(divd: Blk, divr: Blk, divxyz: Blk, p: Blk) returns (rem: Blk)
    requires divd != divr && divd != divxyz && divd != p && divr != divxyz && divr != p && divxyz != p
    requires divd.Valid() && divr.Valid() && divxyz.Valid() && p.Valid() && p.D() == [] && p.rd == 0
    requires Digits(divd.D()) && Digits(divr.D()) && (divd.wt < divr.wt || Divisor(divr.D()))
    modifies divd, divr`rd, divxyz, p
    ensures rem.Valid() && p.Valid() && divxyz.Valid() && Wf(rem.D()) && Canon(p.D()) && fresh({rem} - {divd})
    ensures rem != divr && rem != p && rem != divxyz
    ensures 0 <= Val(rem.D()) && Val(p.D()) >= 0 && (Divisor(divr.D()) ==> Val(rem.D()) < Val(divr.D()))
    ensures old(Val(divd.D())) == Val(rem.D()) + Val(divr.D()) * Val(p.D())
    ensures old(divd.wt) < divr.wt ==> Val(p.D()) == 0
    ensures old(Trim(divd.D())) ==> Canon(rem.D())
  {
    ValBound(divd.D());
    if divd.wt < divr.wt {
      if Divisor(divr.D()) {
        SmallDividend(divd.D(), divr.D());
      }
      rem := divd;
      SignOfTop(rem.D());
    } else {
      rem := LongDivision(divd, divr, divxyz, p);
      NormalizeQuotient(p);
      SignOfTop(p.D());
      StripTop(rem);
      SignOfTop(rem.D());
    }
  }

  /** All digits of the quotient, the dividend being at least as long as the divisor. */
  method LongDivision(divd: Blk, divr: Blk, divxyz: Blk, p: Blk) returns (rem: Blk)
    requires divd != divr && divd != divxyz && divd != p && divr != divxyz && divr != p && divxyz != p
    requires divd.Valid() && divr.Valid() && divxyz.Valid() && p.Valid() && p.D() == [] && p.rd == 0
    requires Digits(divd.D()) && Divisor(divr.D()) && divd.wt >= divr.wt
    modifies divd, divr`rd, divxyz, p
    ensures rem.Valid() && p.Valid() && divxyz.Valid() && Wf(rem.D()) && QuotDigits(p.D(), 0)
    ensures fresh({rem} - {divd}) && rem != divr && rem != p && rem != divxyz
    ensures 0 <= Val(rem.D()) < Val(divr.D())
    ensures old(Val(divd.D())) == Val(rem.D()) + Val(divr.D()) * Val(p.D())
  {
    ghost var d, v := divd.D(), divr.D();
    ValBound(d);
    var offset := divd.wt - divr.wt;
    p.Seekc(offset + 1);
    divd.Sputc(0);
    FirstBound(d, v, offset);
    assert p.D()[offset + 1..] == [];
    var c, magic := LeadDivisor(divr);
    DigitLoop(divd, divr, divxyz, p, c, magic, offset, Val(d));
    rem := Finish(divd, divr, divxyz, p, c, magic, Val(d));
  }

  lemma {:induction false} SmallDividend(d: seq<int>, v: seq<int>)
    requires Digits(d) && Divisor(v) && |d| < |v|
    ensures Val(d) < Val(v)
  {
    hide Val, Pow100;
    ValBound(d);
    SignOfTop(v);
    PowAdd(|d|, |v| - 1 - |d|);
    MulLe(1, Pow100(|v| - 1 - |d|), Pow100(|d|));
  }

  // ----- signs ---------------------------------------------------------------------------

  function Abs(x: int): int { if x < 0 then -x else x }

  /** q and r are the truncated quotient of a by b and its remainder. */
  ghost predicate TruncDiv(a: int, b: int, q: int, r: int)
  {
    a == q * b + r && Abs(r) < Abs(b) && (r != 0 ==> (r < 0 <==> a < 0))
  }

  lemma MultipleBig(k: int, b: int)
    requires k != 0
    ensures k * b <= -Abs(b) || k * b >= Abs(b)
  {
    if k >= 1 {
      if b >= 0 { MulLe(1, k, b); } else { MulLe(1, k, -b); }
    } else {
      if b >= 0 { MulLe(1, -k, b); } else { MulLe(1, -k, -b); }
    }
  }

  /** Quotient and remainder are determined by that. */
  lemma TruncDivUnique(a: int, b: int, q: int, r: int, q': int, r': int)
    requires TruncDiv(a, b, q, r) && TruncDiv(a, b, q', r')
    ensures q == q' && r == r'
  {
    assert (q - q') * b == q * b - q' * b;
    if q != q' {
      MultipleBig(q - q', b);
      assert false;
    }
  }

  lemma SignedDiv(a: int, b: int, q: int, r: int, na: bool, nb: bool)
    requires na == (a < 0) && nb == (b < 0) && 0 <= r && Abs(a) == r + Abs(b) * q
    ensures a == (if na != nb then -q else q) * b + if na then -r else r
    ensures r < Abs(b) ==> TruncDiv(a, b, if na != nb then -q else q, if na then -r else r)
  {
    assert (-b) * q == -(b * q) && (-q) * b == -(b * q) && q * b == b * q;
  }

  /** Give quotient and remainder their signs. */
  method SignQuotient(p: Blk, rem: Blk, ghost a: int, ghost b: int, na: bool, nb: bool)
    requires p != rem && p.Valid() && rem.Valid() && Canon(p.D()) && Wf(rem.D())
    requires na == (a < 0) && nb == (b < 0) && 0 <= Val(rem.D()) && Abs(a) == Val(rem.D()) + Abs(b) * Val(p.D())
    modifies p, rem
    ensures p.Valid() && rem.Valid() && Canon(p.D()) && Wf(rem.D()) && a == Val(p.D()) * b + Val(rem.D())
    ensures old(Val(rem.D())) < Abs(b) ==> TruncDiv(a, b, Val(p.D()), Val(rem.D()))
    ensures old(Val(p.D())) == 0 ==> Val(p.D()) == 0
    ensures old(Canon(rem.D())) ==> Canon(rem.D())
  {
    SignedDiv(a, b, Val(p.D()), Val(rem.D()), na, nb);
    ApplySign(p, na != nb);
    ApplySign(rem, na);
  }

  /** Divide the magnitudes and give the answers their signs. */
  method DivSigned(divd: Blk, divr: Blk, divxyz: Blk, ghost a: int, ghost b: int, na: bool, nb: bool)
    returns (p: Blk, rem: Blk)
    requires divd != divr && divd != divxyz && divr != divxyz && divd.Valid() && divr.Valid() && divxyz.Valid()
    requires Digits(divd.D()) && Digits(divr.D()) && (divd.wt < divr.wt || Divisor(divr.D()))
    requires Val(divd.D()) == Abs(a) && Val(divr.D()) == Abs(b) && na == (a < 0) && nb == (b < 0)
    modifies divd, divr`rd, divxyz
    ensures divxyz.Valid() && fresh(p) && p.Valid() && Canon(p.D())
    ensures fresh({rem} - {divd}) && rem.Valid() && rem != p && Wf(rem.D()) && rem != divr && rem != divxyz
    ensures Divisor(divr.D()) ==> TruncDiv(a, b, Val(p.D()), Val(rem.D()))
    ensures old(divd.wt) < divr.wt ==> p.D() == [] && Val(rem.D()) == a
    ensures old(Trim(divd.D())) ==> Canon(rem.D())
  {
    hide TruncDiv, Val;
    p := new Blk(0);
    rem := DivMagnitudes(divd, divr, divxyz, p);
    SignQuotient(p, rem, a, b, na, nb);
    SignOfTop(p.D());
  }

  /** Division by a block that is not empty. */
  method DivNonEmpty(ddivd: Blk, ddivr: Blk, divxyz: Blk) returns (p: Blk, rem: Blk)
    requires divxyz != ddivd && divxyz != ddivr && ddivd.Valid() && ddivr.Valid() && divxyz.Valid()
    requires Wf(ddivd.D()) && Wf(ddivr.D()) && ddivr.wt != 0
    requires Trim(Mag(ddivr.D())) || Shorter(ddivd.D(), ddivr.D())
    modifies ddivr`rd, divxyz
    ensures divxyz.Valid() && fresh(p) && p.Valid() && Canon(p.D())
    ensures fresh(rem) && rem.Valid() && rem != p && Wf(rem.D())
    ensures Trim(Mag(ddivr.D())) ==> TruncDiv(Val(ddivd.D()), Val(ddivr.D()), Val(p.D()), Val(rem.D()))
    ensures Shorter(ddivd.D(), ddivr.D()) ==> p.D() == [] && Val(rem.D()) == Val(ddivd.D())
    ensures Canon(ddivd.D()) ==> Canon(rem.D())
  {
    hide Mag, TruncDiv, Redundant99, Val;
    MagValue(ddivr.D());
    SignOfTop(ddivr.D());
    SignOfTop(ddivd.D());
    var divr, nb := Magnitude(ddivr);
    var divd, na := FreshMagnitude(ddivd);
    p, rem := DivSigned(divd, divr, divxyz, Val(ddivd.D()), Val(ddivr.D()), na, nb);
  }

  /** The magnitude of d has fewer digits than that of v. */
  predicate Shorter(d: seq<int>, v: seq<int>)
  {
    |Mag(d)| < |Mag(v)|
  }

  lemma {:induction false} MagValue(s: seq<int>)
    requires Wf(s)
    ensures Digits(Mag(s)) && Val(Mag(s)) == Abs(Val(s)) && (s == [] <==> Mag(s) == [])
  {
    SignOfTop(s);
    NegValue(s);
    SignOfTop(Neg(s));
  }

  /** The magnitude starts with a digit that is not zero: no leading zero, no redundant 99. */
  lemma {:induction false} MagTrim(s: seq<int>)
    requires Wf(s)
    ensures Trim(Mag(s)) <==> Trim(s) && !Redundant99(s)
  {
    if Negative(s) {
      NegTrimNegative(s);
    }
  }

  /** A magnitude without its leading zeros. */
  function Stripped(s: seq<int>): (r: seq<int>)
  {
    if Trim(s) then s else Stripped(s[..|s| - 1])
  }

  lemma {:induction false} StrippedValue(s: seq<int>)
    requires Digits(s)
    ensures Digits(Stripped(s)) && Canon(Stripped(s)) && Val(Stripped(s)) == Val(s)
    ensures !Trim(s) ==> |Stripped(s)| < |s|
    decreases |s|
  {
    if !Trim(s) {
      DropZero(s, |s| - 1);
      assert s[..|s| - 1 + 1] == s;
      StrippedValue(s[..|s| - 1]);
    }
  }

  /** div answers zero when the dividend has fewer digits. Right for every such dividend exactly
      when the magnitude of the divisor has no leading zero: otherwise that magnitude, stripped,
      is a dividend that goes into it once and is answered zero. */
  lemma {:induction false} ShortExact(v: seq<int>)
    requires Wf(v) && v != []
    ensures Trim(v) && !Redundant99(v) <==>
            forall d :: Canon(d) && Shorter(d, v) ==> TruncDiv(Val(d), Val(v), 0, Val(d))
  {
    MagTrim(v);
    MagValue(v);
    if Trim(Mag(v)) {
      forall d | Canon(d) && Shorter(d, v) ensures TruncDiv(Val(d), Val(v), 0, Val(d)) {
        MagValue(d);
        SmallDividend(Mag(d), Mag(v));
      }
    } else {
      var d := Stripped(Mag(v));
      StrippedValue(Mag(v));
      assert Canon(d) && Shorter(d, v) && !TruncDiv(Val(d), Val(v), 0, Val(d));
    }
  }

  /** 79 by -14 stored with a redundant 99 is answered zero; the quotient is -5. */
  lemma RedundantDivisor()
    ensures Wf([86, 99, -1]) && Val([86, 99, -1]) == -14 && Canon([79]) && Val([79]) == 79
    ensures Shorter([79], [86, 99, -1]) && !TruncDiv(79, -14, 0, 79) && TruncDiv(79, -14, -5, 9)
  {
    var v := [86, 99, -1];
    assert v[..1] == [86] && Val([86]) == 86;
    assert Redundant99(v);
    MagTrim(v);
    MagValue(v);
    assert Val(v) == -14;
    assert |Mag(v)| != 1;
  }

  /** div: the truncated quotient, and the remainder in rem. By an empty block, an empty quotient
      and no remainder. */
  method Div(ddivd: Blk, ddivr: Blk, divxyz: Blk) returns (p: Blk, rem: Blk?)
    requires divxyz != ddivd && divxyz != ddivr && ddivd.Valid() && ddivr.Valid() && divxyz.Valid()
    requires Wf(ddivd.D()) && Wf(ddivr.D())
    requires (Trim(ddivr.D()) && !Redundant99(ddivr.D())) || Shorter(ddivd.D(), ddivr.D())
    modifies ddivr`rd, divxyz
    ensures divxyz.Valid() && fresh(p) && p.Valid() && Canon(p.D())
    ensures rem == null <==> ddivr.D() == []
    ensures rem == null ==> p.D() == []
    ensures rem != null ==> fresh(rem) && rem.Valid() && rem != p && Wf(rem.D())
    ensures rem != null && Trim(ddivr.D()) && !Redundant99(ddivr.D()) ==>
              TruncDiv(Val(ddivd.D()), Val(ddivr.D()), Val(p.D()), Val(rem.D()))
    ensures rem != null && Shorter(ddivd.D(), ddivr.D()) ==> p.D() == [] && Val(rem.D()) == Val(ddivd.D())
    ensures rem != null && Canon(ddivd.D()) ==> Canon(rem.D())
  {
    MagTrim(ddivr.D());
    if ddivr.wt == 0 {
      p := new Blk(0);
      rem := null;
    } else {
      p, rem := DivNonEmpty(ddivd, ddivr, divxyz);
    }
  }

  /** The copy of the dividend that division works on. */
  method FreshMagnitude(a: Blk) returns (m: Blk, negative: bool)
    requires a.Valid() && Wf(a.D())
    ensures fresh(m) && m.Valid() && Digits(m.D()) && m.D() == Mag(a.D()) && negative == Negative(a.D()) &&
            Val(m.D()) == Abs(Val(a.D()))
    ensures Canon(a.D()) ==> Canon(m.D())
  {
    SignOfTop(a.D());
    m := new Blk.Copy(a);
    negative := false;
    m.rd := m.wt;
    if m.rd != 0 {
      var c := m.Sbackc();
      if c == -1 {
        Chsign(m);
        SignOfTop(m.D());
        negative := true;
      }
    }
  }
}
