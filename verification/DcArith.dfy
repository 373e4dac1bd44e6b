/** Addition and multiplication of `dc` blocks. */
module DcArith {
  import opened DcNumber
  import opened DcBlk

  function Min(a: nat, b: nat): nat { if a < b then a else b }

  function Max(a: nat, b: nat): nat { if a > b then a else b }

  // ----- addition ------------------------------------------------------------------------

  function SumDigit(n: int): int { if n >= 100 then n - 100 else if n < 0 then n + 100 else n }

  function SumCarry(n: int): int { if n >= 100 then 1 else if n < 0 then -1 else 0 }

  /** Digit k of a block, 0 past its end. */
  function At(s: seq<int>, k: nat): int { if k < |s| then s[k] else 0 }

  /** The value of the low k digits. */
  function Low(s: seq<int>, k: nat): int { Val(s[..Min(k, |s|)]) }

  lemma {:induction false} LowNext(s: seq<int>, k: nat)
    ensures Low(s, k + 1) == Low(s, k) + Pow100(k) * At(s, k)
  {
    if k < |s| {
      ValTake(s, k);
    }
  }

  lemma LowAll(s: seq<int>, k: nat)
    requires k >= |s|
    ensures Low(s, k) == Val(s)
  {
    assert s[..|s|] == s;
  }

  lemma CarryArith(p: int, x: int, c: int, d: int, c': int)
    requires d == x + c - 100 * c'
    ensures p * d + (100 * p) * c' == p * x + p * c
  {
    assert p * d == p * (x + c - 100 * c');
  }

  lemma {:induction false} AddStep(a: seq<int>, b: seq<int>, o: seq<int>, c: int, n: int)
    requires n == At(a, |o|) + At(b, |o|) + c
    requires Val(o) + Pow100(|o|) * c == Low(a, |o|) + Low(b, |o|)
    ensures Val(o + [SumDigit(n)]) + Pow100(|o| + 1) * SumCarry(n) == Low(a, |o| + 1) + Low(b, |o| + 1)
  {
    var k, p := |o|, Pow100(|o|);
    LowNext(a, k);
    LowNext(b, k);
    ValSnoc(o, SumDigit(n));
    CarryArith(p, At(a, k) + At(b, k), c, SumDigit(n), SumCarry(n));
    assert p * (At(a, k) + At(b, k)) == p * At(a, k) + p * At(b, k);
  }

  method CarryOut(sum: int) returns (n: int, carry: int)
    ensures n == SumDigit(sum) && carry == SumCarry(sum)
    ensures -100 <= sum < 200 ==> 0 <= n < 100
  {
    n := sum;
    if n >= 100 {
      carry := 1;
      n := n - 100;
    } else if n < 0 {
      carry := -1;
      n := n + 100;
    } else {
      carry := 0;
    }
  }

  /** The next digit of an operand, 0 once it is exhausted. */
  method NextDigit(a: Blk) returns (n: int)
    requires a.Valid() && a.rd <= a.wt && Wf(a.D())
    modifies a`rd
    ensures a.rd == Min(old(a.rd) + 1, a.wt) && n == At(a.D(), old(a.rd)) && -1 <= n < 100
  {
    n := 0;
    if a.rd != a.wt {
      n := a.Sgetc();
    }
  }

  /** The part of the sum in the low digits is done. */
  ghost predicate Summed(a1: Blk, a2: Blk, p: Blk, carry: int)
    reads a1, a2, p
  {
    a1.Valid() && a2.Valid() && p.Valid() && -1 <= carry <= 1 && Digits(p.D()) &&
    a1.rd == Min(p.wt, a1.wt) && a2.rd == Min(p.wt, a2.wt) &&
    Val(p.D()) + Pow100(p.wt) * carry == Low(a1.D(), p.wt) + Low(a2.D(), p.wt)
  }

  /** One turn of the digit loop of add. */
  method AddDigit(a1: Blk, a2: Blk, p: Blk, c: int) returns (carry: int)
    requires a1 != a2 && a1 != p && a2 != p && Summed(a1, a2, p, c) && Wf(a1.D()) && Wf(a2.D())
    modifies a1`rd, a2`rd, p
    ensures Summed(a1, a2, p, carry) && p.wt == old(p.wt) + 1
  {
    ghost var o := p.D();
    var n1 := NextDigit(a1);
    var n2 := NextDigit(a2);
    var n;
    n, carry := CarryOut(n1 + n2 + c);
    AddStep(a1.D(), a2.D(), o, c, n1 + n2 + c);
    p.Sputc(n);
  }

  /** add before its result is tidied. */
  method AddLoop(a1: Blk, a2: Blk) returns (p: Blk)
    requires a1 != a2 && a1.Valid() && a2.Valid() && Wf(a1.D()) && Wf(a2.D())
    modifies a1`rd, a2`rd
    ensures fresh(p) && p.Valid() && Wf(p.D()) && Val(p.D()) == Val(a1.D()) + Val(a2.D())
    ensures Negative(p.D()) ==> |p.D()| >= 2
  {
    var size: int := Max(a1.wt, a2.wt);
    ghost var total := size;
    p := new Blk(size);
    a1.rd, a2.rd := 0, 0;
    var carry := 0;
    while size > 0
      invariant 0 <= size && p.Valid() && p.wt == total - size && Summed(a1, a2, p, carry)
    {
      size := size - 1;
      carry := AddDigit(a1, a2, p, carry);
    }
    LowAll(a1.D(), p.wt);
    LowAll(a2.D(), p.wt);
    ghost var o := p.D();
    ValSnoc(o, carry);
    if carry != 0 {
      p.Sputc(carry);
    }
  }

  lemma {:induction false} DropZero(s: seq<int>, k: nat)
    requires k < |s| && s[k] == 0
    ensures Val(s[..k + 1]) == Val(s[..k])
  {
    ValTake(s, k);
  }

  /** Strip leading zeros, as add and div do at the end. */
  method StripZeros(p: Blk)
    requires p.Valid() && Wf(p.D())
    modifies p
    ensures p.Valid() && Wf(p.D()) && Trim(p.D()) && Val(p.D()) == old(Val(p.D()))
    ensures p.D() <= old(p.D()) && (old(Trim(p.D())) ==> p.D() == old(p.D()))
  {
    ghost var s := p.D();
    p.rd := p.wt;
    if p.rd != 0 {
      var c: int := 0;
      assert s[..p.rd] == s;
      while p.rd != 0 && c == 0
        invariant p.Valid() && p.rd <= p.wt == |s| && p.D() == s
        invariant c == 0 ==> Val(s[..p.rd]) == Val(s)
        invariant c != 0 ==> p.rd < p.wt && c == s[p.rd] && Val(s[..p.rd + 1]) == Val(s)
        invariant Trim(s) ==> p.rd >= p.wt - 1 && (p.rd < p.wt ==> c != 0)
        decreases p.rd
      {
        c := p.Sbackc();
        if c == 0 {
          DropZero(s, p.rd);
        }
      }
      if c != 0 {
        p.Salterc(c);
      }
      p.Truncate();
      assert p.D() == s[..p.wt];
    }
  }

  lemma {:induction false} DropNine(s: seq<int>, k: nat)
    requires k < |s| && s[k] == 99
    ensures Val(s[..k + 1] + [-1]) == Val(s[..k] + [-1])
  {
    ValTake(s, k);
    ValSnoc(s[..k + 1], -1);
    ValSnoc(s[..k], -1);
  }

  /** Strip the 99s under a -1 that add nothing; minus one is left as two digits. */
  method StripNines(p: Blk)
    requires p.Valid() && Wf(p.D()) && Trim(p.D()) && (Negative(p.D()) ==> |p.D()| >= 2)
    modifies p
    ensures p.Valid() && Canon(p.D()) && Val(p.D()) == old(Val(p.D()))
  {
    hide Val;
    ghost var s := p.D();
    p.rd := p.wt;
    if p.rd != 0 {
      var top := p.Sbackc();
      if top == -1 {
        assert s == s[..p.rd] + [-1];
        var c := p.Sbackc();
        while c == 99
          invariant p.Valid() && p.rd < p.wt - 1 && p.D() == s && p.wt == |s|
          invariant Val(s[..p.rd + 1] + [-1]) == Val(s)
          invariant c == 99 ==> s[p.rd] == 99
          invariant c != 99 ==> p.rd == 0 || s[p.rd] != 99
          decreases c == 99, p.rd
        {
          if p.rd > 0 {
            DropNine(s, p.rd);
          }
          c := p.Sbackc();
        }
        ghost var j := p.rd;
        if p.rd < p.wt {
          p.rd := p.rd + 1;
        }
        p.Salterc(-1);
        p.Truncate();
        assert p.D() == s[..j + 1] + [-1];
      }
    }
  }

  /** add: exact on well-formed blocks of any two lengths, with a canonical result. */
  method Add(a1: Blk, a2: Blk) returns (p: Blk)
    requires a1 != a2 && a1.Valid() && a2.Valid() && Wf(a1.D()) && Wf(a2.D())
    modifies a1`rd, a2`rd
    ensures fresh(p) && p.Valid() && Canon(p.D()) && Val(p.D()) == Val(a1.D()) + Val(a2.D())
  {
    p := AddLoop(a1, a2);
    SignOfTop(p.D());
    StripZeros(p);
    SignOfTop(p.D());
    StripNines(p);
  }

  // ----- multiplication ------------------------------------------------------------------

  /** Set digit k, which may be the next one to append. */
  function Put(s: seq<int>, k: nat, d: int): (r: seq<int>)
    requires k <= |s|
  {
    s[..k] + [d] + if k < |s| then s[k + 1..] else []
  }

  lemma {:induction false} PutValue(s: seq<int>, k: nat, d: int)
    requires k <= |s|
    ensures Val(Put(s, k, d)) == Val(s) + Pow100(k) * (d - At(s, k))
    ensures Digits(s) && 0 <= d < 100 ==> Digits(Put(s, k, d))
  {
    if k < |s| {
      ValSplit(s, k);
      ValConcat(s[..k], [d] + s[k + 1..]);
      assert s[..k] + ([d] + s[k + 1..]) == Put(s, k, d);
      assert s[k..] == [s[k]] + s[k + 1..];
      assert Val(s[k..]) == s[k] + 100 * Val(s[k + 1..]);
      assert Val([d] + s[k + 1..]) == d + 100 * Val(s[k + 1..]);
      var p, w := Pow100(k), Val(s[k + 1..]);
      assert p * (d + 100 * w) - p * (s[k] + 100 * w) == p * (d - s[k]);
    } else {
      ValSnoc(s, d);
      assert s[..k] + [d] + [] == s + [d];
    }
  }

  /** Row j of the product is done up to digit i of m: v is the value before the row. */
  ghost predicate RowDone(m: Blk, mr: Blk, cq: int, j: nat, v: int, carry: int)
    reads m, mr
  {
    m.Valid() && mr.Valid() && m.rd <= m.wt && mr.rd == j + m.rd <= mr.wt <= j + m.wt &&
    0 <= carry < 100 && Digits(mr.D()) &&
    Val(mr.D()) + Pow100(mr.rd) * carry == v + Pow100(j) * (cq * Low(m.D(), m.rd))
  }

  lemma MulDistr(a: int, b: int, c: int)
    ensures a * (b + c) == a * b + a * c
  {
  }

  lemma DigitProduct(x: int, y: int)
    requires 0 <= x < 100 && 0 <= y < 100
    ensures 0 <= x * y <= 9801
  {
    assert x * y <= x * 99;
  }

  lemma RowArith(pj: int, pi: int, x: int, cq: int, at: int, carry: int, d: int, c: int, l: int, vs: int, v: int)
    requires d + 100 * c == x * cq + carry + at
    requires vs + (pj * pi) * carry == v + pj * (cq * l)
    ensures vs + (pj * pi) * (d - at) + (100 * (pj * pi)) * c == v + pj * (cq * (l + pi * x))
  {
    var pk := pj * pi;
    MulDistr(cq, l, pi * x);
    MulDistr(pj, cq * l, cq * (pi * x));
    assert pj * (cq * (pi * x)) == pk * (x * cq);
    assert d - at + 100 * c == x * cq + carry;
    assert pk * (d - at) + (100 * pk) * c == pk * (d - at + 100 * c);
    MulDistr(pk, x * cq, carry);
  }

  lemma {:induction false} RowStep(m: seq<int>, s: seq<int>, cq: int, j: nat, i: nat, v: int, carry: int, mt: int)
    requires j + i <= |s| && i < |m| && Digits(m) && 0 <= cq < 100 && 0 <= carry < 100
    requires Digits(s) && mt == m[i] * cq + carry + At(s, j + i)
    requires Val(s) + Pow100(j + i) * carry == v + Pow100(j) * (cq * Low(m, i))
    ensures 0 <= mt / 100 < 100
    ensures Val(Put(s, j + i, mt % 100)) + Pow100(j + i + 1) * (mt / 100) == v + Pow100(j) * (cq * Low(m, i + 1))
  {
    DigitProduct(m[i], cq);
    PutValue(s, j + i, mt % 100);
    LowNext(m, i);
    PowAdd(j, i);
    RowArith(Pow100(j), Pow100(i), m[i], cq, At(s, j + i), carry, mt % 100, mt / 100, Low(m, i), Val(s), v);
  }

  method LookOrZero(p: Blk) returns (n: int)
    requires p.Valid() && p.rd <= p.wt
    ensures n == At(p.D(), p.rd)
  {
    n := if p.rd == p.wt then 0 else p.Slookc();
  }

  /** One digit of a row: multiply, add what is there and the carry, store. */
  method MulDigit(mp: Blk, mr: Blk, cq: int, ghost j: nat, ghost v: int, c: int) returns (carry: int)
    requires mp != mr && RowDone(mp, mr, cq, j, v, c) && mp.rd < mp.wt && Digits(mp.D()) && 0 <= cq < 100
    modifies mp`rd, mr
    ensures RowDone(mp, mr, cq, j, v, carry) && mp.rd == old(mp.rd) + 1
  {
    ghost var s, i := mr.D(), mp.rd;
    var cp := mp.Sgetc();
    var mcr := LookOrZero(mr);
    var mt := cp * cq + c + mcr;
    RowStep(mp.D(), s, cq, j, i, v, c, mt);
    carry := mt / 100;
    mr.Salterc(mt % 100);
    assert mr.D() == Put(s, j + i, mt % 100);
    PutValue(s, j + i, mt % 100);
  }

  /** One row: mr += 100^offset * cq * mp. */
  method MulRow(mp: Blk, mr: Blk, cq: int, offset: nat)
    requires mp != mr && mp.Valid() && mr.Valid() && Digits(mp.D()) && Digits(mr.D()) && 0 <= cq < 100
    requires mp.wt > 0 && offset <= mr.wt <= offset + mp.wt
    modifies mp`rd, mr
    ensures mr.Valid() && Digits(mr.D())
    ensures Val(mr.D()) == old(Val(mr.D())) + Pow100(offset) * (cq * Val(mp.D()))
    ensures mr.wt == offset + mp.wt || (mr.wt == offset + mp.wt + 1 && Trim(mr.D()))
  {
    ghost var v := Val(mr.D());
    mp.rd := 0;
    mr.rd := offset;
    var carry := 0;
    assert Low(mp.D(), 0) == 0;
    while mp.rd != mp.wt
      invariant RowDone(mp, mr, cq, offset, v, carry)
      decreases mp.wt - mp.rd
    {
      carry := MulDigit(mp, mr, cq, offset, v, carry);
    }
    LowAll(mp.D(), mp.wt);
    if carry != 0 {
      ghost var s := mr.D();
      var mcr := LookOrZero(mr);
      ValSnoc(s, carry);
      mr.Salterc(mcr + carry);
      assert mr.D() == s + [carry];
    }
  }

  lemma {:induction false} ProductNext(vm: int, q: seq<int>, k: nat)
    ensures vm * Low(q, k + 1) == vm * Low(q, k) + Pow100(k) * (At(q, k) * vm)
  {
    LowNext(q, k);
    var p, x := Pow100(k), At(q, k);
    MulDistr(vm, Low(q, k), p * x);
    assert vm * (p * x) == p * (x * vm);
  }

  /** The rows of the product, for two blocks that denote naturals. */
  method MulRows(mp: Blk, mq: Blk, mr: Blk)
    requires mp != mq && mp != mr && mq != mr && mp.Valid() && mq.Valid() && mr.Valid()
    requires Digits(mp.D()) && Digits(mq.D()) && mr.D() == []
    modifies mp`rd, mq`rd, mr
    ensures mr.Valid() && Digits(mr.D()) && Val(mr.D()) == Val(mp.D()) * Val(mq.D())
    ensures mp.wt == 0 || mq.wt == 0 ==> mr.wt == 0
    ensures mp.wt > 0 && mq.wt > 0 ==> mp.wt + mq.wt - 1 <= mr.wt <= mp.wt + mq.wt
    ensures mr.wt == mp.wt + mq.wt ==> Trim(mr.D())
  {
    ghost var m, q := mp.D(), mq.D();
    var offset := 0;
    mq.rd := 0;
    assert Low(q, 0) == 0;
    while mq.rd != mq.wt
      invariant mq.rd <= mq.wt && mr.Valid() && mr.wt <= offset + mp.wt && Digits(mr.D())
      invariant mp.wt == 0 || offset == 0 ==> mr.wt == 0
      invariant mp.wt > 0 && offset > 0 ==> offset + mp.wt - 1 <= mr.wt
      invariant mp.wt != 0 ==> offset <= mr.wt && (mr.wt == offset + mp.wt ==> Trim(mr.D()))
      invariant offset == mq.rd && Val(mr.D()) == Val(m) * Low(q, offset)
      decreases mq.wt - mq.rd
    {
      var cq := mq.Sgetc();
      ProductNext(Val(m), q, offset);
      if mp.wt > 0 {
        MulRow(mp, mr, cq, offset);
      }
      offset := offset + 1;
    }
    LowAll(q, offset);
  }

  function Mag(s: seq<int>): (r: seq<int>)
  {
    if Negative(s) then Neg(s) else s
  }

  /** The magnitude of a number: the block itself, or a negated copy of a negative one. */
  method Magnitude(p: Blk) returns (mp: Blk, negative: bool)
    requires p.Valid() && Wf(p.D())
    modifies p`rd
    ensures mp.Valid() && Digits(mp.D()) && negative == Negative(p.D())
    ensures mp.D() == Mag(p.D()) && if negative then fresh(mp) else mp == p
    ensures Val(mp.D()) == if negative then -Val(p.D()) else Val(p.D())
    ensures Canon(p.D()) ==> Canon(mp.D())
    ensures Trim(p.D()) ==> (Trim(mp.D()) <==> !Redundant99(p.D()))
  {
    SignOfTop(p.D());
    if Trim(p.D()) {
      NegTrim(p.D());
    }
    p.rd := p.wt;
    mp, negative := p, false;
    if p.rd != 0 {
      var c := p.Sbackc();
      if c < 0 {
        mp := new Blk.Copy(p);
        Chsign(mp);
        SignOfTop(mp.D());
        negative := true;
      }
    }
  }

  lemma ProductAtLeast(a: int, b: int, pa: int, pb: int)
    requires a >= pa >= 1 && b >= pb >= 1
    ensures a * b >= pa * pb
  {
    assert a * b >= pa * b >= pa * pb;
  }

  lemma {:induction false} ProductTrim(m: seq<int>, q: seq<int>, r: seq<int>)
    requires Digits(m) && Digits(q) && Digits(r) && Trim(m) && Trim(q)
    requires Val(r) == Val(m) * Val(q)
    requires m == [] || q == [] ==> r == []
    requires m != [] && q != [] ==> |m| + |q| - 1 <= |r| <= |m| + |q|
    requires |r| == |m| + |q| ==> Trim(r)
    ensures Trim(r)
  {
    if m != [] && q != [] && |r| == |m| + |q| - 1 {
      SignOfTop(m);
      SignOfTop(q);
      var pm, pq := Pow100(|m| - 1), Pow100(|q| - 1);
      PowAdd(|m| - 1, |q| - 1);
      ProductAtLeast(Val(m), Val(q), pm, pq);
      assert Val(r) >= Pow100(|r| - 1);
      DropTop(r);
      ValBound(r[..|r| - 1]);
    }
  }

  /** The product of two magnitudes. */
  method MulMagnitudes(mp: Blk, mq: Blk) returns (mr: Blk)
    requires mp != mq && mp.Valid() && mq.Valid() && Digits(mp.D()) && Digits(mq.D())
    modifies mp`rd, mq`rd
    ensures fresh(mr) && mr.Valid() && Digits(mr.D()) && Val(mr.D()) == Val(mp.D()) * Val(mq.D())
    ensures Trim(mp.D()) && Trim(mq.D()) ==> Canon(mr.D())
  {
    mr := new Blk(mp.wt + mq.wt);
    mr.Zero();
    MulRows(mp, mq, mr);
    if Trim(mp.D()) && Trim(mq.D()) {
      ProductTrim(mp.D(), mq.D(), mr.D());
    }
  }

  lemma SignedProduct(a: int, b: int, ma: int, mb: int, na: bool, nb: bool)
    requires ma == (if na then -a else a) && mb == if nb then -b else b
    ensures a * b == if na != nb then -(ma * mb) else ma * mb
  {
  }

  /** Give a magnitude its sign. */
  method ApplySign(p: Blk, negative: bool)
    requires p.Valid() && Wf(p.D())
    modifies p
    ensures p.Valid() && Wf(p.D()) && Val(p.D()) == if negative then -old(Val(p.D())) else old(Val(p.D()))
    ensures old(Canon(p.D())) ==> Canon(p.D())
  {
    if negative {
      Chsign(p);
    }
  }

  /** mult: exact on well-formed blocks; canonical operands give a canonical product. */
  method Mult(p: Blk, q: Blk) returns (mr: Blk)
    requires p != q && p.Valid() && q.Valid() && Wf(p.D()) && Wf(q.D())
    modifies p`rd, q`rd
    ensures fresh(mr) && mr.Valid() && Wf(mr.D()) && Val(mr.D()) == Val(p.D()) * Val(q.D())
    ensures Canon(p.D()) && Canon(q.D()) ==> Canon(mr.D())
  {
    hide Mag, Val, Redundant99;
    var mp, sp := Magnitude(p);
    var mq, sq := Magnitude(q);
    SignedProduct(Val(p.D()), Val(q.D()), Val(mp.D()), Val(mq.D()), sp, sq);
    mr := MulMagnitudes(mp, mq);
    ApplySign(mr, sp != sq);
  }
}
