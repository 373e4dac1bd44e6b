/** The growable byte block of `dc`, and its negation. */
module DcBlk {
  import opened DcNumber

  /** A block: `mem` is the allocation from `beg` to `last`, `rd` and `wt` are offsets from `beg`. */
  class Blk {
    var mem: seq<Byte>
    var rd: nat
    var wt: nat

    ghost predicate Valid()
      reads this`mem, this`wt
    {
      wt <= |mem|
    }

    /** The number stored in the block. */
    ghost function D(): (s: seq<Byte>)
      reads this`mem, this`wt
      requires Valid()
    {
      mem[..wt]
    }

    /** salloc: an empty block whose memory holds unspecified bytes. */
    constructor (size: nat)
      ensures Valid() && D() == [] && rd == 0 && wt == 0 && |mem| == size
    {
      mem, rd, wt := seq(size, _ => 0), 0, 0;
    }

    /** copy: a fresh block holding the same number. */
    constructor Copy(p: Blk)
      requires p.Valid()
      ensures Valid() && D() == p.D() && rd == 0
    {
      mem, rd, wt := p.mem[..p.wt], 0, p.wt;
    }

    /** more: double the allocation; the bytes gained are unspecified. */
    method More()
      requires Valid()
      modifies this`mem
      ensures old(|mem|) < |mem| && mem[..old(|mem|)] == old(mem)
    {
      var size := if |mem| == 0 then 2 else 2 * |mem|;
      mem := mem + seq(size - |mem|, _ => 0);
    }

    method Sputc(c: Byte)
      requires Valid()
      modifies this`mem, this`wt
      ensures Valid() && D() == old(D()) + [c] && wt == old(wt) + 1
    {
      if wt == |mem| {
        More();
      }
      mem := mem[wt := c];
      wt := wt + 1;
    }

    /** Overwrite the byte at the cursor, or append there, and step over it. */
    method Salterc(c: Byte)
      requires Valid() && rd <= wt
      modifies this
      ensures Valid() && rd == old(rd) + 1 && wt == (if old(rd) == old(wt) then old(wt) + 1 else old(wt))
      ensures D() == old(D()[..rd]) + [c] + (if old(rd) < old(wt) then old(D()[rd + 1..]) else [])
    {
      if rd == |mem| {
        More();
      }
      mem := mem[rd := c];
      rd := rd + 1;
      if rd > wt {
        wt := rd;
      }
    }

    method Sgetc() returns (c: Byte)
      requires Valid() && rd <= wt
      modifies this`rd
      ensures old(rd) < wt ==> c == D()[old(rd)] && rd == old(rd) + 1
      ensures old(rd) == wt ==> c == -1 && rd == old(rd)
    {
      if rd == wt {
        return -1;
      }
      c := mem[rd];
      rd := rd + 1;
    }

    function Slookc(): (c: Byte)
      reads this
      requires Valid() && rd <= wt
    {
      if rd == wt then -1 else mem[rd]
    }

    method Sbackc() returns (c: Byte)
      requires Valid() && rd <= wt
      modifies this`rd
      ensures old(rd) > 0 ==> rd == old(rd) - 1 && c == D()[rd]
      ensures old(rd) == 0 ==> c == -1 && rd == 0
    {
      if rd == 0 {
        return -1;
      }
      rd := rd - 1;
      c := mem[rd];
    }

    method Backc()
      modifies this`rd
      ensures rd == if old(rd) > 0 then old(rd) - 1 else 0
    {
      if rd > 0 {
        rd := rd - 1;
      }
    }

    method Truncate()
      requires Valid() && rd <= wt
      modifies this`wt
      ensures Valid() && wt == rd && D() == old(D())[..rd]
    {
      wt := rd;
    }

    /** seekc: put the cursor at offset n, growing the number when n lies past its end; what the
        grown part holds is whatever the memory held. */
    method Seekc(n: nat)
      requires Valid()
      modifies this
      ensures Valid() && rd == n && wt == (if n > old(wt) then n else old(wt))
      ensures old(|mem|) <= |mem| && mem[..old(|mem|)] == old(mem)
    {
      if n > |mem| {
        mem := mem + seq(n - |mem|, _ => 0);
        wt, rd := n, n;
        return;
      }
      rd := n;
      if n > wt {
        wt := n;
      }
    }

    /** zero: clear the whole allocation. */
    method Zero()
      requires Valid()
      modifies this`mem
      ensures Valid() && |mem| == old(|mem|) && forall i :: 0 <= i < |mem| ==> mem[i] == 0
    {
      mem := seq(|mem|, _ => 0);
    }
  }

  /** One digit of hundred's complement and the borrow it passes on. */
  function CompDigit(d: int, c: int): int
  {
    if 100 - d - c >= 100 then -d - c else 100 - d - c
  }

  function CompBorrow(d: int, c: int): int
  {
    if 100 - d - c >= 100 then 0 else 1
  }

  /** Digit-wise hundred's complement, low digit first, starting with borrow c. */
  function Comp(s: seq<int>, c: int): (r: seq<int>)
    ensures |r| == |s|
  {
    if s == [] then [] else [CompDigit(s[0], c)] + Comp(s[1..], CompBorrow(s[0], c))
  }

  function Borrow(s: seq<int>, c: int): int
  {
    if s == [] then c else Borrow(s[1..], CompBorrow(s[0], c))
  }

  lemma {:induction false} CompRange(s: seq<int>, c: int)
    requires Wf(s) && 0 <= c <= 1
    ensures Digits(Comp(s, c)) && 0 <= Borrow(s, c) <= 1
  {
    if s != [] {
      CompRange(s[1..], CompBorrow(s[0], c));
    }
  }

  lemma ComplementArith(p: int, w: int, v: int, r: int, d: int, c: int, e: int, b: int)
    requires v - p * w == -r - b && e - 100 * b == -d - c
    ensures e + 100 * v - (100 * p) * w == -(d + 100 * r) - c
  {
    assert (100 * p) * w == 100 * (p * w);
  }

  lemma {:induction false} CompExact(s: seq<int>, c: int)
    ensures Val(Comp(s, c)) - Pow100(|s|) * Borrow(s, c) == -Val(s) - c
  {
    if s != [] {
      var r, b := s[1..], CompBorrow(s[0], c);
      CompExact(r, b);
      assert Comp(s, c)[0] == CompDigit(s[0], c) && Comp(s, c)[1..] == Comp(r, b);
      ComplementArith(Pow100(|r|), Borrow(r, b), Val(Comp(r, b)), Val(r), s[0], c, CompDigit(s[0], c), b);
    }
  }

  lemma {:induction false} CompValue(s: seq<int>, c: int)
    requires Wf(s) && 0 <= c <= 1
    ensures Digits(Comp(s, c)) && 0 <= Borrow(s, c) <= 1
    ensures Val(Comp(s, c)) - Pow100(|s|) * Borrow(s, c) == -Val(s) - c
  {
    CompRange(s, c);
    CompExact(s, c);
  }

  lemma {:induction false} BorrowOut(s: seq<int>, c: int)
    requires Wf(s) && 0 <= c <= 1
    ensures Negative(s) ==> Borrow(s, c) == 0
    ensures !Negative(s) ==> (Borrow(s, c) == 0 <==> c == 0 && Val(s) == 0)
  {
    if s != [] {
      BorrowOut(s[1..], CompBorrow(s[0], c));
      SignOfTop(s[1..]);
    }
  }

  lemma {:induction false} CompSnoc(a: seq<int>, d: int, c: int)
    ensures Comp(a + [d], c) == Comp(a, c) + [CompDigit(d, Borrow(a, c))]
    ensures Borrow(a + [d], c) == CompBorrow(d, Borrow(a, c))
  {
    if a == [] {
      assert a + [d] == [d];
      assert Comp([d], c) == [CompDigit(d, c)] + Comp([], CompBorrow(d, c));
    } else {
      assert (a + [d])[1..] == a[1..] + [d];
      CompSnoc(a[1..], d, CompBorrow(a[0], c));
    }
  }

  /** chsign on values: complement every digit, then repair the top. */
  function Neg(s: seq<int>): (r: seq<int>)
  {
    NegRepair(Comp(s, 0), Borrow(s, 0))
  }

  function NegRepair(o: seq<int>, c: int): (r: seq<int>)
  {
    var k := |o| - 1;
    if c != 0 then
      if o != [] && o[k] == 99 then o[..k] + [-1] else o + [-1]
    else
      if o != [] && o[k] == 0 then o[..k] else o
  }

  lemma {:induction false} DropTop(o: seq<int>)
    requires o != []
    ensures Val(o) == Val(o[..|o| - 1]) + Pow100(|o| - 1) * o[|o| - 1]
    ensures Pow100(|o|) == 100 * Pow100(|o| - 1)
  {
    ValTake(o, |o| - 1);
    assert o[..|o| - 1 + 1] == o;
  }

  lemma {:induction false} NegRepairValue(o: seq<int>, c: int)
    requires Digits(o) && 0 <= c <= 1
    ensures Wf(NegRepair(o, c)) && Val(NegRepair(o, c)) == Val(o) - Pow100(|o|) * c
  {
    if o != [] {
      DropTop(o);
    }
    if c == 1 {
      ValSnoc(o, -1);
      if o != [] && o[|o| - 1] == 99 {
        ValSnoc(o[..|o| - 1], -1);
      }
    }
  }

  /** Negation is exact on every well-formed block. */
  lemma {:induction false} NegValue(s: seq<int>)
    requires Wf(s)
    ensures Wf(Neg(s)) && Val(Neg(s)) == -Val(s)
  {
    CompValue(s, 0);
    NegRepairValue(Comp(s, 0), Borrow(s, 0));
  }

  /** Negating can uncover a leading zero only under a redundant 99. */
  ghost predicate Redundant99(s: seq<int>)
  {
    Negative(s) && |s| >= 3 && s[|s| - 2] == 99 && Val(s[..|s| - 2]) != 0
  }

  /** The top digit of a complement, from the borrow that reaches it. */
  lemma {:induction false} CompTop(s: seq<int>)
    requires Wf(s) && s != []
    ensures Comp(s, 0) == Comp(s[..|s| - 1], 0) + [CompDigit(s[|s| - 1], if Val(s[..|s| - 1]) == 0 then 0 else 1)]
    ensures Val(s[..|s| - 1]) >= 0
  {
    var a, d := s[..|s| - 1], s[|s| - 1];
    assert s == a + [d];
    assert Wf(a) && !Negative(a);
    CompSnoc(a, d, 0);
    BorrowOut(a, 0);
    SignOfTop(a);
    CompValue(a, 0);
  }

  lemma {:induction false} NegTrimPositive(s: seq<int>)
    requires Wf(s) && Trim(s) && !Negative(s)
    ensures Canon(Neg(s))
  {
    NegValue(s);
    if s != [] {
      CompTop(s);
      BorrowOut(s, 0);
      SignOfTop(s);
      var k := |s| - 1;
      if Comp(s, 0)[k] == 99 && k >= 1 {
        CompTop(s[..k]);
        DropTop(s[..k]);
        ValBound(s[..k][..k - 1]);
      }
    }
  }

  lemma {:induction false} NegTrimNegative(s: seq<int>)
    requires Wf(s) && Negative(s)
    ensures Trim(Neg(s)) <==> !Redundant99(s)
  {
    CompTop(s);
    BorrowOut(s, 0);
    var a := s[..|s| - 1];
    if a != [] {
      var a' := a[..|a| - 1];
      CompTop(a);
      DropTop(a);
      ValBound(a');
      assert a' == s[..|s| - 2];
      assert Neg(s) == if Val(a) == 0 then Comp(s, 0) else Comp(a, 0);
    }
  }

  /** Without leading zeros going in, none comes out exactly when there was no redundant 99, and
      the canonical form is kept. */
  lemma {:induction false} NegTrim(s: seq<int>)
    requires Wf(s) && Trim(s)
    ensures Trim(Neg(s)) <==> !Redundant99(s)
    ensures Canon(s) ==> Canon(Neg(s))
  {
    if Negative(s) {
      NegTrimNegative(s);
      NegValue(s);
      SignOfTop(s);
      SignOfTop(Neg(s));
    } else {
      NegTrimPositive(s);
    }
  }

  /** Digit k of a complement, and the borrow after it, from the borrow that reaches it. */
  lemma {:induction false} CompAt(s: seq<int>, k: nat, c: int)
    requires k < |s|
    ensures Comp(s, c)[k] == CompDigit(s[k], Borrow(s[..k], c))
    ensures Borrow(s[..k + 1], c) == CompBorrow(s[k], Borrow(s[..k], c))
  {
    assert s[..k + 1] == s[..k] + [s[k]];
    CompSnoc(s[..k], s[k], c);
    if k > 0 {
      CompAt(s[1..], k - 1, CompBorrow(s[0], c));
      assert s[1..][..k - 1] == s[..k][1..];
    }
  }

  /** The digits of e below k are complemented, those above are still those of s. */
  ghost predicate Complemented(e: seq<int>, k: nat, s: seq<int>, carry: int)
  {
    |e| == |s| && k <= |s| && 0 <= carry <= 1 && carry == Borrow(s[..k], 0) &&
    (forall i :: 0 <= i < k ==> e[i] == Comp(s, 0)[i]) && (forall i :: k <= i < |s| ==> e[i] == s[i])
  }

  method ComplementDigit(d: int, c: int) returns (ct: int, carry: int)
    requires -1 <= d < 100 && 0 <= c <= 1
    ensures ct == CompDigit(d, c) && carry == CompBorrow(d, c) && 0 <= ct < 100
  {
    ct := 100 - d - c;
    carry := 1;
    if ct >= 100 {
      ct := ct - 100;
      carry := 0;
    }
  }

  /** The pass of chsign that complements every digit in place. */
  method Complement(p: Blk) returns (carry: int)
    requires p.Valid() && Wf(p.D())
    modifies p
    ensures p.Valid() && p.wt == old(p.wt) && p.D() == Comp(old(p.D()), 0)
    ensures carry == Borrow(old(p.D()), 0)
  {
    ghost var s := p.D();
    carry := 0;
    p.rd := 0;
    while p.rd != p.wt
      invariant p.Valid() && p.rd <= p.wt == |s| && Complemented(p.D(), p.rd, s, carry)
      decreases p.wt - p.rd
    {
      ghost var e, k := p.D(), p.rd;
      CompAt(s, k, 0);
      var ct;
      ct, carry := ComplementDigit(p.Slookc(), carry);
      p.Salterc(ct);
      assert p.D() == e[k := ct];
    }
    assert s[..p.wt] == s;
  }

  /** chsign: negate in place. Exact on every well-formed block; canonical stays canonical. */
  method Chsign(p: Blk)
    requires p.Valid() && Wf(p.D())
    modifies p
    ensures p.Valid() && p.D() == Neg(old(p.D()))
    ensures Wf(p.D()) && Val(p.D()) == -old(Val(p.D()))
    ensures old(Canon(p.D())) ==> Canon(p.D())
  {
    NegValue(p.D());
    if Canon(p.D()) {
      NegTrim(p.D());
    }
    CompValue(p.D(), 0);
    var carry := Complement(p);
    Repair(p, carry);
  }

  /** The end of chsign: put the sign on, or drop the zero that a sign turned into. */
  method Repair(p: Blk, carry: int)
    requires p.Valid() && 0 <= carry <= 1
    modifies p
    ensures p.Valid() && p.D() == NegRepair(old(p.D()), carry)
  {
    ghost var o := p.D();
    if carry != 0 {
      p.Sputc(-1);
      p.rd := p.wt;
      p.Backc();
      var ct := p.Sbackc();
      if ct == 99 {
        p.Truncate();
        p.Sputc(-1);
        assert p.D() == o[..|o| - 1] + [-1];
      }
    } else {
      p.rd := p.wt;
      var ct := p.Sbackc();
      if ct == 0 {
        p.Truncate();
        assert p.D() == o[..|o| - 1];
      }
    }
  }
}
