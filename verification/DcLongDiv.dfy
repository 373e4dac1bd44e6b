/** div as a whole: the digit loop, the repairs after the last digit, and the signs. */
module DcLongDiv {
  import opened DcNumber
  import opened DcBlk
  import opened DcArith
  import opened DcQuotient
  import opened DcDiv
  import opened DcDivide

  /** Quotient digits guessed so far: at place k and above, and none needs more than a signed char. */
  ghost predicate QuotDigits(s: seq<int>, k: nat)
  {
    forall i :: k <= i < |s| ==> 0 <= s[i] <= 118
  }

  /** Before the digit at place offset: what is left of the dividend plus the quotient so far times
      the divisor is the dividend a0, and what is left is below 117 shifted divisors. */
  ghost predicate Dividing(divd: Blk, divr: Blk, p: Blk, offset: nat, a0: int)
    reads divd, divr, p
  {
    divd.Valid() && divr.Valid() && p.Valid() && Divisor(divr.D()) &&
    divd.wt == divr.wt + offset + 1 && Folded(divd.D()) &&
    p.rd == offset + 1 <= p.wt && QuotDigits(p.D(), offset + 1) &&
    Val(divd.D()) < 117 * (Val(divr.D()) * Pow100(offset)) &&
    a0 == Val(divd.D()) + Val(divr.D()) * (Pow100(offset + 1) * Val(p.D()[offset + 1..]))
  }

  method PutDigit(p: Blk, dig: int)
    requires p.Valid() && 1 <= p.rd <= p.wt && 0 <= dig <= 118
    modifies p
    ensures p.Valid() && p.rd == old(p.rd) - 1 && p.wt == old(p.wt) && p.D() == old(p.D())[p.rd := dig]
  {
    p.Backc();
    p.Salterc(dig);
    p.Backc();
  }

  lemma QuotArith(a0: int, a: int, a': int, v: int, o: int, q: int, dig: int)
    requires a0 == a + v * ((100 * o) * q) && a' == a - o * (dig * v)
    ensures a0 == a' + v * (o * (dig + 100 * q))
  {
    assert v * ((100 * o) * q) == v * (o * (100 * q));
    MulDistr(o, dig, 100 * q);
    MulDistr(v, o * dig, o * (100 * q));
    assert v * (o * dig) == o * (dig * v);
  }

  lemma {:induction false} QuotNext(s: seq<int>, k: nat, dig: int)
    requires k < |s| && QuotDigits(s, k + 1) && 0 <= dig <= 118
    ensures QuotDigits(s[k := dig], k) && Val(s[k := dig][k..]) == dig + 100 * Val(s[k + 1..])
  {
    var t := s[k := dig][k..];
    assert t[1..] == s[k + 1..] && t[0] == dig;
  }

  lemma DivisorBelow(v: int, p: int, o: int)
    requires 0 <= v < p && o >= 1
    ensures v * o < p * o && 0 <= v * o
  {
    MulLt(v, p, o);
  }

  /** After a middle digit the top digit can be folded, and the bound holds one place down. */
  lemma {:induction false} MiddleLeft(d: seq<int>, v: seq<int>, offset: nat, dig: int, e: seq<int>, carry: int)
    requires Divisor(v) && offset > 0 && |e| == |v| + offset + 1
    requires Low99(e) && 0 <= carry <= 1 && (if carry == 0 then 0 <= e[|e| - 1] else e[|e| - 1] < 100)
    requires Val(e) - Pow100(|e|) * carry == Val(d) - Pow100(offset) * (dig * Val(v))
    requires dig * (Val(v) * Pow100(offset)) <= Val(d)
    requires 100 * Val(d) < (100 * dig + 117) * (Val(v) * Pow100(offset))
    ensures Foldable(e) && Val(e) == Val(d) - Pow100(offset) * (dig * Val(v))
    ensures Val(e) < 117 * (Val(v) * Pow100(offset - 1))
  {
    var r := Val(d) - Pow100(offset) * (dig * Val(v));
    MiddleArith(Val(d), Val(v), Pow100(offset), dig);
    ValBound(v);
    PowAdd(|v|, offset);
    DivisorBelow(Val(v), Pow100(|v|), Pow100(offset));
    LeftFits(e, carry, r, Val(v) * Pow100(offset));
    PlaceDown(Val(v), Pow100(offset - 1));
  }

  lemma PlaceDown(v: int, o: int)
    ensures v * (100 * o) == 100 * (v * o)
  {
  }

  lemma {:induction false} LeftFits(e: seq<int>, carry: int, r: int, y: int)
    requires |e| >= 2 && Low99(e) && 0 <= carry <= 1 && (if carry == 0 then 0 <= e[|e| - 1] else e[|e| - 1] < 100)
    requires Val(e) - Pow100(|e|) * carry == r && 0 <= 100 * r < 117 * y && y <= Pow100(|e| - 1)
    ensures Foldable(e) && Val(e) == r
  {
    AfterSub(e, carry, r);
    FoldableWhenSmall(e);
  }

  lemma MiddleArith(a: int, v: int, o: int, dig: int)
    requires dig * (v * o) <= a && 100 * a < (100 * dig + 117) * (v * o)
    ensures 0 <= 100 * (a - o * (dig * v)) < 117 * (v * o)
  {
    var y := v * o;
    assert o * (dig * v) == dig * y;
    assert (100 * dig + 117) * y == 100 * (dig * y) + 117 * y;
  }

  /** divd -= 100^offset * dig * divr, by way of the scratch block. */
  method Reduce(divd: Blk, divr: Blk, divxyz: Blk, dig: int, offset: nat) returns (carry: int)
    requires divd != divr && divd != divxyz && divr != divxyz && divd.Valid() && divr.Valid() && divxyz.Valid()
    requires Digits(divr.D()) && 0 <= dig <= 117 && Folded(divd.D()) && divd.wt == divr.wt + offset + 1
    modifies divd, divr`rd, divxyz
    ensures divd.Valid() && divd.wt == old(divd.wt) && divxyz.Valid() && 0 <= carry <= 1
    ensures Low99(divd.D())
    ensures if carry == 0 then 0 <= divd.D()[divd.wt - 1] else divd.D()[divd.wt - 1] < 100
    ensures Val(divd.D()) - Pow100(divd.wt) * carry ==
      old(Val(divd.D())) - Pow100(offset) * (dig * Val(divr.D()))
  {
    MulScratch(divr, dig, divxyz);
    carry := SubScratch(divd, divxyz, divr.wt, offset);
  }

  method MiddleDigit(divd: Blk, divr: Blk, divxyz: Blk, p: Blk, c: int, magic: bool, offset: nat, ghost a0: int)
    requires divd != divr && divd != divxyz && divd != p && divr != divxyz && divr != p && divxyz != p
    requires Dividing(divd, divr, p, offset, a0) && offset > 0 && divxyz.Valid()
    requires c == DivisorLead(divr.D()) && (magic <==> divr.D()[divr.wt - 1] < 10)
    modifies divd, divr`rd, divxyz, p
    ensures Dividing(divd, divr, p, offset - 1, a0) && divxyz.Valid() && p.wt == old(p.wt)
  {
    ghost var d, v, s := divd.D(), divr.D(), p.D();
    DivisorBounds(v);
    GuessMiddle(d, v, offset);
    var dig, under := GuessDigit(divd, c, magic, offset);
    var carry := Reduce(divd, divr, divxyz, dig, offset);
    ghost var e := divd.D();
    MiddleLeft(d, v, offset, dig, e, carry);
    QuotArith(a0, Val(d), Val(e), Val(v), Pow100(offset), Val(s[offset + 1..]), dig);
    QuotNext(s, offset, dig);
    PutDigit(p, dig);
    FoldTopValue(e);
    Fold(divd);
  }

  // ----- the last digit ------------------------------------------------------------------

  lemma LastArith(a: int, v: int, dig: int, g: int, under: bool)
    requires g == (if under then dig + 1 else dig) && (g - 1) * v <= a < (g + 1) * v
    ensures if under then 0 <= a - dig * v < 2 * v else -v <= a - dig * v < v
  {
    assert (dig - 1) * v == dig * v - v && (dig + 1) * v == dig * v + v && (dig + 2) * v == dig * v + 2 * v;
  }

  /** What the last guess leaves. */
  lemma {:induction false} LastGuessLeaves(d: seq<int>, v: seq<int>)
    requires Folded(d) && Divisor(v) && |d| == |v| + 1 && Val(d) < 117 * (Val(v) * Pow100(0))
    ensures var (dig, under) := GuessFor(d, v, 0); var r := Val(d) - Pow100(0) * (dig * Val(v));
      r == Val(d) - dig * Val(v) && 0 <= dig <= 117 && (r < 0 ==> dig >= 1) &&
      if under then 0 <= r < 2 * Val(v) else -Val(v) <= r < Val(v)
  {
    assert Val(v) * Pow100(0) == Val(v);
    GuessLast(d, v);
    var (dig, under) := GuessFor(d, v, 0);
    LastArith(Val(d), Val(v), dig, if under then dig + 1 else dig, under);
    assert Pow100(0) * (dig * Val(v)) == dig * Val(v);
    FoldedNonNegative(d);
  }

  lemma {:induction false} FoldedNonNegative(d: seq<int>)
    requires Folded(d)
    ensures Val(d) >= 0
  {
    DropTop(d);
    ValBound(d[..|d| - 1]);
    MulLe(0, d[|d| - 1], Pow100(|d| - 1));
  }

  lemma {:induction false} LastLeft(v: seq<int>, e: seq<int>, carry: int, r: int)
    requires Divisor(v) && |e| == |v| + 1 && -Val(v) <= r < 2 * Val(v)
    requires Low99(e) && 0 <= carry <= 1 && (if carry == 0 then 0 <= e[|e| - 1] else e[|e| - 1] < 100)
    requires Val(e) - Pow100(|e|) * carry == r
    ensures if r >= 0 then carry == 0 && Digits(e) && Val(e) == r
            else carry == 1 && Wf(e[|e| - 1 := -1]) && Val(e[|e| - 1 := -1]) == r
  {
    ValBound(v);
    AfterSub(e, carry, r);
    if r < 0 {
      var k := |e| - 1;
      DropTop(e);
      DropTop(e[k := -1]);
      assert e[k := -1][..k] == e[..k];
    }
  }

  /** After the last digit: r is what the guess leaves, still to be repaired. */
  ghost predicate Divided(divd: Blk, divr: Blk, p: Blk, dig: int, divcarry: int, r: int, a0: int)
    reads divd, divr, p
  {
    divd.Valid() && divr.Valid() && p.Valid() && Divisor(divr.D()) && divd.wt == divr.wt + 1 &&
    divd.rd == divd.wt - 1 && p.rd == 0 < p.wt && QuotDigits(p.D(), 0) && p.D()[0] == dig && 0 <= dig <= 117 &&
    (r < 0 ==> dig >= 1) &&
    a0 == r + Val(divr.D()) * Val(p.D()) &&
    if r >= 0 then divcarry == 0 && Digits(divd.D()) && Val(divd.D()) == r
    else divcarry == 1 && Wf(divd.D()[divd.wt - 1 := -1]) && Val(divd.D()[divd.wt - 1 := -1]) == r
  }

  lemma {:induction false} LastQuot(a0: int, a: int, v: int, s: seq<int>, dig: int, r: int)
    requires s != [] && QuotDigits(s, 1) && 0 <= dig <= 118 && r == a - dig * v
    requires a0 == a + v * (Pow100(1) * Val(s[1..]))
    ensures a0 == r + v * Val(s[0 := dig]) && QuotDigits(s[0 := dig], 0)
  {
    QuotArith(a0, a, r, v, 1, Val(s[1..]), dig);
    QuotNext(s, 0, dig);
    assert s[0 := dig][0..] == s[0 := dig];
    assert Pow100(1) == 100;
  }

  method LastDigit(divd: Blk, divr: Blk, divxyz: Blk, p: Blk, c: int, magic: bool, ghost a0: int)
    returns (dig: int, under: bool, divcarry: int, ghost r: int)
    requires divd != divr && divd != divxyz && divd != p && divr != divxyz && divr != p && divxyz != p
    requires Dividing(divd, divr, p, 0, a0) && divxyz.Valid()
    requires c == DivisorLead(divr.D()) && (magic <==> divr.D()[divr.wt - 1] < 10)
    modifies divd, divr`rd, divxyz, p
    ensures Divided(divd, divr, p, dig, divcarry, r, a0) && divxyz.Valid()
    ensures if under then 0 <= r < 2 * Val(divr.D()) else -Val(divr.D()) <= r < Val(divr.D())
  {
    ghost var d, v, s := divd.D(), divr.D(), p.D();
    DivisorBounds(v);
    LastGuessLeaves(d, v);
    dig, under := GuessDigit(divd, c, magic, 0);
    r := Val(d) - dig * Val(v);
    divcarry := Reduce(divd, divr, divxyz, dig, 0);
    LastLeft(v, divd.D(), divcarry, r);
    LastQuot(a0, Val(d), Val(v), s, dig, r);
    PutDigit(p, dig);
    divd.rd := divd.wt;
    var top := divd.Sbackc();
  }
}
