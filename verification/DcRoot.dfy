/** Square root by Newton's iteration and power by repeated squaring, on `dc` blocks. */
module DcRoot {
  import opened DcNumber
  import opened DcBlk
  import opened DcArith
  import opened DcQuotient
  import opened DcDiv
  import opened DcDivTop

  // ----- square root ---------------------------------------------------------------------

  ghost predicate IsRoot(n: int, r: int)
  {
    0 <= r && r * r <= n < (r + 1) * (r + 1)
  }

  lemma SquareMono(a: int, b: int)
    requires 0 <= a <= b
    ensures a * a <= b * b
  {
    MulLe(a, b, a);
    MulLe(a, b, b);
  }

  lemma RootUnique(n: int, r: int, s: int)
    requires IsRoot(n, r) && IsRoot(n, s)
    ensures r == s
  {
    if r < s {
      SquareMono(r + 1, s);
    } else if s < r {
      SquareMono(s + 1, r);
    }
  }

  lemma MeanBound(r: int, m: int, q: int)
    requires r >= 1 && m >= 0 && 2 * (q + 1) >= r + m + 1 && q >= 0
    ensures (q + 1) * (q + 1) >= r * (m + 1)
  {
    var x, y := r, m + 1;
    SquareMono(x + y, 2 * (q + 1));
    assert (2 * (q + 1)) * (2 * (q + 1)) == 4 * ((q + 1) * (q + 1));
    assert (x + y) * (x + y) == 4 * (x * y) + (x - y) * (x - y);
    assert (x - y) * (x - y) >= 0;
  }

  /** One step from above the root stays at or above it, and either decreases or has arrived. */
  lemma NewtonStep(n: int, r: int, m: int, m': int, q: int, q': int)
    requires n >= 1 && r >= 1 && n < (r + 1) * (r + 1)
    requires TruncDiv(n, r, m, m') && TruncDiv(m + r, 2, q, q')
    ensures q >= 1 && n < (q + 1) * (q + 1)
    ensures q >= r ==> IsRoot(n, r)
  {
    assert m >= 0 by {
      if m <= -1 {
        MulLe(m, -1, r);
      }
    }
    assert r * (m + 1) == m * r + r > n;
    MeanBound(r, m, q);
    if q >= r {
      assert m >= r;
      MulLe(r, m, r);
    }
  }

  /** Counting how many odd numbers fit into c finds one more than its root. */
  method OddCount(c0: int) returns (root: int)
    requires 0 <= c0 < 10000
    ensures 1 <= root <= 100 && c0 < root * root
  {
    var c, nn := c0, 1;
    ghost var k := 0;
    c := c - nn;
    while c >= 0
      invariant nn == 2 * k + 1 && 0 <= k && c == c0 - (k + 1) * (k + 1) && k * k <= c0
      decreases c
    {
      nn := nn + 2;
      c := c - nn;
      assert (k + 2) * (k + 2) == (k + 1) * (k + 1) + 2 * k + 3;
      k := k + 1;
    }
    assert k < 100 by {
      if k >= 100 {
        SquareMono(100, k);
      }
    }
    root := (nn + 1) / 2;
  }

  // The number and its leading one or two digits.

  lemma {:induction false} LeadOne(s: seq<int>)
    requires Digits(s) && s != []
    ensures Val(s) < (s[|s| - 1] + 1) * Pow100(|s| - 1)
  {
    DropTop(s);
    ValBound(s[..|s| - 1]);
    MulDistr(Pow100(|s| - 1), s[|s| - 1], 1);
  }

  lemma {:induction false} LeadTwo(s: seq<int>)
    requires Digits(s) && |s| >= 2
    ensures Val(s) < (s[|s| - 1] * 100 + s[|s| - 2] + 1) * Pow100(|s| - 2)
  {
    var k := |s| - 1;
    DropTop(s);
    DropTop(s[..k]);
    ValBound(s[..k][..k - 1]);
    LeadTwoArith(Pow100(k - 1), s[k], s[k - 1]);
  }

  lemma LeadTwoArith(p: int, a: int, b: int)
    ensures (a * 100 + b + 1) * p == (100 * p) * a + p * b + p
  {
  }

  lemma RootAbove(n: int, c: int, root: int, p: int)
    requires n < (c + 1) * (p * p) && c < root * root && p >= 1 && root >= 1
    ensures n < (root * p) * (root * p)
  {
    MulLe(c + 1, root * root, p * p);
    assert (root * root) * (p * p) == (root * p) * (root * p);
  }

  /** The leading digits that belong to the top digit of the root. */
  method RootLead(p: Blk) returns (c: int)
    requires p.Valid() && Digits(p.D()) && p.wt > 0
    modifies p`rd
    ensures 0 <= c < 10000
    ensures Val(p.D()) < (c + 1) * (Pow100((p.wt + 1) / 2 - 1) * Pow100((p.wt + 1) / 2 - 1))
  {
    var n := p.wt;
    ghost var h := (n + 1) / 2 - 1;
    p.rd := p.wt;
    c := p.Sbackc();
    PowAdd(h, h);
    if n % 2 != 1 {
      assert h + h == n - 2;
      var d := p.Sbackc();
      c := c * 100 + d;
      LeadTwo(p.D());
    } else {
      assert h + h == n - 1;
      LeadOne(p.D());
    }
  }

  lemma {:induction false} ZerosValue(k: nat, z: seq<int>)
    requires |z| == k && forall i :: 0 <= i < k ==> z[i] == 0
    ensures Val(z) == 0
  {
    if k > 0 {
      ZerosValue(k - 1, z[1..]);
    }
  }

  method Zeros(n: nat) returns (r: Blk, ghost z: seq<Byte>)
    requires n >= 1
    ensures fresh(r) && r.Valid() && r.D() == z + [0] && |z| == n - 1 && r.wt == n && Digits(z) && Val(z) == 0
  {
    r := new Blk(n);
    r.Zero();
    r.Seekc(n);
    z := r.D()[..n - 1];
    ZerosValue(n - 1, z);
  }

  /** A block of n digits, c in the top place and zeros below; c may be 100. */
  method TopDigit(n: nat, c: int) returns (r: Blk)
    requires n >= 1 && 1 <= c <= 100
    ensures fresh(r) && r.Valid() && Canon(r.D()) && Val(r.D()) == c * Pow100(n - 1)
  {
    ghost var z;
    r, z := Zeros(n);
    r.rd := r.wt;
    r.Backc();
    ValSnoc(z, c);
    if c >= 100 {
      ValSnoc(z, 0);
      ValSnoc(z + [0], 1);
      r.Salterc(c - 100);
      r.Sputc(1);
      assert r.D() == z + [0] + [1];
    } else {
      r.Salterc(c);
      assert r.D() == z + [c];
    }
  }

  /** The first iterate, strictly above the root. */
  method RootStart(p: Blk) returns (r: Blk)
    requires p.Valid() && Digits(p.D()) && p.wt > 0
    modifies p`rd
    ensures fresh(r) && r.Valid() && Canon(r.D()) && Val(r.D()) >= 1
    ensures Val(p.D()) < Val(r.D()) * Val(r.D())
  {
    var lead := RootLead(p);
    var n := (p.wt + 1) / 2;
    var c := OddCount(lead);
    RootAbove(Val(p.D()), lead, c, Pow100(n - 1));
    MulPos(Pow100(n - 1), c);
    r := TopDigit(n, c);
  }

  lemma SmallValues()
    ensures Val([]) == 0 && Val([1]) == 1 && Val([2]) == 2
  {
  }

  /** Half of r + p / r. */
  method Mean(p: Blk, r: Blk, sqtemp: Blk, divxyz: Blk) returns (q: Blk)
    requires p != r && p != sqtemp && r != sqtemp && divxyz != p && divxyz != r && divxyz != sqtemp
    requires p.Valid() && r.Valid() && sqtemp.Valid() && divxyz.Valid() && sqtemp.D() == [2]
    requires Canon(p.D()) && Canon(r.D()) && Val(p.D()) >= 1 && Val(r.D()) >= 1
    requires Val(p.D()) < (Val(r.D()) + 1) * (Val(r.D()) + 1)
    modifies p`rd, r`rd, sqtemp`rd, divxyz
    ensures fresh(q) && q.Valid() && Canon(q.D()) && divxyz.Valid() && Val(q.D()) >= 1
    ensures Val(p.D()) < (Val(q.D()) + 1) * (Val(q.D()) + 1)
    ensures Val(r.D()) <= Val(q.D()) ==> IsRoot(Val(p.D()), Val(r.D()))
  {
    hide Val, Shorter, TruncDiv, IsRoot;
    SmallValues();
    SignOfTop(r.D());
    var m, m' := Div(p, r, divxyz);
    var s := Add(m, r);
    var q': Blk?;
    q, q' := Div(s, sqtemp, divxyz);
    NewtonStep(Val(p.D()), Val(r.D()), Val(m.D()), Val(m'.D()), Val(q.D()), Val(q'.D()));
  }

  /** One Newton step: q is half of r + p / r, and less tells whether it is below r. */
  method RootStep(p: Blk, r: Blk, sqtemp: Blk, divxyz: Blk) returns (q: Blk, less: bool)
    requires p != r && p != sqtemp && r != sqtemp && divxyz != p && divxyz != r && divxyz != sqtemp
    requires p.Valid() && r.Valid() && sqtemp.Valid() && divxyz.Valid() && sqtemp.D() == [2]
    requires Canon(p.D()) && Canon(r.D()) && Val(p.D()) >= 1 && Val(r.D()) >= 1
    requires Val(p.D()) < (Val(r.D()) + 1) * (Val(r.D()) + 1)
    modifies p`rd, r`rd, sqtemp`rd, divxyz
    ensures fresh(q) && q.Valid() && Canon(q.D()) && divxyz.Valid() && Val(q.D()) >= 1
    ensures Val(p.D()) < (Val(q.D()) + 1) * (Val(q.D()) + 1)
    ensures less <==> Val(q.D()) < Val(r.D())
    ensures !less ==> IsRoot(Val(p.D()), Val(r.D()))
  {
    hide IsRoot;
    q := Mean(p, r, sqtemp, divxyz);
    less := Less(q, r);
  }

  /** Compare by adding the negated number and looking at the top digit. */
  method Less(q: Blk, r: Blk) returns (less: bool)
    requires q != r && q.Valid() && r.Valid() && Wf(q.D()) && Wf(r.D())
    modifies q`rd
    ensures less <==> Val(q.D()) < Val(r.D())
  {
    var s := new Blk.Copy(r);
    Chsign(s);
    var t := Add(s, q);
    SignOfTop(t.D());
    t.rd := t.wt;
    var nn: int := 0;
    if t.rd != 0 {
      nn := t.Sbackc();
    }
    less := nn < 0;
  }

  /** dcsqrt: the floor of the square root of every positive block. */
  method Dcsqrt(p: Blk, sqtemp: Blk, divxyz: Blk) returns (r: Blk)
    requires p != sqtemp && divxyz != p && divxyz != sqtemp
    requires p.Valid() && sqtemp.Valid() && divxyz.Valid() && sqtemp.D() == [2]
    requires Canon(p.D()) && Val(p.D()) >= 1
    modifies p`rd, sqtemp`rd, divxyz
    ensures fresh(r) && r.Valid() && Canon(r.D()) && divxyz.Valid() && IsRoot(Val(p.D()), Val(r.D()))
  {
    SignOfTop(p.D());
    r := RootStart(p);
    SquareMono(Val(r.D()), Val(r.D()) + 1);
    while true
      invariant fresh(r) && r.Valid() && Canon(r.D()) && Val(r.D()) >= 1 && divxyz.Valid()
      invariant Val(p.D()) < (Val(r.D()) + 1) * (Val(r.D()) + 1)
      decreases Val(r.D())
    {
      var q, less := RootStep(p, r, sqtemp, divxyz);
      if !less {
        break;
      }
      r := q;
    }
  }

  // ----- powers --------------------------------------------------------------------------

  function IPow(b: int, e: nat): int
  {
    if e == 0 then 1 else b * IPow(b, e - 1)
  }

  lemma {:induction false} SquarePow(b: int, h: nat)
    ensures IPow(b, 2 * h) == IPow(b * b, h)
  {
    if h > 0 {
      SquarePow(b, h - 1);
      assert IPow(b, 2 * h) == b * IPow(b, 2 * h - 1) == b * (b * IPow(b, 2 * h - 2));
      assert b * (b * IPow(b, 2 * h - 2)) == (b * b) * IPow(b, 2 * h - 2);
    }
  }

  /** Halving the exponent and squaring the base, with one factor put aside when it is odd. */
  lemma {:induction false} PowStep(r: int, b: int, e: nat, h: int, odd: int, r': int)
    requires TruncDiv(e, 2, h, odd) && r' == if odd != 0 then b * r else r
    ensures 0 <= h && (e > 0 ==> h < e) && r * IPow(b, e) == r' * IPow(b * b, h)
  {
    SquarePow(b, h);
    if odd != 0 {
      assert e == 2 * h + 1;
      assert r * (b * IPow(b, 2 * h)) == (b * r) * IPow(b, 2 * h);
    } else {
      assert e == 2 * h;
    }
  }

  /** Three blocks of the squaring loop: r times p to the power e is what is wanted. */
  ghost predicate Powering(r: Blk, p: Blk, e: Blk, total: int)
    reads r, p, e
  {
    r != p && r != e && p != e && r.Valid() && p.Valid() && e.Valid() &&
    Wf(r.D()) && Wf(p.D()) && Canon(e.D()) && Val(e.D()) >= 0 &&
    Val(r.D()) * IPow(Val(p.D()), Val(e.D())) == total
  }

  lemma PowEnds(r: int, b: int, total: int)
    ensures 1 * total == total && (r * IPow(b, 0) == total ==> r == total)
  {
  }

  method PowTurn(r: Blk, p: Blk, e: Blk, sqtemp: Blk, divxyz: Blk, ghost total: int) returns (r': Blk, p': Blk, e': Blk)
    requires r != sqtemp && p != sqtemp && e != sqtemp && r != divxyz && p != divxyz && e != divxyz && sqtemp != divxyz
    requires Powering(r, p, e, total) && e.wt != 0 && sqtemp.Valid() && divxyz.Valid() && sqtemp.D() == [2]
    modifies r`rd, p`rd, sqtemp`rd, divxyz
    ensures Powering(r', p', e', total) && Val(e'.D()) < Val(e.D()) && divxyz.Valid()
    ensures Canon(r.D()) && Canon(p.D()) ==> Canon(r'.D()) && Canon(p'.D())
    ensures fresh(p') && fresh(e') && (r' == r || fresh(r'))
  {
    hide Val, IPow, Shorter, Mag, TruncDiv;
    SmallValues();
    SignOfTop(e.D());
    var odd;
    e', odd := Div(e, sqtemp, divxyz);
    SignOfTop(odd.D());
    r' := r;
    if odd.wt != 0 {
      r' := Mult(p, r);
    }
    PowStep(Val(r.D()), Val(p.D()), Val(e.D()), Val(e'.D()), Val(odd.D()), Val(r'.D()));
    var t := new Blk.Copy(p);
    p' := Mult(p, t);
  }

  /** The squaring loop of dcexp: returns base^e. */
  method PowLoop(base: Blk, ex: Blk, sqtemp: Blk, divxyz: Blk) returns (r: Blk)
    requires base != ex && base != sqtemp && ex != sqtemp && divxyz != base && divxyz != ex && divxyz != sqtemp
    requires base.Valid() && ex.Valid() && sqtemp.Valid() && divxyz.Valid() && sqtemp.D() == [2]
    requires Wf(base.D()) && Canon(ex.D()) && Val(ex.D()) >= 0
    modifies sqtemp`rd, divxyz
    ensures fresh(r) && r.Valid() && Wf(r.D()) && divxyz.Valid() && Val(r.D()) == IPow(Val(base.D()), Val(ex.D()))
    ensures Canon(base.D()) ==> Canon(r.D())
  {
    hide Val, IPow;
    SmallValues();
    ghost var total := IPow(Val(base.D()), Val(ex.D()));
    r := new Blk(1);
    r.Sputc(1);
    assert r.D() == [1];
    var p := new Blk.Copy(base);
    var e := new Blk.Copy(ex);
    PowEnds(1, 0, total);
    while e.wt != 0
      invariant fresh(r) && fresh(p) && fresh(e) && divxyz.Valid() && Powering(r, p, e, total)
      invariant Canon(base.D()) ==> Canon(r.D()) && Canon(p.D())
      decreases Val(e.D())
    {
      r, p, e := PowTurn(r, p, e, sqtemp, divxyz, total);
    }
    assert Val(e.D()) == 0;
    PowEnds(Val(r.D()), Val(p.D()), total);
  }

  /** dcexp: base to the power ex for every exponent that is not negative; for a negative one the
      code answers zero unless the base is a single digit that is at most one. */
  method Dcexp(base: Blk, ex: Blk, sqtemp: Blk, divxyz: Blk) returns (r: Blk)
    requires base != ex && base != sqtemp && ex != sqtemp && divxyz != base && divxyz != ex && divxyz != sqtemp
    requires base.Valid() && ex.Valid() && sqtemp.Valid() && divxyz.Valid() && sqtemp.D() == [2]
    requires Wf(base.D()) && Canon(ex.D())
    modifies base`rd, sqtemp`rd, divxyz
    ensures fresh(r) && r.Valid() && Wf(r.D()) && divxyz.Valid() && (Canon(base.D()) ==> Canon(r.D()))
    ensures Val(ex.D()) >= 0 ==> Val(r.D()) == IPow(Val(base.D()), Val(ex.D()))
    ensures Val(ex.D()) < 0 ==> r.D() == if base.D() in {[1], [0], [-1]} then base.D() else []
  {
    SignOfTop(ex.D());
    SignOfTop(base.D());
    var e := new Blk.Copy(ex);
    var temp := false;
    e.rd := e.wt;
    if e.rd != 0 {
      var c := e.Sbackc();
      if c < 0 {
        temp := true;
        Chsign(e);
      }
    }
    r := PowLoop(base, e, sqtemp, divxyz);
    SignOfTop(r.D());
    if temp && base.wt != 0 {
      NegativePower(r, base);
    }
  }

  /** What dcexp answers for a negative exponent and a base that is not zero. */
  method NegativePower(r: Blk, base: Blk)
    requires r != base && r.Valid() && base.Valid() && Wf(base.D()) && base.wt != 0
    modifies r, base`rd
    ensures r.Valid() && r.D() == if base.D() in {[1], [0], [-1]} then base.D() else []
  {
    r.rd, r.wt := 0, 0;
    if base.wt == 1 {
      base.rd := 0;
      var c := base.Sgetc();
      assert base.D() == [c];
      if c <= 1 {
        r.Sputc(c);
      }
    }
  }
}
