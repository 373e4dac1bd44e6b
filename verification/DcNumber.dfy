/** Base-100 positional numbers as `dc` stores them: least significant digit first,
    every digit in 0..99 except that the most significant one may be -1, which makes the
    number negative (hundred's complement). */
module DcNumber {

  /** A byte of a number block: C's signed char. */
  type Byte = x: int | -128 <= x <= 127

  function Pow100(n: nat): (p: int)
    ensures p >= 1
    ensures n >= 1 ==> p >= 100
  {
    if n == 0 then 1 else 100 * Pow100(n - 1)
  }

  /** The integer a block denotes. */
  function Val(s: seq<int>): int
  {
    if s == [] then 0 else s[0] + 100 * Val(s[1..])
  }

  /** Every digit is an ordinary one, so the block denotes a natural number. */
  ghost predicate Digits(s: seq<int>)
  {
    forall i :: 0 <= i < |s| ==> 0 <= s[i] < 100
  }

  /** Well formed: ordinary digits, the top one possibly -1; leading zeros are allowed. */
  ghost predicate Wf(s: seq<int>)
  {
    (forall i :: 0 <= i < |s| - 1 ==> 0 <= s[i] < 100) &&
    (s != [] ==> -1 <= s[|s| - 1] < 100)
  }

  predicate Negative(s: seq<int>)
  {
    s != [] && s[|s| - 1] == -1
  }

  /** No leading zero digit. */
  predicate Trim(s: seq<int>)
  {
    s == [] || s[|s| - 1] != 0
  }

  /** The form every operation returns: well formed, no leading zero, and no redundant 99 under
      the -1, except that minus one itself may be stored in two digits. */
  ghost predicate Canon(s: seq<int>)
  {
    Wf(s) && Trim(s) && (Negative(s) && |s| >= 3 ==> s[|s| - 2] != 99)
  }

  lemma {:induction false} PowAdd(a: nat, b: nat)
    ensures Pow100(a + b) == Pow100(a) * Pow100(b)
  {
    if a == 0 {
    } else {
      PowAdd(a - 1, b);
    }
  }

  lemma {:induction false} ValConcat(a: seq<int>, b: seq<int>)
    ensures Val(a + b) == Val(a) + Pow100(|a|) * Val(b)
  {
    if a == [] {
      assert a + b == b;
    } else {
      assert (a + b)[1..] == a[1..] + b;
      ValConcat(a[1..], b);
    }
  }

  lemma {:induction false} ValSnoc(s: seq<int>, d: int)
    ensures Val(s + [d]) == Val(s) + Pow100(|s|) * d
  {
    ValConcat(s, [d]);
    assert Val([d]) == d;
  }

  /** Splitting a block at digit k. */
  lemma {:induction false} ValSplit(s: seq<int>, k: nat)
    requires k <= |s|
    ensures Val(s) == Val(s[..k]) + Pow100(k) * Val(s[k..])
  {
    ValConcat(s[..k], s[k..]);
    assert s[..k] + s[k..] == s;
  }

  lemma {:induction false} ValTake(s: seq<int>, k: nat)
    requires k < |s|
    ensures Val(s[..k + 1]) == Val(s[..k]) + Pow100(k) * s[k]
  {
    assert s[..k + 1] == s[..k] + [s[k]];
    ValSnoc(s[..k], s[k]);
  }

  lemma {:induction false} ValBound(s: seq<int>)
    requires Digits(s)
    ensures 0 <= Val(s) < Pow100(|s|)
  {
    if s != [] {
      ValBound(s[1..]);
    }
  }

  lemma MulPos(p: int, d: int)
    requires p >= 1 && d >= 1
    ensures p * d >= p
  {
  }

  /** The sign of a well-formed block is the sign of its top digit. */
  lemma {:induction false} SignOfTop(s: seq<int>)
    requires Wf(s)
    ensures Negative(s) <==> Val(s) < 0
    ensures !Negative(s) ==> Digits(s)
    ensures Trim(s) ==> (s == [] <==> Val(s) == 0)
    ensures Trim(s) && !Negative(s) && s != [] ==> Val(s) >= Pow100(|s| - 1)
  {
    if s != [] {
      var k := |s| - 1;
      var p, d := Pow100(k), s[k];
      ValBound(s[..k]);
      ValTake(s, k);
      assert s[..k + 1] == s;
      if d >= 1 {
        MulPos(p, d);
      } else if d == 0 {
        assert p * d == 0;
      } else {
        assert p * d == -p;
      }
    }
  }
}
