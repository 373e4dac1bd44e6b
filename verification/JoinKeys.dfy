/** join's fields: runes ended by a zero, compared rune by rune. */
module JoinKeys {

  type Rune = nat

  ghost predicate Terminated(s: seq<Rune>) { exists i :: 0 <= i < |s| && s[i] == 0 }

  /** The string in a buffer: up to its first zero. */
  function StrOf(s: seq<Rune>): (t: seq<Rune>)
    ensures |t| <= |s| && t == s[..|t|] && (forall i :: 0 <= i < |t| ==> t[i] != 0) && (|t| < |s| ==> s[|t|] == 0)
  {
    if s == [] || s[0] == 0 then [] else [s[0]] + StrOf(s[1..])
  }

  /** Dictionary order: negative, zero or positive. */
  function Compare(a: seq<Rune>, b: seq<Rune>): int
  {
    if a == [] then (if b == [] then 0 else -1)
    else if b == [] then 1
    else if a[0] != b[0] then (if a[0] < b[0] then -1 else 1)
    else Compare(a[1..], b[1..])
  }

  lemma {:induction false} CompareZero(a: seq<Rune>, b: seq<Rune>)
    ensures Compare(a, b) == 0 <==> a == b
  {
    if a != [] && b != [] && a[0] == b[0] {
      CompareZero(a[1..], b[1..]);
      assert a == [a[0]] + a[1..] && b == [b[0]] + b[1..];
    }
  }

  lemma {:induction false} CompareFlip(a: seq<Rune>, b: seq<Rune>)
    ensures Compare(b, a) == 0 - Compare(a, b)
  {
    if a != [] && b != [] && a[0] == b[0] {
      CompareFlip(a[1..], b[1..]);
    }
  }

  lemma {:induction false} CompareTrans(a: seq<Rune>, b: seq<Rune>, c: seq<Rune>)
    requires Compare(a, b) <= 0 && Compare(b, c) <= 0
    ensures Compare(a, c) <= 0 && (Compare(a, b) < 0 || Compare(b, c) < 0 ==> Compare(a, c) < 0)
  {
    if a != [] && b != [] && c != [] && a[0] == b[0] == c[0] {
      CompareTrans(a[1..], b[1..], c[1..]);
    }
  }

  /** The order is decided where the strings first differ. */
  lemma {:induction false} CompareAt(a: seq<Rune>, b: seq<Rune>, k: nat)
    requires k <= |a| && k <= |b| && a[..k] == b[..k]
    ensures Compare(a, b) == Compare(a[k..], b[k..])
  {
    if k > 0 {
      assert a[0] == a[..k][0] && b[0] == b[..k][0];
      assert a[1..][..k - 1] == a[..k][1..] && b[1..][..k - 1] == b[..k][1..];
      CompareAt(a[1..], b[1..], k - 1);
      assert a[1..][k - 1..] == a[k..] && b[1..][k - 1..] == b[k..];
    } else {
      assert a[0..] == a && b[0..] == b;
    }
  }

  lemma InText(s: seq<Rune>, i: nat)
    ensures i < |StrOf(s)| ==> i < |s| && s[i] != 0
  {
    assert i < |StrOf(s)| ==> StrOf(s)[i] == s[i];
  }

  lemma StrEnds(s: seq<Rune>)
    requires Terminated(s)
    ensures |StrOf(s)| < |s|
  {
    var i :| 0 <= i < |s| && s[i] == 0;
    InText(s, i);
  }

  /** runecmp: the order of the two strings. */
  method RuneCmp(a: seq<Rune>, b: seq<Rune>) returns (r: int)
    requires Terminated(a) && Terminated(b)
    ensures r == Compare(StrOf(a), StrOf(b))
  {
    StrEnds(a);
    StrEnds(b);
    ghost var s, t := StrOf(a), StrOf(b);
    var k := 0;
    while a[k] == b[k]
      invariant 0 <= k <= |s| && k <= |t| && s[..k] == t[..k]
      decreases |s| - k
    {
      if a[k] == 0 {
        assert k == |s| && k == |t|;
        CompareZero(s, t);
        return 0;
      }
      assert s[..k + 1] == s[..k] + [a[k]] && t[..k + 1] == t[..k] + [b[k]];
      k := k + 1;
    }
    CompareAt(s, t, k);
    r := if a[k] < b[k] then -1 else 1;
  }
}
