/** Keys, their order and the comparison the small sorts use. */
module SortKey {

  type Octet = x: int | 0 <= x < 256

  type Key = seq<Octet>

  /** A line, named so that equal keys stay apart, with its key. */
  datatype Line = Line(id: nat, key: Key)

  /** The length of the longest common prefix. */
  function Common(x: Key, y: Key): (n: nat)
    ensures n <= |x| && n <= |y| && (forall i :: 0 <= i < n ==> x[i] == y[i]) && (n < |x| && n < |y| ==> x[n] != y[n])
  {
    if x == [] || y == [] || x[0] != y[0] then 0 else
      var n := Common(x[1..], y[1..]);
      assert forall i :: 0 < i < n + 1 ==> x[i] == x[1..][i - 1] && y[i] == y[1..][i - 1];
      n + 1
  }

  /** Byte order, a prefix first. */
  predicate Le(x: Key, y: Key)
  {
    var n := Common(x, y);
    n == |x| || (n < |y| && x[n] < y[n])
  }

  lemma CommonIs(x: Key, y: Key, n: nat)
    requires n <= |x| && n <= |y| && (forall i :: 0 <= i < n ==> x[i] == y[i]) && (n < |x| && n < |y| ==> x[n] != y[n])
    ensures Common(x, y) == n
  {
    var m := Common(x, y);
    assert n < m ==> n < |x| && n < |y|;
  }

  lemma LeRefl(x: Key)
    ensures Le(x, x)
  {
    CommonIs(x, x, |x|);
  }

  /** The order is decided where the keys first differ. */
  lemma LeAt(x: Key, y: Key, n: nat)
    requires n <= |x| && n <= |y| && (forall i :: 0 <= i < n ==> x[i] == y[i]) && (n < |x| ==> n < |y| && x[n] < y[n])
    ensures Le(x, y)
  {
    CommonIs(x, y, n);
  }

  lemma LeTotal(x: Key, y: Key)
    ensures Le(x, y) || Le(y, x)
  {
    CommonIs(y, x, Common(x, y));
  }

  lemma LeAntisymmetric(x: Key, y: Key)
    requires Le(x, y) && Le(y, x)
    ensures x == y
  {
    CommonIs(y, x, Common(x, y));
  }

  lemma LeTrans(x: Key, y: Key, z: Key)
    requires Le(x, y) && Le(y, z)
    ensures Le(x, z)
  {
    var m, n := Common(x, y), Common(y, z);
    var k := if m < n then m else n;
    LeAt(x, z, k);
  }

  /** Neither is a proper prefix of the other. */
  predicate Apart(x: Key, y: Key)
  {
    var n := Common(x, y);
    (n == |x| <==> n == |y|)
  }

  /** memcmp on the first n bytes. */
  function MemCmp(x: Key, y: Key, n: nat): int
    requires n <= |x| && n <= |y|
  {
    if n == 0 then 0 else if x[0] != y[0] then x[0] - y[0] else MemCmp(x[1..], y[1..], n - 1)
  }

  lemma {:induction false} MemCmpIs(x: Key, y: Key, n: nat)
    requires n <= |x| && n <= |y|
    ensures var m := Common(x, y);
            (m < n ==> MemCmp(x, y, n) == x[m] as int - y[m] as int) && (n <= m ==> MemCmp(x, y, n) == 0)
  {
    if n > 0 && x[0] == y[0] {
      MemCmpIs(x[1..], y[1..], n - 1);
    }
  }

  /** What bsort4 compares: past byte b, over the length both have; a key at its end is never greater. */
  predicate Greater(x: Key, y: Key, b: nat)
  {
    var n := (if |x| < |y| then |x| else |y|) - b;
    n > 0 && (if x[b] != y[b] then x[b] > y[b] else MemCmp(x[b..], y[b..], n) > 0)
  }

  lemma CommonPast(x: Key, y: Key, b: nat)
    requires b <= |x| && b <= |y| && forall i :: 0 <= i < b ==> x[i] == y[i]
    ensures Common(x, y) == b + Common(x[b..], y[b..])
  {
    var n := Common(x[b..], y[b..]);
    forall i | 0 <= i < b + n ensures x[i] == y[i] {
      if i >= b {
        assert x[b..][i - b] == y[b..][i - b];
      }
    }
    CommonIs(x, y, b + n);
  }

  /** On keys that agree up to b it is the order, except that it misses y being a proper prefix of x. */
  lemma GreaterPast(x: Key, y: Key, b: nat)
    requires b < |x| && b < |y|
    ensures var m := Common(x[b..], y[b..]); Greater(x, y, b) <==> b + m < |x| && b + m < |y| && x[b + m] > y[b + m]
  {
    var n := (if |x| < |y| then |x| else |y|) - b;
    MemCmpIs(x[b..], y[b..], n);
    var m := Common(x[b..], y[b..]);
    assert m == 0 <==> x[b] != y[b];
  }

  lemma GreaterIs(x: Key, y: Key, b: nat)
    requires b <= |x| && b <= |y| && forall i :: 0 <= i < b ==> x[i] == y[i]
    ensures Greater(x, y, b) <==> !Le(x, y) && Common(x, y) < |y|
    ensures Apart(x, y) ==> (Greater(x, y, b) <==> !Le(x, y))
  {
    CommonPast(x, y, b);
    if b < |x| && b < |y| {
      GreaterPast(x, y, b);
      hide Greater, MemCmp;
    }
  }
}
