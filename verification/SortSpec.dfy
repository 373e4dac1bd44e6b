/** What sort promises, whichever way the lines take. */
module SortSpec {
  import opened SortKey

  /** Keys in order; with unique, no key twice. */
  ghost predicate InOrder(out: seq<Line>, unique: bool)
  {
    forall i, j :: 0 <= i < j < |out| ==> Le(out[i].key, out[j].key) && (unique ==> out[i].key != out[j].key)
  }

  ghost predicate HasKey(ls: multiset<Line>, k: Key) { exists l :: l in ls && l.key == k }

  /** out holds the lines of all; with unique, for each key one of its lines. */
  ghost predicate Holds(all: multiset<Line>, out: seq<Line>, unique: bool)
  {
    if unique then (forall l :: l in out ==> l in all) && (forall l :: l in all ==> HasKey(multiset(out), l.key))
    else multiset(out) == all
  }

  ghost predicate IsSort(all: multiset<Line>, out: seq<Line>, unique: bool)
  {
    InOrder(out, unique) && Holds(all, out, unique)
  }

  /** No key is a proper prefix of another. */
  ghost predicate PrefixFree(all: multiset<Line>) { forall l, m :: l in all && m in all ==> Apart(l.key, m.key) }

  function Keys(s: seq<Line>): seq<Key> { seq(|s|, i requires 0 <= i < |s| => s[i].key) }

  /** keycmp: memcmp over the shorter length. */
  function KeyCmp(x: Key, y: Key): int { MemCmp(x, y, if |x| < |y| then |x| else |y|) }

  /** On keys that are not prefixes of each other it tells less, equal and greater. */
  lemma KeyCmpIs(x: Key, y: Key)
    requires Apart(x, y)
    ensures (KeyCmp(x, y) == 0 <==> x == y) && (KeyCmp(x, y) > 0 <==> !Le(x, y))
  {
    MemCmpIs(x, y, if |x| < |y| then |x| else |y|);
    if x == y {
      CommonIs(x, y, |x|);
    }
  }

  // ----- the result is determined up to lines of equal keys --------------------------------

  lemma SortKeys(all: multiset<Line>, out: seq<Line>, unique: bool, k: Key)
    requires IsSort(all, out, unique)
    ensures HasKey(all, k) <==> k in Keys(out)
  {
    if HasKey(all, k) {
      var l :| l in all && l.key == k;
      if unique {
        assert HasKey(multiset(out), k);
        var m :| m in multiset(out) && m.key == k;
        var i :| 0 <= i < |out| && out[i] == m;
        assert Keys(out)[i] == k;
      } else {
        assert l in multiset(out);
        var i :| 0 <= i < |out| && out[i] == l;
        assert Keys(out)[i] == k;
      }
    }
    if k in Keys(out) {
      var i :| 0 <= i < |out| && Keys(out)[i] == k;
      assert out[i] in out;
      assert out[i] in multiset(out);
      assert out[i] in all;
    }
  }

  ghost predicate SortedKeys(s: seq<Key>) { forall i, j :: 0 <= i < j < |s| ==> Le(s[i], s[j]) }

  ghost predicate Strict(s: seq<Key>) { forall i, j :: 0 <= i < j < |s| ==> s[i] != s[j] }

  lemma LastSame(s: seq<Key>, t: seq<Key>)
    requires SortedKeys(s) && SortedKeys(t) && s != [] && forall k :: k in s <==> k in t
    ensures t != [] && s[|s| - 1] == t[|t| - 1]
  {
    var x := s[|s| - 1];
    assert x in t;
    var y := t[|t| - 1];
    assert y in s;
    var i :| 0 <= i < |t| && t[i] == x;
    var j :| 0 <= j < |s| && s[j] == y;
    LeRefl(x);
    LeRefl(y);
    assert Le(x, y) && Le(y, x);
    LeAntisymmetric(x, y);
  }

  lemma EmptyBoth(s: seq<Key>, t: seq<Key>)
    requires forall k :: k in s <==> k in t
    ensures s == [] ==> t == []
  {
    if t != [] {
      assert t[0] in t;
    }
  }

  lemma {:induction false} StrictSame(s: seq<Key>, t: seq<Key>)
    requires SortedKeys(s) && Strict(s) && SortedKeys(t) && Strict(t) && forall k :: k in s <==> k in t
    ensures s == t
  {
    EmptyBoth(s, t);
    if s != [] {
      LastSame(s, t);
      var m, n := |s| - 1, |t| - 1;
      forall k ensures k in s[..m] <==> k in t[..n] {
        InitIn(s, k);
        InitIn(t, k);
      }
      StrictSame(s[..m], t[..n]);
      assert s == s[..m] + [s[m]] && t == t[..n] + [t[n]];
    }
  }

  lemma InitIn(s: seq<Key>, k: Key)
    requires s != [] && Strict(s)
    ensures k in s[..|s| - 1] <==> k in s && k != s[|s| - 1]
  {
  }

  lemma DropLast<T>(s: seq<T>)
    requires s != []
    ensures multiset(s[..|s| - 1]) == multiset(s) - multiset{s[|s| - 1]}
  {
    assert s == s[..|s| - 1] + [s[|s| - 1]];
  }

  lemma DropAt<T>(s: seq<T>, j: nat)
    requires j < |s|
    ensures multiset(s[..j] + s[j + 1..]) == multiset(s) - multiset{s[j]}
  {
    assert s == s[..j] + [s[j]] + s[j + 1..];
  }

  lemma SameElements<T>(s: seq<T>, t: seq<T>)
    requires multiset(s) == multiset(t)
    ensures |s| == |t| && forall k :: k in s <==> k in t
  {
    assert |s| == |multiset(s)| && |t| == |multiset(t)|;
    forall k ensures k in s <==> k in t {
      assert k in s <==> k in multiset(s);
      assert k in t <==> k in multiset(t);
    }
  }

  lemma {:induction false} SortedSame(s: seq<Key>, t: seq<Key>)
    requires SortedKeys(s) && SortedKeys(t) && multiset(s) == multiset(t)
    ensures s == t
  {
    SameElements(s, t);
    if s != [] {
      LastSame(s, t);
      var n := |s| - 1;
      DropLast(s);
      DropLast(t);
      assert SortedKeys(s[..n]) && SortedKeys(t[..n]);
      hide SortedKeys;
      SortedSame(s[..n], t[..n]);
      assert s == s[..n] + [s[n]] && t == t[..n] + [t[n]];
    }
  }

  lemma KeysConcat(s: seq<Line>, t: seq<Line>)
    ensures Keys(s + t) == Keys(s) + Keys(t)
  {
  }

  lemma KeysAt(s: seq<Line>, j: nat)
    requires j < |s|
    ensures multiset(Keys(s)) == multiset(Keys(s[..j] + s[j + 1..])) + multiset{s[j].key}
  {
    KeysConcat(s[..j], s[j + 1..]);
    KeysConcat(s[..j] + [s[j]], s[j + 1..]);
    KeysConcat(s[..j], [s[j]]);
    assert s == s[..j] + [s[j]] + s[j + 1..];
    assert Keys([s[j]]) == [s[j].key];
    hide Keys;
  }

  lemma {:induction false} KeyMultiset(s: seq<Line>, t: seq<Line>)
    requires multiset(s) == multiset(t)
    ensures multiset(Keys(s)) == multiset(Keys(t))
  {
    SameElements(s, t);
    if s != [] {
      var n := |s| - 1;
      var x := s[n];
      assert x in t;
      var j :| 0 <= j < |t| && t[j] == x;
      DropLast(s);
      DropAt(t, j);
      hide Keys;
      KeyMultiset(s[..n], t[..j] + t[j + 1..]);
      KeysAt(t, j);
      KeysAt(s, n);
      assert s[..n] + s[n + 1..] == s[..n];
    }
  }

  /** Two outputs for the same lines have the same keys in the same order. */
  lemma SameKeys(all: multiset<Line>, out: seq<Line>, out': seq<Line>, unique: bool)
    requires IsSort(all, out, unique) && IsSort(all, out', unique)
    ensures Keys(out) == Keys(out')
  {
    if unique {
      forall k ensures k in Keys(out) <==> k in Keys(out') {
        SortKeys(all, out, unique, k);
        SortKeys(all, out', unique, k);
      }
      StrictSame(Keys(out), Keys(out'));
    } else {
      KeyMultiset(out, out');
      SortedSame(Keys(out), Keys(out'));
    }
  }
}
