/** Kernels in order, so that equal cores are equal lists. */
module YaccSort {
  import opened YaccItems

  /** The order of items in the store of productions. */
  predicate Less(a: Item, b: Item) { a.p < b.p || (a.p == b.p && a.dot < b.dot) }

  ghost predicate Ascending(s: seq<Entry>) { forall k, l :: 0 <= k < l < |s| ==> Less(s[k].item, s[l].item) }

  ghost predicate Distinct(s: seq<Entry>) { forall k, l :: 0 <= k < l < |s| ==> s[k].item != s[l].item }

  predicate SameItems(a: seq<Entry>, b: seq<Entry>)
  {
    |a| == |b| && forall k :: 0 <= k < |a| ==> a[k].item == b[k].item
  }

  ghost predicate Has(s: seq<Entry>, it: Item) { exists k :: 0 <= k < |s| && s[k].item == it }

  /** Two ascending kernels with the same items are the same list of items. */
  lemma {:induction false} AscendingSame(a: seq<Entry>, b: seq<Entry>)
    requires Ascending(a) && Ascending(b) && forall it :: Has(a, it) <==> Has(b, it)
    ensures SameItems(a, b)
  {
    if a == [] {
      if b != [] {
        assert Has(b, b[0].item);
      }
    } else {
      assert Has(a, a[|a| - 1].item);
      var m, n := |a| - 1, |b| - 1;
      LastSame(a, b);
      forall it ensures Has(a[..m], it) <==> Has(b[..n], it) {
        InitHas(a, it);
        InitHas(b, it);
      }
      AscendingSame(a[..m], b[..n]);
      assert forall k :: 0 <= k < m ==> a[k] == a[..m][k] && b[k] == b[..n][k];
    }
  }

  lemma LastSame(a: seq<Entry>, b: seq<Entry>)
    requires a != [] && Ascending(a) && Ascending(b) && forall it :: Has(a, it) <==> Has(b, it)
    ensures b != [] && a[|a| - 1].item == b[|b| - 1].item
  {
    assert Has(a, a[|a| - 1].item);
    var k :| 0 <= k < |b| && b[k].item == a[|a| - 1].item;
    assert Has(b, b[|b| - 1].item);
    var l :| 0 <= l < |a| && a[l].item == b[|b| - 1].item;
  }

  lemma InitHas(a: seq<Entry>, it: Item)
    requires a != [] && Ascending(a)
    ensures Has(a[..|a| - 1], it) <==> Has(a, it) && it != a[|a| - 1].item
  {
    var m := |a| - 1;
    if Has(a[..m], it) {
      var k :| 0 <= k < m && a[..m][k].item == it;
      assert a[k].item == it;
    }
    if Has(a, it) && it != a[m].item {
      var k :| 0 <= k < |a| && a[k].item == it;
      assert a[..m][k].item == it;
    }
  }

  /** r has the entries of s in another order. */
  ghost predicate Reordered(s: seq<Entry>, r: seq<Entry>)
  {
    |r| == |s| && multiset(r) == multiset(s)
  }

  /** From k on all in order, and nothing before k is larger. */
  ghost predicate DoneFrom(s: seq<Entry>, k: nat)
  {
    forall x, y :: 0 <= x < y < |s| && y >= k ==> Less(s[x].item, s[y].item)
  }

  /** Among l to k none is larger than the one at k. */
  ghost predicate Biggest(s: seq<Entry>, l: nat, k: nat)
    requires k < |s|
  {
    forall x :: l <= x < k ==> Less(s[x].item, s[k].item)
  }

  lemma SwapReordered(s: seq<Entry>, k: nat, l: nat)
    requires k < |s| && l < |s| && Distinct(s)
    ensures Reordered(s, s[k := s[l]][l := s[k]]) && Distinct(s[k := s[l]][l := s[k]])
  {
  }

  lemma SwapDone(s: seq<Entry>, k: nat, l: nat)
    requires l < k < |s| && DoneFrom(s, k + 1)
    ensures DoneFrom(s[k := s[l]][l := s[k]], k + 1)
  {
    var r := s[k := s[l]][l := s[k]];
    forall x, y | 0 <= x < y < |r| && y >= k + 1 ensures Less(r[x].item, r[y].item) {
    }
  }

  /** Make the entry at k the largest up to there. */
  method Raise(s: seq<Entry>, k: nat) returns (r: seq<Entry>)
    requires k < |s| && Distinct(s) && DoneFrom(s, k + 1)
    ensures Reordered(s, r) && Distinct(r) && DoneFrom(r, k)
  {
    r := s;
    var l: nat := k;
    while l > 0
      invariant l <= k && |r| == |s| && Reordered(s, r) && Distinct(r) && DoneFrom(r, k + 1) && Biggest(r, l, k)
    {
      l := l - 1;
      if Less(r[k].item, r[l].item) {
        SwapReordered(r, k, l);
        SwapDone(r, k, l);
        r := r[k := r[l]][l := r[k]];
      }
    }
  }

  method SortItems(s: seq<Entry>) returns (r: seq<Entry>)
    requires Distinct(s)
    ensures Reordered(s, r) && Ascending(r)
  {
    hide Distinct;
    r := s;
    var k: nat := |s|;
    while k > 1
      invariant k <= |s| && Reordered(s, r) && Distinct(r) && DoneFrom(r, k)
    {
      k := k - 1;
      r := Raise(r, k);
    }
  }

  lemma ReorderedIn(s: seq<Entry>, r: seq<Entry>, e: Entry)
    requires Reordered(s, r)
    ensures e in r <==> e in s
  {
    assert e in r <==> e in multiset(r);
    assert e in s <==> e in multiset(s);
  }
}
