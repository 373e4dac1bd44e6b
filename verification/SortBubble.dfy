/** bsort4, which picks up the small pieces. */
module SortBubble {
  import opened SortKey

  ghost predicate SortedIn(s: seq<Line>, lo: nat, hi: nat)
    requires hi <= |s|
  {
    forall i, j :: lo <= i < j < hi ==> Le(s[i].key, s[j].key)
  }

  /** Every key starts with pre. */
  ghost predicate AllStart(s: seq<Line>, lo: nat, hi: nat, pre: Key)
    requires lo <= hi <= |s|
  {
    forall l :: l in s[lo..hi] ==> pre <= l.key
  }

  /** No key is a proper prefix of another. */
  ghost predicate AllApart(s: seq<Line>, lo: nat, hi: nat)
    requires lo <= hi <= |s|
  {
    forall l, m :: l in s[lo..hi] && m in s[lo..hi] ==> Apart(l.key, m.key)
  }

  /** r is s with the lines from lo to hi in another order. */
  ghost predicate Shuffled(s: seq<Line>, r: seq<Line>, lo: nat, hi: nat)
    requires lo <= hi <= |s|
  {
    |r| == |s| && r[..lo] == s[..lo] && r[hi..] == s[hi..] && multiset(r[lo..hi]) == multiset(s[lo..hi])
  }

  lemma ShuffledRefl(s: seq<Line>, lo: nat, hi: nat)
    requires lo <= hi <= |s|
    ensures Shuffled(s, s, lo, hi)
  {
  }

  lemma ShuffledTrans(s: seq<Line>, r: seq<Line>, t: seq<Line>, lo: nat, hi: nat)
    requires lo <= hi <= |s| && Shuffled(s, r, lo, hi) && Shuffled(r, t, lo, hi)
    ensures Shuffled(s, t, lo, hi)
  {
  }

  /** A shuffle of part of a stretch shuffles the stretch. */
  lemma ShuffledWider(s: seq<Line>, r: seq<Line>, lo: nat, hi: nat, lo': nat, hi': nat)
    requires lo' <= lo <= hi <= hi' <= |s| && Shuffled(s, r, lo, hi)
    ensures Shuffled(s, r, lo', hi')
  {
    assert r[..lo'] == r[..lo][..lo'] && s[..lo'] == s[..lo][..lo'];
    assert r[hi'..] == r[hi..][hi' - hi..] && s[hi'..] == s[hi..][hi' - hi..];
    assert r[lo'..hi'] == r[..lo][lo'..] + r[lo..hi] + r[hi..][..hi' - hi];
    assert s[lo'..hi'] == s[..lo][lo'..] + s[lo..hi] + s[hi..][..hi' - hi];
  }

  lemma ShuffledSame(s: seq<Line>, r: seq<Line>, lo: nat, hi: nat, i: nat)
    requires lo <= hi <= |s| && Shuffled(s, r, lo, hi) && i < |s| && !(lo <= i < hi)
    ensures r[i] == s[i]
  {
    if i < lo {
      assert r[i] == r[..lo][i] && s[i] == s[..lo][i];
    } else {
      assert r[i] == r[hi..][i - hi] && s[i] == s[hi..][i - hi];
    }
  }

  lemma ShuffledIn(s: seq<Line>, r: seq<Line>, lo: nat, hi: nat)
    requires lo <= hi <= |s| && Shuffled(s, r, lo, hi)
    ensures forall l :: l in r[lo..hi] <==> l in s[lo..hi]
  {
    assert forall l :: l in r[lo..hi] <==> l in multiset(r[lo..hi]);
    assert forall l :: l in s[lo..hi] <==> l in multiset(s[lo..hi]);
  }

  lemma KeepsAll(s: seq<Line>, r: seq<Line>, lo: nat, hi: nat, pre: Key)
    requires lo <= hi <= |s| && Shuffled(s, r, lo, hi) && AllStart(s, lo, hi, pre) && AllApart(s, lo, hi)
    ensures AllStart(r, lo, hi, pre) && AllApart(r, lo, hi)
  {
    ShuffledIn(s, r, lo, hi);
  }

  function Swapped(s: seq<Line>, i: nat, j: nat): seq<Line>
    requires i < |s| && j < |s|
  {
    s[i := s[j]][j := s[i]]
  }

  lemma SwapMultiset(s: seq<Line>, i: nat, j: nat)
    requires i < |s| && j < |s|
    ensures multiset(Swapped(s, i, j)) == multiset(s)
  {
  }

  lemma SwapShuffles(s: seq<Line>, i: nat, j: nat, lo: nat, hi: nat)
    requires lo <= i < hi && lo <= j < hi <= |s|
    ensures Shuffled(s, Swapped(s, i, j), lo, hi)
  {
    var r := Swapped(s, i, j);
    SwapMultiset(s[lo..hi], i - lo, j - lo);
    assert r[lo..hi] == Swapped(s[lo..hi], i - lo, j - lo);
  }

  // ----- what the comparison misses ------------------------------------------------------

  /** The comparison sees every pair out of order but one: a key followed by a proper prefix of it. */
  lemma GreaterKeys(x: Key, y: Key, pre: Key)
    requires pre <= x && pre <= y
    ensures Greater(x, y, |pre|) <==> !Le(x, y) && !(y < x)
  {
    assert forall k :: 0 <= k < |pre| ==> x[k] == pre[k] && y[k] == pre[k];
    GreaterIs(x, y, |pre|);
    if y < x {
      CommonIs(x, y, |y|);
    }
  }

  lemma GreaterIn(s: seq<Line>, lo: nat, hi: nat, pre: Key, i: nat, j: nat)
    requires lo <= i < hi && lo <= j < hi <= |s| && AllStart(s, lo, hi, pre)
    ensures Greater(s[i].key, s[j].key, |pre|) <==> !Le(s[i].key, s[j].key) && !(s[j].key < s[i].key)
  {
    assert s[i] == s[lo..hi][i - lo] && s[j] == s[lo..hi][j - lo];
    GreaterKeys(s[i].key, s[j].key, pre);
  }

  /** A key that is a proper prefix of another never comes after it. */
  ghost predicate PrefixesFirst(s: seq<Line>, lo: nat, hi: nat)
    requires hi <= |s|
  {
    forall i, j :: lo <= i < j < hi ==> !(s[j].key < s[i].key)
  }

  lemma ApartFirst(s: seq<Line>, lo: nat, hi: nat)
    requires lo <= hi <= |s| && AllApart(s, lo, hi)
    ensures PrefixesFirst(s, lo, hi)
  {
    forall i, j | lo <= i < j < hi ensures !(s[j].key < s[i].key) {
      assert s[i] == s[lo..hi][i - lo] && s[j] == s[lo..hi][j - lo];
      assert Apart(s[i].key, s[j].key);
      PrefixLe(s[i].key, s[j].key);
    }
  }

  lemma PrefixLe(x: Key, y: Key)
    ensures y < x ==> Le(y, x) && !Le(x, y) && !Apart(x, y)
  {
    if y < x {
      LeAt(y, x, |y|);
      CommonIs(x, y, |y|);
    }
  }

  // ----- what the exchanges keep ---------------------------------------------------------

  ghost predicate Before(s: seq<Line>, lo: nat, hi: nat, l: Line, m: Line)
    requires hi <= |s|
  {
    exists i, j :: lo <= i < j < hi && s[i] == l && s[j] == m
  }

  lemma BeforeSorted(s: seq<Line>, lo: nat, hi: nat, l: Line, m: Line)
    requires hi <= |s| && SortedIn(s, lo, hi)
    ensures Before(s, lo, hi, l, m) ==> Le(l.key, m.key)
  {
  }

  /** Two lines change their order only if the comparison finds the first greater. */
  ghost predicate KeepsOrder(s: seq<Line>, r: seq<Line>, lo: nat, hi: nat, b: nat)
    requires hi <= |s| && hi <= |r|
  {
    forall l, m :: Before(s, lo, hi, l, m) && !Greater(l.key, m.key, b) ==> Before(r, lo, hi, l, m)
  }

  /** r is s after exchanges of neighbours of which the first was greater. */
  ghost predicate Moved(s: seq<Line>, r: seq<Line>, lo: nat, hi: nat, b: nat)
    requires lo <= hi <= |s|
  {
    Shuffled(s, r, lo, hi) && KeepsOrder(s, r, lo, hi, b) && (PrefixesFirst(s, lo, hi) ==> PrefixesFirst(r, lo, hi))
  }

  lemma MovedRefl(s: seq<Line>, lo: nat, hi: nat, b: nat)
    requires lo <= hi <= |s|
    ensures Moved(s, s, lo, hi, b)
  {
  }

  lemma MovedTrans(s: seq<Line>, r: seq<Line>, t: seq<Line>, lo: nat, hi: nat, b: nat)
    requires lo <= hi <= |s| && Moved(s, r, lo, hi, b) && Moved(r, t, lo, hi, b)
    ensures Moved(s, t, lo, hi, b)
  {
    hide Before, Greater;
  }

  function Other(i: nat, k: nat): (r: nat)
    requires 0 < i
  {
    if k == i - 1 then i else if k == i then i - 1 else k
  }

  lemma SwapKeeps(s: seq<Line>, i: nat, lo: nat, hi: nat, b: nat)
    requires lo < i < hi <= |s| && Greater(s[i - 1].key, s[i].key, b)
    ensures KeepsOrder(s, Swapped(s, i - 1, i), lo, hi, b)
  {
    hide Greater;
    var r := Swapped(s, i - 1, i);
    forall l, m | Before(s, lo, hi, l, m) && !Greater(l.key, m.key, b) ensures Before(r, lo, hi, l, m) {
      var p, q :| lo <= p < q < hi && s[p] == l && s[q] == m;
      assert !(p == i - 1 && q == i);
      assert r[Other(i, p)] == l && r[Other(i, q)] == m;
    }
  }

  lemma SwapFirst(s: seq<Line>, i: nat, lo: nat, hi: nat)
    requires lo < i < hi <= |s| && PrefixesFirst(s, lo, hi) && !Le(s[i - 1].key, s[i].key)
    ensures PrefixesFirst(Swapped(s, i - 1, i), lo, hi)
  {
    PrefixLe(s[i].key, s[i - 1].key);
    hide Le;
    var r := Swapped(s, i - 1, i);
    forall p, q | lo <= p < q < hi ensures !(r[q].key < r[p].key) {
      assert r[p] == s[Other(i, p)] && r[q] == s[Other(i, q)];
    }
  }

  lemma MovedSwap(s: seq<Line>, i: nat, lo: nat, hi: nat, pre: Key)
    requires lo < i < hi <= |s| && AllStart(s, lo, hi, pre) && Greater(s[i - 1].key, s[i].key, |pre|)
    ensures Moved(s, Swapped(s, i - 1, i), lo, hi, |pre|) && !Le(s[i - 1].key, s[i].key)
  {
    hide Greater, Le, Shuffled, KeepsOrder, PrefixesFirst, AllStart;
    GreaterIn(s, lo, hi, pre, i - 1, i);
    SwapShuffles(s, i - 1, i, lo, hi);
    SwapKeeps(s, i, lo, hi, |pre|);
    if PrefixesFirst(s, lo, hi) {
      SwapFirst(s, i, lo, hi);
    }
  }

  lemma MovedStart(s: seq<Line>, r: seq<Line>, lo: nat, hi: nat, pre: Key)
    requires lo <= hi <= |s| && Moved(s, r, lo, hi, |pre|) && AllStart(s, lo, hi, pre)
    ensures |r| == |s| && AllStart(r, lo, hi, pre)
  {
    ShuffledIn(s, r, lo, hi);
  }

  /** No exchange ever repairs a key that was followed by a proper prefix of it. */
  lemma PrefixesStay(s: seq<Line>, r: seq<Line>, lo: nat, hi: nat, pre: Key)
    requires lo <= hi <= |s| && Moved(s, r, lo, hi, |pre|) && AllStart(s, lo, hi, pre) && SortedIn(r, lo, hi)
    ensures PrefixesFirst(s, lo, hi)
  {
    hide AllStart, Le, Greater;
    forall i, j | lo <= i < j < hi ensures !(s[j].key < s[i].key) {
      PrefixLe(s[i].key, s[j].key);
      GreaterIn(s, lo, hi, pre, i, j);
      assert Before(s, lo, hi, s[i], s[j]);
      BeforeSorted(r, lo, hi, s[i], s[j]);
    }
  }

  // ----- one line sinks to its place -----------------------------------------------------

  /** Sorted up to j but for the line at i, which is smaller than those after it. */
  ghost predicate Sinking(s: seq<Line>, lo: nat, i: nat, j: nat)
    requires lo <= i <= j < |s|
  {
    (forall p, q :: lo <= p < q <= j && p != i && q != i ==> Le(s[p].key, s[q].key)) &&
    (forall q :: i < q <= j ==> Le(s[i].key, s[q].key))
  }

  lemma SinkStart(s: seq<Line>, lo: nat, j: nat)
    requires lo < j < |s| && SortedIn(s, lo, j)
    ensures Sinking(s, lo, j, j)
  {
  }

  lemma SinkStep(s: seq<Line>, lo: nat, i: nat, j: nat)
    requires lo < i <= j < |s| && Sinking(s, lo, i, j) && !Le(s[i - 1].key, s[i].key)
    ensures Sinking(Swapped(s, i - 1, i), lo, i - 1, j)
  {
    LeTotal(s[i - 1].key, s[i].key);
    var r := Swapped(s, i - 1, i);
    forall p, q | lo <= p < q <= j && p != i - 1 && q != i - 1 ensures Le(r[p].key, r[q].key) {
    }
  }

  lemma SinkDone(s: seq<Line>, lo: nat, i: nat, j: nat)
    requires lo <= i <= j < |s| && Sinking(s, lo, i, j) && (i == lo || Le(s[i - 1].key, s[i].key))
    ensures SortedIn(s, lo, j + 1)
  {
    forall p, q | lo <= p < q < j + 1 ensures Le(s[p].key, s[q].key) {
      if q == i && p < i - 1 {
        LeTrans(s[p].key, s[i - 1].key, s[i].key);
      }
    }
  }

  method Swap(a: array<Line>, i: nat)
    requires 0 < i < a.Length
    modifies a
    ensures a[..] == Swapped(old(a[..]), i - 1, i)
  {
    var t := a[i];
    a[i] := a[i - 1];
    a[i - 1] := t;
  }

  /** The line at i has found its place when the one before it is not greater. */
  lemma SinkEnds(s: seq<Line>, lo: nat, i: nat, j: nat, hi: nat, pre: Key)
    requires lo <= i <= j < hi <= |s| && AllStart(s, lo, hi, pre) && PrefixesFirst(s, lo, hi)
    requires Sinking(s, lo, i, j) && (i == lo || !Greater(s[i - 1].key, s[i].key, |pre|))
    ensures SortedIn(s, lo, j + 1)
  {
    hide AllStart, Le, Greater, Sinking, SortedIn;
    if i > lo {
      GreaterIn(s, lo, hi, pre, i - 1, i);
    }
    SinkDone(s, lo, i, j);
  }

  /** One exchange, and whether another must follow. */
  method Exchange(a: array<Line>, lo: nat, i: nat, j: nat, hi: nat, b: nat, ghost pre: Key) returns (more: bool)
    requires |pre| == b && lo < i <= j < hi <= a.Length && AllStart(a[..], lo, hi, pre)
    requires Greater(a[i - 1].key, a[i].key, b)
    modifies a
    ensures Moved(old(a[..]), a[..], lo, hi, b) && (Sinking(old(a[..]), lo, i, j) ==> Sinking(a[..], lo, i - 1, j))
    ensures more <==> lo < i - 1 && Greater(a[i - 2].key, a[i - 1].key, b)
  {
    hide Moved, AllStart, Sinking, Le, Greater;
    ghost var s := a[..];
    MovedSwap(s, i, lo, hi, pre);
    if Sinking(s, lo, i, j) {
      SinkStep(s, lo, i, j);
    }
    Swap(a, i);
    if i - 1 <= lo {
      more := false;
    } else {
      more := Greater(a[i - 2].key, a[i - 1].key, b);
    }
  }

  /** The inner loop: line j goes down to its place among the lines before it. */
  method Sink(a: array<Line>, lo: nat, j: nat, hi: nat, b: nat, ghost pre: Key)
    requires |pre| == b && lo < j < hi <= a.Length && AllStart(a[..], lo, hi, pre)
    requires Greater(a[j - 1].key, a[j].key, b)
    modifies a
    ensures Moved(old(a[..]), a[..], lo, hi, b)
    ensures old(PrefixesFirst(a[..], lo, hi) && SortedIn(a[..], lo, j)) ==> SortedIn(a[..], lo, j + 1)
  {
    hide Moved, AllStart, Sinking, SortedIn, Le, Greater, PrefixesFirst;
    ghost var s0 := a[..];
    ghost var good := PrefixesFirst(s0, lo, hi) && SortedIn(s0, lo, j);
    MovedRefl(s0, lo, hi, b);
    if good {
      SinkStart(s0, lo, j);
    }
    var i := j;
    var more := true;
    while more
      invariant lo <= i <= j && (more <==> lo < i && Greater(a[i - 1].key, a[i].key, b))
      invariant Moved(s0, a[..], lo, hi, b) && (good ==> Sinking(a[..], lo, i, j))
      decreases i
    {
      ghost var s := a[..];
      MovedStart(s0, s, lo, hi, pre);
      more := Exchange(a, lo, i, j, hi, b, pre);
      MovedTrans(s0, s, a[..], lo, hi, b);
      i := i - 1;
    }
    MovedStart(s0, a[..], lo, hi, pre);
    if good {
      MovedFirst(s0, a[..], lo, hi, b);
      SinkEnds(a[..], lo, i, j, hi, pre);
    }
  }

  lemma MovedFirst(s: seq<Line>, r: seq<Line>, lo: nat, hi: nat, b: nat)
    requires lo <= hi <= |s| && Moved(s, r, lo, hi, b)
    ensures Shuffled(s, r, lo, hi) && KeepsOrder(s, r, lo, hi, b)
    ensures PrefixesFirst(s, lo, hi) ==> PrefixesFirst(r, lo, hi)
  {
  }

  /** One turn of the outer loop: the line at j joins the ones before it. */
  method Join(a: array<Line>, lo: nat, j: nat, hi: nat, b: nat, ghost pre: Key)
    requires |pre| == b && lo < j < hi <= a.Length && AllStart(a[..], lo, hi, pre)
    modifies a
    ensures Moved(old(a[..]), a[..], lo, hi, b)
    ensures old(PrefixesFirst(a[..], lo, hi) && SortedIn(a[..], lo, j)) ==> SortedIn(a[..], lo, j + 1)
  {
    hide Moved, AllStart, SortedIn, Le, Greater;
    if Greater(a[j - 1].key, a[j].key, b) {
      Sink(a, lo, j, hi, b, pre);
    } else {
      MovedRefl(a[..], lo, hi, b);
      GreaterIn(a[..], lo, hi, pre, j - 1, j);
      if PrefixesFirst(a[..], lo, hi) && SortedIn(a[..], lo, j) {
        NextSorted(a[..], lo, j);
      }
    }
  }

  /** bsort4 permutes the stretch, keeps the order of every two lines of which the first is not
      greater, and sorts exactly when no key is followed by a proper prefix of it. */
  method Bsort(a: array<Line>, lo: nat, hi: nat, b: nat, ghost pre: Key)
    requires lo <= hi <= a.Length && |pre| == b && AllStart(a[..], lo, hi, pre)
    modifies a
    ensures Shuffled(old(a[..]), a[..], lo, hi) && KeepsOrder(old(a[..]), a[..], lo, hi, b)
    ensures SortedIn(a[..], lo, hi) <==> PrefixesFirst(old(a[..]), lo, hi)
  {
    hide Moved, AllStart, SortedIn, PrefixesFirst;
    ghost var s0 := a[..];
    MovedRefl(s0, lo, hi, b);
    OneSorted(s0, lo, hi);
    var j := lo;
    while j + 1 < hi
      invariant lo <= j <= hi && (j < hi || lo == hi) && Moved(s0, a[..], lo, hi, b)
      invariant PrefixesFirst(s0, lo, hi) ==> SortedIn(a[..], lo, if j < hi then j + 1 else hi)
    {
      ghost var s := a[..];
      MovedStart(s0, s, lo, hi, pre);
      MovedFirst(s0, s, lo, hi, b);
      j := j + 1;
      Join(a, lo, j, hi, b, pre);
      MovedTrans(s0, s, a[..], lo, hi, b);
    }
    MovedFirst(s0, a[..], lo, hi, b);
    if SortedIn(a[..], lo, hi) {
      PrefixesStay(s0, a[..], lo, hi, pre);
    }
  }

  lemma OneSorted(s: seq<Line>, lo: nat, hi: nat)
    requires lo <= hi <= |s|
    ensures SortedIn(s, lo, if lo < hi then lo + 1 else hi)
  {
  }

  lemma NextSorted(s: seq<Line>, lo: nat, j: nat)
    requires lo < j < |s| && SortedIn(s, lo, j) && Le(s[j - 1].key, s[j].key)
    ensures SortedIn(s, lo, j + 1)
  {
    forall p | lo <= p < j ensures Le(s[p].key, s[j].key) {
      if p < j - 1 {
        LeTrans(s[p].key, s[j - 1].key, s[j].key);
      }
    }
  }

  function Three(): seq<Line> { [Line(0, [98]), Line(1, []), Line(2, [97])] }

  lemma ThreeIs()
    ensures |Three()| == 3 && AllStart(Three(), 0, 3, []) && !PrefixesFirst(Three(), 0, 3)
  {
    assert Three()[1].key < Three()[0].key;
  }

  /** Three lines that bsort4 gives back unsorted: b, the empty key and a. */
  method LeavesUnsorted(a: array<Line>)
    requires a[..] == Three()
    modifies a
    ensures Shuffled(Three(), a[..], 0, 3) && !SortedIn(a[..], 0, 3)
  {
    hide Three, AllStart, PrefixesFirst, SortedIn, KeepsOrder;
    ThreeIs();
    Bsort(a, 0, 3, 0, []);
  }
}
