/** rsort4 and sort4: radix sort in place, with one count array for all levels of the recursion. */
module SortRadix {
  import opened SortKey
  import opened SortBubble
  import opened SortBuckets

  const THRESHOLD := 14

  ghost predicate AllZero(count: seq<int>)
  {
    |count| == 257 && forall k :: 0 <= k < 257 ==> count[k] == 0
  }

  /** The counts after the first pass. */
  ghost predicate Counted(count: seq<int>, s: seq<Line>, lo: nat, hi: nat, b: nat)
    requires lo <= hi <= |s|
  {
    |count| == 257 && forall k: nat :: k < 257 ==> count[k] == Tally(s, lo, hi, b, k)
  }

  ghost predicate Spans(count: seq<int>, low: nat, high: nat)
  {
    |count| == 257 && low <= 256 && high < 256 && forall k :: 0 <= k < 256 && count[k] != 0 ==> low <= k <= high
  }

  /** Pass 1: count the lines of each bucket, and find the lowest and highest byte. */
  method CountPass(a: array<Line>, lo: nat, hi: nat, b: nat, count: array<int>) returns (low: nat, high: nat)
    requires lo <= hi <= a.Length && AllZero(count[..])
    modifies count
    ensures Counted(count[..], a[..], lo, hi, b) && Spans(count[..], low, high)
  {
    low, high := 256, 0;
    for t := lo to hi
      invariant count.Length == 257 && low <= 256 && high < 256
      invariant forall k: nat :: k < 257 ==> count[k] == Tally(a[..], lo, t, b, k)
      invariant forall k :: 0 <= k < 256 && count[k] != 0 ==> low <= k <= high
    {
      var c := Bucket(a[t], b);
      var n := count[c];
      count[c] := n + 1;
      if c < 256 && n == 0 {
        if c < low {
          low := c;
        }
        if c > high {
          high := c;
        }
      }
    }
  }

  // ----- pass 2: where the buckets go ----------------------------------------------------

  function SizesOf(count: seq<int>): Sizes
    requires |count| == 257 && forall k :: 0 <= k < 257 ==> count[k] >= 0
  {
    seq(257, i requires 0 <= i < 257 => count[i])
  }

  /** The bytes below n whose bucket is not empty, in order. */
  function Used(size: Sizes, n: nat): seq<nat>
    requires n <= 256
  {
    if n == 0 then [] else Used(size, n - 1) + if size[n - 1] > 0 then [n - 1] else []
  }

  lemma {:induction false} UsedIs(size: Sizes, n: nat)
    requires n <= 256
    ensures |Used(size, n)| <= n
    ensures forall k: nat :: k in Used(size, n) <==> k < n && size[k] > 0
    ensures forall i, j :: 0 <= i < j < |Used(size, n)| ==> Used(size, n)[i] < Used(size, n)[j]
  {
    if n > 0 {
      UsedIs(size, n - 1);
      var us := Used(size, n - 1);
      assert forall k: nat :: k in Used(size, n) <==> k in us || (k == n - 1 && size[n - 1] > 0);
      forall i | 0 <= i < |us| ensures us[i] < n - 1 {
        assert us[i] in us;
      }
    }
  }

  lemma UsedStep(size: Sizes, c: nat)
    requires c < 256
    ensures Used(size, c + 1) == (if size[c] > 0 then Used(size, c) + [c] else Used(size, c)) &&
            SumTo(size, c + 1) == SumTo(size, c) + size[c]
  {
  }

  lemma {:induction false} UsedNone(size: Sizes, low: nat, n: nat)
    requires n <= low <= 256 && forall k :: 0 <= k < low ==> size[k] == 0
    ensures Used(size, n) == [] && SumTo(size, n) == 0
  {
    if n > 0 {
      UsedNone(size, low, n - 1);
    }
  }

  lemma {:induction false} UsedRest(size: Sizes, m: nat, n: nat)
    requires m <= n <= 256 && forall k :: m <= k < 256 ==> size[k] == 0
    ensures Used(size, n) == Used(size, m) && SumTo(size, n) == SumTo(size, m)
  {
    if m < n {
      UsedRest(size, m, n - 1);
    }
  }

  /** The compacted list: the size and the byte of each bucket used, then zero. */
  ghost predicate Listed(clist: seq<int>, size: Sizes, us: seq<nat>)
  {
    |clist| == 514 && |us| <= 256 &&
    forall i :: 0 <= i < |us| ==> us[i] < 256 && clist[1 + 2 * i] == size[us[i]] && clist[2 + 2 * i] == us[i]
  }

  ghost predicate Starts(part: seq<int>, size: Sizes, lo: nat, us: seq<nat>)
  {
    |part| == 257 && part[256] == lo &&
    forall i :: 0 <= i < |us| ==> us[i] < 256 && part[us[i]] == Start(size, lo, us[i])
  }

  /** One bucket of pass 2. */
  method PartOne(part: array<int>, clist: array<int>, cp: nat, c: nat, n: nat, t: nat, ghost lo: nat, ghost size: Sizes,
                 ghost us: seq<nat>)
    requires part.Length == 257 && clist.Length == 514 && part != clist && c < 256 && c !in us && |us| < 256 &&
             cp == 1 + 2 * |us|
    requires n == size[c] && t == Start(size, lo, c) && Starts(part[..], size, lo, us) && Listed(clist[..], size, us)
    modifies part, clist
    ensures Starts(part[..], size, lo, us + [c]) && Listed(clist[..], size, us + [c]) && clist[0] == old(clist[0])
  {
    ghost var p0, l0 := part[..], clist[..];
    clist[cp] := n;
    clist[cp + 1] := c;
    part[c] := t;
    assert clist[..] == l0[1 + 2 * |us| := size[c]][2 + 2 * |us| := c];
    assert part[..] == p0[c := Start(size, lo, c)];
    hide Starts, Listed;
    ListedNext(l0, clist[..], size, us, c);
    StartsNext(p0, part[..], size, lo, us, c);
  }

  method EndList(clist: array<int>, cp: nat, ghost size: Sizes, ghost us: seq<nat>)
    requires clist.Length == 514 && cp == 1 + 2 * |us| && Listed(clist[..], size, us)
    modifies clist
    ensures Listed(clist[..], size, us) && clist[0] == old(clist[0]) && clist[cp] == 0
  {
    ghost var l0 := clist[..];
    clist[cp] := 0;
    assert forall i :: 0 <= i < |us| ==> clist[1 + 2 * i] == l0[1 + 2 * i] && clist[2 + 2 * i] == l0[2 + 2 * i];
  }

  lemma ListedNone(clist: seq<int>, part: seq<int>, size: Sizes, lo: nat)
    requires |clist| == 514 && |part| == 257 && part[256] == lo
    ensures Listed(clist, size, []) && Starts(part, size, lo, [])
  {
  }

  /** Pass 2: partition pointers, and the counts kept in a list. */
  method PartPass(count: array<int>, lo: nat, low: nat, high: nat, ghost size: Sizes)
    returns (part: array<int>, clist: array<int>)
    requires count.Length == 257 && Spans(count[..], low, high) && forall k :: 0 <= k < 257 ==> count[k] == size[k]
    ensures fresh(part) && fresh(clist) && part.Length == 257 && clist.Length == 514
    ensures Starts(part[..], size, lo, Used(size, 256)) && |Used(size, 256)| <= 256
    ensures Listed(clist[..], size, Used(size, 256)) && clist[0] == size[256] && clist[1 + 2 * |Used(size, 256)|] == 0
  {
    hide Used, SumTo, Starts, Listed, Start;
    part := new int[257];
    clist := new int[514];
    var t := lo + count[256];
    clist[0] := count[256];
    part[256] := lo;
    ListedNone(clist[..], part[..], size, lo);
    UsedNone(size, low, low);
    var cp := 1;
    var c := low;
    while c <= high
      invariant low <= c <= 256 && (c <= high + 1 || c == low) && part != clist && fresh(part) && fresh(clist)
      invariant part.Length == 257 && clist.Length == 514 && clist[0] == size[256]
      invariant t == lo + size[256] + SumTo(size, c) && cp == 1 + 2 * |Used(size, c)|
      invariant Starts(part[..], size, lo, Used(size, c)) && Listed(clist[..], size, Used(size, c))
    {
      UsedIs(size, c);
      UsedStep(size, c);
      StartIs(size, lo, c);
      var n := count[c];
      if n != 0 {
        PartOne(part, clist, cp, c, n, t, lo, size, Used(size, c));
        cp := cp + 2;
        t := t + n;
      }
      c := c + 1;
    }
    UsedRest(size, c, 256);
    UsedIs(size, 256);
    EndList(clist, cp, size, Used(size, 256));
  }

  lemma StartIs(size: Sizes, lo: nat, c: nat)
    requires c < 256
    ensures Start(size, lo, c) == lo + size[256] + SumTo(size, c)
  {
  }

  lemma ListedNext(l0: seq<int>, l1: seq<int>, size: Sizes, us: seq<nat>, c: nat)
    requires Listed(l0, size, us) && c < 256 && |us| < 256
    requires l1 == l0[1 + 2 * |us| := size[c]][2 + 2 * |us| := c]
    ensures Listed(l1, size, us + [c])
  {
  }

  lemma StartsNext(p0: seq<int>, p1: seq<int>, size: Sizes, lo: nat, us: seq<nat>, c: nat)
    requires Starts(p0, size, lo, us) && c < 256 && c !in us && p1 == p0[c := Start(size, lo, c)]
    ensures Starts(p1, size, lo, us + [c])
  {
  }

  // ----- pass 3: every line to its bucket ------------------------------------------------

  function Sum(count: seq<int>): int
  {
    if count == [] then 0 else Sum(count[..|count| - 1]) + count[|count| - 1]
  }

  lemma {:induction false} SumUpdate(count: seq<int>, i: nat, v: int)
    requires i < |count|
    ensures Sum(count[i := v]) == Sum(count) - count[i] + v
  {
    var n := |count| - 1;
    if i == n {
      assert count[i := v][..n] == count[..n];
    } else {
      SumUpdate(count[..n], i, v);
      assert count[i := v][..n] == count[..n][i := v];
    }
  }

  lemma {:induction false} SumNat(count: seq<int>)
    requires forall i :: 0 <= i < |count| ==> count[i] >= 0
    ensures Sum(count) >= 0
  {
    if count != [] {
      SumNat(count[..|count| - 1]);
    }
  }

  lemma PlacedCounts(v: seq<Line>, size: Sizes, part: seq<int>, count: seq<int>, lo: nat, hi: nat, b: nat)
    requires Placed(v, size, part, count, lo, hi, b)
    ensures Sum(count) >= 0 && |part| == 257 && |count| == 257 && hi <= |v|
  {
    forall i | 0 <= i < |count| ensures count[i] >= 0 {
      PlacedAt(v, size, part, count, lo, hi, b, i);
    }
    SumNat(count);
  }

  /** All that one step of a chase keeps: v is the array with the line in hand put back where the
      chase of bucket c began. */
  ghost predicate Chasing(s0: seq<Line>, v: seq<Line>, size: Sizes, part: seq<int>, count: seq<int>, lo: nat, hi: nat,
                          b: nat, c: nat)
  {
    Placed(v, size, part, count, lo, hi, b) && c < 256 && |s0| == |v| && Shuffled(s0, v, lo, hi)
  }

  lemma ChaseStep(s0: seq<Line>, v: seq<Line>, size: Sizes, part: seq<int>, count: seq<int>, lo: nat, hi: nat, b: nat,
                  c: nat)
    requires Chasing(s0, v, size, part, count, lo, hi, b, c) && count[c] > 0
    ensures lo <= part[c] < hi && hi <= |v| && var n := Bucket(v[part[c]], b);
            size[n] > 0 && count[n] > 0 && lo <= part[n] < hi && (n != c ==> part[n] != part[c])
    ensures var n := Bucket(v[part[c]], b); var p, q := part[n := part[n] + 1], count[n := count[n] - 1];
      Chasing(s0, Next(v, part, b, c), size, p, q, lo, hi, b, c) && 0 <= Sum(q) < Sum(count)
  {
    hide Shuffled;
    HasRoom(v, size, part, count, lo, hi, b, c);
    PlaceStep(v, size, part, count, lo, hi, b, c);
    var n := Bucket(v[part[c]], b);
    var w := Next(v, part, b, c);
    var p, q := part[n := part[n] + 1], count[n := count[n] - 1];
    PlacedCounts(w, size, p, q, lo, hi, b);
    SumUpdate(count, n, count[n] - 1);
    hide Placed;
    ShuffledTrans(s0, v, w, lo, hi);
  }

  /** Put the line in hand in its bucket's next place, and take the line found there. */
  method Place(a: array<Line>, t1: Line, n: nat, count: array<int>, part: array<int>) returns (u1: Line)
    requires n <= 256 && count.Length == 257 && part.Length == 257 && count != part && 0 <= part[n] < a.Length
    modifies a, count, part
    ensures u1 == old(a[part[n]]) && a[..] == old(a[..])[old(part[n]) := t1]
    ensures part[..] == old(part[..])[n := old(part[n]) + 1] && count[..] == old(count[..])[n := old(count[n]) - 1]
  {
    var u := part[n];
    part[n] := u + 1;
    count[n] := count[n] - 1;
    u1 := a[u];
    a[u] := t1;
  }

  /** Chase one line round its cycle, until a line of bucket c is found. */
  method Chase(a: array<Line>, lo: nat, hi: nat, b: nat, count: array<int>, part: array<int>, c: nat,
               ghost s0: seq<Line>, ghost size: Sizes)
    requires count != part && Chasing(s0, a[..], size, part[..], count[..], lo, hi, b, c) && count[c] > 0
    modifies a, count, part
    ensures Chasing(s0, a[..], size, part[..], count[..], lo, hi, b, c) && 0 <= Sum(count[..]) < old(Sum(count[..]))
    ensures count.Length == 257 && forall k :: 0 <= k < 257 ==> count[k] <= old(count[k])
  {
    hide Chasing, Sum;
    ChaseBounds(s0, a[..], size, part[..], count[..], lo, hi, b, c);
    ChaseStep(s0, a[..], size, part[..], count[..], lo, hi, b, c);
    var t1 := a[part[c]];
    var n := Bucket(t1, b);
    ghost var v := a[..];
    while true
      invariant |v| == a.Length && part.Length == 257 && count.Length == 257 && n == Bucket(t1, b)
      invariant 0 <= part[c] < a.Length && v == a[..][part[c] := t1] && count[c] > 0
      invariant Chasing(s0, v, size, part[..], count[..], lo, hi, b, c)
      invariant Sum(count[..]) <= old(Sum(count[..])) && forall k :: 0 <= k < 257 ==> count[k] <= old(count[k])
      decreases Sum(count[..])
    {
      ChaseStep(s0, v, size, part[..], count[..], lo, hi, b, c);
      ghost var p, q := part[..], count[..];
      assert v[p[c]] == t1;
      var u1 := Place(a, t1, n, count, part);
      if n == c {
        assert a[..] == Next(v, p, b, c);
        break;
      }
      assert a[..][part[c] := u1] == Next(v, p, b, c);
      v := Next(v, p, b, c);
      t1 := u1;
      n := Bucket(t1, b);
    }
  }

  lemma ChaseBounds(s0: seq<Line>, v: seq<Line>, size: Sizes, part: seq<int>, count: seq<int>, lo: nat, hi: nat, b: nat,
                    c: nat)
    requires Chasing(s0, v, size, part, count, lo, hi, b, c)
    ensures |part| == 257 && |count| == 257 && hi <= |v| && c < 256
  {
  }

  /** The part of the list already emptied. */
  ghost predicate Emptied(count: seq<int>, us: seq<nat>, i: nat)
  {
    |count| == 257 && i <= |us| && (forall j :: 0 <= j < |us| ==> us[j] < 256) &&
    forall j :: 0 <= j < i ==> count[us[j]] == 0
  }

  lemma EmptiedKept(count: seq<int>, count': seq<int>, us: seq<nat>, i: nat)
    requires Emptied(count, us, i) && |count'| == 257 && forall k :: 0 <= k < 257 ==> 0 <= count'[k] <= count[k]
    ensures Emptied(count', us, i)
  {
  }

  lemma EmptiedNext(count: seq<int>, us: seq<nat>, i: nat)
    requires Emptied(count, us, i) && i < |us| && count[us[i]] == 0
    ensures Emptied(count, us, i + 1)
  {
  }

  lemma ChasingCounts(s0: seq<Line>, v: seq<Line>, size: Sizes, part: seq<int>, count: seq<int>, lo: nat, hi: nat,
                      b: nat, c: nat)
    requires Chasing(s0, v, size, part, count, lo, hi, b, c)
    ensures |count| == 257 && forall k :: 0 <= k < 257 ==> count[k] >= 0
  {
    forall k | 0 <= k < 257 ensures count[k] >= 0 {
      PlacedAt(v, size, part, count, lo, hi, b, k);
    }
  }

  lemma ChasingAny(s0: seq<Line>, v: seq<Line>, size: Sizes, part: seq<int>, count: seq<int>, lo: nat, hi: nat, b: nat,
                   c: nat, d: nat)
    requires Chasing(s0, v, size, part, count, lo, hi, b, c) && d < 256
    ensures Chasing(s0, v, size, part, count, lo, hi, b, d)
  {
  }

  /** Chase until nothing is left to place in bucket c. */
  method ChaseAll(a: array<Line>, lo: nat, hi: nat, b: nat, count: array<int>, part: array<int>, c: nat,
                  ghost s0: seq<Line>, ghost size: Sizes)
    requires count != part && Chasing(s0, a[..], size, part[..], count[..], lo, hi, b, c)
    modifies a, count, part
    ensures Chasing(s0, a[..], size, part[..], count[..], lo, hi, b, c) && count.Length == 257 && count[c] == 0
    ensures forall k :: 0 <= k < 257 ==> 0 <= count[k] <= old(count[k])
  {
    hide Chasing, Sum;
    ChasingCounts(s0, a[..], size, part[..], count[..], lo, hi, b, c);
    ChaseBounds(s0, a[..], size, part[..], count[..], lo, hi, b, c);
    while count[c] != 0
      invariant Chasing(s0, a[..], size, part[..], count[..], lo, hi, b, c) && count.Length == 257
      invariant forall k :: 0 <= k < 257 ==> 0 <= count[k] <= old(count[k])
      decreases Sum(count[..])
    {
      ghost var q := count[..];
      Chase(a, lo, hi, b, count, part, c, s0, size);
      ChasingCounts(s0, a[..], size, part[..], count[..], lo, hi, b, c);
      assert forall k :: 0 <= k < 257 ==> count[k] <= q[k];
    }
  }

  lemma ListAt(clist: seq<int>, size: Sizes, us: seq<nat>, i: nat)
    requires Listed(clist, size, us) && us == Used(size, 256) && i <= |us| && clist[1 + 2 * |us|] == 0
    ensures clist[1 + 2 * i] != 0 <==> i < |us|
    ensures i < |us| ==> clist[2 + 2 * i] == us[i] < 256 && clist[1 + 2 * i] == size[us[i]] > 0
  {
    UsedIs(size, 256);
    if i < |us| {
      assert us[i] in us;
    }
  }

  /** Pass 3: every bucket of the list. */
  method ChasePass(a: array<Line>, lo: nat, hi: nat, b: nat, count: array<int>, part: array<int>, clist: array<int>,
                   ghost s0: seq<Line>, ghost size: Sizes)
    requires count != part && clist != count && clist != part &&
             Chasing(s0, a[..], size, part[..], count[..], lo, hi, b, 0)
    requires clist.Length == 514 && |Used(size, 256)| <= 256 && Listed(clist[..], size, Used(size, 256)) &&
             clist[1 + 2 * |Used(size, 256)|] == 0
    modifies a, count, part
    ensures Chasing(s0, a[..], size, part[..], count[..], lo, hi, b, 0) &&
            Emptied(count[..], Used(size, 256), |Used(size, 256)|)
  {
    hide Chasing, Sum, Used, Emptied, Listed;
    ghost var us := Used(size, 256);
    ghost var i := 0;
    var cp := 1;
    ChasingCounts(s0, a[..], size, part[..], count[..], lo, hi, b, 0);
    EmptiedStart(count[..], size);
    ListAt(clist[..], size, us, 0);
    while clist[cp] != 0
      invariant i <= |us| && cp == 1 + 2 * i && (clist[cp] != 0 <==> i < |us|) && count.Length == 257
      invariant Chasing(s0, a[..], size, part[..], count[..], lo, hi, b, 0) && Emptied(count[..], us, i)
      decreases |us| - i
    {
      ListAt(clist[..], size, us, i);
      var c := clist[cp + 1];
      ghost var q := count[..];
      ChasingAny(s0, a[..], size, part[..], count[..], lo, hi, b, 0, c);
      ChaseAll(a, lo, hi, b, count, part, c, s0, size);
      ChasingAny(s0, a[..], size, part[..], count[..], lo, hi, b, c, 0);
      EmptiedKept(q, count[..], us, i);
      EmptiedNext(count[..], us, i);
      cp := cp + 2;
      i := i + 1;
      ListAt(clist[..], size, us, i);
    }
  }

  lemma EmptiedStart(count: seq<int>, size: Sizes)
    requires |count| == 257
    ensures Emptied(count, Used(size, 256), 0)
  {
    UsedIs(size, 256);
    var us := Used(size, 256);
    forall j | 0 <= j < |us| ensures us[j] < 256 {
      assert us[j] in us;
    }
  }

  /** When the list is empty all byte counts are, and every line is in its place. */
  lemma ChaseEnds(s0: seq<Line>, v: seq<Line>, size: Sizes, part: seq<int>, count: seq<int>, lo: nat, hi: nat, b: nat)
    requires Chasing(s0, v, size, part, count, lo, hi, b, 0) && Emptied(count, Used(size, 256), |Used(size, 256)|)
    ensures Partitioned(v, size, lo, hi, b) && forall k :: 0 <= k < 256 ==> count[k] == 0
  {
    UsedIs(size, 256);
    var us := Used(size, 256);
    forall k: nat | k < 256 ensures count[k] == 0 {
      PlacedAt(v, size, part, count, lo, hi, b, k);
      if size[k] > 0 {
        assert k in us;
        var j :| 0 <= j < |us| && us[j] == k;
      }
    }
    AllPlaced(v, size, part, count, lo, hi, b);
  }
}
