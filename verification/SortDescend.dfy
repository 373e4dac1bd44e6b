/** The recursion of rsort4, and sort4. */
module SortDescend {
  import opened SortKey
  import opened SortBubble
  import opened SortBuckets
  import opened SortRadix

  // ----- the buckets fill the stretch ----------------------------------------------------

  function TallySum(s: seq<Line>, lo: nat, hi: nat, b: nat, n: nat): nat
    requires lo <= hi <= |s|
  {
    if n == 0 then 0 else TallySum(s, lo, hi, b, n - 1) + Tally(s, lo, hi, b, n - 1)
  }

  lemma {:induction false} TallySumNext(s: seq<Line>, lo: nat, hi: nat, b: nat, n: nat)
    requires lo < hi <= |s|
    ensures TallySum(s, lo, hi, b, n) == TallySum(s, lo, hi - 1, b, n) + if Bucket(s[hi - 1], b) < n then 1 else 0
  {
    if n > 0 {
      TallySumNext(s, lo, hi, b, n - 1);
    }
  }

  lemma {:induction false} TallySumNone(s: seq<Line>, lo: nat, b: nat, n: nat)
    requires lo <= |s|
    ensures TallySum(s, lo, lo, b, n) == 0
  {
    if n > 0 {
      TallySumNone(s, lo, b, n - 1);
    }
  }

  lemma {:induction false} TallySumAll(s: seq<Line>, lo: nat, hi: nat, b: nat)
    requires lo <= hi <= |s|
    ensures TallySum(s, lo, hi, b, 257) == hi - lo
  {
    if lo < hi {
      TallySumAll(s, lo, hi - 1, b);
      TallySumNext(s, lo, hi, b, 257);
    } else {
      TallySumNone(s, lo, b, 257);
    }
  }

  lemma {:induction false} SumToTally(size: Sizes, s: seq<Line>, lo: nat, hi: nat, b: nat, n: nat)
    requires lo <= hi <= |s| && n <= 257 && forall k: nat :: k < 257 ==> size[k] == Tally(s, lo, hi, b, k)
    ensures SumTo(size, n) == TallySum(s, lo, hi, b, n)
  {
    if n > 0 {
      SumToTally(size, s, lo, hi, b, n - 1);
    }
  }

  lemma SizesFit(size: Sizes, s: seq<Line>, lo: nat, hi: nat, b: nat)
    requires lo <= hi <= |s| && forall k: nat :: k < 257 ==> size[k] == Tally(s, lo, hi, b, k)
    ensures Fits(size, lo, hi)
  {
    SumToTally(size, s, lo, hi, b, 257);
    TallySumAll(s, lo, hi, b);
  }

  lemma StartPlaced(s: seq<Line>, size: Sizes, part: seq<int>, count: seq<int>, lo: nat, hi: nat, b: nat)
    requires lo <= hi <= |s| && |count| == 257 &&
             (forall k: nat :: k < 257 ==> size[k] == Tally(s, lo, hi, b, k) == count[k])
    requires Starts(part, size, lo, Used(size, 256))
    ensures Chasing(s, s, size, part, count, lo, hi, b, 0)
  {
    SizesFit(size, s, lo, hi, b);
    UsedIs(size, 256);
    var us := Used(size, 256);
    forall k: nat | k <= 256 ensures End(size, lo, k) <= hi && PlacedIn(s, size, part, count, lo, b, k) {
      InRange(size, lo, hi, k);
      if k < 256 && size[k] > 0 {
        assert k in us;
        var j :| 0 <= j < |us| && us[j] == k;
      }
    }
  }

  // ----- pass 4: one bucket after another ------------------------------------------------

  ghost predicate Short(s: seq<Line>, lo: nat, hi: nat, max: nat)
    requires lo <= hi <= |s|
  {
    forall l :: l in s[lo..hi] ==> |l.key| <= max
  }

  lemma ShortKept(s: seq<Line>, r: seq<Line>, lo: nat, hi: nat, max: nat)
    requires lo <= hi <= |s| && Shuffled(s, r, lo, hi) && Short(s, lo, hi, max)
    ensures Short(r, lo, hi, max)
  {
    ShuffledIn(s, r, lo, hi);
  }

  lemma DeeperLine(s: seq<Line>, size: Sizes, lo: nat, hi: nat, b: nat, k: nat, pre: Key, p: nat)
    requires Partitioned(s, size, lo, hi, b) && k < 256 && |pre| == b && AllStart(s, lo, hi, pre)
    requires Start(size, lo, k) <= p < End(size, lo, k)
    ensures lo <= p < hi && s[p] in s[lo..hi] && pre + [k] <= s[p].key
  {
    InRange(size, lo, hi, k);
    assert InBucket(s, size, lo, b, k);
    assert s[lo..hi][p - lo] == s[p];
    assert Bucket(s[p], b) == k;
    assert pre <= s[p].key;
  }

  /** What a bucket's lines satisfy one byte further on. */
  lemma Deeper(s: seq<Line>, size: Sizes, lo: nat, hi: nat, b: nat, k: nat, pre: Key, max: nat)
    requires Partitioned(s, size, lo, hi, b) && k < 256 && size[k] > 0 && |pre| == b
    requires AllStart(s, lo, hi, pre) && AllApart(s, lo, hi) && Short(s, lo, hi, max)
    ensures lo <= Start(size, lo, k) <= End(size, lo, k) <= hi
    ensures AllStart(s, Start(size, lo, k), End(size, lo, k), pre + [k]) &&
            AllApart(s, Start(size, lo, k), End(size, lo, k))
    ensures Short(s, Start(size, lo, k), End(size, lo, k), max) && b + 1 <= max
  {
    var x, y := Start(size, lo, k), End(size, lo, k);
    InRange(size, lo, hi, k);
    forall l | l in s[x..y] ensures l in s[lo..hi] && pre + [k] <= l.key {
      var i :| 0 <= i < y - x && s[x..y][i] == l;
      DeeperLine(s, size, lo, hi, b, k, pre, x + i);
    }
    DeeperLine(s, size, lo, hi, b, k, pre, x);
    hide Partitioned, Apart, AllStart;
    assert AllStart(s, x, y, pre + [k]) by { DeeperStart(s, x, y, pre + [k]); }
  }

  lemma DeeperStart(s: seq<Line>, x: nat, y: nat, pre: Key)
    requires x <= y <= |s| && forall l :: l in s[x..y] ==> pre <= l.key
    ensures AllStart(s, x, y, pre)
  {
  }

  /** Sorting one bucket leaves every line in its bucket and the sorted buckets sorted. */
  lemma BucketKept(s: seq<Line>, r: seq<Line>, size: Sizes, lo: nat, hi: nat, b: nat, k: nat)
    requires Partitioned(s, size, lo, hi, b) && k < 256 && lo <= Start(size, lo, k) <= End(size, lo, k) <= hi
    requires Shuffled(s, r, Start(size, lo, k), End(size, lo, k))
    ensures Partitioned(r, size, lo, hi, b)
    ensures forall p :: 0 <= p < |s| && !(Start(size, lo, k) <= p < End(size, lo, k)) ==> r[p] == s[p]
  {
    var x, y := Start(size, lo, k), End(size, lo, k);
    forall p | 0 <= p < |s| && !(x <= p < y) ensures r[p] == s[p] {
      ShuffledSame(s, r, x, y, p);
    }
    ShuffledIn(s, r, x, y);
    forall j: nat | j <= 256 ensures InBucket(r, size, lo, b, j) {
      assert InBucket(s, size, lo, b, j) && InBucket(s, size, lo, b, k);
      if j == k {
        forall p | x <= p < y ensures Bucket(r[p], b) == k {
          assert r[p] == r[x..y][p - x];
          assert r[p] in s[x..y];
          var i :| 0 <= i < y - x && s[x..y][i] == r[p];
          assert s[x + i] == r[p];
        }
      } else {
        Disjoint(size, lo, j, k);
      }
    }
  }

  /** The first i buckets of the list are sorted. */
  ghost predicate SortedUpTo(s: seq<Line>, size: Sizes, lo: nat, us: seq<nat>, i: nat)
  {
    i <= |us| &&
    forall j ::
      0 <= j < i ==>
        us[j] < 256 && End(size, lo, us[j]) <= |s| && SortedIn(s, Start(size, lo, us[j]), End(size, lo, us[j]))
  }

  lemma SortedKept(s: seq<Line>, r: seq<Line>, size: Sizes, lo: nat, us: seq<nat>, i: nat, k: nat)
    requires SortedUpTo(s, size, lo, us, i) && i < |us| && us[i] == k < 256 && |r| == |s| &&
             (forall j :: 0 <= j < i ==> us[j] < k)
    requires forall p :: 0 <= p < |s| && !(Start(size, lo, k) <= p < End(size, lo, k)) ==> r[p] == s[p]
    requires End(size, lo, k) <= |r| && SortedIn(r, Start(size, lo, k), End(size, lo, k))
    ensures SortedUpTo(r, size, lo, us, i + 1)
  {
    forall j | 0 <= j < i ensures SortedIn(r, Start(size, lo, us[j]), End(size, lo, us[j])) {
      Ordered(size, lo, us[j], k);
    }
  }

  lemma {:induction false} Gap(size: Sizes, m: nat, n: nat)
    requires m <= n <= 256 && forall k :: m <= k < n ==> size[k] == 0
    ensures SumTo(size, m) == SumTo(size, n)
  {
    if m < n {
      Gap(size, m, n - 1);
    }
  }

  lemma NotUsed(us: seq<nat>, i: nat, k: nat)
    requires i < |us| && k < us[i] && (i > 0 ==> us[i - 1] < k) && forall j, l :: 0 <= j < l < |us| ==> us[j] < us[l]
    ensures k !in us
  {
  }

  lemma SumAt(size: Sizes, m: nat)
    requires m <= 256
    ensures SumTo(size, m) == if m == 0 then 0 else SumTo(size, m - 1) + size[m - 1]
  {
  }

  /** The next bucket of the list starts where the last one ended. */
  lemma NextStart(size: Sizes, lo: nat, us: seq<nat>, i: nat)
    requires us == Used(size, 256) && i < |us|
    ensures us[i] < 256 && size[us[i]] > 0 && (forall j :: 0 <= j < i ==> us[j] < us[i])
    ensures Start(size, lo, us[i]) == if i == 0 then lo + size[256] else End(size, lo, us[i - 1])
  {
    hide Used, SumTo;
    UsedIs(size, 256);
    assert us[i] in us;
    var m := if i == 0 then 0 else us[i - 1] + 1;
    if i > 0 {
      assert us[i - 1] in us;
    }
    SumAt(size, m);
    forall k: nat | m <= k < us[i] ensures size[k] == 0 {
      NotUsed(us, i, k);
    }
    Gap(size, m, us[i]);
  }

  // ----- sorted buckets in order are sorted ----------------------------------------------

  lemma Ended(l: Line, pre: Key, m: Line)
    requires pre <= l.key && pre <= m.key && Bucket(l, |pre|) == 256
    ensures Le(l.key, m.key)
  {
    LeAt(l.key, m.key, |pre|);
  }

  lemma Before(l: Line, m: Line, pre: Key)
    requires pre <= l.key && pre <= m.key && Bucket(l, |pre|) < Bucket(m, |pre|) < 256
    ensures Le(l.key, m.key)
  {
    LeAt(l.key, m.key, |pre|);
  }

  lemma InOrder(s: seq<Line>, size: Sizes, lo: nat, hi: nat, pre: Key, p: nat, q: nat)
    requires Partitioned(s, size, lo, hi, |pre|) && AllStart(s, lo, hi, pre) &&
             SortedUpTo(s, size, lo, Used(size, 256), |Used(size, 256)|)
    requires lo <= p < q < hi
    ensures Le(s[p].key, s[q].key)
  {
    assert s[lo..hi][p - lo] == s[p] && s[lo..hi][q - lo] == s[q];
    assert pre <= s[p].key && pre <= s[q].key;
    if p < lo + size[256] {
      assert InBucket(s, size, lo, |pre|, 256);
      Ended(s[p], pre, s[q]);
    } else {
      var j := Belongs(size, lo, p, 256);
      var k := Belongs(size, lo, q, 256);
      assert InBucket(s, size, lo, |pre|, j) && InBucket(s, size, lo, |pre|, k);
      if j < k {
        Before(s[p], s[q], pre);
      } else if k < j {
        Ordered(size, lo, k, j);
      } else {
        UsedIs(size, 256);
        var us := Used(size, 256);
        assert k in us;
        var i :| 0 <= i < |us| && us[i] == k;
        assert SortedIn(s, Start(size, lo, us[i]), End(size, lo, us[i]));
      }
    }
  }

  lemma AllInOrder(s: seq<Line>, size: Sizes, lo: nat, hi: nat, pre: Key)
    requires Partitioned(s, size, lo, hi, |pre|) && AllStart(s, lo, hi, pre) &&
             SortedUpTo(s, size, lo, Used(size, 256), |Used(size, 256)|)
    ensures SortedIn(s, lo, hi)
  {
    forall p, q | lo <= p < q < hi ensures Le(s[p].key, s[q].key) {
      InOrder(s, size, lo, hi, pre, p, q);
    }
  }

  // ----- the methods ---------------------------------------------------------------------

  /** Sort one bucket, if it has more than one line. */
  method SortBucket(a: array<Line>, x: nat, y: nat, b: nat, count: array<int>, ghost pre: Key, ghost max: nat)
    requires x <= y <= a.Length && |pre| == b <= max && AllZero(count[..])
    requires AllStart(a[..], x, y, pre) && AllApart(a[..], x, y) && Short(a[..], x, y, max)
    modifies a, count
    ensures Shuffled(old(a[..]), a[..], x, y) && SortedIn(a[..], x, y) && AllZero(count[..])
    decreases max - b, 2
  {
    hide AllStart, AllApart, Short, Shuffled, SortedIn, AllZero;
    if y - x > THRESHOLD {
      Rsort(a, x, y, b, count, pre, max);
    } else if y - x > 1 {
      ApartFirst(a[..], x, y);
      Bsort(a, x, y, b, pre);
    } else {
      ShuffledRefl(a[..], x, y);
      OneSorted(a[..], x, y);
    }
  }

  /** What pass 4 keeps: the first i buckets of the list are sorted. */
  ghost predicate Descending(s0: seq<Line>, s: seq<Line>, size: Sizes, lo: nat, hi: nat, b: nat, i: nat)
  {
    lo <= hi <= |s0| && Partitioned(s, size, lo, hi, b) && Shuffled(s0, s, lo, hi) &&
    SortedUpTo(s, size, lo, Used(size, 256), i)
  }

  lemma DescendStart(s: seq<Line>, size: Sizes, lo: nat, hi: nat, b: nat)
    requires Partitioned(s, size, lo, hi, b)
    ensures Descending(s, s, size, lo, hi, b, 0)
  {
    ShuffledRefl(s, lo, hi);
  }

  lemma DescendNext(s0: seq<Line>, s: seq<Line>, r: seq<Line>, size: Sizes, lo: nat, hi: nat, b: nat, i: nat, k: nat)
    requires Descending(s0, s, size, lo, hi, b, i) && i < |Used(size, 256)| && Used(size, 256)[i] == k < 256
    requires lo <= Start(size, lo, k) <= End(size, lo, k) <= hi
    requires Shuffled(s, r, Start(size, lo, k), End(size, lo, k)) && SortedIn(r, Start(size, lo, k), End(size, lo, k))
    ensures Descending(s0, r, size, lo, hi, b, i + 1)
  {
    assert |r| == |s|;
    hide Partitioned, Shuffled, SortedUpTo, Used, SortedIn, Start, End;
    NextStart(size, lo, Used(size, 256), i);
    BucketKept(s, r, size, lo, hi, b, k);
    SortedKept(s, r, size, lo, Used(size, 256), i, k);
    ShuffledWider(s, r, Start(size, lo, k), End(size, lo, k), lo, hi);
    ShuffledTrans(s0, s, r, lo, hi);
  }

  lemma DescendDeeper(s0: seq<Line>, s: seq<Line>, size: Sizes, lo: nat, hi: nat, b: nat, i: nat, k: nat, pre: Key,
                      max: nat)
    requires Descending(s0, s, size, lo, hi, b, i) && k < 256 && size[k] > 0 && |pre| == b
    requires AllStart(s0, lo, hi, pre) && AllApart(s0, lo, hi) && Short(s0, lo, hi, max)
    ensures lo <= Start(size, lo, k) <= End(size, lo, k) <= hi <= |s|
    ensures AllStart(s, Start(size, lo, k), End(size, lo, k), pre + [k]) &&
            AllApart(s, Start(size, lo, k), End(size, lo, k))
    ensures Short(s, Start(size, lo, k), End(size, lo, k), max) && b + 1 <= max
  {
    assert lo <= hi <= |s|;
    hide Partitioned, Shuffled, SortedUpTo, Used, Start, End, AllStart, AllApart, Short;
    KeepsAll(s0, s, lo, hi, pre);
    ShortKept(s0, s, lo, hi, max);
    Deeper(s, size, lo, hi, b, k, pre, max);
  }

  lemma DescendEnd(s0: seq<Line>, s: seq<Line>, size: Sizes, lo: nat, hi: nat, pre: Key)
    requires Descending(s0, s, size, lo, hi, |pre|, |Used(size, 256)|) && AllStart(s0, lo, hi, pre) &&
             AllApart(s0, lo, hi)
    ensures hi <= |s| && SortedIn(s, lo, hi) && Shuffled(s0, s, lo, hi)
  {
    assert hi <= |s|;
    hide Partitioned, Shuffled, SortedUpTo, Used, Start, End, AllStart, AllApart;
    KeepsAll(s0, s, lo, hi, pre);
    AllInOrder(s, size, lo, hi, pre);
  }

  /** Pass 4: sort the buckets of the list, one byte further on. */
  method Descend(a: array<Line>, lo: nat, hi: nat, b: nat, count: array<int>, clist: array<int>, ghost pre: Key,
                 ghost max: nat, ghost size: Sizes)
    requires clist != count && clist.Length == 514 && |pre| == b <= max && AllZero(count[..]) && lo <= hi <= a.Length
    requires Partitioned(a[..], size, lo, hi, b) && AllStart(a[..], lo, hi, pre) && AllApart(a[..], lo, hi) &&
             Short(a[..], lo, hi, max)
    requires clist[0] == size[256] && |Used(size, 256)| <= 256 && Listed(clist[..], size, Used(size, 256)) &&
             clist[1 + 2 * |Used(size, 256)|] == 0
    modifies a, count
    ensures Shuffled(old(a[..]), a[..], lo, hi) && SortedIn(a[..], lo, hi) && AllZero(count[..])
    decreases max - b, 0
  {
    hide AllStart, AllApart, Short, Shuffled, SortedIn, AllZero, Partitioned, Used, Listed, Descending, Start, End;
    ghost var s0 := a[..];
    ghost var us := Used(size, 256);
    ghost var i := 0;
    var cp := 1;
    var t := lo + clist[0];
    DescendStart(s0, size, lo, hi, b);
    NextBucket(clist[..], size, lo, us, 0);
    while clist[cp] != 0
      invariant i <= |us| && cp == 1 + 2 * i && (clist[cp] != 0 <==> i < |us|) &&
                (i < |us| ==> us[i] < 256 && t == Start(size, lo, us[i]))
      invariant Descending(s0, a[..], size, lo, hi, b, i) && AllZero(count[..])
      decreases |us| - i
    {
      NextBucket(clist[..], size, lo, us, i);
      ghost var s := a[..];
      var n := clist[cp];
      DescendDeeper(s0, s, size, lo, hi, b, i, us[i], pre, max);
      SortBucket(a, t, t + n, b + 1, count, pre + [us[i]], max);
      DescendNext(s0, s, a[..], size, lo, hi, b, i, us[i]);
      t := t + n;
      cp := cp + 2;
      i := i + 1;
      NextBucket(clist[..], size, lo, us, i);
    }
    DescendEnd(s0, a[..], size, lo, hi, pre);
  }

  /** The entry of the list at i: a bucket and its size, or the end. */
  lemma NextBucket(clist: seq<int>, size: Sizes, lo: nat, us: seq<nat>, i: nat)
    requires Listed(clist, size, us) && us == Used(size, 256) && i <= |us| <= 256 && clist[1 + 2 * |us|] == 0
    ensures clist[1 + 2 * i] != 0 <==> i < |us|
    ensures i < |us| ==>
              us[i] < 256 && size[us[i]] > 0 && clist[1 + 2 * i] == size[us[i]] &&
              End(size, lo, us[i]) == Start(size, lo, us[i]) + size[us[i]]
    ensures i < |us| ==> Start(size, lo, us[i]) == if i == 0 then lo + size[256] else End(size, lo, us[i - 1])
  {
    ListAt(clist, size, us, i);
    if i < |us| {
      NextStart(size, lo, us, i);
    }
  }

  lemma CountedSizes(count: seq<int>, s: seq<Line>, lo: nat, hi: nat, b: nat)
    requires lo <= hi <= |s| && Counted(count, s, lo, hi, b)
    ensures (forall k :: 0 <= k < 257 ==> count[k] >= 0) &&
            forall k: nat :: k < 257 ==> SizesOf(count)[k] == count[k] == Tally(s, lo, hi, b, k)
  {
  }

  /** Passes 1 to 3: the lines in their buckets, and the counts used up. */
  method Distribute(a: array<Line>, lo: nat, hi: nat, b: nat, count: array<int>)
    returns (clist: array<int>, ghost size: Sizes)
    requires lo <= hi <= a.Length && AllZero(count[..])
    modifies a, count
    ensures fresh(clist) && clist.Length == 514 && Shuffled(old(a[..]), a[..], lo, hi) &&
            Partitioned(a[..], size, lo, hi, b)
    ensures count.Length == 257 && forall k :: 0 <= k < 256 ==> count[k] == 0
    ensures clist[0] == size[256] && |Used(size, 256)| <= 256 && Listed(clist[..], size, Used(size, 256)) &&
            clist[1 + 2 * |Used(size, 256)|] == 0
  {
    assert count.Length == 257;
    hide AllZero, Shuffled, Partitioned, Used, Listed, Counted, Chasing, Tally, Emptied, Starts;
    ghost var s := a[..];
    var low, high := CountPass(a, lo, hi, b, count);
    CountedSizes(count[..], s, lo, hi, b);
    size := SizesOf(count[..]);
    hide SizesOf;
    var part;
    part, clist := PartPass(count, lo, low, high, size);
    StartPlaced(s, size, part[..], count[..], lo, hi, b);
    ChasePass(a, lo, hi, b, count, part, clist, s, size);
    ChaseEnds(s, a[..], size, part[..], count[..], lo, hi, b);
    ChasingIs(s, a[..], size, part[..], count[..], lo, hi, b);
  }

  lemma ChasingIs(s0: seq<Line>, v: seq<Line>, size: Sizes, part: seq<int>, count: seq<int>, lo: nat, hi: nat, b: nat)
    requires Chasing(s0, v, size, part, count, lo, hi, b, 0)
    ensures lo <= hi <= |s0| && Shuffled(s0, v, lo, hi)
  {
  }

  /** Radix sort of lines that agree on their first b bytes. The count array is zero on entry, on
      exit and at every call below; the depth is bounded by the length of the keys. */
  method Rsort(a: array<Line>, lo: nat, hi: nat, b: nat, count: array<int>, ghost pre: Key, ghost max: nat)
    requires lo <= hi <= a.Length && |pre| == b <= max && AllZero(count[..])
    requires AllStart(a[..], lo, hi, pre) && AllApart(a[..], lo, hi) && Short(a[..], lo, hi, max)
    modifies a, count
    ensures Shuffled(old(a[..]), a[..], lo, hi) && SortedIn(a[..], lo, hi) && AllZero(count[..])
    decreases max - b, 1
  {
    hide AllStart, AllApart, Short, Shuffled, SortedIn, Partitioned, Used, Listed;
    ghost var s0 := a[..];
    var clist;
    ghost var size;
    clist, size := Distribute(a, lo, hi, b, count);
    count[256] := 0;
    assert AllZero(count[..]);
    hide AllZero;
    ghost var s := a[..];
    KeepsAll(s0, s, lo, hi, pre);
    ShortKept(s0, s, lo, hi, max);
    Descend(a, lo, hi, b, count, clist, pre, max, size);
    ShuffledTrans(s0, s, a[..], lo, hi);
  }

  function MaxLen(s: seq<Line>): (n: nat)
    ensures forall l :: l in s ==> |l.key| <= n
  {
    if s == [] then 0 else
      var n := MaxLen(s[1..]);
      assert forall l :: l in s ==> l == s[0] || l in s[1..];
      if |s[0].key| > n then |s[0].key| else n
  }

  /** sort4 leaves the same lines in the order of their keys, and the count array as it found it. */
  method Sort4(a: array<Line>, count: array<int>)
    requires AllZero(count[..]) && AllApart(a[..], 0, a.Length)
    modifies a, count
    ensures multiset(a[..]) == multiset(old(a[..])) && AllZero(count[..])
    ensures forall i, j :: 0 <= i < j < a.Length ==> Le(a[i].key, a[j].key)
  {
    ghost var s0 := a[..];
    assert s0[0..|s0|] == s0;
    if a.Length > THRESHOLD {
      Rsort(a, 0, a.Length, 0, count, [], MaxLen(s0));
    } else {
      ApartFirst(s0, 0, |s0|);
      Bsort(a, 0, a.Length, 0, []);
    }
    assert a[..][0..a.Length] == a[..];
  }
}
