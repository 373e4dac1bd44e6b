/** Buckets: which byte of the key a line goes by, and where the lines of each bucket belong. */
module SortBuckets {
  import opened SortKey
  import opened SortBubble

  /** The bucket of a line at depth b; 256 for a key that ends there. */
  function Bucket(l: Line, b: nat): (k: nat)
    ensures k <= 256
  {
    if b < |l.key| then l.key[b] else 256
  }

  /** How many lines from lo to hi fall in bucket k. */
  function Tally(s: seq<Line>, lo: nat, hi: nat, b: nat, k: nat): nat
    requires lo <= hi <= |s|
  {
    if lo == hi then 0 else Tally(s, lo, hi - 1, b, k) + if Bucket(s[hi - 1], b) == k then 1 else 0
  }

  lemma {:induction false} TallySplit(s: seq<Line>, lo: nat, mid: nat, hi: nat, b: nat, k: nat)
    requires lo <= mid <= hi <= |s|
    ensures Tally(s, lo, hi, b, k) == Tally(s, lo, mid, b, k) + Tally(s, mid, hi, b, k)
  {
    if mid < hi {
      TallySplit(s, lo, mid, hi - 1, b, k);
    }
  }

  lemma {:induction false} TallyAll(s: seq<Line>, lo: nat, hi: nat, b: nat, k: nat)
    requires lo <= hi <= |s| && forall p :: lo <= p < hi ==> Bucket(s[p], b) == k
    ensures Tally(s, lo, hi, b, k) == hi - lo
  {
    if lo < hi {
      TallyAll(s, lo, hi - 1, b, k);
    }
  }

  lemma {:induction false} TallyHas(s: seq<Line>, lo: nat, hi: nat, b: nat, k: nat, p: nat)
    requires lo <= p < hi <= |s| && Bucket(s[p], b) == k
    ensures Tally(s, lo, hi, b, k) >= 1
  {
    if p < hi - 1 {
      TallyHas(s, lo, hi - 1, b, k, p);
    }
  }

  lemma {:induction false} TallyUpdate(s: seq<Line>, lo: nat, hi: nat, b: nat, k: nat, p: nat, l: Line)
    requires lo <= p < hi <= |s|
    ensures Tally(s[p := l], lo, hi, b, k) ==
      Tally(s, lo, hi, b, k) - (if Bucket(s[p], b) == k then 1 else 0) + if Bucket(l, b) == k then 1 else 0
  {
    if p < hi - 1 {
      TallyUpdate(s, lo, hi - 1, b, k, p, l);
    } else {
      TallySame(s, s[p := l], lo, hi - 1, b, k);
    }
  }

  lemma {:induction false} TallySame(s: seq<Line>, r: seq<Line>, lo: nat, hi: nat, b: nat, k: nat)
    requires lo <= hi <= |s| && hi <= |r| && forall p :: lo <= p < hi ==> s[p] == r[p]
    ensures Tally(s, lo, hi, b, k) == Tally(r, lo, hi, b, k)
  {
    if lo < hi {
      TallySame(s, r, lo, hi - 1, b, k);
    }
  }

  lemma TallySwap(s: seq<Line>, lo: nat, hi: nat, b: nat, k: nat, p: nat, q: nat)
    requires lo <= p < hi && lo <= q < hi <= |s|
    ensures Tally(Swapped(s, p, q), lo, hi, b, k) == Tally(s, lo, hi, b, k)
  {
    TallyUpdate(s, lo, hi, b, k, p, s[q]);
    TallyUpdate(s[p := s[q]], lo, hi, b, k, q, s[p]);
  }

  // ----- the layout ----------------------------------------------------------------------

  /** The size of each bucket. */
  type Sizes = s: seq<nat> | |s| == 257 witness seq(257, i => 0)

  function SumTo(size: seq<nat>, k: nat): nat
    requires k <= |size|
  {
    if k == 0 then 0 else SumTo(size, k - 1) + size[k - 1]
  }

  lemma {:induction false} SumMono(size: seq<nat>, j: nat, k: nat)
    requires j < k <= |size|
    ensures SumTo(size, j) + size[j] <= SumTo(size, k)
  {
    if j + 1 < k {
      SumMono(size, j, k - 1);
    }
  }

  /** Where bucket k starts: 256 first, then by byte. */
  function Start(size: Sizes, lo: nat, k: nat): nat
    requires k <= 256
  {
    if k == 256 then lo else lo + size[256] + SumTo(size, k)
  }

  function End(size: Sizes, lo: nat, k: nat): nat
    requires k <= 256
  {
    Start(size, lo, k) + size[k]
  }

  /** The buckets fill the stretch. */
  ghost predicate Fits(size: Sizes, lo: nat, hi: nat)
  {
    lo + size[256] + SumTo(size, 256) == hi
  }

  lemma InRange(size: Sizes, lo: nat, hi: nat, k: nat)
    requires Fits(size, lo, hi) && k <= 256
    ensures lo <= Start(size, lo, k) <= End(size, lo, k) <= hi
  {
    if k < 256 {
      SumMono(size, k, 256);
    }
  }

  lemma Disjoint(size: Sizes, lo: nat, j: nat, k: nat)
    requires j <= 256 && k <= 256 && j != k
    ensures End(size, lo, j) <= Start(size, lo, k) || End(size, lo, k) <= Start(size, lo, j)
  {
    if j < k < 256 {
      SumMono(size, j, k);
    } else if k < j < 256 {
      SumMono(size, k, j);
    }
  }

  /** The byte buckets are in order. */
  lemma Ordered(size: Sizes, lo: nat, j: nat, k: nat)
    requires j < k < 256
    ensures End(size, lo, j) <= Start(size, lo, k)
  {
    SumMono(size, j, k);
  }

  /** Every place belongs to a bucket that is not empty. */
  lemma {:induction false} Belongs(size: Sizes, lo: nat, p: nat, n: nat) returns (k: nat)
    requires n <= 256 && lo + size[256] <= p < lo + size[256] + SumTo(size, n)
    ensures k < n && Start(size, lo, k) <= p < End(size, lo, k)
  {
    if p >= lo + size[256] + SumTo(size, n - 1) {
      k := n - 1;
    } else {
      k := Belongs(size, lo, p, n - 1);
    }
  }

  // ----- being placed --------------------------------------------------------------------

  /** Bucket k is filled up to part[k], and count[k] places of it are left. */
  ghost predicate PlacedIn(v: seq<Line>, size: Sizes, part: seq<int>, count: seq<int>, lo: nat, b: nat, k: nat)
    requires |part| == 257 && |count| == 257 && k <= 256 && End(size, lo, k) <= |v|
  {
    count[k] >= 0 &&
    if size[k] == 0 then count[k] == 0
    else part[k] + count[k] == End(size, lo, k) && Start(size, lo, k) <= part[k] &&
         forall p :: Start(size, lo, k) <= p < part[k] ==> Bucket(v[p], b) == k
  }

  ghost predicate Placed(v: seq<Line>, size: Sizes, part: seq<int>, count: seq<int>, lo: nat, hi: nat, b: nat)
  {
    |part| == 257 && |count| == 257 && lo <= hi <= |v| && Fits(size, lo, hi) &&
    (forall k :: 0 <= k <= 256 ==> End(size, lo, k) <= hi && PlacedIn(v, size, part, count, lo, b, k)) &&
    (forall k :: 0 <= k <= 256 ==> Tally(v, lo, hi, b, k) == size[k])
  }

  /** A full bucket has no more lines elsewhere. */
  lemma FullBucket(v: seq<Line>, lo: nat, hi: nat, b: nat, k: nat, x: nat, y: nat, p: nat)
    requires lo <= x <= y <= hi <= |v| && lo <= p < hi && !(x <= p < y) && Tally(v, lo, hi, b, k) == y - x
    requires forall q :: x <= q < y ==> Bucket(v[q], b) == k
    ensures Bucket(v[p], b) != k
  {
    TallySplit(v, lo, x, hi, b, k);
    TallySplit(v, x, y, hi, b, k);
    TallyAll(v, x, y, b, k);
    if Bucket(v[p], b) == k {
      if p < x {
        TallyHas(v, lo, x, b, k, p);
      } else {
        TallyHas(v, y, hi, b, k, p);
      }
    }
  }

  lemma PlacedAt(v: seq<Line>, size: Sizes, part: seq<int>, count: seq<int>, lo: nat, hi: nat, b: nat, k: nat)
    requires Placed(v, size, part, count, lo, hi, b) && k <= 256
    ensures lo <= Start(size, lo, k) <= End(size, lo, k) <= hi && PlacedIn(v, size, part, count, lo, b, k) &&
            Tally(v, lo, hi, b, k) == size[k]
  {
    InRange(size, lo, hi, k);
  }

  /** The line in an open place of bucket c has a place left in its own bucket. */
  lemma HasRoom(v: seq<Line>, size: Sizes, part: seq<int>, count: seq<int>, lo: nat, hi: nat, b: nat, c: nat)
    requires Placed(v, size, part, count, lo, hi, b) && c <= 256 && count[c] > 0
    ensures lo <= part[c] < hi && var n := Bucket(v[part[c]], b);
            size[n] > 0 && count[n] > 0 && lo <= part[n] < hi && (n != c ==> part[n] != part[c])
  {
    PlacedAt(v, size, part, count, lo, hi, b, c);
    var n := Bucket(v[part[c]], b);
    PlacedAt(v, size, part, count, lo, hi, b, n);
    TallyHas(v, lo, hi, b, n, part[c]);
    if n != c {
      Disjoint(size, lo, n, c);
      if count[n] == 0 {
        FullBucket(v, lo, hi, b, n, Start(size, lo, n), End(size, lo, n), part[c]);
        assert false;
      }
    }
  }

  /** One placement: the line in bucket c's next place goes to its own bucket's, whose line comes back. */
  function Next(v: seq<Line>, part: seq<int>, b: nat, c: nat): seq<Line>
    requires |part| == 257 && c <= 256 && 0 <= part[c] < |v| && 0 <= part[Bucket(v[part[c]], b)] < |v|
  {
    Swapped(v, part[Bucket(v[part[c]], b)], part[c])
  }

  lemma PlaceOther(v: seq<Line>, size: Sizes, part: seq<int>, count: seq<int>, lo: nat, hi: nat, b: nat, c: nat, k: nat)
    requires Placed(v, size, part, count, lo, hi, b) && c <= 256 && count[c] > 0 && k <= 256
    requires lo <= part[c] < hi && var n := Bucket(v[part[c]], b); size[n] > 0 && count[n] > 0 && lo <= part[n] < hi
    ensures var n := Bucket(v[part[c]], b); var w := Next(v, part, b, c);
      PlacedIn(w, size, part[n := part[n] + 1], count[n := count[n] - 1], lo, b, k)
  {
    var n := Bucket(v[part[c]], b);
    PlacedAt(v, size, part, count, lo, hi, b, k);
    PlacedAt(v, size, part, count, lo, hi, b, n);
    PlacedAt(v, size, part, count, lo, hi, b, c);
    if k != n {
      Disjoint(size, lo, k, n);
    }
    if k != c {
      Disjoint(size, lo, k, c);
    }
  }

  lemma PlaceStep(v: seq<Line>, size: Sizes, part: seq<int>, count: seq<int>, lo: nat, hi: nat, b: nat, c: nat)
    requires Placed(v, size, part, count, lo, hi, b) && c <= 256 && count[c] > 0
    requires lo <= part[c] < hi && var n := Bucket(v[part[c]], b); size[n] > 0 && count[n] > 0 && lo <= part[n] < hi
    ensures var n := Bucket(v[part[c]], b); var w := Next(v, part, b, c);
      Placed(w, size, part[n := part[n] + 1], count[n := count[n] - 1], lo, hi, b) && Shuffled(v, w, lo, hi)
  {
    hide PlacedIn, Tally, Start, End, Fits, Shuffled;
    var n := Bucket(v[part[c]], b);
    var w := Next(v, part, b, c);
    var part', count' := part[n := part[n] + 1], count[n := count[n] - 1];
    forall k | 0 <= k <= 256 ensures PlacedIn(w, size, part', count', lo, b, k) {
      PlaceOther(v, size, part, count, lo, hi, b, c, k);
    }
    forall k | 0 <= k <= 256 ensures Tally(w, lo, hi, b, k) == size[k] {
      TallySwap(v, lo, hi, b, k, part[n], part[c]);
    }
    SwapShuffles(v, part[n], part[c], lo, hi);
  }

  /** Every line is in its bucket's place. */
  ghost predicate Partitioned(v: seq<Line>, size: Sizes, lo: nat, hi: nat, b: nat)
  {
    lo <= hi <= |v| && Fits(size, lo, hi) &&
    forall k: nat :: k <= 256 ==> InBucket(v, size, lo, b, k)
  }

  ghost predicate InBucket(v: seq<Line>, size: Sizes, lo: nat, b: nat, k: nat)
    requires k <= 256
  {
    End(size, lo, k) <= |v| && forall p :: Start(size, lo, k) <= p < End(size, lo, k) ==> Bucket(v[p], b) == k
  }

  /** When the byte buckets are full, so is the bucket of ended keys, chased or not. */
  lemma AllPlaced(v: seq<Line>, size: Sizes, part: seq<int>, count: seq<int>, lo: nat, hi: nat, b: nat)
    requires Placed(v, size, part, count, lo, hi, b) && forall k :: 0 <= k < 256 ==> count[k] == 0
    ensures Partitioned(v, size, lo, hi, b)
  {
    forall k | 0 <= k < 256 ensures InBucket(v, size, lo, b, k) {
      PlacedAt(v, size, part, count, lo, hi, b, k);
    }
    PlacedAt(v, size, part, count, lo, hi, b, 256);
    forall p | Start(size, lo, 256) <= p < End(size, lo, 256) ensures Bucket(v[p], b) == 256 {
      var k := Bucket(v[p], b);
      if k < 256 {
        PlacedAt(v, size, part, count, lo, hi, b, k);
        Disjoint(size, lo, k, 256);
        FullBucket(v, lo, hi, b, k, Start(size, lo, k), End(size, lo, k), p);
      }
    }
  }
}
