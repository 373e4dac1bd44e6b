/** The places a merge of two key-sorted files can stand at, and the steps between them. */
module JoinSteps {
  import opened JoinKeys
  import opened JoinSpec

  function Cmp(f1: seq<Line>, f2: seq<Line>, i: nat, j: nat): int
    requires i < |f1| && j < |f2|
  {
    Compare(KeyOf(f1[i]), KeyOf(f2[j]))
  }

  /** No line before i or j has the key of one at or after j or i. */
  ghost predicate Separated(f1: seq<Line>, f2: seq<Line>, i: nat, j: nat)
  {
    i <= |f1| && j <= |f2| &&
    (forall p, q :: 0 <= p < i && j <= q < |f2| ==> Cmp(f1, f2, p, q) < 0) &&
    (forall p, q :: i <= p < |f1| && 0 <= q < j ==> Cmp(f1, f2, p, q) > 0)
  }

  ghost predicate Upto(f1: seq<Line>, f2: seq<Line>, out: seq<Emit>, key: seq<Rune>)
    requires AllIn(f1, f2, out)
  {
    forall x :: 0 <= x < |out| ==> Compare(EmitKey(f1, f2, out[x]), key) <= 0
  }

  ghost predicate Ordered(f1: seq<Line>, f2: seq<Line>, out: seq<Emit>) { AllIn(f1, f2, out) && InOrder(f1, f2, out) }

  /** The output has these pairs, and the unmatched lines below i and j. */
  ghost predicate Holds(f1: seq<Line>, f2: seq<Line>, a1: bool, a2: bool, out: seq<Emit>, pairs: seq<Emit>, i: nat,
                        j: nat)
    requires i <= |f1| && j <= |f2|
  {
    Only(out, Pairs) == pairs &&
    Only(out, Firsts) == (if a1 then Lones1(f1, f2, i) else []) &&
    Only(out, Seconds) == (if a2 then Lones2(f1, f2, j) else [])
  }

  /** Everything below i and j is dealt with. */
  ghost predicate Done(f1: seq<Line>, f2: seq<Line>, a1: bool, a2: bool, out: seq<Emit>, i: nat, j: nat)
  {
    Separated(f1, f2, i, j) && Ordered(f1, f2, out) && Holds(f1, f2, a1, a2, out, Nested(f1, f2, i), i, j) &&
    (i < |f1| ==> Upto(f1, f2, out, KeyOf(f1[i]))) && (j < |f2| ==> Upto(f1, f2, out, KeyOf(f2[j])))
  }

  // ----- order -------------------------------------------------------------------------------

  lemma OrderedMore(f1: seq<Line>, f2: seq<Line>, out: seq<Emit>, e: Emit)
    requires Ordered(f1, f2, out) && InFiles(f1, f2, e) && Upto(f1, f2, out, EmitKey(f1, f2, e))
    ensures Ordered(f1, f2, out + [e]) && Upto(f1, f2, out + [e], EmitKey(f1, f2, e))
  {
    hide Compare, EmitKey, StrOf;
    CompareZero(EmitKey(f1, f2, e), EmitKey(f1, f2, e));
  }

  lemma UptoMore(f1: seq<Line>, f2: seq<Line>, out: seq<Emit>, key: seq<Rune>, key': seq<Rune>)
    requires AllIn(f1, f2, out) && Upto(f1, f2, out, key) && Compare(key, key') <= 0
    ensures Upto(f1, f2, out, key')
  {
    hide Compare, EmitKey;
    forall x | 0 <= x < |out| ensures Compare(EmitKey(f1, f2, out[x]), key') <= 0 {
      CompareTrans(EmitKey(f1, f2, out[x]), key, key');
    }
  }

  lemma HoldsMore(f1: seq<Line>, f2: seq<Line>, a1: bool, a2: bool, out: seq<Emit>, pairs: seq<Emit>, i: nat, j: nat,
                  e: Emit)
    requires i <= |f1| && j <= |f2| && Holds(f1, f2, a1, a2, out, pairs, i, j)
    ensures e.Both? ==> Holds(f1, f2, a1, a2, out + [e], pairs + [e], i, j)
    ensures e == First(i) && a1 && i < |f1| && Lone1(f1, f2, i) ==> Holds(f1, f2, a1, a2, out + [e], pairs, i + 1, j)
    ensures e == Second(j) && a2 && j < |f2| && Lone2(f1, f2, j) ==> Holds(f1, f2, a1, a2, out + [e], pairs, i, j + 1)
  {
    hide Only, Nested, Row, Lone1, Lone2;
    OnlyMore(out, e, Pairs);
    OnlyMore(out, e, Firsts);
    OnlyMore(out, e, Seconds);
  }

  lemma Sooner(f: seq<Line>, p: nat, q: nat)
    requires Sorted(f) && p <= q < |f|
    ensures Compare(KeyOf(f[p]), KeyOf(f[q])) <= 0
  {
    hide Compare;
    CompareZero(KeyOf(f[p]), KeyOf(f[p]));
  }

  /** Line p is above line q, and so above every earlier one, and every later p is too. */
  lemma Above(f1: seq<Line>, f2: seq<Line>, p: nat, q: nat, p': nat, q': nat)
    requires Sorted(f1) && Sorted(f2) && q' <= q < |f2| && p <= p' < |f1| && Cmp(f1, f2, p, q) >= 0
    ensures Cmp(f1, f2, p', q') >= Cmp(f1, f2, p, q) || Cmp(f1, f2, p', q') > 0
  {
    hide Compare, KeyOf;
    var a, b, c, d := KeyOf(f2[q']), KeyOf(f2[q]), KeyOf(f1[p]), KeyOf(f1[p']);
    Sooner(f2, q', q);
    Sooner(f1, p, p');
    CompareFlip(c, b);
    CompareTrans(a, b, c);
    CompareTrans(a, c, d);
    CompareFlip(a, d);
    CompareSign(c, b);
    CompareSign(d, a);
  }

  lemma {:induction false} CompareSign(a: seq<Rune>, b: seq<Rune>)
    ensures -1 <= Compare(a, b) <= 1
  {
    if a != [] && b != [] {
      CompareSign(a[1..], b[1..]);
    }
  }

  lemma Below(f1: seq<Line>, f2: seq<Line>, p: nat, q: nat, p': nat, q': nat)
    requires Sorted(f1) && Sorted(f2) && q <= q' < |f2| && p' <= p < |f1| && Cmp(f1, f2, p, q) <= 0
    ensures Cmp(f1, f2, p', q') <= Cmp(f1, f2, p, q) || Cmp(f1, f2, p', q') < 0
  {
    hide Compare, KeyOf;
    var a, b, c, d := KeyOf(f1[p']), KeyOf(f1[p]), KeyOf(f2[q]), KeyOf(f2[q']);
    Sooner(f1, p', p);
    Sooner(f2, q, q');
    CompareTrans(a, b, c);
    CompareTrans(a, c, d);
    CompareSign(b, c);
    CompareSign(a, d);
  }

  lemma CmpMatches(f1: seq<Line>, f2: seq<Line>, i: nat, j: nat)
    requires i < |f1| && j < |f2|
    ensures Cmp(f1, f2, i, j) == 0 <==> Matches(f1, f2, i, j)
  {
    CompareZero(KeyOf(f1[i]), KeyOf(f2[j]));
  }

  // ----- a line with no match ----------------------------------------------------------------

  /** Line j of file 2 is below what is left of file 1. */
  ghost predicate Passed2(f1: seq<Line>, f2: seq<Line>, i: nat, j: nat)
  {
    j < |f2| && i <= |f1| && (i < |f1| ==> Cmp(f1, f2, i, j) > 0)
  }

  ghost predicate Passed1(f1: seq<Line>, f2: seq<Line>, i: nat, j: nat)
  {
    i < |f1| && j <= |f2| && (j < |f2| ==> Cmp(f1, f2, i, j) < 0)
  }

  lemma PassSecond(f1: seq<Line>, f2: seq<Line>, i: nat, j: nat)
    requires Sorted(f1) && Sorted(f2) && Separated(f1, f2, i, j) && Passed2(f1, f2, i, j)
    ensures Separated(f1, f2, i, j + 1) && Lone2(f1, f2, j)
  {
    hide Cmp, Matches, Sorted;
    forall p | i <= p < |f1| ensures Cmp(f1, f2, p, j) > 0 {
      Above(f1, f2, i, j, p, j);
    }
    forall p | 0 <= p < |f1| ensures !Matches(f1, f2, p, j) {
      CmpMatches(f1, f2, p, j);
      assert p < i ==> Cmp(f1, f2, p, j) < 0;
    }
  }

  lemma PassFirst(f1: seq<Line>, f2: seq<Line>, i: nat, j: nat)
    requires Sorted(f1) && Sorted(f2) && Separated(f1, f2, i, j) && Passed1(f1, f2, i, j)
    ensures Separated(f1, f2, i + 1, j) && Lone1(f1, f2, i)
  {
    hide Cmp, Matches, Sorted;
    forall q | j <= q < |f2| ensures Cmp(f1, f2, i, q) < 0 {
      Below(f1, f2, i, j, i, q);
    }
    forall q | 0 <= q < |f2| ensures !Matches(f1, f2, i, q) {
      CmpMatches(f1, f2, i, q);
      assert q < j ==> Cmp(f1, f2, i, q) > 0;
    }
  }

  lemma {:induction false} LoneRow(f1: seq<Line>, f2: seq<Line>, i: nat, j: nat)
    requires i < |f1| && j <= |f2| && forall q :: 0 <= q < j ==> !Matches(f1, f2, i, q)
    ensures Row(f1, f2, i, j) == []
  {
    if j > 0 {
      LoneRow(f1, f2, i, j - 1);
    }
  }

  lemma StepSecond(f1: seq<Line>, f2: seq<Line>, a1: bool, a2: bool, out: seq<Emit>, i: nat, j: nat)
    requires Sorted(f1) && Sorted(f2) && Done(f1, f2, a1, a2, out, i, j) && Passed2(f1, f2, i, j)
    ensures Done(f1, f2, a1, a2, if a2 then out + [Second(j)] else out, i, j + 1)
  {
    hide Compare, KeyOf, Sorted, Separated, Upto, InOrder, AllIn, Only, Nested, Row, Lones1;
    PassSecond(f1, f2, i, j);
    var key := KeyOf(f2[j]);
    var out' := if a2 then out + [Second(j)] else out;
    if a2 {
      OrderedMore(f1, f2, out, Second(j));
      HoldsMore(f1, f2, a1, a2, out, Nested(f1, f2, i), i, j, Second(j));
    }
    assert Upto(f1, f2, out', key);
    if i < |f1| {
      CompareFlip(KeyOf(f1[i]), key);
      UptoMore(f1, f2, out', key, KeyOf(f1[i]));
    }
    if j + 1 < |f2| {
      Sooner(f2, j, j + 1);
      UptoMore(f1, f2, out', key, KeyOf(f2[j + 1]));
    }
  }

  lemma StepFirst(f1: seq<Line>, f2: seq<Line>, a1: bool, a2: bool, out: seq<Emit>, i: nat, j: nat)
    requires Sorted(f1) && Sorted(f2) && Done(f1, f2, a1, a2, out, i, j) && Passed1(f1, f2, i, j)
    ensures Done(f1, f2, a1, a2, if a1 then out + [First(i)] else out, i + 1, j)
  {
    hide Compare, KeyOf, Sorted, Separated, Upto, InOrder, AllIn, Only, Row, Lones2;
    PassFirst(f1, f2, i, j);
    LoneRow(f1, f2, i, |f2|);
    assert Nested(f1, f2, i + 1) == Nested(f1, f2, i);
    var key := KeyOf(f1[i]);
    var out' := if a1 then out + [First(i)] else out;
    if a1 {
      OrderedMore(f1, f2, out, First(i));
      HoldsMore(f1, f2, a1, a2, out, Nested(f1, f2, i), i, j, First(i));
    }
    assert Upto(f1, f2, out', key);
    if j < |f2| {
      UptoMore(f1, f2, out', key, KeyOf(f2[j]));
    }
    if i + 1 < |f1| {
      Sooner(f1, i, i + 1);
      UptoMore(f1, f2, out', key, KeyOf(f1[i + 1]));
    }
  }

  // ----- lines with the same key -----------------------------------------------------------

  /** The lines of file 2 from j to q have one key, as have those of file 1 from i to p, and it is the same. */
  ghost predicate Alike(f1: seq<Line>, f2: seq<Line>, i: nat, j: nat, p: nat, q: nat)
  {
    i < |f1| && j < |f2| && i <= p <= |f1| && j <= q <= |f2| && Matches(f1, f2, i, j) &&
    (forall x :: i <= x < p ==> KeyOf(f1[x]) == KeyOf(f2[j])) &&
    (forall y :: j <= y < q ==> KeyOf(f2[y]) == KeyOf(f2[j]))
  }

  /** The lines of file 2 with the key of line j go up to t. */
  ghost predicate IsGroup(f2: seq<Line>, j: nat, t: nat)
  {
    j < t <= |f2| && (forall y :: j <= y < t ==> KeyOf(f2[y]) == KeyOf(f2[j])) &&
    (t < |f2| ==> KeyOf(f2[t]) != KeyOf(f2[j]))
  }

  /** Line p of file 1 is being paired, and has come to line q of file 2. */
  ghost predicate InGroup(f1: seq<Line>, f2: seq<Line>, a1: bool, a2: bool, out: seq<Emit>, i: nat, j: nat, p: nat,
                          q: nat)
  {
    Separated(f1, f2, i, j) && Alike(f1, f2, i, j, p, q) && (q > j ==> p < |f1| && KeyOf(f1[p]) == KeyOf(f2[j])) &&
    Ordered(f1, f2, out) && Upto(f1, f2, out, KeyOf(f2[j])) &&
    Holds(f1, f2, a1, a2, out, if p < |f1| then Nested(f1, f2, p) + Row(f1, f2, p, q) else Nested(f1, f2, p), i, j)
  }

  lemma RowBefore(f1: seq<Line>, f2: seq<Line>, i: nat, j: nat, p: nat)
    requires Separated(f1, f2, i, j) && i <= p < |f1|
    ensures Row(f1, f2, p, j) == []
  {
    hide Cmp, Row;
    forall q | 0 <= q < j ensures !Matches(f1, f2, p, q) {
      CmpMatches(f1, f2, p, q);
    }
    LoneRow(f1, f2, p, j);
  }

  lemma GroupStart(f1: seq<Line>, f2: seq<Line>, a1: bool, a2: bool, out: seq<Emit>, i: nat, j: nat)
    requires Done(f1, f2, a1, a2, out, i, j) && i < |f1| && j < |f2| && Cmp(f1, f2, i, j) == 0
    ensures InGroup(f1, f2, a1, a2, out, i, j, i, j)
  {
    hide Compare, KeyOf, Separated, Upto, Ordered, Only, Nested, Row, Lones1, Lones2;
    CmpMatches(f1, f2, i, j);
    RowBefore(f1, f2, i, j, i);
  }

  lemma GroupEmit(f1: seq<Line>, f2: seq<Line>, a1: bool, a2: bool, out: seq<Emit>, i: nat, j: nat, p: nat, q: nat)
    requires InGroup(f1, f2, a1, a2, out, i, j, p, q) && p < |f1| && q < |f2| && Cmp(f1, f2, p, q) == 0
    ensures InGroup(f1, f2, a1, a2, out + [Both(p, q)], i, j, p, q + 1)
  {
    hide Compare, KeyOf, Separated, Upto, Ordered, Only, Nested, Lones1, Lones2, Holds;
    CmpMatches(f1, f2, p, q);
    assert KeyOf(f1[p]) == KeyOf(f2[j]);
    OrderedMore(f1, f2, out, Both(p, q));
    HoldsMore(f1, f2, a1, a2, out, Nested(f1, f2, p) + Row(f1, f2, p, q), i, j, Both(p, q));
    assert Nested(f1, f2, p) + Row(f1, f2, p, q) + [Both(p, q)] == Nested(f1, f2, p) + Row(f1, f2, p, q + 1);
  }

  /** Past the group a line of the group has no more matches. */
  lemma {:induction false} RowAfter(f1: seq<Line>, f2: seq<Line>, p: nat, q: nat, m: nat)
    requires p < |f1| && q <= m <= |f2| && forall y :: q <= y < m ==> !Matches(f1, f2, p, y)
    ensures Row(f1, f2, p, m) == Row(f1, f2, p, q)
    decreases m
  {
    if m > q {
      RowAfter(f1, f2, p, q, m - 1);
    }
  }

  /** Line p is done when q is past the group. */
  lemma GroupRow(f1: seq<Line>, f2: seq<Line>, a1: bool, a2: bool, out: seq<Emit>, i: nat, j: nat, p: nat, q: nat)
    requires Sorted(f1) && Sorted(f2) && InGroup(f1, f2, a1, a2, out, i, j, p, q) && q > j &&
             (q < |f2| ==> Cmp(f1, f2, p, q) < 0)
    ensures InGroup(f1, f2, a1, a2, out, i, j, p + 1, j)
  {
    hide Compare, KeyOf, Sorted, Separated, Upto, Ordered, Only, Row, Lones1, Lones2, Cmp;
    forall y | q <= y < |f2| ensures !Matches(f1, f2, p, y) {
      Below(f1, f2, p, q, p, y);
      CmpMatches(f1, f2, p, y);
    }
    RowAfter(f1, f2, p, q, |f2|);
    if p + 1 < |f1| {
      RowBefore(f1, f2, i, j, p + 1);
    }
    assert Nested(f1, f2, p + 1) == Nested(f1, f2, p) + Row(f1, f2, p, q);
  }

  /** A later line of file 1 is not below the group. */
  lemma GroupLow(f1: seq<Line>, f2: seq<Line>, i: nat, j: nat, p: nat, q: nat)
    requires Sorted(f1) && Alike(f1, f2, i, j, p, q) && p < |f1|
    ensures Cmp(f1, f2, p, j) >= 0
  {
    hide Compare, KeyOf, Sorted;
    Sooner(f1, i, p);
    CompareFlip(KeyOf(f1[i]), KeyOf(f1[p]));
  }

  /** Within the group or just past it, the current line of file 2 is not below a line being paired. */
  lemma GroupHigh(f1: seq<Line>, f2: seq<Line>, i: nat, j: nat, p: nat, q: nat)
    requires Sorted(f2) && Alike(f1, f2, i, j, p, q) && q < |f2| && p < |f1| && KeyOf(f1[p]) == KeyOf(f2[j])
    ensures Cmp(f1, f2, p, q) <= 0
  {
    hide Compare, KeyOf, Sorted;
    Sooner(f2, j, q);
  }

  lemma {:induction false} LonesKept1(f1: seq<Line>, f2: seq<Line>, i: nat, j: nat, p: nat)
    requires i <= p <= |f1| && j < |f2| && forall x :: i <= x < p ==> Matches(f1, f2, x, j)
    ensures Lones1(f1, f2, p) == Lones1(f1, f2, i)
    decreases p
  {
    if p > i {
      LonesKept1(f1, f2, i, j, p - 1);
      assert Matches(f1, f2, p - 1, j);
    }
  }

  lemma {:induction false} LonesKept2(f1: seq<Line>, f2: seq<Line>, i: nat, j: nat, q: nat)
    requires i < |f1| && j <= q <= |f2| && forall y :: j <= y < q ==> Matches(f1, f2, i, y)
    ensures Lones2(f1, f2, q) == Lones2(f1, f2, j)
    decreases q
  {
    if q > j {
      LonesKept2(f1, f2, i, j, q - 1);
      assert Matches(f1, f2, i, q - 1);
    }
  }

  /** The keys of the group are below all that comes after it. */
  lemma GroupApart(f1: seq<Line>, f2: seq<Line>, i: nat, j: nat, p: nat, t: nat)
    requires Sorted(f1) && Sorted(f2) && Separated(f1, f2, i, j) && Alike(f1, f2, i, j, p, j) && IsGroup(f2, j, t) &&
             Passed2(f1, f2, p, j)
    ensures Separated(f1, f2, p, t)
  {
    hide Compare, KeyOf, Sorted, Cmp;
    forall x, y | 0 <= x < p && t <= y < |f2| ensures Cmp(f1, f2, x, y) < 0 {
      GroupTail(f2, j, t, y);
      if x >= i {
        CmpKey(f1, f2, x, j, y);
      }
    }
    forall x, y | p <= x < |f1| && 0 <= y < t ensures Cmp(f1, f2, x, y) > 0 {
      if y >= j {
        Above(f1, f2, p, j, x, j);
        CmpSame(f1, f2, x, j, y);
      }
    }
  }

  lemma GroupTail(f2: seq<Line>, j: nat, t: nat, y: nat)
    requires Sorted(f2) && IsGroup(f2, j, t) && t <= y < |f2|
    ensures Compare(KeyOf(f2[j]), KeyOf(f2[y])) < 0
  {
    hide Compare, KeyOf, Sorted;
    Sooner(f2, j, t);
    Sooner(f2, t, y);
    CompareZero(KeyOf(f2[j]), KeyOf(f2[t]));
    CompareTrans(KeyOf(f2[j]), KeyOf(f2[t]), KeyOf(f2[y]));
  }

  lemma CmpKey(f1: seq<Line>, f2: seq<Line>, x: nat, j: nat, y: nat)
    requires x < |f1| && j < |f2| && y < |f2| && KeyOf(f1[x]) == KeyOf(f2[j])
    ensures Cmp(f1, f2, x, y) == Compare(KeyOf(f2[j]), KeyOf(f2[y]))
  {
  }

  lemma CmpSame(f1: seq<Line>, f2: seq<Line>, x: nat, j: nat, y: nat)
    requires x < |f1| && j < |f2| && y < |f2| && KeyOf(f2[y]) == KeyOf(f2[j])
    ensures Cmp(f1, f2, x, y) == Cmp(f1, f2, x, j)
  {
  }

  /** The group is done when line p is above it. */
  lemma GroupDone(f1: seq<Line>, f2: seq<Line>, a1: bool, a2: bool, out: seq<Emit>, i: nat, j: nat, p: nat, q: nat,
                  t: nat)
    requires Sorted(f1) && Sorted(f2) && InGroup(f1, f2, a1, a2, out, i, j, p, q) && IsGroup(f2, j, t)
    requires Passed2(f1, f2, p, q)
    ensures q == j && Done(f1, f2, a1, a2, out, p, t)
  {
    hide Compare, KeyOf, Sorted, Separated, Upto, Ordered, Only, Nested, Row, Lones1, Lones2;
    if q > j {
      GroupHigh(f1, f2, i, j, p, q);
    }
    GroupApart(f1, f2, i, j, p, t);
    LonesKept1(f1, f2, i, j, p);
    LonesKept2(f1, f2, i, j, t);
    if p < |f1| {
      RowBefore(f1, f2, i, j, p);
      CompareFlip(KeyOf(f1[p]), KeyOf(f2[j]));
    }
    GroupUpto(f1, f2, out, j, p, t);
  }

  lemma GroupUpto(f1: seq<Line>, f2: seq<Line>, out: seq<Emit>, j: nat, p: nat, t: nat)
    requires Sorted(f2) && Ordered(f1, f2, out) && j < t <= |f2| && p <= |f1| && Upto(f1, f2, out, KeyOf(f2[j])) &&
             (p < |f1| ==> Compare(KeyOf(f2[j]), KeyOf(f1[p])) <= 0)
    ensures (p < |f1| ==> Upto(f1, f2, out, KeyOf(f1[p]))) && (t < |f2| ==> Upto(f1, f2, out, KeyOf(f2[t])))
  {
    hide Compare, KeyOf, Sorted, Upto, InOrder;
    if p < |f1| {
      UptoMore(f1, f2, out, KeyOf(f2[j]), KeyOf(f1[p]));
    }
    if t < |f2| {
      Sooner(f2, j, t);
      UptoMore(f1, f2, out, KeyOf(f2[j]), KeyOf(f2[t]));
    }
  }

  // ----- the end -----------------------------------------------------------------------------

  lemma DoneNone(f1: seq<Line>, f2: seq<Line>, a1: bool, a2: bool)
    ensures Done(f1, f2, a1, a2, [], 0, 0)
  {
  }

  /** With one file used up there are no more pairs. */
  lemma {:induction false} NoMorePairs(f1: seq<Line>, f2: seq<Line>, i: nat, m: nat)
    requires Separated(f1, f2, i, |f2|) && i <= m <= |f1|
    ensures Nested(f1, f2, m) == Nested(f1, f2, i)
    decreases m
  {
    hide Separated, Row, Matches;
    if m > i {
      NoMorePairs(f1, f2, i, m - 1);
      RowBefore(f1, f2, i, |f2|, m - 1);
    }
  }

  /** Both files are used up, or one of them and no unmatched lines are asked for. */
  lemma DoneAll(f1: seq<Line>, f2: seq<Line>, a1: bool, a2: bool, out: seq<Emit>, i: nat, j: nat)
    requires Done(f1, f2, a1, a2, out, i, j)
    requires (i == |f1| && j == |f2|) || (!a1 && !a2 && (i == |f1| || j == |f2|))
    ensures IsJoin(f1, f2, a1, a2, out)
  {
    hide Compare, KeyOf, Cmp, Upto, Only, Nested, Row, Lones1, Lones2;
    if j == |f2| {
      NoMorePairs(f1, f2, i, |f1|);
    }
  }
}
