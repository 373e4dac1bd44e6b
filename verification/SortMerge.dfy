/** Runs on temporary files, merged at most ten at a time. */
module SortMerge {
  import opened SortKey
  import opened SortSpec
  import opened SortRadix
  import SortDescend
  import SortBubble

  const NMERGE := 10

  type Run = seq<Line>

  /** All lines of the runs. */
  function Pool(runs: seq<Run>): multiset<Line>
  {
    if runs == [] then multiset{} else Pool(runs[..|runs| - 1]) + multiset(runs[|runs| - 1])
  }

  lemma {:induction false} PoolConcat(a: seq<Run>, b: seq<Run>)
    ensures Pool(a + b) == Pool(a) + Pool(b)
  {
    if b == [] {
      assert a + b == a;
    } else {
      var n := |b| - 1;
      PoolConcat(a, b[..n]);
      assert (a + b)[..|a + b| - 1] == a + b[..n];
    }
  }

  lemma PoolOne(run: Run)
    ensures Pool([run]) == multiset(run)
  {
    assert [run][..0] == [];
  }

  lemma PoolAt(runs: seq<Run>, j: nat)
    requires j < |runs|
    ensures Pool(runs) == Pool(runs[..j] + runs[j + 1..]) + multiset(runs[j])
  {
    hide Pool;
    PoolOne(runs[j]);
    PoolConcat(runs[..j], runs[j + 1..]);
    PoolConcat(runs[..j] + [runs[j]], runs[j + 1..]);
    PoolConcat(runs[..j], [runs[j]]);
    assert runs == runs[..j] + [runs[j]] + runs[j + 1..];
  }

  lemma PoolHas(runs: seq<Run>, j: nat, l: Line)
    requires j < |runs| && l in runs[j]
    ensures l in Pool(runs)
  {
    PoolAt(runs, j);
    assert l in multiset(runs[j]);
  }

  lemma {:induction false} PoolFrom(runs: seq<Run>, l: Line) returns (j: nat)
    requires l in Pool(runs)
    ensures j < |runs| && l in runs[j]
  {
    var n := |runs| - 1;
    if l in runs[n] {
      j := n;
    } else {
      assert l !in multiset(runs[n]);
      j := PoolFrom(runs[..n], l);
    }
  }

  lemma PoolUpdate(runs: seq<Run>, j: nat, run: Run)
    requires j < |runs|
    ensures Pool(runs[j := run]) + multiset(runs[j]) == Pool(runs) + multiset(run)
  {
    PoolAt(runs, j);
    PoolAt(runs[j := run], j);
    assert runs[j := run][..j] == runs[..j] && runs[j := run][j + 1..] == runs[j + 1..];
  }

  // ----- the heads of the runs, sorted ---------------------------------------------------

  /** The runs in the order of these heads, each named by its number. */
  function Pick(runs: seq<Run>, heads: seq<Line>): seq<Run>
    requires forall l :: l in heads ==> l.id < |runs|
  {
    seq(|heads|, i requires 0 <= i < |heads| => assert heads[i] in heads; runs[heads[i].id])
  }

  lemma PickWithout(runs: seq<Run>, s: seq<Line>, j: nat)
    requires (forall l :: l in s ==> l.id < |runs|) && j < |s|
    ensures (forall l :: l in s[..j] + s[j + 1..] ==> l.id < |runs|) && s[j].id < |runs|
    ensures Pool(Pick(runs, s)) == Pool(Pick(runs, s[..j] + s[j + 1..])) + multiset(runs[s[j].id])
  {
    hide Pool;
    assert s[j] in s;
    PoolAt(Pick(runs, s), j);
    assert Pick(runs, s)[..j] + Pick(runs, s)[j + 1..] == Pick(runs, s[..j] + s[j + 1..]);
  }

  lemma {:induction false} PickPool(runs: seq<Run>, s: seq<Line>, t: seq<Line>)
    requires multiset(s) == multiset(t) && (forall l :: l in s ==> l.id < |runs|) &&
             (forall l :: l in t ==> l.id < |runs|)
    ensures Pool(Pick(runs, s)) == Pool(Pick(runs, t))
  {
    hide Pool, Pick;
    SameElements(s, t);
    if s == [] {
      assert t == [];
    } else {
      var n := |s| - 1;
      assert s[n] in t;
      var j :| 0 <= j < |t| && t[j] == s[n];
      DropLast(s);
      DropAt(t, j);
      PickWithout(runs, t, j);
      PickWithout(runs, s, n);
      assert s[..n] + s[n + 1..] == s[..n];
      PickPool(runs, s[..n], t[..j] + t[j + 1..]);
    }
  }

  ghost predicate Sorted(run: Run) { forall i, j :: 0 <= i < j < |run| ==> Le(run[i].key, run[j].key) }

  /** Runs with something left, each in order. */
  ghost predicate Ready(runs: seq<Run>) { forall i :: 0 <= i < |runs| ==> runs[i] != [] && Sorted(runs[i]) }

  /** Runs in the order of their heads. */
  ghost predicate HeadsSorted(runs: seq<Run>)
    requires Ready(runs)
  {
    forall i, j :: 0 <= i < j < |runs| ==> Le(runs[i][0].key, runs[j][0].key)
  }

  lemma HeadsApart(runs: seq<Run>, s: seq<Line>)
    requires Ready(runs) && PrefixFree(Pool(runs)) && |s| == |runs| &&
             forall i: nat :: i < |runs| ==> s[i] == Line(i, runs[i][0].key)
    ensures SortBubble.AllApart(s, 0, |s|)
  {
    forall l, m | l in s[0..|s|] && m in s[0..|s|] ensures Apart(l.key, m.key) {
      var i: nat :| i < |s| && s[i] == l;
      var j: nat :| j < |s| && s[j] == m;
      PoolHas(runs, i, runs[i][0]);
      PoolHas(runs, j, runs[j][0]);
    }
  }

  lemma PickReady(runs: seq<Run>, s: seq<Line>, t: seq<Line>)
    requires Ready(runs) && |s| == |runs| && (forall i: nat :: i < |runs| ==> s[i] == Line(i, runs[i][0].key))
    requires multiset(t) == multiset(s) && forall i, j :: 0 <= i < j < |t| ==> Le(t[i].key, t[j].key)
    ensures (forall l :: l in s ==> l.id < |runs|) && (forall l :: l in t ==> l.id < |runs|)
    ensures var r := Pick(runs, t); |r| == |runs| && Ready(r) && HeadsSorted(r) && Pool(r) == Pool(runs)
  {
    SameElements(s, t);
    forall l | l in s ensures l.id < |runs| && l.key == runs[l.id][0].key {
      var i: nat :| i < |s| && s[i] == l;
    }
    forall i | 0 <= i < |t| ensures t[i].id < |runs| && t[i].key == runs[t[i].id][0].key {
      assert t[i] in t;
    }
    PickPool(runs, s, t);
    assert Pick(runs, s) == runs;
  }

  /** sort4 on the heads. */
  method SortHeads(runs: seq<Run>, count: array<int>) returns (r: seq<Run>)
    requires Ready(runs) && PrefixFree(Pool(runs)) && AllZero(count[..])
    modifies count
    ensures |r| == |runs| && Ready(r) && HeadsSorted(r) && Pool(r) == Pool(runs) && AllZero(count[..])
  {
    hide PrefixFree, AllZero, Pool, SortBubble.AllApart, Le;
    var a := new Line[|runs|](i requires 0 <= i < |runs| => assert runs[i] != []; Line(i, runs[i][0].key));
    ghost var s := a[..];
    HeadsApart(runs, s);
    SortDescend.Sort4(a, count);
    PickReady(runs, s, a[..]);
    r := Pick(runs, a[..]);
  }

  // ----- putting out the least line ------------------------------------------------------

  /** What has been put out so far, and what is left. */
  ghost predicate Emitted(all: multiset<Line>, out: seq<Line>, rest: multiset<Line>, unique: bool)
  {
    InOrder(out, unique) && (out != [] ==> forall l :: l in rest ==> Le(out[|out| - 1].key, l.key)) &&
    Kept(all, out, rest, unique)
  }

  /** No line is lost, or with unique no key. */
  ghost predicate Kept(all: multiset<Line>, out: seq<Line>, rest: multiset<Line>, unique: bool)
  {
    if unique then
      (forall l :: l in out || l in rest ==> l in all) &&
      (forall l :: l in all ==> l in rest || HasKey(multiset(out), l.key))
    else multiset(out) + rest == all
  }

  function Emit(out: seq<Line>, l: Line, unique: bool): seq<Line>
  {
    if unique && out != [] && KeyCmp(out[|out| - 1].key, l.key) == 0 then out else out + [l]
  }

  lemma EmitOrder(out: seq<Line>, l: Line, unique: bool)
    requires InOrder(out, unique) && (out != [] ==> Le(out[|out| - 1].key, l.key) && Apart(out[|out| - 1].key, l.key))
    ensures InOrder(Emit(out, l, unique), unique) && Emit(out, l, unique) != [] &&
            Emit(out, l, unique)[|Emit(out, l, unique)| - 1].key == l.key
  {
    var n := |out| - 1;
    if out != [] {
      KeyCmpIs(out[n].key, l.key);
      forall i | 0 <= i < n ensures Le(out[i].key, l.key) {
        LeTrans(out[i].key, out[n].key, l.key);
      }
      if unique {
        forall i | 0 <= i < n && out[i].key == l.key ensures out[n].key == l.key {
          LeAntisymmetric(out[i].key, out[n].key);
        }
      }
    }
  }

  lemma EmittedIn(all: multiset<Line>, out: seq<Line>, rest: multiset<Line>, unique: bool)
    requires Emitted(all, out, rest, unique)
    ensures (forall l :: l in out ==> l in all) && forall l :: l in rest ==> l in all
  {
    if !unique {
      forall l | l in out ensures l in all {
        assert l in multiset(out);
      }
    }
  }

  lemma EmitKeys(out: seq<Line>, l: Line)
    requires out != [] ==> Apart(out[|out| - 1].key, l.key)
    ensures HasKey(multiset(Emit(out, l, true)), l.key)
    ensures forall k :: HasKey(multiset(out), k) ==> HasKey(multiset(Emit(out, l, true)), k)
  {
    var o := Emit(out, l, true);
    if out != [] {
      KeyCmpIs(out[|out| - 1].key, l.key);
    }
    var x := o[|o| - 1];
    assert x in multiset(o) && x.key == l.key;
    forall k | HasKey(multiset(out), k) ensures HasKey(multiset(o), k) {
      var y :| y in multiset(out) && y.key == k;
      assert y in multiset(o);
    }
  }

  lemma EmitFrom(out: seq<Line>, l: Line, m: Line)
    requires m in Emit(out, l, true)
    ensures m in out || m == l
  {
  }

  lemma EmitHolds(all: multiset<Line>, out: seq<Line>, rest: multiset<Line>, l: Line)
    requires (forall m :: m in out || m in rest ==> m in all) &&
             (forall m :: m in all ==> m in rest || HasKey(multiset(out), m.key))
    requires l in rest && PrefixFree(all)
    ensures forall m :: m in Emit(out, l, true) || m in rest - multiset{l} ==> m in all
    ensures forall m :: m in all ==> m in rest - multiset{l} || HasKey(multiset(Emit(out, l, true)), m.key)
  {
    assert out != [] ==> out[|out| - 1] in out && Apart(out[|out| - 1].key, l.key);
    EmitKeys(out, l);
    hide HasKey, PrefixFree, Emit;
    forall m | m in Emit(out, l, true) ensures m in all {
      EmitFrom(out, l, m);
    }
    forall m | m in all ensures m in rest - multiset{l} || HasKey(multiset(Emit(out, l, true)), m.key) {
      if m != l && m in rest {
        assert m in rest - multiset{l};
      }
    }
  }

  lemma EmitRest(out: seq<Line>, l: Line, rest: multiset<Line>, unique: bool)
    requires l in rest && (forall m :: m in rest ==> Le(l.key, m.key)) && out != [] && out[|out| - 1].key == l.key
    ensures forall m :: m in rest - multiset{l} ==> Le(out[|out| - 1].key, m.key)
  {
    forall m | m in rest - multiset{l} ensures Le(l.key, m.key) {
      assert m in rest;
    }
  }

  lemma EmitSame(all: multiset<Line>, out: seq<Line>, rest: multiset<Line>, l: Line)
    requires multiset(out) + rest == all && l in rest
    ensures multiset(Emit(out, l, false)) + (rest - multiset{l}) == all
  {
  }

  lemma EmittedParts(all: multiset<Line>, out: seq<Line>, rest: multiset<Line>, unique: bool)
    requires Emitted(all, out, rest, unique)
    ensures InOrder(out, unique) && (out != [] ==> forall l :: l in rest ==> Le(out[|out| - 1].key, l.key)) &&
            Kept(all, out, rest, unique)
  {
  }

  lemma EmitKept(all: multiset<Line>, out: seq<Line>, rest: multiset<Line>, l: Line, unique: bool)
    requires Kept(all, out, rest, unique) && l in rest && PrefixFree(all)
    ensures Kept(all, Emit(out, l, unique), rest - multiset{l}, unique)
  {
    hide HasKey, PrefixFree, Emit;
    if unique {
      EmitHolds(all, out, rest, l);
    } else {
      EmitSame(all, out, rest, l);
    }
  }

  /** The least line left goes out, unless its key has gone out and lines are to be unique. */
  lemma EmitStep(all: multiset<Line>, out: seq<Line>, rest: multiset<Line>, l: Line, unique: bool)
    requires Emitted(all, out, rest, unique) && l in rest && PrefixFree(all) &&
             forall m :: m in rest ==> Le(l.key, m.key)
    ensures Emitted(all, Emit(out, l, unique), rest - multiset{l}, unique)
  {
    hide Emitted, HasKey, InOrder, Emit, Le, Kept;
    EmittedIn(all, out, rest, unique);
    EmittedParts(all, out, rest, unique);
    assert out != [] ==> out[|out| - 1] in out && Apart(out[|out| - 1].key, l.key);
    hide PrefixFree;
    EmitOrder(out, l, unique);
    EmitRest(Emit(out, l, unique), l, rest, unique);
    EmitKept(all, out, rest, l, unique);
    EmittedOf(all, Emit(out, l, unique), rest - multiset{l}, unique);
  }

  lemma EmittedOf(all: multiset<Line>, out: seq<Line>, rest: multiset<Line>, unique: bool)
    requires InOrder(out, unique) && (out != [] ==> forall l :: l in rest ==> Le(out[|out| - 1].key, l.key)) &&
             Kept(all, out, rest, unique)
    ensures Emitted(all, out, rest, unique)
  {
  }

  lemma EmittedAll(all: multiset<Line>, out: seq<Line>, unique: bool)
    requires Emitted(all, out, multiset{}, unique)
    ensures IsSort(all, out, unique)
  {
  }

  // ----- merging -------------------------------------------------------------------------

  /** The first run's head is least, and the other heads are in order. */
  ghost predicate Leading(runs: seq<Run>)
  {
    Ready(runs) && (forall i :: 0 < i < |runs| ==> Le(runs[0][0].key, runs[i][0].key)) &&
    (forall i, j :: 0 < i < j < |runs| ==> Le(runs[i][0].key, runs[j][0].key))
  }

  lemma LeastHead(runs: seq<Run>, m: Line)
    requires Leading(runs) && runs != [] && m in Pool(runs)
    ensures Le(runs[0][0].key, m.key)
  {
    var j := PoolFrom(runs, m);
    var i :| 0 <= i < |runs[j]| && runs[j][i] == m;
    LeRefl(runs[0][0].key);
    LeRefl(runs[j][0].key);
    assert Sorted(runs[j]);
    assert Le(runs[j][0].key, m.key);
    LeTrans(runs[0][0].key, runs[j][0].key, m.key);
  }

  function Total(runs: seq<Run>): nat { |Pool(runs)| }

  lemma HeadTail<T>(s: seq<T>)
    requires s != []
    ensures multiset(s) == multiset{s[0]} + multiset(s[1..])
  {
    assert s == [s[0]] + s[1..];
  }

  lemma Cancel<T>(a: multiset<T>, b: multiset<T>, h: T, t: multiset<T>)
    requires a + (multiset{h} + t) == b + t
    ensures a + multiset{h} == b && a == b - multiset{h} && h in b && |a| < |b|
  {
    forall x ensures (a + multiset{h})[x] == b[x] {
      assert (a + (multiset{h} + t))[x] == (b + t)[x];
    }
    assert a + multiset{h} == b;
    assert |a + multiset{h}| == |a| + 1;
  }

  /** The first run without its head. */
  lemma HeadGone(runs: seq<Run>)
    requires Ready(runs) && runs != [] && |runs[0]| > 1
    ensures var r := runs[0 := runs[0][1..]];
            Ready(r) && Pool(r) == Pool(runs) - multiset{runs[0][0]} && runs[0][0] in Pool(runs) &&
            Total(r) < Total(runs)
  {
    hide Pool;
    var r := runs[0 := runs[0][1..]];
    PoolUpdate(runs, 0, runs[0][1..]);
    HeadTail(runs[0]);
    Cancel(Pool(r), Pool(runs), runs[0][0], multiset(runs[0][1..]));
    assert Sorted(runs[0]);
  }

  /** The first run has ended: the last takes its place. */
  function Replaced(runs: seq<Run>): seq<Run>
    requires runs != []
  {
    runs[0 := runs[|runs| - 1]][..|runs| - 1]
  }

  lemma PoolLast(runs: seq<Run>)
    requires runs != []
    ensures Pool(runs) == Pool(runs[..|runs| - 1]) + multiset(runs[|runs| - 1])
  {
  }

  lemma ReplacedPool(runs: seq<Run>)
    requires runs != [] && |runs[0]| == 1
    ensures Pool(Replaced(runs)) + (multiset{runs[0][0]} + multiset(runs[|runs| - 1])) == Pool(runs) +
              multiset(runs[|runs| - 1])
  {
    hide Pool;
    var n := |runs| - 1;
    var u := runs[0 := runs[n]];
    PoolUpdate(runs, 0, runs[n]);
    PoolLast(u);
    assert runs[0] == [runs[0][0]];
    assert u[n] == runs[n];
  }

  lemma RunGone(runs: seq<Run>)
    requires Ready(runs) && runs != [] && |runs[0]| == 1
    ensures var r := Replaced(runs);
            Ready(r) && Pool(r) == Pool(runs) - multiset{runs[0][0]} && runs[0][0] in Pool(runs) &&
            Total(r) < Total(runs)
  {
    hide Pool;
    ReplacedPool(runs);
    Cancel(Pool(Replaced(runs)), Pool(runs), runs[0][0], multiset(runs[|runs| - 1]));
  }

  lemma StillLeading(runs: seq<Run>)
    requires Leading(runs) && runs != [] && |runs[0]| > 1 && PrefixFree(Pool(runs))
    ensures var r: seq<Run> := runs[0 := runs[0][1..]];
            Ready(r) && (|r| == 1 || KeyCmp(r[0][0].key, r[1][0].key) <= 0 ==> Leading(r))
  {
    var r: seq<Run> := runs[0 := runs[0][1..]];
    HeadGone(runs);
    if |r| > 1 && KeyCmp(r[0][0].key, r[1][0].key) <= 0 {
      PoolHas(runs, 0, runs[0][1]);
      PoolHas(runs, 1, runs[1][0]);
      assert r[0][0] == runs[0][1];
      KeyCmpIs(r[0][0].key, r[1][0].key);
      forall i | 0 < i < |r| ensures Le(r[0][0].key, r[i][0].key) {
        if i > 1 {
          LeTrans(r[0][0].key, r[1][0].key, r[i][0].key);
        }
      }
    }
  }

  lemma PrefixFreeLess(a: multiset<Line>, b: multiset<Line>)
    requires PrefixFree(a) && b <= a
    ensures PrefixFree(b)
  {
  }

  /** Put out lines of the first run while its head is least. */
  method Drain(runs0: seq<Run>, out0: seq<Line>, unique: bool, ghost all: multiset<Line>)
    returns (runs: seq<Run>, out: seq<Line>)
    requires Leading(runs0) && runs0 != [] && Emitted(all, out0, Pool(runs0), unique) && PrefixFree(all) &&
             Pool(runs0) <= all
    ensures Ready(runs) && Emitted(all, out, Pool(runs), unique) && Pool(runs) <= all && Total(runs) < Total(runs0)
  {
    hide Pool, PrefixFree, Emitted, Emit, KeyCmp, Leading, Ready;
    runs, out := runs0, out0;
    LeadingReady(runs);
    var more := true;
    while more
      invariant Ready(runs) && Emitted(all, out, Pool(runs), unique) && Pool(runs) <= all && Total(runs) <= Total(runs0)
      invariant if more then Leading(runs) && runs != [] else Total(runs) < Total(runs0)
      decreases Total(runs), more
    {
      RunsReady(runs);
      var l := runs[0][0];
      forall m | m in Pool(runs) ensures Le(l.key, m.key) {
        LeastHead(runs, m);
      }
      PoolHas(runs, 0, l);
      PrefixFreeLess(all, Pool(runs));
      EmitStep(all, out, Pool(runs), l, unique);
      out := Emit(out, l, unique);
      if |runs[0]| == 1 {
        RunGone(runs);
        runs := Replaced(runs);
        more := false;
      } else {
        HeadGone(runs);
        StillLeading(runs);
        runs := runs[0 := runs[0][1..]];
        RunsReady(runs);
        if |runs| > 1 && KeyCmp(runs[0][0].key, runs[1][0].key) > 0 {
          more := false;
        }
      }
    }
  }

  lemma RunsReady(runs: seq<Run>)
    requires Ready(runs)
    ensures forall i :: 0 <= i < |runs| ==> runs[i] != []
  {
  }

  lemma LeadingReady(runs: seq<Run>)
    requires Leading(runs)
    ensures Ready(runs)
  {
  }

  lemma LeadingOf(runs: seq<Run>)
    requires Ready(runs) && HeadsSorted(runs)
    ensures Leading(runs)
  {
  }

  lemma EmittedStart(all: multiset<Line>, unique: bool)
    ensures Emitted(all, [], all, unique)
  {
  }

  /** mergefiles: the lines of all runs in order of their keys. */
  method Merge(runs0: seq<Run>, unique: bool, count: array<int>) returns (out: seq<Line>)
    requires Ready(runs0) && PrefixFree(Pool(runs0)) && AllZero(count[..])
    modifies count
    ensures IsSort(Pool(runs0), out, unique) && AllZero(count[..])
  {
    hide Pool, PrefixFree, Emitted, Leading, Ready, HeadsSorted, AllZero, IsSort;
    ghost var all := Pool(runs0);
    var runs := runs0;
    out := [];
    EmittedStart(all, unique);
    while runs != []
      invariant Ready(runs) && Emitted(all, out, Pool(runs), unique) && Pool(runs) <= all && AllZero(count[..])
      decreases Total(runs)
    {
      PrefixFreeLess(all, Pool(runs));
      runs := SortHeads(runs, count);
      LeadingOf(runs);
      runs, out := Drain(runs, out, unique, all);
    }
    assert Pool(runs) == multiset{} by { PoolNone(runs); }
    EmittedAll(all, out, unique);
  }

  lemma PoolNone(runs: seq<Run>)
    requires runs == []
    ensures Pool(runs) == multiset{}
  {
  }
}
