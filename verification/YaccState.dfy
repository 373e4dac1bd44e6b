/** state(): the state with a given core, found or added. */
module YaccState {
  import opened YaccGrammar
  import opened YaccItems
  import opened YaccPaths
  import opened YaccSort
  import opened YaccAutomaton
  import YaccCores

  /** A kernel just put together by moving the dot over c. */
  ghost predicate Candidate(d: Tables, s: seq<Entry>, c: Sym)
  {
    s != [] && KernelOk(d, s) && Honest(d, s) && forall k :: 0 <= k < |s| ==> Behind(d.g, s[k].item, c)
  }

  lemma SortedCandidate(d: Tables, s: seq<Entry>, r: seq<Entry>, c: Sym)
    requires Candidate(d, s, c) && Reordered(s, r) && Ascending(r)
    ensures Candidate(d, r, c) && Core(r) == Core(s) && StateOk(d, r)
  {
    forall e ensures e in r <==> e in s {
      ReorderedIn(s, r, e);
    }
    forall it ensures it in Core(r) <==> it in Core(s) {
      ReorderedItem(s, r, it);
      ReorderedItem(r, s, it);
    }
    hide Honest, Behind;
    SortedHonest(d, s, r);
    SortedKernel(d, s, r);
    forall k | 0 <= k < |r| ensures Behind(d.g, r[k].item, c) {
      assert r[k] in s;
      var l :| 0 <= l < |s| && s[l] == r[k];
    }
  }

  lemma ReorderedItem(s: seq<Entry>, r: seq<Entry>, it: Item)
    requires forall e :: e in r <==> e in s
    ensures it in Core(r) ==> it in Core(s)
  {
    if it in Core(r) {
      var k :| 0 <= k < |r| && r[k].item == it;
      assert r[k] in s;
      var l :| 0 <= l < |s| && s[l] == r[k];
    }
  }

  lemma SortedHonest(d: Tables, s: seq<Entry>, r: seq<Entry>)
    requires Honest(d, s) && Core(r) == Core(s) && forall e :: e in r <==> e in s
    ensures Honest(d, r)
  {
    hide Due, Reachable;
    forall k, t | 0 <= k < |r| && t in r[k].look ensures Due(d, Core(r), r[k].item, t) {
      assert r[k] in s;
      var l :| 0 <= l < |s| && s[l] == r[k];
    }
  }

  lemma SortedKernel(d: Tables, s: seq<Entry>, r: seq<Entry>)
    requires KernelOk(d, s) && Ascending(r) && forall e :: e in r <==> e in s
    ensures KernelOk(d, r)
  {
    forall k | 0 <= k < |r| ensures ItemOk(d.g, r[k].item) && forall t :: t in r[k].look ==> 0 < t <= d.g.tokens {
      assert r[k] in s;
      var l :| 0 <= l < |s| && s[l] == r[k];
    }
  }

  // ----- looking for it ------------------------------------------------------------------

  /** Search the list of c for the items of s; zero if they are not there. */
  method Find(a: Auto, s: seq<Entry>, c: Sym) returns (i: nat)
    requires Sized(a) && Lists(a)
    ensures i == 0 ==> forall j :: 1 <= j < |a.states| && a.acc[j] == c ==> !SameItems(a.states[j], s)
    ensures i > 0 ==> i < |a.states| && a.acc[i] == c && SameItems(a.states[i], s)
  {
    i := Head(a, c);
    while i != 0 && !SameItems(a.states[i], s)
      invariant i == 0 || (i < |a.states| && a.acc[i] == c)
      invariant forall j :: 1 <= j < |a.states| && a.acc[j] == c && SameItems(a.states[j], s) ==> OnList(a.next, i, j)
      decreases i
    {
      i := a.next[i];
    }
  }

  /** Not under c, then nowhere: a core has one symbol behind its dots. */
  lemma NowhereElse(d: Tables, a: Auto, s: seq<Entry>, c: Sym)
    requires Sized(a) && Entered(d, a) && StatesOk(d, a) && Candidate(d, s, c)
    requires forall j :: 1 <= j < |a.states| && a.acc[j] == c ==> !SameItems(a.states[j], s)
    ensures forall j :: 0 <= j < |a.states| ==> !SameItems(a.states[j], s)
  {
    forall j | 0 <= j < |a.states| ensures !SameItems(a.states[j], s) {
      assert StateOk(d, a.states[j]);
      assert Behind(d.g, s[0].item, c);
      assert j > 0 ==> Behind(d.g, a.states[j][0].item, a.acc[j]);
    }
  }

  // ----- adding it -----------------------------------------------------------------------

  function Added(a: Auto, s: seq<Entry>, c: Sym): Auto
  {
    Auto(a.states + [s], a.ty + [MUSTDO], a.heads[c := |a.states|], a.next + [Head(a, c)], a.acc + [c])
  }

  lemma {:induction false} OnListKept(next: seq<nat>, m: nat, i: nat, j: nat)
    requires OnList(next, i, j)
    ensures OnList(next + [m], i, j)
    decreases i
  {
    if i != j {
      OnListKept(next, m, next[i], j);
    }
  }

  lemma AddedLists(a: Auto, s: seq<Entry>, c: Sym)
    requires Sized(a) && Lists(a) && |a.states| + 1 < NSTATES
    ensures Sized(Added(a, s, c)) && Lists(Added(a, s, c))
  {
    var b := Added(a, s, c);
    var n := |a.states|;
    forall j | 1 <= j < |b.acc| ensures OnList(b.next, Head(b, b.acc[j]), j) {
      if j < n {
        OnListKept(a.next, Head(a, c), Head(a, a.acc[j]), j);
        if a.acc[j] == c {
          assert OnList(b.next, b.next[n], j);
        }
      }
    }
  }

  lemma AddedGrows(a: Auto, s: seq<Entry>, c: Sym)
    requires Sized(a)
    ensures Grows(a, Added(a, s, c))
  {
  }

  lemma AddedParts(d: Tables, a: Auto, s: seq<Entry>, c: Sym)
    requires Sized(a) && StatesOk(d, a) && Entered(d, a) && Apart(a) && Candidate(d, s, c) && StateOk(d, s)
    requires forall j :: 0 <= j < |a.states| ==> !SameItems(a.states[j], s)
    requires |a.states| + 1 < NSTATES
    ensures var b := Added(a, s, c); Sized(b) && StatesOk(d, b) && Entered(d, b) && Apart(b)
  {
    hide StateOk, Behind;
    var b := Added(a, s, c);
    assert forall i :: 0 <= i < |a.states| ==> b.states[i] == a.states[i];
  }

  lemma GotosGrow(d: Tables, a: Auto, b: Auto, busy: set<nat>)
    requires Grows(a, b) && |a.ty| == |a.states| && |b.ty| == |b.states|
    requires forall i: nat :: i < |a.states| && i !in busy && a.ty[i] != MUSTDO ==> GotosThere(d, a, i)
    requires forall i: nat ::
               i < |b.states| && b.ty[i] != MUSTDO ==> i < |a.states| && (i in busy || b.ty[i] == a.ty[i])
    ensures forall i: nat :: i < |b.states| && i !in busy && b.ty[i] != MUSTDO ==> GotosThere(d, b, i)
  {
    hide GotosThere, Grows;
    forall i: nat | i < |b.states| && i !in busy && b.ty[i] != MUSTDO ensures GotosThere(d, b, i) {
      GotosKept(d, a, b, i);
    }
  }

  lemma AddedOk(d: Tables, a: Auto, s: seq<Entry>, c: Sym, busy: set<nat>)
    requires AutoOk(d, a, busy) && Candidate(d, s, c) && StateOk(d, s) && |a.states| + 1 < NSTATES
    requires forall j :: 0 <= j < |a.states| ==> !SameItems(a.states[j], s)
    ensures AutoOk(d, Added(a, s, c), busy) && Grows(a, Added(a, s, c))
  {
    hide StatesOk, Entered, Lists, Apart, GotosThere, Candidate, StateOk, Grows;
    AddedParts(d, a, s, c);
    AddedLists(a, s, c);
    AddedGrows(a, s, c);
    GotosGrow(d, a, Added(a, s, c), busy);
  }

  // ----- merging lookaheads --------------------------------------------------------------

  /** The looks of s added to kernel r of the same items. */
  function Merged(r: seq<Entry>, s: seq<Entry>): (m: seq<Entry>)
    requires SameItems(r, s)
    ensures |m| == |r| && forall k :: 0 <= k < |r| ==> m[k] == Entry(r[k].item, r[k].look + s[k].look)
  {
    seq(|r|, k requires 0 <= k < |r| => Entry(r[k].item, r[k].look + s[k].look))
  }

  predicate NoNews(r: seq<Entry>, s: seq<Entry>)
    requires SameItems(r, s)
  {
    forall k :: 0 <= k < |r| ==> s[k].look <= r[k].look
  }

  /** Exactly the lookaheads of both. */
  ghost predicate Joined(m: seq<Entry>, r: seq<Entry>, s: seq<Entry>)
  {
    forall it, t :: InKernelWith(m, it, t) <==> InKernelWith(r, it, t) || InKernelWith(s, it, t)
  }

  lemma MergedLooks(r: seq<Entry>, s: seq<Entry>)
    requires SameItems(r, s)
    ensures Joined(Merged(r, s), r, s)
  {
    var m := Merged(r, s);
    forall it, t ensures InKernelWith(m, it, t) <==> InKernelWith(r, it, t) || InKernelWith(s, it, t) {
      if InKernelWith(m, it, t) {
        var k :| 0 <= k < |m| && m[k].item == it && t in m[k].look;
        assert t in r[k].look || t in s[k].look;
      }
      if InKernelWith(r, it, t) {
        var k :| 0 <= k < |r| && r[k].item == it && t in r[k].look;
        assert t in m[k].look;
      }
      if InKernelWith(s, it, t) {
        var k :| 0 <= k < |s| && s[k].item == it && t in s[k].look;
        assert t in m[k].look;
      }
    }
  }

  lemma NoNewsJoined(r: seq<Entry>, s: seq<Entry>)
    requires SameItems(r, s) && NoNews(r, s)
    ensures Joined(r, r, s)
  {
    forall it, t | InKernelWith(s, it, t) ensures InKernelWith(r, it, t) {
      var k :| 0 <= k < |s| && s[k].item == it && t in s[k].look;
      assert t in r[k].look;
    }
  }

  lemma ReorderedJoined(m: seq<Entry>, was: seq<Entry>, s: seq<Entry>, r: seq<Entry>)
    requires Joined(m, was, r) && Reordered(s, r)
    ensures Joined(m, was, s)
  {
    forall e ensures e in r <==> e in s {
      ReorderedIn(s, r, e);
    }
    forall it, t ensures InKernelWith(r, it, t) <==> InKernelWith(s, it, t) {
      WithAny(r, it, t);
      WithAny(s, it, t);
    }
  }

  lemma WithAny(s: seq<Entry>, it: Item, t: nat)
    ensures InKernelWith(s, it, t) <==> exists e :: e in s && e.item == it && t in e.look
  {
  }

  lemma MergedOk(d: Tables, r: seq<Entry>, s: seq<Entry>)
    requires StateOk(d, r) && KernelOk(d, s) && Honest(d, s) && SameItems(r, s)
    ensures StateOk(d, Merged(r, s)) && Core(Merged(r, s)) == Core(r) && SameItems(Merged(r, s), r)
    ensures Covers(Merged(r, s), r)
  {
    var m := Merged(r, s);
    MergedLooks(r, s);
    SameCore(m, r);
    SameCore(r, s);
    assert KernelOk(d, m);
    hide Due, Reachable, KernelOk;
    forall k, t | 0 <= k < |m| && t in m[k].look ensures Due(d, Core(m), m[k].item, t) {
      assert t in r[k].look || t in s[k].look;
    }
  }

  function WithLooks(a: Auto, i: nat, s: seq<Entry>): Auto
    requires i < |a.states| && i < |a.ty| && SameItems(a.states[i], s)
  {
    a.(states := a.states[i := Merged(a.states[i], s)], ty := a.ty[i := MUSTDO])
  }

  lemma WithParts(d: Tables, a: Auto, i: nat, s: seq<Entry>)
    requires Sized(a) && StatesOk(d, a) && Entered(d, a) && Lists(a) && Apart(a) && i < |a.states| && KernelOk(d, s) &&
             Honest(d, s) && SameItems(a.states[i], s)
    ensures var b := WithLooks(a, i, s);
            Sized(b) && StatesOk(d, b) && Entered(d, b) && Lists(b) && Apart(b) && Grows(a, b)
  {
    MergedOk(d, a.states[i], s);
    hide StateOk, KernelOk, Honest, Behind;
    var b := WithLooks(a, i, s);
    var m := Merged(a.states[i], s);
    forall x, y | 0 <= x < y < |b.states| ensures !SameItems(b.states[x], b.states[y]) {
      assert !SameItems(a.states[x], a.states[y]);
    }
    forall j | 1 <= j < |b.acc| ensures OnList(b.next, Head(b, b.acc[j]), j) {
      assert OnList(a.next, Head(a, a.acc[j]), j);
    }
    assert Entered(d, b);
  }

  lemma WithOk(d: Tables, a: Auto, i: nat, s: seq<Entry>, busy: set<nat>)
    requires AutoOk(d, a, busy) && i < |a.states| && KernelOk(d, s) && Honest(d, s) && SameItems(a.states[i], s)
    ensures AutoOk(d, WithLooks(a, i, s), busy) && Grows(a, WithLooks(a, i, s))
  {
    hide StatesOk, Entered, Lists, Apart, GotosThere, KernelOk, Honest, SameItems, Grows, Merged;
    WithParts(d, a, i, s);
    GotosGrow(d, a, WithLooks(a, i, s), busy);
  }

  // ----- how far there is to go ----------------------------------------------------------

  /** Lookaheads not recorded. */
  ghost function Missing(d: Tables, a: Auto): set<(nat, nat, nat)>
  {
    set i: nat, k: nat, t: nat | i < |a.states| && k < |a.states[i]| && t <= d.g.tokens &&
    t !in a.states[i][k].look :: (i, k, t)
  }

  lemma MissingLess(d: Tables, a: Auto, i: nat, s: seq<Entry>)
    requires i < |a.states| && i < |a.ty| && SameItems(a.states[i], s) && !NoNews(a.states[i], s) && KernelOk(d, s)
    ensures Missing(d, WithLooks(a, i, s)) < Missing(d, a)
  {
    var b := WithLooks(a, i, s);
    var r := a.states[i];
    var k :| 0 <= k < |r| && !(s[k].look <= r[k].look);
    var t :| t in s[k].look && t !in r[k].look;
    assert (i, k, t) in Missing(d, a) && (i, k, t) !in Missing(d, b);
    forall j: nat, l: nat, x: nat | (j, l, x) in Missing(d, b) ensures (j, l, x) in Missing(d, a) {
    }
    assert Missing(d, b) <= Missing(d, a);
  }

  /** b has more states than a, or as many and more lookaheads, or is a. */
  ghost predicate Further(d: Tables, a: Auto, b: Auto)
  {
    |b.states| > |a.states| || (|b.states| == |a.states| && Missing(d, b) < Missing(d, a)) || b == a
  }

  /** What registering the kernel s as state j makes of a: its lookaheads are joined to those of the state, which
      is to be done again if they are more, or a new state; nothing else changes. */
  ghost predicate Registered(a: Auto, b: Auto, s: seq<Entry>, j: nat)
  {
    |a.ty| == |a.states| && |b.ty| == |b.states| && |a.states| <= |b.states| && j < |b.states| &&
    (forall i :: 0 <= i < |a.states| && i != j ==> b.states[i] == a.states[i] && b.ty[i] == a.ty[i]) &&
    if j < |a.states| then
      |b.states| == |a.states| && Joined(b.states[j], a.states[j], s) &&
      (b.ty[j] == MUSTDO || (b.states[j] == a.states[j] && b.ty[j] == a.ty[j]))
    else
      |b.states| == |a.states| + 1 && b.ty[j] == MUSTDO && Joined(b.states[j], [], s)
  }

  lemma RegisteredNew(a: Auto, s: seq<Entry>, r: seq<Entry>, c: Sym)
    requires Sized(a) && Reordered(s, r)
    ensures Registered(a, Added(a, r, c), s, |a.states|)
  {
    assert Joined(r, [], r);
    ReorderedJoined(r, [], s, r);
  }

  lemma RegisteredMerged(a: Auto, i: nat, s: seq<Entry>, r: seq<Entry>)
    requires Sized(a) && i < |a.states| && SameItems(a.states[i], r) && Reordered(s, r)
    ensures Registered(a, WithLooks(a, i, r), s, i)
    ensures NoNews(a.states[i], r) ==> Registered(a, a, s, i)
  {
    MergedLooks(a.states[i], r);
    ReorderedJoined(Merged(a.states[i], r), a.states[i], s, r);
    if NoNews(a.states[i], r) {
      NoNewsJoined(a.states[i], r);
      ReorderedJoined(a.states[i], a.states[i], s, r);
    }
  }

  /** state(c): the number of the state with the items of s, which is added if it is new, and whose
      lookaheads now include those of s. */
  method State(d: Tables, a: Auto, s: seq<Entry>, c: Sym, ghost busy: set<nat>) returns (b: Auto, j: nat, ok: bool)
    requires AutoOk(d, a, busy) && Candidate(d, s, c)
    ensures ok ==> AutoOk(d, b, busy) && Grows(a, b) && Further(d, a, b) && 0 < j < |b.states| && b.acc[j] == c &&
                   Core(b.states[j]) == Core(s) && Registered(a, b, s, j)
    ensures ok <==> |a.states| + 1 < NSTATES || Core(s) in YaccCores.CoresOf(a.states)
    ensures !ok ==> b == a && YaccCores.TooMany(d)
  {
    var r := SortItems(s);
    SortedCandidate(d, s, r, c);
    assert KernelOk(d, r) && Honest(d, r);
    var i := Find(a, r, c);
    if i > 0 {
      SameCore(a.states[i], r);
      YaccCores.CoresIn(a.states, Core(s));
      RegisteredMerged(a, i, s, r);
      hide Registered;
      if NoNews(a.states[i], r) {
        b, j, ok := a, i, true;
      } else {
        hide AutoOk, Candidate, Missing, KernelOk, Honest;
        WithOk(d, a, i, r, busy);
        MissingLess(d, a, i, r);
        SameCore(a.states[i], Merged(a.states[i], r));
        b, j, ok := WithLooks(a, i, r), i, true;
      }
    } else if |a.states| + 1 >= NSTATES {
      NowhereElse(d, a, r, c);
      YaccCores.Overflows(d, a, r);
      YaccCores.NewCore(d, a, r);
      b, j, ok := a, 0, false;
    } else {
      NowhereElse(d, a, r, c);
      RegisteredNew(a, s, r, c);
      hide Candidate, StateOk, Missing, Registered;
      AddedOk(d, a, r, c, busy);
      b, j, ok := Added(a, r, c), |a.states|, true;
    }
  }
}
