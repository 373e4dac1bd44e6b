/** The main loop of stagen, and the shifts that output looks up again. */
module YaccGenerate {
  import opened YaccGrammar
  import opened YaccItems
  import opened YaccPaths
  import opened YaccSort
  import opened YaccAutomaton
  import opened YaccState
  import opened YaccStagen
  import opened YaccCores
  import opened YaccLooks
  import C = YaccClosure

  ghost function MustDo(a: Auto): set<nat> { set i: nat | i < |a.ty| && a.ty[i] == MUSTDO }

  /** b is nearer to the end than a: more states, or as many and more lookaheads, or the same and less to do. */
  ghost predicate Nearer(d: Tables, a: Auto, b: Auto)
  {
    |b.states| > |a.states| ||
    (|b.states| == |a.states| &&
    (Missing(d, b) < Missing(d, a) || (Missing(d, b) == Missing(d, a) && MustDo(b) < MustDo(a))))
  }

  lemma NearerFurther(d: Tables, a: Auto, b: Auto, c: Auto)
    requires Nearer(d, a, b) && Further(d, b, c)
    ensures Nearer(d, a, c)
  {
  }

  lemma NearerTrans(d: Tables, a: Auto, b: Auto, c: Auto)
    requires Nearer(d, a, b) && Nearer(d, b, c)
    ensures Nearer(d, a, c)
  {
  }

  // ----- marks ---------------------------------------------------------------------------

  function WithTy(a: Auto, i: nat, k: Kind): Auto
    requires i < |a.ty|
  {
    a.(ty := a.ty[i := k])
  }

  lemma WithTyParts(d: Tables, a: Auto, i: nat, k: Kind)
    requires Sized(a) && StatesOk(d, a) && Entered(d, a) && Lists(a) && Apart(a) && i < |a.ty|
    ensures var b := WithTy(a, i, k); Sized(b) && StatesOk(d, b) && Entered(d, b) && Lists(b) && Apart(b) && Grows(a, b)
  {
    hide StateOk, Behind, SameItems;
    forall j | 1 <= j < |a.acc| ensures OnList(a.next, Head(WithTy(a, i, k), a.acc[j]), j) {
      assert OnList(a.next, Head(a, a.acc[j]), j);
    }
  }

  /** A mark on the state being worked on. */
  lemma MarkOk(d: Tables, a: Auto, i: nat, k: Kind)
    requires AutoOk(d, a, {i}) && i < |a.states|
    ensures AutoOk(d, WithTy(a, i, k), {i}) && Grows(a, WithTy(a, i, k))
  {
    hide StatesOk, Entered, Lists, Apart, GotosThere, Grows;
    WithTyParts(d, a, i, k);
    GotosGrow(d, a, WithTy(a, i, k), {i});
  }

  lemma MissingSame(d: Tables, a: Auto, b: Auto)
    requires b.states == a.states
    ensures Missing(d, b) == Missing(d, a)
  {
  }

  /** Work on a state begins: it is not to be done any more. */
  lemma BeginOk(d: Tables, a: Auto, i: nat)
    requires AutoOk(d, a, {}) && i < |a.states| && a.ty[i] == MUSTDO
    ensures AutoOk(d, WithTy(a, i, DONE), {i}) && Grows(a, WithTy(a, i, DONE)) && Nearer(d, a, WithTy(a, i, DONE))
  {
    hide StatesOk, Entered, Lists, Apart, GotosThere;
    var b := WithTy(a, i, DONE);
    assert AutoOk(d, a, {i});
    MarkOk(d, a, i, DONE);
    MissingSame(d, a, b);
    assert i in MustDo(a) && i !in MustDo(b);
    assert MustDo(b) <= MustDo(a);
  }

  lemma MarkNearer(d: Tables, a: Auto, b: Auto, i: nat)
    requires Nearer(d, a, b) && i < |b.ty|
    ensures Nearer(d, a, WithTy(b, i, MUSTLOOKAHEAD))
  {
    MissingSame(d, b, WithTy(b, i, MUSTLOOKAHEAD));
    assert MustDo(WithTy(b, i, MUSTLOOKAHEAD)) <= MustDo(b);
  }

  lemma EndOk(d: Tables, a: Auto, i: nat)
    requires AutoOk(d, a, {i}) && i < |a.states| && GotosThere(d, a, i)
    ensures AutoOk(d, a, {})
  {
    hide StatesOk, Entered, Lists, Apart, GotosThere;
  }

  lemma GrowsCore(a: Auto, b: Auto, i: nat)
    requires Grows(a, b) && i < |a.states|
    ensures i < |b.states| && Core(b.states[i]) == Core(a.states[i]) && Grows(b, b)
  {
  }

  lemma KernelOf(d: Tables, a: Auto, i: nat, busy: set<nat>)
    requires AutoOk(d, a, busy) && i < |a.states|
    ensures StateOk(d, a.states[i]) && KernelOk(d, a.states[i]) && Honest(d, a.states[i]) && Sized(a) && Grows(a, a)
  {
  }

  lemma TargetOf(d: Tables, a: Auto, kernel: seq<Entry>, s: seq<Entry>, c: Sym, j: nat)
    requires 0 < j < |a.states| && j < |a.acc| && a.acc[j] == c && Core(a.states[j]) == Core(s) &&
             forall it :: it in Core(s) <==> IsGoto(d, kernel, c, it)
    ensures Target(d, a, kernel, c, j)
  {
  }

  /** What the loop over the working set keeps. */
  ghost predicate Moving(d: Tables, a: Auto, i: nat, kernel: seq<Entry>, w: Work, p: nat)
  {
    AutoOk(d, a, {i}) && i < |a.states| && Core(a.states[i]) == Core(kernel) && Honest(d, kernel) && Grows(a, a) &&
    IsWork(d, kernel, w) && Served(d, a, kernel, w, p) && Marked(d, w, p) && Looking(d, a, i, kernel, w)
  }

  /** What it keeps of lookaheads. */
  ghost predicate Looking(d: Tables, a: Auto, i: nat, kernel: seq<Entry>, w: Work)
  {
    LooksDone(d, a, {i}) && Pending(d, a, i, kernel) && FirstItems(kernel, w)
  }

  lemma LookingSame(d: Tables, a: Auto, i: nat, kernel: seq<Entry>, w: Work, w': Work)
    requires Looking(d, a, i, kernel, w) && SameWork(w, w')
    ensures Looking(d, a, i, kernel, w')
  {
    hide LooksDone, Pending;
  }

  lemma LookingMark(d: Tables, a: Auto, i: nat, kernel: seq<Entry>, w: Work, p: nat)
    requires Looking(d, a, i, kernel, w) && Grows(a, WithTy(a, i, MUSTLOOKAHEAD)) && Core(a.states[i]) == Core(kernel)
    requires IsWork(d, kernel, w) && |kernel| <= p < |w| && ItemOk(d.g, w[p].item) && AtEnd(d.g, w[p].item)
    ensures Looking(d, WithTy(a, i, MUSTLOOKAHEAD), i, kernel, w)
  {
    hide Grows, OpensEmpty, IsWork, AtEnd, FirstItems, Core, Risky, LooksThere, Loops;
    var b := WithTy(a, i, MUSTLOOKAHEAD);
    EndOpens(d, kernel, w, p);
    PendingMark(d, a, b, i, kernel);
    assert Redone(a, b, {i});
    DoneKept(d, a, b, {i});
  }

  lemma LookingState(d: Tables, a: Auto, b: Auto, i: nat, kernel: seq<Entry>, w: Work, s: seq<Entry>, c: Sym, j: nat)
    requires Looking(d, a, i, kernel, w) && Grows(a, b) && Registered(a, b, s, j) && c != Tok(1)
    requires Core(a.states[i]) == Core(kernel) && Target(d, b, kernel, c, j)
    ensures Looking(d, b, i, kernel, w)
  {
    hide Registered, Grows, Target, Core, Pending, LooksDone;
    RegisteredRedone(a, b, s, j, {i});
    DoneKept(d, a, b, {i});
    PendingIn(d, a, i, kernel);
    PendingState(d, a, b, i, kernel, s, c, j);
  }

  lemma PendingIn(d: Tables, a: Auto, i: nat, kernel: seq<Entry>)
    requires Pending(d, a, i, kernel)
    ensures i < |a.states| == |a.ty|
  {
  }

  /** Work on state i begins. */
  lemma LookingStarts(d: Tables, a: Auto, i: nat, w: Work)
    requires LooksDone(d, a, {}) && i < |a.states| && Sized(a) && C.IsClosure(d, a.states[i], w, false)
    requires Grows(a, WithTy(a, i, DONE))
    ensures Looking(d, WithTy(a, i, DONE), i, a.states[i], w)
  {
    hide Risky, LooksThere, Grows;
    var b := WithTy(a, i, DONE);
    assert LooksDone(d, a, {i});
    assert Redone(a, b, {i});
    DoneKept(d, a, b, {i});
  }

  lemma WorkStarts(d: Tables, a: Auto, kernel: seq<Entry>, w: Work)
    requires C.IsClosure(d, kernel, w, false)
    ensures IsWork(d, kernel, w) && Served(d, a, kernel, w, 0) && Marked(d, w, 0)
  {
  }

  class Generator {
    const d: Tables
    var a: Auto

    constructor (d: Tables)
      requires TablesOk(d)
      ensures this.d == d && AutoOk(d, a, {}) && LooksDone(d, a, {})
    {
      this.d := d;
      a := Auto([[Entry(Item(0, 0), {})]], [MUSTDO], map[], [0], [Tok(0)]);
      new;
      StartOk(d);
    }

    /** One entry of the working set of state i. */
    method Move(i: nat, w: Work, p: nat, size: nat, ghost kernel: seq<Entry>) returns (w': Work, ok: bool)
      requires TablesOk(d) && Moving(d, a, i, kernel, w, p) && p < |w| && size == |kernel|
      modifies this
      ensures ok ==> |w'| == |w| && Moving(d, a, i, kernel, w', p + 1)
      ensures ok ==> forall b :: Nearer(d, b, old(a)) ==> Nearer(d, b, a)
      ensures !ok ==> TooMany(d)
    {
      hide AutoOk, Honest, IsWork, Served, Marked, Grows, Missing, MustDo, Core, Collected, FlagsSet, Candidate, IsGoto,
        SameWork, Target, LooksPassed, Registered, Looking;
      var it := w[p].item;
      WorkShape(d, kernel, w);
      if w[p].flag {
        ServedFlagged(d, a, kernel, w, p);
        return w, true;
      }
      var rhs := d.g.prods[it.p].rhs;
      if it.dot >= |rhs| || rhs[it.dot] == Tok(1) {
        w' := w[p := w[p].(flag := true)];
        FlagSame(w, p);
        WorkKept(d, kernel, w, w');
        ServedEnd(d, a, kernel, w, w', p);
        LookingSame(d, a, i, kernel, w, w');
        if size <= p {
          SizedOf(d, a, {i});
          forall b | Nearer(d, b, a) ensures Nearer(d, b, WithTy(a, i, MUSTLOOKAHEAD)) {
            MarkNearer(d, b, a, i);
          }
          MarkOk(d, a, i, MUSTLOOKAHEAD);
          GrowsCore(a, WithTy(a, i, MUSTLOOKAHEAD), i);
          SameRefl(w');
          ServedKept(d, a, WithTy(a, i, MUSTLOOKAHEAD), kernel, w', w', p + 1);
          LookingMark(d, a, i, kernel, w', p);
          a := WithTy(a, i, MUSTLOOKAHEAD);
        }
        return w', true;
      }
      var c := rhs[it.dot];
      FirstUnflagged(d, w, p, c);
      var s;
      s, w' := Collect(d, w, p, c);
      CollectedCandidate(d, kernel, w, c, p, s);
      var a', j;
      a', j, ok := State(d, a, s, c, {i});
      if ok {
        MarkedNext(d, w, w', p, c);
        SameLength(w, w');
        WorkKept(d, kernel, w, w');
        GrowsCore(a, a', i);
        SizedOf(d, a', {i});
        TargetOf(d, a', kernel, s, c, j);
        PassedNow(d, kernel, w, c, p, s, a, a', j);
        LookingState(d, a, a', i, kernel, w, s, c, j);
        LookingSame(d, a', i, kernel, w, w');
        ServedKept(d, a, a', kernel, w, w', p);
        ServedNext(d, a', kernel, w', p, c, j);
        forall b | Nearer(d, b, a) ensures Nearer(d, b, a') {
          NearerFurther(d, b, a, a');
        }
        a := a';
      }
    }

    /** Close state i and give it a state for every symbol its closure moves over. */
    method Process(i: nat) returns (ok: bool)
      requires TablesOk(d) && AutoOk(d, a, {}) && LooksDone(d, a, {}) && i < |a.states| && a.ty[i] == MUSTDO
      modifies this
      ensures ok ==> AutoOk(d, a, {}) && LooksDone(d, a, {}) && Nearer(d, old(a), a)
      ensures ok ==> forall x :: x != Tok(1) && Moves(d, old(a).states[i], x) ==> HasTarget(d, a, old(a).states[i], x)
      ensures !ok ==> TooMany(d)
    {
      SizedOf(d, a, {});
      hide AutoOk, Moving, Nearer, C.IsClosure, Honest, KernelOk, Grows, Core, GotosThere, LooksDone, HasTarget, Moves;
      KernelOf(d, a, i, {});
      ghost var kernel := a.states[i];
      ghost var a0 := a;
      var size := |a.states[i]|;
      BeginOk(d, a, i);
      a := WithTy(a, i, DONE);
      var w := C.Closure(d, a.states[i], false);
      LookingStarts(d, a0, i, w);
      MovingStarts(d, a0, a, i, w);
      var p := 0;
      var n := |w|;
      while p < n
        invariant p <= n == |w| && Moving(d, a, i, kernel, w, p) && Nearer(d, a0, a)
      {
        w, ok := Move(i, w, p, size, kernel);
        if !ok {
          return false;
        }
        p := p + 1;
      }
      MovingEnds(d, a, i, kernel, w);
      ok := true;
    }

    /** stagen: until no state is left to do. */
    method Stagen() returns (ok: bool)
      requires TablesOk(d) && AutoOk(d, a, {}) && LooksDone(d, a, {})
      modifies this
      ensures ok ==> Generated(d, a) && Looked(d, a)
      ensures ok <==> !TooMany(d)
    {
      hide AutoOk, Missing, MustDo, GotosThere, TooMany, Generated, LooksDone, Looked, HasTarget, Moves;
      SizedOf(d, a, {});
      var more := true;
      while more
        invariant AutoOk(d, a, {}) && LooksDone(d, a, {}) && Sized(a)
        invariant !more ==> forall k :: 0 <= k < |a.ty| ==> a.ty[k] != MUSTDO
        decreases NSTATES - |a.states|, Missing(d, a), MustDo(a), more
      {
        more := false;
        SizedOf(d, a, {});
        ghost var a0 := a;
        var i := 0;
        while i < |a.states|
          invariant AutoOk(d, a, {}) && LooksDone(d, a, {}) && Sized(a) && i <= |a.states|
          invariant more ==> Nearer(d, a0, a)
          invariant !more ==> a == a0 && forall k :: 0 <= k < i ==> a.ty[k] != MUSTDO
          decreases NSTATES - |a.states|, Missing(d, a), MustDo(a), |a.states| - i
        {
          if a.ty[i] == MUSTDO {
            ghost var b := a;
            ok := Process(i);
            if !ok {
              return false;
            }
            SizedOf(d, a, {});
            NearerStates(d, b, a);
            if more {
              NearerTrans(d, a0, b, a);
            }
            more := true;
          }
          i := i + 1;
        }
      }
      ok := true;
      GeneratedOf(d, a);
      LookedOf(d, a);
      GeneratedEnough(d, a);
    }
  }

  /** output's shifts of state i: its closure again, without lookaheads, and for each token the
      state with the moved items, which is always found. */
  method Shifts(d: Tables, a: Auto, i: nat) returns (shift: map<nat, nat>)
    requires TablesOk(d) && Generated(d, a) && i < |a.states|
    ensures forall c :: c in shift <==> c > 1 && Moves(d, a.states[i], Tok(c))
    ensures forall c :: c in shift ==> Target(d, a, a.states[i], Tok(c), shift[c])
  {
    hide Generated, Target, InClosure, Honest, KernelOk, C.IsClosure, IsGoto;
    GeneratedKernel(d, a, i);
    var kernel := a.states[i];
    var w := C.Closure(d, kernel, true);
    ClosureItems(d, kernel, w);
    shift := map[];
    for u := 0 to |w|
      invariant forall c :: c in shift <==> c > 1 && exists q :: 0 <= q < u && Before(d.g, w[q].item, Tok(c))
      invariant forall c :: c in shift ==> Target(d, a, kernel, Tok(c), shift[c])
    {
      var it := w[u].item;
      var rhs := d.g.prods[it.p].rhs;
      if it.dot < |rhs| && rhs[it.dot].Tok? && rhs[it.dot].t > 1 && rhs[it.dot].t !in shift {
        var c := rhs[it.dot];
        var s, _ := Collect(d, w, u, c);
        assert FirstAt(d, w, c, u);
        var j := FindShift(d, a, i, s, c, w, u);
        shift := shift[c.t := j];
      }
    }
    forall c ensures c in shift <==> c > 1 && Moves(d, kernel, Tok(c)) {
      MovesIs(d, kernel, w, Tok(c));
    }
  }

  /** state(c) with nolook set: the core is there already. */
  method FindShift(d: Tables, a: Auto, i: nat, s: seq<Entry>, c: Sym, ghost w: Work, ghost u: nat) returns (j: nat)
    requires Generated(d, a) && i < |a.states| && C.Shaped(d, w) &&
             (forall b :: C.Holds(w, b) <==> InClosure(d, a.states[i], b))
    requires c != Tok(1) && FirstAt(d, w, c, u) && Collected(d, w, c, u, |w|, s)
    ensures Target(d, a, a.states[i], c, j)
  {
    hide InClosure, Target, Moves;
    CollectedCore(d, a.states[i], w, c, u, s);
    assert Distinct(s) && Sized(a) && Lists(a);
    var r := SortItems(s);
    j := Find(a, r, c);
    ShiftThere(d, a, i, s, r, c, w, u);
    hide Generated, Collected, FirstAt;
    ShiftFound(d, a, i, s, r, c, j);
  }

  lemma SortedCore(s: seq<Entry>, r: seq<Entry>)
    requires Reordered(s, r)
    ensures Core(r) == Core(s)
  {
    forall e ensures e in r <==> e in s {
      ReorderedIn(s, r, e);
    }
    forall it ensures it in Core(r) <==> it in Core(s) {
      ReorderedItem(s, r, it);
      ReorderedItem(r, s, it);
    }
  }

  /** The state the shift leads to has the very items of r, and stands under c. */
  lemma ShiftThere(d: Tables, a: Auto, i: nat, s: seq<Entry>, r: seq<Entry>, c: Sym, w: Work, u: nat)
    requires Generated(d, a) && i < |a.states| && (forall b :: C.Holds(w, b) <==> InClosure(d, a.states[i], b)) &&
             c != Tok(1) && FirstAt(d, w, c, u)
    requires (forall it :: it in Core(s) <==> IsGoto(d, a.states[i], c, it)) && Reordered(s, r) && Ascending(r)
    ensures exists k :: 1 <= k < |a.states| && a.acc[k] == c && SameItems(a.states[k], r)
  {
    hide InClosure, IsGoto;
    assert C.Holds(w, w[u].item);
    assert Moves(d, a.states[i], c);
    assert GotosThere(d, a, i);
    var k: nat :| Target(d, a, a.states[i], c, k);
    SortedCore(s, r);
    assert Core(a.states[k]) == Core(r);
    assert StateOk(d, a.states[k]);
    CoreSame(a.states[k], r);
  }

  lemma ShiftFound(d: Tables, a: Auto, i: nat, s: seq<Entry>, r: seq<Entry>, c: Sym, j: nat)
    requires i < |a.states| == |a.acc| &&
             (exists k :: 1 <= k < |a.states| && a.acc[k] == c && SameItems(a.states[k], r))
    requires j == 0 ==> forall k :: 1 <= k < |a.states| && a.acc[k] == c ==> !SameItems(a.states[k], r)
    requires j > 0 ==> j < |a.states| && a.acc[j] == c && SameItems(a.states[j], r)
    requires (forall it :: it in Core(s) <==> IsGoto(d, a.states[i], c, it)) && Reordered(s, r)
    ensures Target(d, a, a.states[i], c, j)
  {
    SameCore(a.states[j], r);
    SortedCore(s, r);
  }

  lemma ClosureItems(d: Tables, kernel: seq<Entry>, w: Work)
    requires C.IsClosure(d, kernel, w, true)
    ensures C.Shaped(d, w) && forall b :: C.Holds(w, b) <==> InClosure(d, kernel, b)
  {
  }

  lemma MovesIs(d: Tables, kernel: seq<Entry>, w: Work, x: Sym)
    requires forall b :: C.Holds(w, b) <==> InClosure(d, kernel, b)
    ensures Moves(d, kernel, x) <==> exists q :: 0 <= q < |w| && Before(d.g, w[q].item, x)
  {
    hide InClosure;
    if Moves(d, kernel, x) {
      var b :| InClosure(d, kernel, b) && Before(d.g, b, x);
      assert C.Holds(w, b);
    }
    if exists q :: 0 <= q < |w| && Before(d.g, w[q].item, x) {
      var q :| 0 <= q < |w| && Before(d.g, w[q].item, x);
      assert C.Holds(w, w[q].item);
    }
  }

  // ----- what the states are -------------------------------------------------------------

  /** All states are there and done. */
  ghost predicate Generated(d: Tables, a: Auto)
  {
    Sized(a) && StatesOk(d, a) && Entered(d, a) && Lists(a) && Apart(a) &&
    forall i: nat :: i < |a.states| ==> GotosThere(d, a, i)
  }

  lemma GeneratedOf(d: Tables, a: Auto)
    requires AutoOk(d, a, {}) && |a.ty| == |a.states| && forall k :: 0 <= k < |a.ty| ==> a.ty[k] != MUSTDO
    ensures Generated(d, a)
  {
    hide StatesOk, Entered, Lists, Apart, GotosThere;
  }

  /** Every state has passed on its lookaheads, but for those at risk. */
  ghost predicate Looked(d: Tables, a: Auto)
  {
    forall i: nat :: i < |a.states| ==> Risky(d, a, i) || LooksThere(d, a, i)
  }

  lemma LookedOf(d: Tables, a: Auto)
    requires LooksDone(d, a, {}) && forall k :: 0 <= k < |a.ty| ==> a.ty[k] != MUSTDO
    ensures Looked(d, a)
  {
    hide Risky, LooksThere;
  }

  lemma GeneratedKernel(d: Tables, a: Auto, i: nat)
    requires Generated(d, a) && i < |a.states|
    ensures KernelOk(d, a.states[i])
  {
    assert StateOk(d, a.states[i]);
  }

  lemma NearerStates(d: Tables, a: Auto, b: Auto)
    requires Nearer(d, a, b)
    ensures |a.states| <= |b.states|
  {
  }

  /** No two states have the same core. */
  lemma CoresDistinct(d: Tables, a: Auto, i: nat, j: nat)
    requires Generated(d, a) && i < j < |a.states|
    ensures Core(a.states[i]) != Core(a.states[j])
  {
    assert StateOk(d, a.states[i]) && StateOk(d, a.states[j]);
    if Core(a.states[i]) == Core(a.states[j]) {
      CoreSame(a.states[i], a.states[j]);
      assert false;
    }
  }

  /** Every prefix that leads to a state, followed by a symbol that moves, leads to a state. */
  lemma PrefixesClosed(d: Tables, a: Auto, i: nat, path: seq<Sym>, x: Sym) returns (j: nat)
    requires Generated(d, a) && i < |a.states| && LeadsTo(d.g, path, Core(a.states[i])) && x != Tok(1) &&
             Moves(d, a.states[i], x)
    ensures j < |a.states| && LeadsTo(d.g, path + [x], Core(a.states[j]))
  {
    assert GotosThere(d, a, i);
    j :| Target(d, a, a.states[i], x, j);
    GotoLeads(d, a.states[i], path, x, Core(a.states[j]));
  }

  /** An item valid for a prefix comes from one with its dot behind the prefix's last symbol. */
  lemma {:induction false} ValidBehind(g: Grammar, path: seq<Sym>, it: Item, h: nat) returns (b: Item)
    requires path != [] && Valid(g, path, it, h)
    ensures Behind(g, b, path[|path| - 1]) && IsValid(g, Front(path), Back(b))
    decreases h
  {
    if Behind(g, it, path[|path| - 1]) && Valid(g, Front(path), Back(it), h - 1) {
      b := it;
    } else {
      var a :| Valid(g, path, a, h - 1) && Opens(g, a, it);
      b := ValidBehind(g, path, a, h - 1);
    }
  }

  /** Every prefix without the end marker for which some item is valid leads to a state. */
  lemma {:induction false} EveryPrefix(d: Tables, a: Auto, path: seq<Sym>, it: Item) returns (i: nat)
    requires GrammarOk(d.g) && Generated(d, a) && Tok(1) !in path && IsValid(d.g, path, it)
    ensures i < |a.states| && LeadsTo(d.g, path, Core(a.states[i]))
    decreases |path|
  {
    hide Generated, LeadsTo, InClosure, Moves;
    if path == [] {
      i := FirstState(d, a);
    } else {
      var h: nat :| Valid(d.g, path, it, h);
      var b := ValidBehind(d.g, path, it, h);
      var x := path[|path| - 1];
      var j := EveryPrefix(d, a, Front(path), Back(b));
      ClosureValid(d, a.states[j], Front(path), Back(b));
      MovesOver(d, a.states[j], Back(b), x);
      i := PrefixesClosed(d, a, j, Front(path), x);
      assert Front(path) + [x] == path;
    }
  }

  lemma MovesOver(d: Tables, s: seq<Entry>, b: Item, x: Sym)
    requires InClosure(d, s, b) && Before(d.g, b, x)
    ensures Moves(d, s, x)
  {
  }

  lemma FirstState(d: Tables, a: Auto) returns (i: nat)
    requires GrammarOk(d.g) && Generated(d, a)
    ensures i < |a.states| && LeadsTo(d.g, [], Core(a.states[i]))
  {
    hide Lists, Apart, GotosThere, StatesOk, LeadsTo;
    i := 0;
    StartLeads(d);
    var s := a.states[0];
    assert s == [s[0]] && Core(s) == {Item(0, 0)} by { assert s[0].item in Core(s); }
  }

  /** Every core that a prefix without the end marker leads to is that of a state. */
  lemma CoreThere(d: Tables, a: Auto, c: set<Item>)
    requires GrammarOk(d.g) && Generated(d, a) && c != {} && Reachable(d, c)
    ensures c in CoresOf(a.states)
  {
    hide Generated;
    var path :| Tok(1) !in path && LeadsTo(d.g, path, c);
    var it :| it in c;
    var i := EveryPrefix(d, a, path, it);
    assert c == Core(a.states[i]);
    CoresIn(a.states, c);
  }

  lemma GeneratedEnough(d: Tables, a: Auto)
    requires GrammarOk(d.g) && Generated(d, a)
    ensures !TooMany(d)
  {
    hide Reachable, TooMany, CoresOf;
    forall c | c != {} && Reachable(d, c) ensures c in CoresOf(a.states) {
      hide Generated;
      CoreThere(d, a, c);
    }
    NotTooMany(d, a);
  }

  /** A recorded lookahead is a lookahead, in the canonical sense, after some prefix that leads there. */
  lemma LooksSound(d: Tables, a: Auto, i: nat, k: nat, t: nat) returns (path: seq<Sym>)
    requires Generated(d, a) && i < |a.states| && k < |a.states[i]| && t in a.states[i][k].look
    ensures Tok(1) !in path && LeadsTo(d.g, path, Core(a.states[i])) && IsLook(d, path, a.states[i][k].item, t)
  {
    assert StateOk(d, a.states[i]);
    assert Due(d, Core(a.states[i]), a.states[i][k].item, t);
    path :| Tok(1) !in path && LeadsTo(d.g, path, Core(a.states[i])) && IsLook(d, path, a.states[i][k].item, t);
  }

  lemma MovingStarts(d: Tables, a: Auto, b: Auto, i: nat, w: Work)
    requires AutoOk(d, a, {}) && i < |a.states| && Honest(d, a.states[i]) && C.IsClosure(d, a.states[i], w, false)
    requires b == a.(ty := b.ty) && AutoOk(d, b, {i}) && Grows(a, b) && Looking(d, b, i, a.states[i], w)
    ensures Moving(d, b, i, a.states[i], w, 0)
  {
    hide AutoOk, Honest, Core, IsWork, Served, Marked, C.IsClosure, Looking;
    WorkStarts(d, b, a.states[i], w);
  }

  lemma MovingEnds(d: Tables, a: Auto, i: nat, kernel: seq<Entry>, w: Work)
    requires Moving(d, a, i, kernel, w, |w|)
    ensures AutoOk(d, a, {}) && LooksDone(d, a, {})
    ensures forall x :: x != Tok(1) && Moves(d, kernel, x) ==> HasTarget(d, a, kernel, x)
  {
    hide AutoOk, Honest, Core, IsWork, Served, Marked, GotosThere, Grows, LooksDone, Pending, HasTarget, Moves;
    ServedAll(d, a, i, kernel, w);
    EndOk(d, a, i);
    DoneNext(d, a, i, kernel, w);
    forall x | x != Tok(1) && Moves(d, kernel, x) ensures HasTarget(d, a, kernel, x) {
      ServedHas(d, a, kernel, w, x);
    }
  }

  lemma FlagSame(w: Work, p: nat)
    requires p < |w|
    ensures SameWork(w, w[p := w[p].(flag := true)])
  {
  }

  lemma SameRefl(w: Work)
    ensures SameWork(w, w)
  {
  }

  lemma SameLength(w: Work, w': Work)
    requires SameWork(w, w')
    ensures |w'| == |w| && forall k :: 0 <= k < |w| ==> w'[k].item == w[k].item
  {
  }

  lemma WorkShape(d: Tables, kernel: seq<Entry>, w: Work)
    requires IsWork(d, kernel, w)
    ensures C.Shaped(d, w)
  {
  }

  lemma SizedOf(d: Tables, a: Auto, busy: set<nat>)
    requires AutoOk(d, a, busy)
    ensures Sized(a)
  {
  }

  lemma StartOk(d: Tables)
    requires TablesOk(d)
    ensures AutoOk(d, Auto([[Entry(Item(0, 0), {})]], [MUSTDO], map[], [0], [Tok(0)]), {})
  {
    StartLeads(d);
    var s := [Entry(Item(0, 0), {})];
    assert Core(s) == {Item(0, 0)} by { assert s[0].item == Item(0, 0); }
    var none: seq<Sym> := [];
    assert Tok(1) !in none && LeadsTo(d.g, none, Core(s));
    assert ItemOk(d.g, Item(0, 0));
    assert StateOk(d, s);
  }

  /** From the grammar to its states: exact tables, and all states with nothing left to do. */
  method Generate(g: Grammar) returns (d: Tables, a: Auto, ok: bool)
    requires GrammarOk(g)
    ensures TablesOk(d) && d.g == g && Exact(g, d.empty) && |d.first| == g.nonter &&
            forall n: nat, t :: n < g.nonter ==> (t in d.first[n] <==> InFirst(g, n, t))
    ensures ok ==> Generated(d, a) && Looked(d, a)
    ensures ok <==> !TooMany(d)
  {
    hide GrammarOk, AutoOk, Generated, TooMany, Looked, LooksDone;
    var empty := Cempty(g);
    var first := Cpfir(g, empty);
    d := Tables(g, empty, first);
    assert TablesOk(d);
    var gen := new Generator(d);
    ok := gen.Stagen();
    a := gen.a;
  }
}
