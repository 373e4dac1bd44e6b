/** The set of states as it grows: what it holds, and what state() keeps. */
module YaccAutomaton {
  import opened YaccGrammar
  import opened YaccItems
  import opened YaccPaths
  import opened YaccSort

  const NSTATES := 2000

  datatype Kind = DONE | MUSTDO | MUSTLOOKAHEAD

  /** Kernels by state, the work left on each, for each symbol the latest state it leads to, for each
      state the one before it under the same symbol (zero at the end), and the symbol itself. */
  datatype Auto = Auto(states: seq<seq<Entry>>, ty: seq<Kind>, heads: map<Sym, nat>, next: seq<nat>, acc: seq<Sym>)

  ghost predicate Sized(a: Auto) { |a.states| == |a.ty| == |a.next| == |a.acc| && 0 < |a.states| < NSTATES }

  ghost predicate StateOk(d: Tables, s: seq<Entry>) { s != [] && KernelOk(d, s) && Ascending(s) && Honest(d, s) }

  ghost predicate StatesOk(d: Tables, a: Auto) { forall i :: 0 <= i < |a.states| ==> StateOk(d, a.states[i]) }

  /** Every state but the first is entered by its symbol. */
  ghost predicate Entered(d: Tables, a: Auto)
    requires Sized(a)
  {
    |a.states[0]| == 1 && a.states[0][0].item == Item(0, 0) &&
    forall i, k :: 1 <= i < |a.states| && 0 <= k < |a.states[i]| ==> Behind(d.g, a.states[i][k].item, a.acc[i])
  }

  function Head(a: Auto, c: Sym): nat { if c in a.heads then a.heads[c] else 0 }

  /** State j is found on the list that starts at i. */
  ghost predicate OnList(next: seq<nat>, i: nat, j: nat)
    decreases i
  {
    0 < i < |next| && (i == j || (next[i] < i && OnList(next, next[i], j)))
  }

  ghost predicate Lists(a: Auto)
    requires Sized(a)
  {
    (forall i :: 1 <= i < |a.next| ==> a.next[i] < i && (a.next[i] != 0 ==> a.acc[a.next[i]] == a.acc[i])) &&
    (forall c :: c in a.heads ==> 0 < a.heads[c] < |a.next| && a.acc[a.heads[c]] == c) &&
    (forall j :: 1 <= j < |a.acc| ==> OnList(a.next, Head(a, a.acc[j]), j))
  }

  /** No two states have the same core. */
  ghost predicate Apart(a: Auto) { forall i, j :: 0 <= i < j < |a.states| ==> !SameItems(a.states[i], a.states[j]) }

  /** State j is where x leads from kernel s. */
  ghost predicate Target(d: Tables, a: Auto, s: seq<Entry>, x: Sym, j: nat)
  {
    0 < j < |a.states| && j < |a.acc| && a.acc[j] == x && forall it :: it in Core(a.states[j]) <==> IsGoto(d, s, x, it)
  }

  /** Something in the closure has its dot before x. */
  ghost predicate Moves(d: Tables, s: seq<Entry>, x: Sym) { exists b :: InClosure(d, s, b) && Before(d.g, b, x) }

  /** State i has a state for every symbol but the end marker. */
  ghost predicate GotosThere(d: Tables, a: Auto, i: nat)
    requires i < |a.states|
  {
    forall x :: x != Tok(1) && Moves(d, a.states[i], x) ==> exists j :: Target(d, a, a.states[i], x, j)
  }

  /** What every step of the generation keeps; state busy, if any, is being worked on. */
  ghost predicate AutoOk(d: Tables, a: Auto, busy: set<nat>)
  {
    Sized(a) && StatesOk(d, a) && Entered(d, a) && Lists(a) && Apart(a) &&
    forall i: nat :: i < |a.states| && i !in busy && a.ty[i] != MUSTDO ==> GotosThere(d, a, i)
  }

  // ----- kernels with the same items -----------------------------------------------------

  lemma SameCore(s: seq<Entry>, r: seq<Entry>)
    requires SameItems(s, r)
    ensures Core(s) == Core(r)
  {
    forall it ensures it in Core(s) <==> it in Core(r) {
      if it in Core(s) {
        var k :| 0 <= k < |s| && s[k].item == it;
        assert r[k].item == it;
      }
      if it in Core(r) {
        var k :| 0 <= k < |r| && r[k].item == it;
        assert s[k].item == it;
      }
    }
  }

  lemma CoreSame(s: seq<Entry>, r: seq<Entry>)
    requires Ascending(s) && Ascending(r) && Core(s) == Core(r)
    ensures SameItems(s, r)
  {
    forall it ensures Has(s, it) <==> Has(r, it) {
      assert Has(s, it) <==> it in Core(s);
      assert Has(r, it) <==> it in Core(r);
    }
    AscendingSame(s, r);
  }

  lemma {:induction false} ReachSame(d: Tables, s: seq<Entry>, r: seq<Entry>, it: Item, h: nat)
    requires Core(s) == Core(r) && Reach(d, s, it, h)
    ensures Reach(d, r, it, h)
    decreases h
  {
    CoreHas(s, it);
    CoreHas(r, it);
    if !InKernel(s, it) {
      var b :| Reach(d, s, b, h - 1) && Opens(d.g, b, it);
      ReachSame(d, s, r, b, h - 1);
    }
  }

  /** Closures and gotos look only at items. */
  lemma GotoSame(d: Tables, s: seq<Entry>, r: seq<Entry>)
    requires Core(s) == Core(r)
    ensures (forall b :: InClosure(d, s, b) <==> InClosure(d, r, b)) &&
            (forall x, it :: IsGoto(d, s, x, it) <==> IsGoto(d, r, x, it))
  {
    forall b ensures InClosure(d, s, b) <==> InClosure(d, r, b) {
      if InClosure(d, s, b) {
        var h: nat :| Reach(d, s, b, h);
        ReachSame(d, s, r, b, h);
      }
      if InClosure(d, r, b) {
        var h: nat :| Reach(d, r, b, h);
        ReachSame(d, r, s, b, h);
      }
    }
  }

  // ----- a later automaton keeps the gotos of an earlier one -----------------------------

  /** Every lookahead of s is one of r. */
  ghost predicate Covers(r: seq<Entry>, s: seq<Entry>)
  {
    forall it, t :: InKernelWith(s, it, t) ==> InKernelWith(r, it, t)
  }

  /** b has all states of a, with the same items and no fewer lookaheads. */
  ghost predicate Grows(a: Auto, b: Auto)
  {
    |a.states| <= |b.states| && |a.acc| == |a.states| && |b.acc| == |b.states| &&
    forall i :: 0 <= i < |a.states| ==>
      Core(b.states[i]) == Core(a.states[i]) && b.acc[i] == a.acc[i] && Covers(b.states[i], a.states[i])
  }

  lemma TargetKept(d: Tables, a: Auto, b: Auto, s: seq<Entry>, r: seq<Entry>, x: Sym, j: nat)
    requires Grows(a, b) && Target(d, a, s, x, j) && Core(s) == Core(r)
    ensures Target(d, b, r, x, j)
  {
    GotoSame(d, s, r);
    hide IsGoto;
  }

  lemma GotosKept(d: Tables, a: Auto, b: Auto, i: nat)
    requires Grows(a, b) && i < |a.states| && GotosThere(d, a, i)
    ensures GotosThere(d, b, i)
  {
    var s, r := a.states[i], b.states[i];
    GotoSame(d, s, r);
    forall x | x != Tok(1) && Moves(d, r, x) ensures exists j :: Target(d, b, r, x, j) {
      var q :| InClosure(d, r, q) && Before(d.g, q, x);
      assert Moves(d, s, x);
      var j :| Target(d, a, s, x, j);
      hide InClosure, IsGoto;
      TargetKept(d, a, b, s, r, x, j);
    }
  }
}
