/** The recorded lookaheads are those of the grammar, when no state is at risk. */
module YaccLalr {
  import opened YaccGrammar
  import opened YaccItems
  import opened YaccPaths
  import opened YaccSort
  import opened YaccAutomaton
  import opened YaccStagen
  import opened YaccLooks
  import opened YaccGenerate

  /** An item with a lookahead is valid. */
  lemma {:induction false} LookValid(d: Tables, path: seq<Sym>, it: Item, t: nat, h: nat)
    requires ValidLook(d, path, it, t, h)
    ensures IsValid(d.g, path, it)
    decreases h
  {
    if path != [] && Behind(d.g, it, path[|path| - 1]) && ValidLook(d, Front(path), Back(it), t, h - 1) {
      LookValid(d, Front(path), Back(it), t, h - 1);
      var i: nat :| Valid(d.g, Front(path), Back(it), i);
      assert Valid(d.g, path, it, i + 1);
    } else {
      var a :| Opens(d.g, a, it) && PassesLook(d, path, a, t, h - 1);
      if !Valid(d.g, path, a, h - 1) {
        LookValid(d, path, a, t, h - 1);
      }
      assert IsValid(d.g, path, a);
      ValidOpens(d.g, path, a, it);
    }
  }

  /** No state is at risk. */
  ghost predicate NoRisk(d: Tables, a: Auto) { forall i: nat :: i < |a.states| ==> !Risky(d, a, i) }

  /** States with the same core are the same state. */
  lemma SameState(d: Tables, a: Auto, i: nat, j: nat)
    requires Generated(d, a) && i < |a.states| && j < |a.states| && Core(a.states[i]) == Core(a.states[j])
    ensures i == j
  {
    if i < j {
      CoresDistinct(d, a, i, j);
    } else if j < i {
      CoresDistinct(d, a, j, i);
    }
  }

  lemma LeadsSame(g: Grammar, path: seq<Sym>, c: set<Item>, e: set<Item>)
    requires LeadsTo(g, path, c) && LeadsTo(g, path, e)
    ensures c == e
  {
  }

  /** A lookahead goes with its item over x to the next state. */
  lemma LookMoves(d: Tables, a: Auto, j: nat, i: nat, path: seq<Sym>, x: Sym, it: Item, t: nat)
    requires Generated(d, a) && j < |a.states| && i < |a.states| && LooksThere(d, a, j) && x != Tok(1)
    requires LeadsTo(d.g, path, Core(a.states[j])) && LeadsTo(d.g, path + [x], Core(a.states[i]))
    requires Behind(d.g, it, x) && InClosure(d, a.states[j], Back(it)) && HasLook(d, a.states[j], Back(it), t)
    ensures InKernelWith(a.states[i], it, t)
  {
    hide LeadsTo, InClosure, HasLook, Generated;
    MovesOver(d, a.states[j], Back(it), x);
    hide Moves;
    assert HasTarget(d, a, a.states[j], x);
    var k: nat :| Target(d, a, a.states[j], x, k) && LooksPassed(d, a, a.states[j], x, k);
    GotoLeads(d, a.states[j], path, x, Core(a.states[k]));
    LeadsSame(d.g, path + [x], Core(a.states[k]), Core(a.states[i]));
    SameState(d, a, k, i);
    assert IsGoto(d, a.states[j], x, it);
  }

  lemma KernelLook(d: Tables, s: seq<Entry>, it: Item, t: nat)
    requires InKernelWith(s, it, t)
    ensures HasLook(d, s, it, t)
  {
    assert Carries(d, s, it, t, 0);
  }

  lemma OpensLook(d: Tables, s: seq<Entry>, a: Item, it: Item, t: nat)
    requires InClosure(d, s, a) && Opens(d.g, a, it)
    requires t in After(d, a, {}) || (Through(d, d.g.prods[a.p].rhs, a.dot + 1) && HasLook(d, s, a, t))
    ensures HasLook(d, s, it, t)
  {
    hide InClosure, HasLook;
    FollowParts(d, d.g.prods[a.p].rhs, a.dot + 1, {t});
    if t in After(d, a, {}) {
      LookStep(d, s, a, it, {}, t);
    } else {
      LookStep(d, s, a, it, {t}, t);
    }
  }

  /** Whatever lookahead a prefix gives an item, the state it leads to gives it. */
  lemma {:induction false} LookRecorded(d: Tables, a: Auto, i: nat, path: seq<Sym>, it: Item, t: nat, h: nat)
    requires GrammarOk(d.g) && Generated(d, a) && Looked(d, a) && NoRisk(d, a) && i < |a.states|
    requires Tok(1) !in path && LeadsTo(d.g, path, Core(a.states[i])) && ValidLook(d, path, it, t, h)
    ensures HasLook(d, a.states[i], it, t)
    decreases h, 0
  {
    hide Generated, Risky, LooksThere, LeadsTo, HasLook, InClosure, IsValid, GrammarOk, Valid;
    LookValid(d, path, it, t, h);
    if path != [] && Behind(d.g, it, path[|path| - 1]) && ValidLook(d, Front(path), Back(it), t, h - 1) {
      var x, front := path[|path| - 1], Front(path);
      assert path == front + [x] && x in path;
      LookValid(d, front, Back(it), t, h - 1);
      var j := EveryPrefix(d, a, front, Back(it));
      LookRecorded(d, a, j, front, Back(it), t, h - 1);
      ClosureValid(d, a.states[j], front, Back(it));
      LookMoves(d, a, j, i, front, x, it, t);
      KernelLook(d, a.states[i], it, t);
    } else {
      var b :| Opens(d.g, b, it) && PassesLook(d, path, b, t, h - 1);
      PassedBy(d, a, i, path, b, t, h);
      OpensLook(d, a.states[i], b, it, t);
    }
  }

  lemma {:induction false} PassedBy(d: Tables, a: Auto, i: nat, path: seq<Sym>, b: Item, t: nat, h: nat)
    requires GrammarOk(d.g) && Generated(d, a) && Looked(d, a) && NoRisk(d, a) && i < |a.states| && h > 0
    requires Tok(1) !in path && LeadsTo(d.g, path, Core(a.states[i])) && ItemOk(d.g, b)
    requires PassesLook(d, path, b, t, h - 1)
    ensures InClosure(d, a.states[i], b)
    ensures t in After(d, b, {}) || (Through(d, d.g.prods[b.p].rhs, b.dot + 1) && HasLook(d, a.states[i], b, t))
    decreases h - 1, 1
  {
    hide Generated, Risky, LooksThere, LeadsTo, HasLook, InClosure, GrammarOk;
    ClosureValid(d, a.states[i], path, b);
    if Valid(d.g, path, b, h - 1) && t in After(d, b, {}) {
      assert IsValid(d.g, path, b);
    } else {
      LookValid(d, path, b, t, h - 1);
      LookRecorded(d, a, i, path, b, t, h - 1);
    }
  }

  /** A kernel item, which nothing opens, has in the closure only its lookaheads from the kernel. */
  lemma KernelOnly(d: Tables, s: seq<Entry>, k: nat, t: nat)
    requires GrammarOk(d.g) && KernelOk(d, s) && k < |s| && HasLook(d, s, s[k].item, t)
    requires s[k].item.dot > 0 || s[k].item == Item(0, 0)
    ensures t in s[k].look
  {
    var h: nat :| Carries(d, s, s[k].item, t, h);
    forall a ensures !Opens(d.g, a, s[k].item) {
      assert Before(d.g, a, Non(0)) ==> SymOk(d.g, Non(0));
    }
    assert InKernelWith(s, s[k].item, t);
  }

  /** In every state, when none is at risk, exactly the lookaheads that the grammar gives the items after the
      prefixes that lead there. */
  lemma LooksExact(d: Tables, a: Auto, i: nat, k: nat, t: nat)
    requires GrammarOk(d.g) && Generated(d, a) && Looked(d, a) && NoRisk(d, a)
    requires i < |a.states| && k < |a.states[i]|
    ensures t in a.states[i][k].look <==> Due(d, Core(a.states[i]), a.states[i][k].item, t)
  {
    var s := a.states[i];
    assert StateOk(d, s);
    assert i > 0 ==> Behind(d.g, s[k].item, a.acc[i]);
    if Due(d, Core(s), s[k].item, t) {
      var path :| Tok(1) !in path && LeadsTo(d.g, path, Core(s)) && IsLook(d, path, s[k].item, t);
      var h: nat :| ValidLook(d, path, s[k].item, t, h);
      LookRecorded(d, a, i, path, s[k].item, t, h);
      KernelOnly(d, s, k, t);
    }
  }
}
