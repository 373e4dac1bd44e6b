/** Items valid for a viable prefix, and the cores the prefixes lead to. */
module YaccPaths {
  import opened YaccGrammar
  import opened YaccItems

  /** The item and the dot one symbol back. */
  function Back(it: Item): Item
    requires it.dot > 0
  {
    Item(it.p, it.dot - 1)
  }

  function Front(path: seq<Sym>): seq<Sym>
    requires path != []
  {
    path[..|path| - 1]
  }

  /** The dot of it stands behind x. */
  predicate Behind(g: Grammar, it: Item, x: Sym) { ItemOk(g, it) && it.dot > 0 && Before(g, Back(it), x) }

  /** Item it is valid for the prefix path, by at most h steps. */
  ghost predicate Valid(g: Grammar, path: seq<Sym>, it: Item, h: nat)
    decreases h
  {
    (path == [] && it == Item(0, 0)) ||
    (h > 0 && path != [] && Behind(g, it, path[|path| - 1]) && Valid(g, Front(path), Back(it), h - 1)) ||
    (h > 0 && it.dot == 0 && exists a :: Valid(g, path, a, h - 1) && Opens(g, a, it))
  }

  /** It is valid with lookahead t; the start item has none, since its end marker is part of it. */
  ghost predicate ValidLook(d: Tables, path: seq<Sym>, it: Item, t: nat, h: nat)
    decreases h, 0
  {
    h > 0 &&
    ((path != [] && Behind(d.g, it, path[|path| - 1]) && ValidLook(d, Front(path), Back(it), t, h - 1)) ||
     (it.dot == 0 && exists a :: Opens(d.g, a, it) && PassesLook(d, path, a, t, h - 1)))
  }

  ghost predicate PassesLook(d: Tables, path: seq<Sym>, a: Item, t: nat, h: nat)
    requires ItemOk(d.g, a)
    decreases h, 1
  {
    (Valid(d.g, path, a, h) && t in After(d, a, {})) ||
    (Through(d, d.g.prods[a.p].rhs, a.dot + 1) && ValidLook(d, path, a, t, h))
  }

  ghost predicate IsValid(g: Grammar, path: seq<Sym>, it: Item) { exists h: nat :: Valid(g, path, it, h) }

  ghost predicate IsLook(d: Tables, path: seq<Sym>, it: Item, t: nat) { exists h: nat :: ValidLook(d, path, it, t, h) }

  /** An item of a kernel: its dot has moved, or it is the start item. */
  predicate InCore(path: seq<Sym>, it: Item) { it.dot > 0 || (path == [] && it == Item(0, 0)) }

  /** The prefix leads to the state with these kernel items. */
  ghost predicate LeadsTo(g: Grammar, path: seq<Sym>, core: set<Item>)
  {
    forall it :: it in core <==> IsValid(g, path, it) && InCore(path, it)
  }

  function Core(kernel: seq<Entry>): set<Item> { set k | 0 <= k < |kernel| :: kernel[k].item }

  lemma CoreHas(kernel: seq<Entry>, it: Item)
    ensures it in Core(kernel) <==> InKernel(kernel, it)
  {
  }

  // ----- the closure of a core is what is valid for its prefixes ----------------------------

  lemma ValidOpens(g: Grammar, path: seq<Sym>, a: Item, b: Item)
    requires IsValid(g, path, a) && Opens(g, a, b)
    ensures IsValid(g, path, b)
  {
    var h: nat :| Valid(g, path, a, h);
    assert Valid(g, path, b, h + 1);
  }

  lemma {:induction false} ReachValid(d: Tables, kernel: seq<Entry>, path: seq<Sym>, it: Item, h: nat)
    requires LeadsTo(d.g, path, Core(kernel)) && Reach(d, kernel, it, h)
    ensures IsValid(d.g, path, it)
    decreases h
  {
    if InKernel(kernel, it) {
      CoreHas(kernel, it);
    } else {
      var a :| Reach(d, kernel, a, h - 1) && Opens(d.g, a, it);
      ReachValid(d, kernel, path, a, h - 1);
      ValidOpens(d.g, path, a, it);
    }
  }

  lemma {:induction false} ValidReach(d: Tables, kernel: seq<Entry>, path: seq<Sym>, it: Item, h: nat)
    requires LeadsTo(d.g, path, Core(kernel)) && Valid(d.g, path, it, h)
    ensures InClosure(d, kernel, it)
    decreases h
  {
    if InCore(path, it) {
      assert IsValid(d.g, path, it);
      CoreHas(kernel, it);
      assert Reach(d, kernel, it, 0);
    } else {
      var a :| Valid(d.g, path, a, h - 1) && Opens(d.g, a, it);
      ValidReach(d, kernel, path, a, h - 1);
      ClosureStep(d, kernel, a, it);
    }
  }

  /** For a prefix that leads to the state, valid and in the closure are the same. */
  lemma ClosureValid(d: Tables, kernel: seq<Entry>, path: seq<Sym>, it: Item)
    requires LeadsTo(d.g, path, Core(kernel))
    ensures InClosure(d, kernel, it) <==> IsValid(d.g, path, it)
  {
    if InClosure(d, kernel, it) {
      var h: nat :| Reach(d, kernel, it, h);
      ReachValid(d, kernel, path, it, h);
    }
    if IsValid(d.g, path, it) {
      var h: nat :| Valid(d.g, path, it, h);
      ValidReach(d, kernel, path, it, h);
    }
  }

  // ----- gotos ------------------------------------------------------------------------------

  /** The items of the state reached from a core by x. */
  ghost predicate IsGoto(d: Tables, kernel: seq<Entry>, x: Sym, it: Item)
  {
    Behind(d.g, it, x) && InClosure(d, kernel, Back(it))
  }

  lemma GotoLeads(d: Tables, kernel: seq<Entry>, path: seq<Sym>, x: Sym, core: set<Item>)
    requires LeadsTo(d.g, path, Core(kernel)) && forall it :: it in core <==> IsGoto(d, kernel, x, it)
    ensures LeadsTo(d.g, path + [x], core)
  {
    var p := path + [x];
    assert Front(p) == path && p[|p| - 1] == x;
    forall it ensures it in core <==> IsValid(d.g, p, it) && InCore(p, it) {
      GotoValid(d, kernel, path, x, it);
    }
  }

  lemma GotoValid(d: Tables, kernel: seq<Entry>, path: seq<Sym>, x: Sym, it: Item)
    requires LeadsTo(d.g, path, Core(kernel))
    ensures IsGoto(d, kernel, x, it) <==> IsValid(d.g, path + [x], it) && it.dot > 0
  {
    var p := path + [x];
    assert Front(p) == path && p[|p| - 1] == x;
    if IsGoto(d, kernel, x, it) {
      ClosureValid(d, kernel, path, Back(it));
      var h: nat :| Valid(d.g, path, Back(it), h);
      assert Valid(d.g, p, it, h + 1);
    }
    if it.dot > 0 && IsValid(d.g, p, it) {
      var h: nat :| Valid(d.g, p, it, h);
      assert Valid(d.g, Front(p), Back(it), h - 1);
      ClosureValid(d, kernel, path, Back(it));
    }
  }

  lemma GotoLook(d: Tables, path: seq<Sym>, x: Sym, it: Item, t: nat)
    requires Behind(d.g, it, x) && IsLook(d, path, Back(it), t)
    ensures IsLook(d, path + [x], it, t)
  {
    var p := path + [x];
    assert Front(p) == path && p[|p| - 1] == x;
    var h: nat :| ValidLook(d, path, Back(it), t, h);
    assert ValidLook(d, p, it, t, h + 1);
  }

  // ----- lookaheads -------------------------------------------------------------------------

  /** Some prefix without the end marker that leads to the core gives the item this lookahead. */
  ghost predicate Due(d: Tables, core: set<Item>, it: Item, t: nat)
  {
    exists path :: Tok(1) !in path && LeadsTo(d.g, path, core) && IsLook(d, path, it, t)
  }

  /** Some prefix without the end marker leads to the core. */
  ghost predicate Reachable(d: Tables, core: set<Item>) { exists path :: Tok(1) !in path && LeadsTo(d.g, path, core) }

  /** Every lookahead recorded is due. */
  ghost predicate Honest(d: Tables, kernel: seq<Entry>)
  {
    Reachable(d, Core(kernel)) &&
    forall k, t :: 0 <= k < |kernel| && t in kernel[k].look ==> Due(d, Core(kernel), kernel[k].item, t)
  }

  lemma DueFirst(d: Tables, kernel: seq<Entry>, a: Item, it: Item, t: nat, h: nat)
    requires Reachable(d, Core(kernel)) && Opens(d.g, a, it) && Reach(d, kernel, a, h) && t in After(d, a, {})
    ensures Due(d, Core(kernel), it, t)
  {
    var path :| Tok(1) !in path && LeadsTo(d.g, path, Core(kernel));
    ReachValid(d, kernel, path, a, h);
    var i: nat :| Valid(d.g, path, a, i);
    assert PassesLook(d, path, a, t, i);
    assert ValidLook(d, path, it, t, i + 1);
    assert IsLook(d, path, it, t);
  }

  lemma DueThrough(d: Tables, core: set<Item>, a: Item, it: Item, t: nat)
    requires Opens(d.g, a, it) && Through(d, d.g.prods[a.p].rhs, a.dot + 1) && Due(d, core, a, t)
    ensures Due(d, core, it, t)
  {
    var path :| Tok(1) !in path && LeadsTo(d.g, path, core) && IsLook(d, path, a, t);
    var i: nat :| ValidLook(d, path, a, t, i);
    assert PassesLook(d, path, a, t, i);
    assert ValidLook(d, path, it, t, i + 1);
    assert IsLook(d, path, it, t);
  }

  /** The closure of an honest kernel is honest. */
  lemma {:induction false} CarriesDue(d: Tables, kernel: seq<Entry>, it: Item, t: nat, h: nat)
    requires Honest(d, kernel) && Carries(d, kernel, it, t, h)
    ensures Due(d, Core(kernel), it, t)
    decreases h
  {
    hide Due, Reachable;
    if InKernelWith(kernel, it, t) {
      var k :| 0 <= k < |kernel| && kernel[k].item == it && t in kernel[k].look;
    } else {
      var a :| Opens(d.g, a, it) && Passes(d, kernel, a, t, h - 1);
      if Reach(d, kernel, a, h - 1) && t in After(d, a, {}) {
        DueFirst(d, kernel, a, it, t, h - 1);
      } else {
        CarriesDue(d, kernel, a, t, h - 1);
        DueThrough(d, Core(kernel), a, it, t);
      }
    }
  }

  lemma DueGoto(d: Tables, kernel: seq<Entry>, x: Sym, core: set<Item>, it: Item, t: nat)
    requires Honest(d, kernel) && x != Tok(1) && (forall b :: b in core <==> IsGoto(d, kernel, x, b)) && it in core
    requires IsGoto(d, kernel, x, it) && HasLook(d, kernel, Back(it), t)
    ensures Due(d, core, it, t)
  {
    var h: nat :| Carries(d, kernel, Back(it), t, h);
    CarriesDue(d, kernel, Back(it), t, h);
    var path :| Tok(1) !in path && LeadsTo(d.g, path, Core(kernel)) && IsLook(d, path, Back(it), t);
    GotoLeads(d, kernel, path, x, core);
    GotoLook(d, path, x, it, t);
    assert Tok(1) !in path + [x];
  }

  lemma ReachableGoto(d: Tables, kernel: seq<Entry>, x: Sym, core: set<Item>)
    requires Reachable(d, Core(kernel)) && x != Tok(1) && forall b :: b in core <==> IsGoto(d, kernel, x, b)
    ensures Reachable(d, core)
  {
    var path :| Tok(1) !in path && LeadsTo(d.g, path, Core(kernel));
    GotoLeads(d, kernel, path, x, core);
    assert Tok(1) !in path + [x];
  }

  /** The start: the empty prefix leads to the start item. */
  lemma StartLeads(d: Tables)
    requires GrammarOk(d.g)
    ensures LeadsTo(d.g, [], {Item(0, 0)})
  {
    forall it ensures it in {Item(0, 0)} <==> IsValid(d.g, [], it) && InCore([], it) {
      assert Valid(d.g, [], Item(0, 0), 0);
      assert forall h: nat :: Valid(d.g, [], it, h) ==> it.dot == 0;
    }
  }
}
