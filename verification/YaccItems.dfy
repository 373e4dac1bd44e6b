/** LR(1) items: what the closure of a kernel is, without saying how to find it. */
module YaccItems {
  import opened YaccGrammar

  datatype Item = Item(p: nat, dot: nat)

  /** The grammar with its tables of empty nonterminals and first tokens. */
  datatype Tables = Tables(g: Grammar, empty: seq<bool>, first: Sets)

  ghost predicate TablesOk(d: Tables)
  {
    GrammarOk(d.g) && |d.empty| == |d.first| == d.g.nonter &&
    forall a: nat, t :: a < d.g.nonter && t in d.first[a] ==> 0 < t <= d.g.tokens
  }

  predicate ItemOk(g: Grammar, it: Item) { it.p < |g.prods| && it.dot <= |g.prods[it.p].rhs| }

  predicate Before(g: Grammar, it: Item, s: Sym)
  {
    ItemOk(g, it) && it.dot < |g.prods[it.p].rhs| && g.prods[it.p].rhs[it.dot] == s
  }

  /** What can follow the symbols from k on, look standing for what follows the production. */
  function Follow(d: Tables, rhs: seq<Sym>, k: nat, look: set<nat>): set<nat>
    decreases |rhs| - k
  {
    if k >= |rhs| then look
    else match rhs[k]
      case Tok(t) => {t}
      case Non(n) =>
        (if n < |d.first| then d.first[n] else {}) +
        (if n < |d.empty| && d.empty[n] then Follow(d, rhs, k + 1, look) else {})
  }

  /** Do all symbols from k on derive the empty string? */
  predicate Through(d: Tables, rhs: seq<Sym>, k: nat)
    decreases |rhs| - k
  {
    k >= |rhs| || (rhs[k].Non? && rhs[k].n < |d.empty| && d.empty[rhs[k].n] && Through(d, rhs, k + 1))
  }

  lemma {:induction false} FollowParts(d: Tables, rhs: seq<Sym>, k: nat, look: set<nat>)
    ensures Follow(d, rhs, k, look) == Follow(d, rhs, k, {}) + if Through(d, rhs, k) then look else {}
    decreases |rhs| - k
  {
    if k < |rhs| && rhs[k].Non? {
      FollowParts(d, rhs, k + 1, look);
    }
  }

  lemma {:induction false} FollowRange(d: Tables, rhs: seq<Sym>, k: nat, look: set<nat>)
    requires TablesOk(d) && (forall j :: 0 <= j < |rhs| ==> SymOk(d.g, rhs[j])) &&
             forall t :: t in look ==> 0 < t <= d.g.tokens
    ensures forall t :: t in Follow(d, rhs, k, look) ==> 0 < t <= d.g.tokens
    decreases |rhs| - k
  {
    if k < |rhs| {
      assert SymOk(d.g, rhs[k]);
      if rhs[k].Non? {
        FollowRange(d, rhs, k + 1, look);
      }
    }
  }

  /** What item it, with look after its production, puts after a production of the symbol at its dot. */
  function After(d: Tables, it: Item, look: set<nat>): set<nat>
    requires ItemOk(d.g, it)
  {
    Follow(d, d.g.prods[it.p].rhs, it.dot + 1, look)
  }

  datatype Entry = Entry(item: Item, look: set<nat>)

  ghost predicate KernelOk(d: Tables, kernel: seq<Entry>)
  {
    (forall k ::
      0 <= k < |kernel| ==> ItemOk(d.g, kernel[k].item) && forall t :: t in kernel[k].look ==> 0 < t <= d.g.tokens) &&
    (forall k, l :: 0 <= k < l < |kernel| ==> kernel[k].item != kernel[l].item)
  }

  // ----- the closure, by derivation ------------------------------------------------------

  ghost predicate InKernel(kernel: seq<Entry>, it: Item) { exists k :: 0 <= k < |kernel| && kernel[k].item == it }

  ghost predicate InKernelWith(kernel: seq<Entry>, it: Item, t: nat)
  {
    exists k :: 0 <= k < |kernel| && kernel[k].item == it && t in kernel[k].look
  }

  /** Item b opens a production of the symbol before which a has its dot. */
  ghost predicate Opens(g: Grammar, a: Item, b: Item)
  {
    ItemOk(g, a) && b.dot == 0 && b.p < |g.prods| && Before(g, a, Non(g.prods[b.p].lhs))
  }

  /** Item it is in the closure, by at most h steps from the kernel. */
  ghost predicate Reach(d: Tables, kernel: seq<Entry>, it: Item, h: nat)
    decreases h
  {
    InKernel(kernel, it) || (h > 0 && exists a :: Reach(d, kernel, a, h - 1) && Opens(d.g, a, it))
  }

  /** Token t is a lookahead of item it, by at most h steps. */
  ghost predicate Carries(d: Tables, kernel: seq<Entry>, it: Item, t: nat, h: nat)
    decreases h, 0
  {
    InKernelWith(kernel, it, t) || (h > 0 && exists a :: Opens(d.g, a, it) && Passes(d, kernel, a, t, h - 1))
  }

  /** Token t can follow a production of the symbol at a's dot. */
  ghost predicate Passes(d: Tables, kernel: seq<Entry>, a: Item, t: nat, h: nat)
    requires ItemOk(d.g, a)
    decreases h, 1
  {
    (Reach(d, kernel, a, h) && t in After(d, a, {})) ||
    (Through(d, d.g.prods[a.p].rhs, a.dot + 1) && Carries(d, kernel, a, t, h))
  }

  ghost predicate InClosure(d: Tables, kernel: seq<Entry>, it: Item) { exists h: nat :: Reach(d, kernel, it, h) }

  ghost predicate HasLook(d: Tables, kernel: seq<Entry>, it: Item, t: nat)
  {
    exists h: nat :: Carries(d, kernel, it, t, h)
  }

  lemma ClosureStep(d: Tables, kernel: seq<Entry>, a: Item, b: Item)
    requires InClosure(d, kernel, a) && Opens(d.g, a, b)
    ensures InClosure(d, kernel, b)
  {
    var h: nat :| Reach(d, kernel, a, h);
    assert Reach(d, kernel, b, h + 1);
  }

  lemma LookStep(d: Tables, kernel: seq<Entry>, a: Item, b: Item, look: set<nat>, t: nat)
    requires InClosure(d, kernel, a) && Opens(d.g, a, b) && (forall x :: x in look ==> HasLook(d, kernel, a, x)) &&
             t in After(d, a, look)
    ensures HasLook(d, kernel, b, t)
  {
    FollowParts(d, d.g.prods[a.p].rhs, a.dot + 1, look);
    if t in After(d, a, {}) {
      var h: nat :| Reach(d, kernel, a, h);
      assert Passes(d, kernel, a, t, h);
      assert Carries(d, kernel, b, t, h + 1);
    } else {
      var h: nat :| Carries(d, kernel, a, t, h);
      assert Passes(d, kernel, a, t, h);
      assert Carries(d, kernel, b, t, h + 1);
    }
  }

  // ----- the closure as the least closed set ----------------------------------------------

  ghost predicate Closed(d: Tables, kernel: seq<Entry>, v: map<Item, set<nat>>)
  {
    (forall k :: 0 <= k < |kernel| ==> kernel[k].item in v && kernel[k].look <= v[kernel[k].item]) &&
    (forall a, b :: a in v && Opens(d.g, a, b) ==> b in v && After(d, a, v[a]) <= v[b])
  }

  lemma {:induction false} ReachLeast(d: Tables, kernel: seq<Entry>, v: map<Item, set<nat>>, it: Item, h: nat)
    requires Closed(d, kernel, v) && Reach(d, kernel, it, h)
    ensures it in v
    decreases h
  {
    if !InKernel(kernel, it) {
      var a :| Reach(d, kernel, a, h - 1) && Opens(d.g, a, it);
      ReachLeast(d, kernel, v, a, h - 1);
    }
  }

  lemma {:induction false} CarriesLeast(d: Tables, kernel: seq<Entry>, v: map<Item, set<nat>>, it: Item, t: nat, h: nat)
    requires Closed(d, kernel, v) && Carries(d, kernel, it, t, h)
    ensures it in v && t in v[it]
    decreases h
  {
    if !InKernelWith(kernel, it, t) {
      var a :| Opens(d.g, a, it) && Passes(d, kernel, a, t, h - 1);
      var rhs := d.g.prods[a.p].rhs;
      if Reach(d, kernel, a, h - 1) && t in After(d, a, {}) {
        ReachLeast(d, kernel, v, a, h - 1);
      } else {
        CarriesLeast(d, kernel, v, a, t, h - 1);
      }
      FollowParts(d, rhs, a.dot + 1, v[a]);
    }
  }

  /** Whatever the derivations give is in every closed set. */
  lemma ClosureLeast(d: Tables, kernel: seq<Entry>, v: map<Item, set<nat>>)
    requires Closed(d, kernel, v)
    ensures forall it :: InClosure(d, kernel, it) ==> it in v
    ensures forall it, t :: HasLook(d, kernel, it, t) ==> it in v && t in v[it]
  {
    forall it | InClosure(d, kernel, it) ensures it in v {
      var h: nat :| Reach(d, kernel, it, h);
      ReachLeast(d, kernel, v, it, h);
    }
    forall it, t | HasLook(d, kernel, it, t) ensures it in v && t in v[it] {
      var h: nat :| Carries(d, kernel, it, t, h);
      CarriesLeast(d, kernel, v, it, t, h);
    }
  }
}
