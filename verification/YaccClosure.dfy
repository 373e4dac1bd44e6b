/** closure: the working set, and the loop that completes it. */
module YaccClosure {
  import opened YaccGrammar
  import opened YaccItems

  datatype Wset = Wset(item: Item, flag: bool, ws: set<nat>)

  /** Item a is in the working set at k, with its dot before nonterminal c. */
  predicate At(d: Tables, w: seq<Wset>, k: int, c: nat) { 0 <= k < |w| && Before(d.g, w[k].item, Non(c)) }

  /** The opening item of production j is there, with these lookaheads. */
  ghost predicate Has(w: seq<Wset>, j: nat, look: set<nat>, nolook: bool)
  {
    exists l :: 0 <= l < |w| && w[l].item == Item(j, 0) && (nolook || look <= w[l].ws)
  }

  /** All productions of c have their opening items there, with these lookaheads. */
  ghost predicate HasAll(d: Tables, w: seq<Wset>, c: nat, look: set<nat>, nolook: bool)
  {
    forall j: nat :: j < |d.g.prods| && d.g.prods[j].lhs == c ==> Has(w, j, look, nolook)
  }

  /** Entry k has been closed. */
  ghost predicate Settled(d: Tables, w: seq<Wset>, k: nat, nolook: bool)
    requires k < |w| && ItemOk(d.g, w[k].item)
  {
    forall c: nat :: Before(d.g, w[k].item, Non(c)) ==> HasAll(d, w, c, After(d, w[k].item, w[k].ws), nolook)
  }

  ghost predicate Shaped(d: Tables, w: seq<Wset>)
  {
    (forall k :: 0 <= k < |w| ==> ItemOk(d.g, w[k].item) && forall t :: t in w[k].ws ==> 0 < t <= d.g.tokens) &&
    (forall k, l :: 0 <= k < l < |w| ==> w[k].item != w[l].item)
  }

  /** Nothing is there that the kernel does not bring in. */
  ghost predicate Sound(d: Tables, kernel: seq<Entry>, w: seq<Wset>)
  {
    forall k ::
      0 <= k < |w| ==> InClosure(d, kernel, w[k].item) && forall t :: t in w[k].ws ==> HasLook(d, kernel, w[k].item, t)
  }

  /** w' holds all that w holds. */
  ghost predicate Extends(w: seq<Wset>, w': seq<Wset>)
  {
    |w| <= |w'| && forall k :: 0 <= k < |w| ==> w'[k].item == w[k].item && w[k].ws <= w'[k].ws
  }

  lemma ExtendsTrans(a: seq<Wset>, b: seq<Wset>, c: seq<Wset>)
    requires Extends(a, b) && Extends(b, c)
    ensures Extends(a, c)
  {
  }

  lemma HasKept(w: seq<Wset>, w': seq<Wset>, j: nat, look: set<nat>, nolook: bool)
    requires Has(w, j, look, nolook) && Extends(w, w')
    ensures Has(w', j, look, nolook)
  {
    var l :| 0 <= l < |w| && w[l].item == Item(j, 0) && (nolook || look <= w[l].ws);
    assert w'[l].item == Item(j, 0);
  }

  lemma HasAllKept(d: Tables, w: seq<Wset>, w': seq<Wset>, c: nat, look: set<nat>, nolook: bool)
    requires HasAll(d, w, c, look, nolook) && Extends(w, w')
    ensures HasAll(d, w', c, look, nolook)
  {
    forall j: nat | j < |d.g.prods| && d.g.prods[j].lhs == c ensures Has(w', j, look, nolook) {
      HasKept(w, w', j, look, nolook);
    }
  }

  // ----- what is still open: items not there, lookaheads not there -------------------------

  ghost predicate Present(w: seq<Wset>, it: Item, t: nat)
  {
    exists k :: 0 <= k < |w| && w[k].item == it && (t == 0 || t in w[k].ws)
  }

  ghost function Width(g: Grammar, n: nat): nat
    requires n <= |g.prods|
  {
    if n == 0 then 0 else
      var m := Width(g, n - 1);
      if |g.prods[n - 1].rhs| > m then |g.prods[n - 1].rhs| else m
  }

  lemma {:induction false} WidthIs(g: Grammar, n: nat, i: nat)
    requires i < n <= |g.prods|
    ensures |g.prods[i].rhs| <= Width(g, n)
  {
    if i < n - 1 {
      WidthIs(g, n - 1, i);
    }
  }

  ghost function Open(d: Tables, w: seq<Wset>): set<(Item, nat)>
  {
    set p: nat, dot: nat, t: nat | p < |d.g.prods| && dot <= Width(d.g, |d.g.prods|) && t <= d.g.tokens &&
    !Present(w, Item(p, dot), t) :: (Item(p, dot), t)
  }

  lemma OpenShrinks(d: Tables, w: seq<Wset>, w': seq<Wset>)
    requires Extends(w, w')
    ensures Open(d, w') <= Open(d, w)
  {
    forall it, t | Present(w, it, t) ensures Present(w', it, t) {
      var k :| 0 <= k < |w| && w[k].item == it && (t == 0 || t in w[k].ws);
      assert w'[k].item == it;
    }
  }

  lemma OpenLess(d: Tables, w: seq<Wset>, w': seq<Wset>, it: Item, t: nat)
    requires Extends(w, w') && ItemOk(d.g, it) && t <= d.g.tokens && Present(w', it, t) && !Present(w, it, t)
    ensures Open(d, w') < Open(d, w)
  {
    OpenShrinks(d, w, w');
    WidthIs(d.g, |d.g.prods|, it.p);
    assert it == Item(it.p, it.dot);
    assert (it, t) in Open(d, w) && (it, t) !in Open(d, w');
  }

  // ----- gathering the lookaheads of a nonterminal -----------------------------------------

  /** w' is w with the flags of the entries before c, from u to v, cleared. */
  ghost predicate Cleared(d: Tables, w: seq<Wset>, w': seq<Wset>, c: nat, u: nat, v: nat)
  {
    |w'| == |w| && forall k :: 0 <= k < |w| ==> w'[k] == w[k].(flag := w[k].flag && !(u <= k < v && At(d, w, k, c)))
  }

  /** Entry k adds its lookaheads. */
  predicate Adds(d: Tables, w: seq<Wset>, k: int, c: nat, u: nat, v: nat) { u <= k < v && At(d, w, k, c) && w[k].flag }

  /** clset holds what the entries cleared pass on, and no more. */
  ghost predicate Gathered(d: Tables, w: seq<Wset>, clset: set<nat>, c: nat, u: nat, v: nat)
  {
    (forall k :: Adds(d, w, k, c, u, v) ==> After(d, w[k].item, w[k].ws) <= clset) &&
    (forall t :: t in clset ==> exists k :: Adds(d, w, k, c, u, v) && t in After(d, w[k].item, w[k].ws))
  }

  /** What may follow, as the loop over the symbols after the dot finds it. */
  method FollowLoop(d: Tables, rhs: seq<Sym>, k: nat, look: set<nat>, clset: set<nat>) returns (r: set<nat>)
    requires |d.empty| == |d.first| && (forall j :: 0 <= j < |rhs| && rhs[j].Non? ==> rhs[j].n < |d.first|)
    ensures r == clset + Follow(d, rhs, k, look)
  {
    r := clset;
    var pi := k;
    while pi < |rhs|
      invariant clset <= r && r + Follow(d, rhs, pi, look) == clset + Follow(d, rhs, k, look)
      decreases |rhs| - pi
    {
      match rhs[pi] {
        case Tok(t) =>
          r := r + {t};
          return;
        case Non(n) =>
          r := r + d.first[n];
          if !d.empty[n] {
            return;
          }
      }
      pi := pi + 1;
    }
    r := r + look;
  }

  method Gather(d: Tables, w: seq<Wset>, u: nat, c: nat, nolook: bool) returns (w': seq<Wset>, clset: set<nat>)
    requires TablesOk(d) && Shaped(d, w) && u <= |w|
    ensures Cleared(d, w, w', c, u, |w|) && (nolook ==> clset == {}) && (!nolook ==> Gathered(d, w, clset, c, u, |w|))
  {
    w', clset := w, {};
    for v := u to |w|
      invariant Cleared(d, w, w', c, u, v) && (nolook ==> clset == {}) && (!nolook ==> Gathered(d, w, clset, c, u, v))
    {
      if w'[v].flag && At(d, w', v, c) {
        var it := w[v].item;
        w' := w'[v := w'[v].(flag := false)];
        if !nolook {
          assert ProdOk(d.g, d.g.prods[it.p]);
          forall j | 0 <= j < |d.g.prods[it.p].rhs| && d.g.prods[it.p].rhs[j].Non?
            ensures d.g.prods[it.p].rhs[j].n < |d.first| {
            assert SymOk(d.g, d.g.prods[it.p].rhs[j]);
          }
          ghost var before := clset;
          clset := FollowLoop(d, d.g.prods[it.p].rhs, it.dot + 1, w[v].ws, clset);
          GatherNext(d, w, before, clset, c, u, v);
        }
      } else {
        GatherSkip(d, w, clset, c, u, v, nolook);
      }
    }
  }

  lemma GatherNext(d: Tables, w: seq<Wset>, clset: set<nat>, clset': set<nat>, c: nat, u: nat, v: nat)
    requires Gathered(d, w, clset, c, u, v) && u <= v && Adds(d, w, v, c, u, v + 1) &&
             clset' == clset + After(d, w[v].item, w[v].ws)
    ensures Gathered(d, w, clset', c, u, v + 1)
  {
    forall t | t in clset' ensures exists k :: Adds(d, w, k, c, u, v + 1) && t in After(d, w[k].item, w[k].ws) {
      if t in clset {
        var k :| Adds(d, w, k, c, u, v) && t in After(d, w[k].item, w[k].ws);
        assert Adds(d, w, k, c, u, v + 1);
      } else {
        assert Adds(d, w, v, c, u, v + 1);
      }
    }
    forall k | Adds(d, w, k, c, u, v + 1) ensures After(d, w[k].item, w[k].ws) <= clset' {
      assert k < v ==> Adds(d, w, k, c, u, v);
    }
  }

  lemma GatherSkip(d: Tables, w: seq<Wset>, clset: set<nat>, c: nat, u: nat, v: nat, nolook: bool)
    requires u <= v < |w| && !Adds(d, w, v, c, u, v + 1) && (!nolook ==> Gathered(d, w, clset, c, u, v))
    ensures !nolook ==> Gathered(d, w, clset, c, u, v + 1)
  {
    forall k ensures Adds(d, w, k, c, u, v + 1) <==> Adds(d, w, k, c, u, v) {
    }
  }

  // ----- putting in the productions of a nonterminal ---------------------------------------

  /** What one installation does to the entries there: none changes unless it is flagged again. */
  ghost predicate Touched(w: seq<Wset>, w': seq<Wset>, work: bool)
  {
    Extends(w, w') && (forall k :: 0 <= k < |w| ==> w'[k] == w[k] || (work && w'[k].flag)) &&
    (forall k :: |w| <= k < |w'| ==> w'[k].flag)
  }

  lemma TouchedTrans(a: seq<Wset>, b: seq<Wset>, c: seq<Wset>, x: bool, y: bool)
    requires Touched(a, b, x) && Touched(b, c, y)
    ensures Touched(a, c, x || y)
  {
    forall k | 0 <= k < |a| ensures c[k] == a[k] || ((x || y) && c[k].flag) {
      assert b[k] == a[k] || (x && b[k].flag);
      assert c[k] == b[k] || (y && c[k].flag);
    }
    forall k | |a| <= k < |c| ensures c[k].flag {
      assert k < |b| ==> b[k].flag && (c[k] == b[k] || (y && c[k].flag));
    }
  }

  ghost predicate Justified(d: Tables, kernel: seq<Entry>, j: nat, clset: set<nat>)
  {
    InClosure(d, kernel, Item(j, 0)) &&
    (forall t :: t in clset ==> HasLook(d, kernel, Item(j, 0), t) && 0 < t <= d.g.tokens)
  }

  method Find(w: seq<Wset>, it: Item) returns (v: nat)
    ensures v <= |w| && (v < |w| ==> w[v].item == it) && forall k :: 0 <= k < v ==> w[k].item != it
  {
    v := 0;
    while v < |w| && w[v].item != it
      invariant v <= |w| && forall k :: 0 <= k < v ==> w[k].item != it
    {
      v := v + 1;
    }
  }

  lemma GrownLess(d: Tables, w: seq<Wset>, w': seq<Wset>, v: nat, look: set<nat>)
    requires Shaped(d, w) && v < |w| && w' == w[v := w[v].(flag := true, ws := w[v].ws + look)] && !(look <= w[v].ws)
    requires forall t :: t in look ==> 0 < t <= d.g.tokens
    ensures Open(d, w') < Open(d, w)
  {
    var it := w[v].item;
    var t :| t in look && t !in w[v].ws;
    assert w'[v].item == it && t in w'[v].ws;
    assert !Present(w, it, t) by {
      forall k | 0 <= k < |w| && w[k].item == it ensures t !in w[k].ws {
        assert !(k < v) && !(v < k);
      }
    }
    OpenLess(d, w, w', it, t);
  }

  lemma AddedLess(d: Tables, w: seq<Wset>, w': seq<Wset>, it: Item)
    requires ItemOk(d.g, it) && |w'| == |w| + 1 && w'[..|w|] == w && w'[|w|].item == it &&
             forall k :: 0 <= k < |w| ==> w[k].item != it
    ensures Open(d, w') < Open(d, w)
  {
    assert forall k :: 0 <= k < |w| ==> w'[k] == w'[..|w|][k];
    assert Present(w', it, 0) && !Present(w, it, 0);
    OpenLess(d, w, w', it, 0);
  }

  method Install(d: Tables, w: seq<Wset>, j: nat, clset: set<nat>, nolook: bool, ghost kernel: seq<Entry>)
    returns (w': seq<Wset>, work: bool)
    requires Shaped(d, w) && Sound(d, kernel, w) && j < |d.g.prods| && Justified(d, kernel, j, clset) &&
             (nolook ==> clset == {})
    ensures Shaped(d, w') && Sound(d, kernel, w') && Touched(w, w', work) && Has(w', j, clset, nolook)
    ensures if w' == w then !work else Open(d, w') < Open(d, w) && (nolook ==> !work) && (!nolook ==> work)
  {
    hide InClosure, HasLook, Open;
    var v := Find(w, Item(j, 0));
    if v < |w| {
      if nolook || clset <= w[v].ws {
        w', work := w, false;
      } else {
        w' := w[v := w[v].(flag := true, ws := w[v].ws + clset)];
        work := true;
        GrownLess(d, w, w', v, clset);
      }
      assert w'[v].item == Item(j, 0);
    } else {
      w' := w + [Wset(Item(j, 0), true, clset)];
      work := !nolook;
      assert w'[|w|].item == Item(j, 0);
      AddedLess(d, w, w', Item(j, 0));
    }
  }

  /** Entry k is closed, or will be when all productions of c are in with clset. */
  ghost predicate Pending(d: Tables, w: seq<Wset>, c: nat, clset: set<nat>, nolook: bool)
    requires Shaped(d, w)
  {
    forall k ::
      0 <= k < |w| && !w[k].flag ==>
        Settled(d, w, k, nolook) || (At(d, w, k, c) && (nolook || After(d, w[k].item, w[k].ws) <= clset))
  }

  lemma SettledKept(d: Tables, w: seq<Wset>, w': seq<Wset>, k: nat, nolook: bool)
    requires Shaped(d, w) && Shaped(d, w') && Extends(w, w') && k < |w| && w'[k] == w[k] && Settled(d, w, k, nolook)
    ensures Settled(d, w', k, nolook)
  {
    forall c: nat | Before(d.g, w'[k].item, Non(c)) ensures HasAll(d, w', c, After(d, w'[k].item, w'[k].ws), nolook) {
      HasAllKept(d, w, w', c, After(d, w[k].item, w[k].ws), nolook);
    }
  }

  lemma PendingKept(d: Tables, w: seq<Wset>, w': seq<Wset>, c: nat, clset: set<nat>, nolook: bool, work: bool)
    requires Shaped(d, w) && Shaped(d, w') && Pending(d, w, c, clset, nolook) && Touched(w, w', work)
    ensures Pending(d, w', c, clset, nolook)
  {
    forall k | 0 <= k < |w'| && !w'[k].flag
      ensures Settled(d, w', k, nolook) || (At(d, w', k, c) && (nolook || After(d, w'[k].item, w'[k].ws) <= clset))
    {
      assert k < |w| && w'[k] == w[k];
      if Settled(d, w, k, nolook) {
        SettledKept(d, w, w', k, nolook);
      }
    }
  }

  ghost predicate AllSettled(d: Tables, w: seq<Wset>, nolook: bool)
    requires Shaped(d, w)
  {
    forall k :: 0 <= k < |w| && !w[k].flag ==> Settled(d, w, k, nolook)
  }

  lemma HasLess(w: seq<Wset>, j: nat, look: set<nat>, look': set<nat>, nolook: bool)
    requires Has(w, j, look, nolook) && (nolook || look' <= look)
    ensures Has(w, j, look', nolook)
  {
    var l :| 0 <= l < |w| && w[l].item == Item(j, 0) && (nolook || look <= w[l].ws);
    assert w[l].item == Item(j, 0) && (nolook || look' <= w[l].ws);
  }

  lemma PendingDone(d: Tables, w: seq<Wset>, c: nat, clset: set<nat>, nolook: bool)
    requires Shaped(d, w) && Pending(d, w, c, clset, nolook) && HasAll(d, w, c, clset, nolook)
    ensures AllSettled(d, w, nolook)
  {
    forall k | 0 <= k < |w| && !w[k].flag ensures Settled(d, w, k, nolook) {
      if At(d, w, k, c) && (nolook || After(d, w[k].item, w[k].ws) <= clset) {
        forall j: nat | j < |d.g.prods| && d.g.prods[j].lhs == c
          ensures Has(w, j, After(d, w[k].item, w[k].ws), nolook) {
          HasLess(w, j, clset, After(d, w[k].item, w[k].ws), nolook);
        }
        assert HasAll(d, w, c, After(d, w[k].item, w[k].ws), nolook);
      }
    }
  }

  /** Every production of c, in order. */
  method InstallAll(d: Tables, w: seq<Wset>, c: nat, clset: set<nat>, nolook: bool, ghost kernel: seq<Entry>)
    returns (w': seq<Wset>, work: bool)
    requires Shaped(d, w) && Sound(d, kernel, w) && Pending(d, w, c, clset, nolook) && (nolook ==> clset == {})
    requires forall j: nat :: j < |d.g.prods| && d.g.prods[j].lhs == c ==> Justified(d, kernel, j, clset)
    ensures Shaped(d, w') && Sound(d, kernel, w') && Touched(w, w', work) && AllSettled(d, w', nolook)
    ensures Open(d, w') <= Open(d, w) && (work || |w'| != |w| ==> Open(d, w') < Open(d, w))
  {
    hide Shaped, Sound, Touched, Pending, Justified, Has, Open, AllSettled;
    w', work := w, false;
    TouchedRefl(w);
    for j := 0 to |d.g.prods|
      invariant Shaped(d, w') && Sound(d, kernel, w') && Touched(w, w', work) && Pending(d, w', c, clset, nolook)
      invariant Open(d, w') <= Open(d, w) && (work || |w'| != |w| ==> Open(d, w') < Open(d, w))
      invariant forall i: nat :: i < j && d.g.prods[i].lhs == c ==> Has(w', i, clset, nolook)
    {
      if d.g.prods[j].lhs == c {
        var before := w';
        var changed;
        w', changed := Install(d, before, j, clset, nolook, kernel);
        TouchedTrans(w, before, w', work, changed);
        PendingKept(d, before, w', c, clset, nolook, changed);
        TouchedExtends(before, w', changed);
        forall i: nat | i < j && d.g.prods[i].lhs == c ensures Has(w', i, clset, nolook) {
          HasKept(before, w', i, clset, nolook);
        }
        work := work || changed;
      }
    }
    PendingDone(d, w', c, clset, nolook);
  }

  lemma TouchedRefl(w: seq<Wset>)
    ensures Touched(w, w, false)
  {
  }

  lemma TouchedExtends(w: seq<Wset>, w': seq<Wset>, work: bool)
    requires Touched(w, w', work)
    ensures Extends(w, w')
  {
  }

  // ----- one entry, one pass, all passes ---------------------------------------------------

  lemma ClearedSame(d: Tables, w: seq<Wset>, w': seq<Wset>, c: nat, u: nat, v: nat, kernel: seq<Entry>)
    requires Shaped(d, w) && Sound(d, kernel, w) && Cleared(d, w, w', c, u, v)
    ensures Shaped(d, w') && Sound(d, kernel, w') && Extends(w, w') && Extends(w', w)
  {
    hide InClosure, HasLook;
  }

  lemma ClearedPending(d: Tables, w: seq<Wset>, w': seq<Wset>, c: nat, u: nat, clset: set<nat>, nolook: bool)
    requires Shaped(d, w) && Shaped(d, w') && AllSettled(d, w, nolook) && Cleared(d, w, w', c, u, |w|) &&
             Extends(w, w') && (nolook || Gathered(d, w, clset, c, u, |w|))
    ensures Pending(d, w', c, clset, nolook)
  {
    forall k | 0 <= k < |w'| && !w'[k].flag
      ensures Settled(d, w', k, nolook) || (At(d, w', k, c) && (nolook || After(d, w'[k].item, w'[k].ws) <= clset))
    {
      if w[k].flag {
        assert Adds(d, w, k, c, u, |w|);
      } else {
        SettledKept(d, w, w', k, nolook);
      }
    }
  }

  lemma Justify(d: Tables, kernel: seq<Entry>, w: seq<Wset>, c: nat, u: nat, clset: set<nat>, nolook: bool, j: nat)
    requires TablesOk(d) && Shaped(d, w) && Sound(d, kernel, w) && u < |w| && At(d, w, u, c) && j < |d.g.prods| &&
             d.g.prods[j].lhs == c
    requires if nolook then clset == {} else Gathered(d, w, clset, c, u, |w|)
    ensures Justified(d, kernel, j, clset)
  {
    hide InClosure, HasLook;
    assert Opens(d.g, w[u].item, Item(j, 0));
    ClosureStep(d, kernel, w[u].item, Item(j, 0));
    forall t | t in clset ensures HasLook(d, kernel, Item(j, 0), t) && 0 < t <= d.g.tokens {
      var k :| Adds(d, w, k, c, u, |w|) && t in After(d, w[k].item, w[k].ws);
      assert Opens(d.g, w[k].item, Item(j, 0));
      LookStep(d, kernel, w[k].item, Item(j, 0), w[k].ws, t);
      var rhs := d.g.prods[w[k].item.p].rhs;
      assert ProdOk(d.g, d.g.prods[w[k].item.p]);
      FollowRange(d, rhs, w[k].item.dot + 1, w[k].ws);
    }
  }

  /** What the loop keeps. */
  ghost predicate Good(d: Tables, kernel: seq<Entry>, w: seq<Wset>, nolook: bool)
  {
    Shaped(d, w) && Sound(d, kernel, w) && AllSettled(d, w, nolook)
  }

  lemma UnflagGood(d: Tables, kernel: seq<Entry>, w: seq<Wset>, nolook: bool, u: nat)
    requires Good(d, kernel, w, nolook) && u < |w| && forall c: nat :: !At(d, w, u, c)
    ensures Good(d, kernel, w[u := w[u].(flag := false)], nolook) && Extends(w, w[u := w[u].(flag := false)])
  {
    hide InClosure, HasLook;
    var w' := w[u := w[u].(flag := false)];
    forall k | 0 <= k < |w'| && !w'[k].flag ensures Settled(d, w', k, nolook) {
      if k != u {
        SettledKept(d, w, w', k, nolook);
      } else {
        assert forall c: nat :: Before(d.g, w'[u].item, Non(c)) ==> At(d, w, u, c);
      }
    }
  }

  lemma {:induction false} OpenSame(d: Tables, w: seq<Wset>, w': seq<Wset>)
    requires Extends(w, w') && Extends(w', w)
    ensures Open(d, w') == Open(d, w)
  {
    OpenShrinks(d, w, w');
    OpenShrinks(d, w', w);
  }

  lemma VisitFlags(d: Tables, w: seq<Wset>, w1: seq<Wset>, w': seq<Wset>, c: nat, u: nat, work: bool)
    requires Cleared(d, w, w1, c, u, |w|) && Touched(w1, w', work) && u < |w| && At(d, w, u, c)
    ensures Extends(w, w') && |w| <= |w'| &&
            (!work ==> !w'[u].flag && forall k :: 0 <= k < u ==> w'[k].flag ==> w[k].flag)
  {
  }

  /** Close entry u: gather what follows its nonterminal, and put in the productions. */
  method Visit(d: Tables, w: seq<Wset>, u: nat, c: nat, nolook: bool, ghost kernel: seq<Entry>)
    returns (w': seq<Wset>, work: bool)
    requires TablesOk(d) && Good(d, kernel, w, nolook) && u < |w| && w[u].flag && At(d, w, u, c)
    ensures Good(d, kernel, w', nolook) && Extends(w, w') &&
            (!work ==> !w'[u].flag && forall k :: 0 <= k < u ==> w'[k].flag ==> w[k].flag)
    ensures Open(d, w') <= Open(d, w) && (work || |w'| != |w| ==> Open(d, w') < Open(d, w))
  {
    hide Shaped, Sound, AllSettled, Pending, Justified, Open, Cleared, Gathered, Touched, Extends;
    var w1, clset := Gather(d, w, u, c, nolook);
    ClearedSame(d, w, w1, c, u, |w|, kernel);
    ClearedPending(d, w, w1, c, u, clset, nolook);
    forall j: nat | j < |d.g.prods| && d.g.prods[j].lhs == c ensures Justified(d, kernel, j, clset) {
      Justify(d, kernel, w, c, u, clset, nolook, j);
    }
    OpenSame(d, w, w1);
    w', work := InstallAll(d, w1, c, clset, nolook, kernel);
    VisitFlags(d, w, w1, w', c, u, work);
    ClearedLength(d, w, w1, c, u);
  }

  lemma ClearedLength(d: Tables, w: seq<Wset>, w': seq<Wset>, c: nat, u: nat)
    requires Cleared(d, w, w', c, u, |w|)
    ensures |w'| == |w|
  {
  }

  /** The entry's symbol, if it is a nonterminal. */
  method Dotted(d: Tables, w: seq<Wset>, u: nat) returns (yes: bool, c: nat)
    requires Shaped(d, w) && u < |w|
    ensures yes ==> At(d, w, u, c)
    ensures !yes ==> forall x: nat :: !At(d, w, u, x)
  {
    var it := w[u].item;
    var rhs := d.g.prods[it.p].rhs;
    yes, c := false, 0;
    if it.dot < |rhs| && rhs[it.dot].Non? {
      yes, c := true, rhs[it.dot].n;
    }
  }

  /** One pass over the working set, which may grow meanwhile. */
  method Pass(d: Tables, w: seq<Wset>, nolook: bool, ghost kernel: seq<Entry>) returns (w': seq<Wset>, work: bool)
    requires TablesOk(d) && Good(d, kernel, w, nolook)
    ensures Good(d, kernel, w', nolook) && Extends(w, w') && (work ==> Open(d, w') < Open(d, w))
    ensures !work ==> forall k :: 0 <= k < |w'| ==> !w'[k].flag
  {
    hide Good, Open, Extends, At;
    w', work := w, false;
    ExtendsRefl(w);
    var u := 0;
    while u < |w'|
      invariant u <= |w'| && Good(d, kernel, w', nolook) && Extends(w, w')
      invariant Open(d, w') <= Open(d, w) && (work ==> Open(d, w') < Open(d, w))
      invariant !work ==> forall k :: 0 <= k < u ==> !w'[k].flag
      decreases Open(d, w'), |w'| - u
    {
      if w'[u].flag {
        GoodShape(d, kernel, w', nolook);
        ghost var before := w';
        var yes, c := Dotted(d, w', u);
        if !yes {
          UnflagGood(d, kernel, w', nolook, u);
          w' := w'[u := w'[u].(flag := false)];
          OpenShrink(d, before, w');
        } else {
          var changed;
          w', changed := Visit(d, w', u, c, nolook, kernel);
          work := work || changed;
        }
        ExtendsTrans(w, before, w');
        ExtendsLength(before, w');
      }
      u := u + 1;
    }
  }

  lemma ExtendsRefl(w: seq<Wset>)
    ensures Extends(w, w)
  {
  }

  lemma ExtendsLength(w: seq<Wset>, w': seq<Wset>)
    requires Extends(w, w')
    ensures |w| <= |w'|
  {
  }

  lemma OpenShrink(d: Tables, w: seq<Wset>, w': seq<Wset>)
    requires Extends(w, w')
    ensures Open(d, w') <= Open(d, w)
  {
    OpenShrinks(d, w, w');
  }

  lemma GoodShape(d: Tables, kernel: seq<Entry>, w: seq<Wset>, nolook: bool)
    requires Good(d, kernel, w, nolook)
    ensures Shaped(d, w)
  {
  }

  // ----- complete --------------------------------------------------------------------------

  ghost predicate Holds(w: seq<Wset>, it: Item) { exists k :: 0 <= k < |w| && w[k].item == it }

  ghost predicate HoldsWith(w: seq<Wset>, it: Item, t: nat)
  {
    exists k :: 0 <= k < |w| && w[k].item == it && t in w[k].ws
  }

  /** The kernel is there. */
  ghost predicate Starts(kernel: seq<Entry>, w: seq<Wset>)
  {
    |kernel| <= |w| && forall k :: 0 <= k < |kernel| ==> w[k].item == kernel[k].item && kernel[k].look <= w[k].ws
  }

  /** All is closed. */
  ghost predicate Complete(d: Tables, w: seq<Wset>, nolook: bool)
  {
    Shaped(d, w) && forall k: nat :: k < |w| ==> Settled(d, w, k, nolook)
  }

  lemma CompleteStep(d: Tables, w: seq<Wset>, nolook: bool, k: nat, b: Item)
    requires Complete(d, w, nolook) && k < |w| && Opens(d.g, w[k].item, b)
    ensures Has(w, b.p, After(d, w[k].item, w[k].ws), nolook) && Item(b.p, 0) == b
  {
    assert Settled(d, w, k, nolook);
    assert HasAll(d, w, d.g.prods[b.p].lhs, After(d, w[k].item, w[k].ws), nolook);
  }

  lemma {:induction false} HasReached(d: Tables, kernel: seq<Entry>, w: seq<Wset>, nolook: bool, it: Item, h: nat)
    requires Complete(d, w, nolook) && Starts(kernel, w) && Reach(d, kernel, it, h)
    ensures Holds(w, it)
    decreases h
  {
    if InKernel(kernel, it) {
      var k :| 0 <= k < |kernel| && kernel[k].item == it;
      assert w[k].item == it;
    } else {
      var a :| Reach(d, kernel, a, h - 1) && Opens(d.g, a, it);
      HasReached(d, kernel, w, nolook, a, h - 1);
      var k :| 0 <= k < |w| && w[k].item == a;
      CompleteStep(d, w, nolook, k, it);
    }
  }

  lemma PassedOn(d: Tables, w: seq<Wset>, k: nat, b: Item, t: nat)
    requires Complete(d, w, false) && k < |w| && Opens(d.g, w[k].item, b) && t in After(d, w[k].item, w[k].ws)
    ensures HoldsWith(w, b, t)
  {
    CompleteStep(d, w, false, k, b);
    var l :| 0 <= l < |w| && w[l].item == Item(b.p, 0) && After(d, w[k].item, w[k].ws) <= w[l].ws;
    assert w[l].item == b && t in w[l].ws;
  }

  lemma {:induction false} HasCarried(d: Tables, kernel: seq<Entry>, w: seq<Wset>, it: Item, t: nat, h: nat)
    requires Complete(d, w, false) && Starts(kernel, w) && Carries(d, kernel, it, t, h)
    ensures HoldsWith(w, it, t)
    decreases h
  {
    hide Complete;
    if InKernelWith(kernel, it, t) {
      var k :| 0 <= k < |kernel| && kernel[k].item == it && t in kernel[k].look;
      assert w[k].item == it && t in w[k].ws;
    } else {
      var a :| Opens(d.g, a, it) && Passes(d, kernel, a, t, h - 1);
      var rhs := d.g.prods[a.p].rhs;
      if Reach(d, kernel, a, h - 1) && t in After(d, a, {}) {
        HasReached(d, kernel, w, false, a, h - 1);
        var k :| 0 <= k < |w| && w[k].item == a;
        FollowParts(d, rhs, a.dot + 1, w[k].ws);
        PassedOn(d, w, k, it, t);
      } else {
        HasCarried(d, kernel, w, a, t, h - 1);
        var k :| 0 <= k < |w| && w[k].item == a && t in w[k].ws;
        FollowParts(d, rhs, a.dot + 1, w[k].ws);
        PassedOn(d, w, k, it, t);
      }
    }
  }

  /** The working set is the closure: the same items, and with lookaheads the same tokens for each. */
  ghost predicate IsClosure(d: Tables, kernel: seq<Entry>, w: seq<Wset>, nolook: bool)
  {
    Shaped(d, w) && (forall k :: 0 <= k < |w| ==> !w[k].flag) && Starts(kernel, w) &&
    (forall it :: Holds(w, it) <==> InClosure(d, kernel, it)) &&
    (!nolook ==> forall k, t :: 0 <= k < |w| ==> (t in w[k].ws <==> HasLook(d, kernel, w[k].item, t)))
  }

  lemma ClosureFound(d: Tables, kernel: seq<Entry>, w: seq<Wset>, nolook: bool)
    requires Good(d, kernel, w, nolook) && Starts(kernel, w) && forall k :: 0 <= k < |w| ==> !w[k].flag
    ensures IsClosure(d, kernel, w, nolook)
  {
    assert Complete(d, w, nolook);
    hide AllSettled;
    forall it ensures Holds(w, it) <==> InClosure(d, kernel, it) {
      if InClosure(d, kernel, it) {
        var h: nat :| Reach(d, kernel, it, h);
        HasReached(d, kernel, w, nolook, it, h);
      }
    }
    if !nolook {
      forall k, t | 0 <= k < |w| && HasLook(d, kernel, w[k].item, t) ensures t in w[k].ws {
        ClosureLook(d, kernel, w, k, t);
      }
    }
  }

  lemma ClosureLook(d: Tables, kernel: seq<Entry>, w: seq<Wset>, k: nat, t: nat)
    requires Complete(d, w, false) && Starts(kernel, w) && k < |w| && HasLook(d, kernel, w[k].item, t)
    ensures t in w[k].ws
  {
    var h: nat :| Carries(d, kernel, w[k].item, t, h);
    HasCarried(d, kernel, w, w[k].item, t, h);
    var l :| 0 <= l < |w| && w[l].item == w[k].item && t in w[l].ws;
    assert !(k < l) && !(l < k);
  }

  lemma KernelGood(d: Tables, kernel: seq<Entry>, w: seq<Wset>, nolook: bool)
    requires KernelOk(d, kernel) && |w| == |kernel| &&
             forall k :: 0 <= k < |kernel| ==> w[k] == Wset(kernel[k].item, true, kernel[k].look)
    ensures Good(d, kernel, w, nolook) && Starts(kernel, w)
  {
    forall k | 0 <= k < |w|
      ensures InClosure(d, kernel, w[k].item) && forall t :: t in w[k].ws ==> HasLook(d, kernel, w[k].item, t) {
      assert kernel[k].item == w[k].item;
      assert Reach(d, kernel, w[k].item, 0);
      forall t | t in w[k].ws ensures HasLook(d, kernel, w[k].item, t) {
        assert InKernelWith(kernel, w[k].item, t);
        assert Carries(d, kernel, w[k].item, t, 0);
      }
    }
  }

  lemma StartsKept(kernel: seq<Entry>, w: seq<Wset>, w': seq<Wset>)
    requires Starts(kernel, w) && Extends(w, w')
    ensures Starts(kernel, w')
  {
  }

  /** closure: ends with every flag clear and exactly the closure of the kernel. */
  method Closure(d: Tables, kernel: seq<Entry>, nolook: bool) returns (w: seq<Wset>)
    requires TablesOk(d) && KernelOk(d, kernel)
    ensures IsClosure(d, kernel, w, nolook)
  {
    w := seq(|kernel|, i requires 0 <= i < |kernel| => Wset(kernel[i].item, true, kernel[i].look));
    KernelGood(d, kernel, w, nolook);
    hide Good, Starts, Extends, Open, IsClosure;
    var work := true;
    while work
      invariant Good(d, kernel, w, nolook) && Starts(kernel, w) && (!work ==> forall k :: 0 <= k < |w| ==> !w[k].flag)
      decreases Open(d, w), work
    {
      ghost var before := w;
      w, work := Pass(d, w, nolook, kernel);
      StartsKept(kernel, before, w);
      OpenShrink(d, before, w);
    }
    ClosureFound(d, kernel, w, nolook);
  }
}
