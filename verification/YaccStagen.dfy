/** stagen: all states, by closing each and moving its dots; and the later look-up of shifts. */
module YaccStagen {
  import opened YaccGrammar
  import opened YaccItems
  import opened YaccPaths
  import opened YaccSort
  import opened YaccAutomaton
  import opened YaccState
  import C = YaccClosure

  type Work = seq<C.Wset>

  // ----- the items a symbol moves --------------------------------------------------------

  /** The entry's dot moved on. */
  function Moved(e: C.Wset): Entry { Entry(Item(e.item.p, e.item.dot + 1), e.ws) }

  /** Entry e comes from the working set at l. */
  ghost predicate Source(d: Tables, w: Work, c: Sym, p: nat, q: nat, e: Entry, l: int)
    requires q <= |w|
  {
    p <= l < q && Before(d.g, w[l].item, c) && e == Moved(w[l])
  }

  ghost predicate From(d: Tables, w: Work, c: Sym, p: nat, q: nat, e: Entry)
    requires q <= |w|
  {
    exists l :: Source(d, w, c, p, q, e, l)
  }

  /** The moved entries from p to q whose dots stand before c. */
  ghost predicate Collected(d: Tables, w: Work, c: Sym, p: nat, q: nat, s: seq<Entry>)
    requires q <= |w|
  {
    (forall k :: 0 <= k < |s| ==> From(d, w, c, p, q, s[k])) &&
    (forall l :: p <= l < q && Before(d.g, w[l].item, c) ==> Moved(w[l]) in s) &&
    Distinct(s)
  }

  /** The flags of the entries before c from p to q are set. */
  ghost predicate FlagsSet(d: Tables, w: Work, w': Work, c: Sym, p: nat, q: nat)
  {
    |w'| == |w| &&
    forall k :: 0 <= k < |w| ==> w'[k] == w[k].(flag := w[k].flag || (p <= k < q && Before(d.g, w[k].item, c)))
  }

  lemma CollectFresh(d: Tables, w: Work, c: Sym, p: nat, q: nat, s: seq<Entry>, k: nat)
    requires p <= q < |w| && k < |s| && From(d, w, c, p, q, s[k]) && C.Shaped(d, w)
    ensures s[k].item != Moved(w[q]).item && From(d, w, c, p, q + 1, s[k])
  {
    var l :| Source(d, w, c, p, q, s[k], l);
    assert w[l].item != w[q].item;
    assert Source(d, w, c, p, q + 1, s[k], l);
  }

  lemma CollectThis(d: Tables, w: Work, c: Sym, p: nat, q: nat)
    requires p <= q < |w|
    ensures Before(d.g, w[q].item, c) ==> From(d, w, c, p, q + 1, Moved(w[q]))
  {
    assert Before(d.g, w[q].item, c) ==> Source(d, w, c, p, q + 1, Moved(w[q]), q);
  }

  lemma CollectNext(d: Tables, w: Work, c: Sym, p: nat, q: nat, s: seq<Entry>)
    requires p <= q < |w| && Collected(d, w, c, p, q, s) && C.Shaped(d, w)
    ensures Collected(d, w, c, p, q + 1, if Before(d.g, w[q].item, c) then s + [Moved(w[q])] else s)
  {
    hide From;
    forall k: nat | k < |s| ensures s[k].item != Moved(w[q]).item && From(d, w, c, p, q + 1, s[k]) {
      CollectFresh(d, w, c, p, q, s, k);
    }
    CollectThis(d, w, c, p, q);
    hide C.Shaped;
  }

  lemma CollectNone(d: Tables, w: Work, c: Sym, p: nat)
    requires p <= |w|
    ensures Collected(d, w, c, p, p, [])
  {
  }

  method Collect(d: Tables, w: Work, p: nat, c: Sym) returns (s: seq<Entry>, w': Work)
    requires C.Shaped(d, w) && p < |w|
    ensures Collected(d, w, c, p, |w|, s) && FlagsSet(d, w, w', c, p, |w|)
  {
    hide C.Shaped, Collected;
    s, w' := [], w;
    CollectNone(d, w, c, p);
    for q := p to |w|
      invariant Collected(d, w, c, p, q, s) && FlagsSet(d, w, w', c, p, q)
    {
      CollectNext(d, w, c, p, q, s);
      if Before(d.g, w[q].item, c) {
        s := s + [Moved(w[q])];
        w' := w'[q := w'[q].(flag := true)];
      }
    }
  }

  /** No entry before p has its dot before c. */
  ghost predicate FirstAt(d: Tables, w: Work, c: Sym, p: nat)
  {
    p < |w| && Before(d.g, w[p].item, c) && forall k :: 0 <= k < p ==> !Before(d.g, w[k].item, c)
  }

  lemma CollectedIn(d: Tables, w: Work, c: Sym, p: nat, s: seq<Entry>, k: nat) returns (l: nat)
    requires p <= |w| && Collected(d, w, c, p, |w|, s) && k < |s|
    ensures l < |w| && Before(d.g, w[l].item, c) && s[k] == Moved(w[l])
  {
    assert From(d, w, c, p, |w|, s[k]);
    var i :| Source(d, w, c, p, |w|, s[k], i);
    l := i;
  }

  lemma CollectedGoto(d: Tables, kernel: seq<Entry>, w: Work, c: Sym, p: nat, s: seq<Entry>, it: Item)
    requires FirstAt(d, w, c, p) && Collected(d, w, c, p, |w|, s) &&
             forall b :: C.Holds(w, b) <==> InClosure(d, kernel, b)
    ensures it in Core(s) <==> IsGoto(d, kernel, c, it)
  {
    hide InClosure;
    if it in Core(s) {
      var k: nat :| k < |s| && s[k].item == it;
      var l := CollectedIn(d, w, c, p, s, k);
      assert Back(it) == w[l].item;
      assert C.Holds(w, w[l].item);
    }
    if IsGoto(d, kernel, c, it) {
      assert C.Holds(w, Back(it));
      var l :| 0 <= l < |w| && w[l].item == Back(it);
      assert p <= l && Moved(w[l]) in s;
      var k :| 0 <= k < |s| && s[k] == Moved(w[l]);
      assert s[k].item == it;
    }
  }

  /** Whatever its flags, the working set holds the closure, with its lookaheads. */
  ghost predicate IsWork(d: Tables, kernel: seq<Entry>, w: Work)
  {
    C.Shaped(d, w) && (forall b :: C.Holds(w, b) <==> InClosure(d, kernel, b)) &&
    (forall k, t :: 0 <= k < |w| ==> (t in w[k].ws <==> HasLook(d, kernel, w[k].item, t)))
  }

  /** w' is w but for flags. */
  ghost predicate SameWork(w: Work, w': Work)
  {
    |w'| == |w| && forall k :: 0 <= k < |w| ==> w'[k].item == w[k].item && w'[k].ws == w[k].ws
  }

  lemma WorkKept(d: Tables, kernel: seq<Entry>, w: Work, w': Work)
    requires IsWork(d, kernel, w) && SameWork(w, w')
    ensures IsWork(d, kernel, w')
  {
    hide InClosure, HasLook;
    forall b ensures C.Holds(w', b) <==> C.Holds(w, b) {
      if C.Holds(w', b) {
        var k :| 0 <= k < |w'| && w'[k].item == b;
        assert w[k].item == b;
      }
      if C.Holds(w, b) {
        var k :| 0 <= k < |w| && w[k].item == b;
        assert w'[k].item == b;
      }
    }
  }

  /** Moving the dots of a closure over c gives a kernel whose lookaheads are due. */
  lemma CollectedCandidate(d: Tables, kernel: seq<Entry>, w: Work, c: Sym, p: nat, s: seq<Entry>)
    requires c != Tok(1) && IsWork(d, kernel, w) && Honest(d, kernel) && FirstAt(d, w, c, p) &&
             Collected(d, w, c, p, |w|, s)
    ensures Candidate(d, s, c) && forall it :: it in Core(s) <==> IsGoto(d, kernel, c, it)
  {
    CollectedCore(d, kernel, w, c, p, s);
    assert Moved(w[p]) in s;
    CollectedKernel(d, w, c, p, s);
    CollectedHonest(d, kernel, w, c, p, s);
  }

  lemma CollectedCore(d: Tables, kernel: seq<Entry>, w: Work, c: Sym, p: nat, s: seq<Entry>)
    requires FirstAt(d, w, c, p) && Collected(d, w, c, p, |w|, s) &&
             forall b :: C.Holds(w, b) <==> InClosure(d, kernel, b)
    ensures forall it :: it in Core(s) <==> IsGoto(d, kernel, c, it)
  {
    hide InClosure;
    forall it ensures it in Core(s) <==> IsGoto(d, kernel, c, it) {
      CollectedGoto(d, kernel, w, c, p, s, it);
    }
  }

  lemma CollectedKernel(d: Tables, w: Work, c: Sym, p: nat, s: seq<Entry>)
    requires C.Shaped(d, w) && p < |w| && Collected(d, w, c, p, |w|, s)
    ensures KernelOk(d, s) && forall k :: 0 <= k < |s| ==> Behind(d.g, s[k].item, c)
  {
    assert Distinct(s);
    forall k: nat | k < |s| ensures EntryOk(d, s[k], c) {
      var l := CollectedIn(d, w, c, p, s, k);
      assert Back(s[k].item) == w[l].item;
    }
    hide Collected, C.Shaped;
  }

  ghost predicate EntryOk(d: Tables, e: Entry, c: Sym)
  {
    ItemOk(d.g, e.item) && (forall t :: t in e.look ==> 0 < t <= d.g.tokens) && Behind(d.g, e.item, c)
  }

  lemma CollectedHonest(d: Tables, kernel: seq<Entry>, w: Work, c: Sym, p: nat, s: seq<Entry>)
    requires c != Tok(1) && Honest(d, kernel) && p < |w| && Collected(d, w, c, p, |w|, s) &&
             (forall it :: it in Core(s) <==> IsGoto(d, kernel, c, it))
    requires forall k, t :: 0 <= k < |w| && t in w[k].ws ==> HasLook(d, kernel, w[k].item, t)
    ensures Honest(d, s)
  {
    hide Due, Reachable, HasLook, IsGoto;
    ReachableGoto(d, kernel, c, Core(s));
    forall k: nat, t | k < |s| && t in s[k].look ensures Due(d, Core(s), s[k].item, t) {
      var l := CollectedIn(d, w, c, p, s, k);
      assert Back(s[k].item) == w[l].item && s[k].item in Core(s);
      GotoBack(d, kernel, c, s[k].item);
      DueGoto(d, kernel, c, Core(s), s[k].item, t);
    }
  }

  lemma GotoBack(d: Tables, kernel: seq<Entry>, c: Sym, it: Item)
    requires IsGoto(d, kernel, c, it)
    ensures it.dot > 0
  {
  }

  // ----- all gotos of one state ----------------------------------------------------------

  /** State j has every lookahead that the closure of the kernel gives the items moved over x. */
  ghost predicate LooksPassed(d: Tables, a: Auto, kernel: seq<Entry>, x: Sym, j: nat)
  {
    j < |a.states| &&
    forall it, t :: IsGoto(d, kernel, x, it) && HasLook(d, kernel, Back(it), t) ==> InKernelWith(a.states[j], it, t)
  }

  /** The kernel has a state for x, and has passed its lookaheads to it. */
  ghost predicate HasTarget(d: Tables, a: Auto, kernel: seq<Entry>, x: Sym)
  {
    exists j :: Target(d, a, kernel, x, j) && LooksPassed(d, a, kernel, x, j)
  }

  lemma CollectedLooks(d: Tables, kernel: seq<Entry>, w: Work, c: Sym, p: nat, s: seq<Entry>, it: Item, t: nat)
    requires FirstAt(d, w, c, p) && Collected(d, w, c, p, |w|, s) && IsWork(d, kernel, w)
    requires IsGoto(d, kernel, c, it) && HasLook(d, kernel, Back(it), t)
    ensures InKernelWith(s, it, t)
  {
    hide InClosure, HasLook;
    assert C.Holds(w, Back(it));
    var l :| 0 <= l < |w| && w[l].item == Back(it);
    assert p <= l && Moved(w[l]) in s;
    var k :| 0 <= k < |s| && s[k] == Moved(w[l]);
    assert s[k].item == it && t in s[k].look;
  }

  /** What was collected and registered has been passed. */
  lemma PassedNow(d: Tables, kernel: seq<Entry>, w: Work, c: Sym, p: nat, s: seq<Entry>, a: Auto, b: Auto, j: nat)
    requires FirstAt(d, w, c, p) && Collected(d, w, c, p, |w|, s) && IsWork(d, kernel, w) && Registered(a, b, s, j)
    ensures LooksPassed(d, b, kernel, c, j)
  {
    hide FirstAt, Collected, IsWork, InClosure, HasLook;
    forall it, t | IsGoto(d, kernel, c, it) && HasLook(d, kernel, Back(it), t)
      ensures InKernelWith(b.states[j], it, t)
    {
      CollectedLooks(d, kernel, w, c, p, s, it, t);
    }
  }

  lemma PassedKept(d: Tables, a: Auto, b: Auto, kernel: seq<Entry>, x: Sym, j: nat)
    requires Grows(a, b) && LooksPassed(d, a, kernel, x, j)
    ensures LooksPassed(d, b, kernel, x, j)
  {
    hide IsGoto, HasLook, InKernelWith;
    assert Covers(b.states[j], a.states[j]);
  }

  /** All entries before p have their states. */
  ghost predicate Served(d: Tables, a: Auto, kernel: seq<Entry>, w: Work, p: nat)
  {
    forall q, x :: 0 <= q < p && q < |w| && Before(d.g, w[q].item, x) && x != Tok(1) ==> HasTarget(d, a, kernel, x)
  }

  /** Flags from p on mark the entries whose symbol has come up before p, and only those. */
  ghost predicate Marked(d: Tables, w: Work, p: nat)
  {
    (forall q, r, x ::
      0 <= q < p <= r < |w| && x != Tok(1) && Before(d.g, w[q].item, x) && Before(d.g, w[r].item, x) ==> w[r].flag) &&
    (forall r :: p <= r < |w| && w[r].flag ==> Seen(d, w, p, r))
  }

  ghost predicate Seen(d: Tables, w: Work, p: nat, r: nat)
    requires r < |w|
  {
    exists q, x :: 0 <= q < p && q < |w| && x != Tok(1) && Before(d.g, w[q].item, x) && Before(d.g, w[r].item, x)
  }

  lemma ServedKept(d: Tables, a: Auto, b: Auto, kernel: seq<Entry>, w: Work, w': Work, p: nat)
    requires Served(d, a, kernel, w, p) && Grows(a, b) && SameWork(w, w')
    ensures Served(d, b, kernel, w', p)
  {
    forall q, x | 0 <= q < p && q < |w'| && Before(d.g, w'[q].item, x) && x != Tok(1)
      ensures HasTarget(d, b, kernel, x) {
      assert HasTarget(d, a, kernel, x);
      var j :| Target(d, a, kernel, x, j) && LooksPassed(d, a, kernel, x, j);
      TargetKept(d, a, b, kernel, kernel, x, j);
      PassedKept(d, a, b, kernel, x, j);
    }
  }

  /** An entry already flagged: its symbol has its state. */
  lemma ServedFlagged(d: Tables, a: Auto, kernel: seq<Entry>, w: Work, p: nat)
    requires p < |w| && w[p].flag && Served(d, a, kernel, w, p) && Marked(d, w, p)
    ensures Served(d, a, kernel, w, p + 1) && Marked(d, w, p + 1)
  {
    hide HasTarget;
    assert Seen(d, w, p, p);
    var q, x :| 0 <= q < p && q < |w| && x != Tok(1) && Before(d.g, w[q].item, x) && Before(d.g, w[p].item, x);
    assert HasTarget(d, a, kernel, x);
    assert forall y :: Before(d.g, w[p].item, y) ==> y == x;
    forall r | p + 1 <= r < |w| && w[r].flag ensures Seen(d, w, p + 1, r) {
      assert Seen(d, w, p, r);
      var q', x' :| 0 <= q' < p && q' < |w| && x' != Tok(1) && Before(d.g, w[q'].item, x') &&
      Before(d.g, w[r].item, x');
      assert q' < p + 1;
    }
  }

  /** An entry at its end, or before the end marker: nothing to do. */
  lemma ServedEnd(d: Tables, a: Auto, kernel: seq<Entry>, w: Work, w': Work, p: nat)
    requires p < |w| && Served(d, a, kernel, w, p) && Marked(d, w, p) && w' == w[p := w[p].(flag := true)]
    requires forall x :: Before(d.g, w[p].item, x) ==> x == Tok(1)
    ensures Served(d, a, kernel, w', p + 1) && Marked(d, w', p + 1)
  {
    hide HasTarget;
    forall r | p + 1 <= r < |w'| && w'[r].flag ensures Seen(d, w', p + 1, r) {
      assert Seen(d, w, p, r);
      var q, x :| 0 <= q < p && q < |w| && x != Tok(1) && Before(d.g, w[q].item, x) && Before(d.g, w[r].item, x);
      assert Before(d.g, w'[q].item, x) && Before(d.g, w'[r].item, x);
    }
  }

  lemma MarkedNext(d: Tables, w: Work, w': Work, p: nat, c: Sym)
    requires p < |w| && Marked(d, w, p) && Before(d.g, w[p].item, c) && c != Tok(1) && FlagsSet(d, w, w', c, p, |w|)
    ensures Marked(d, w', p + 1) && SameWork(w, w')
  {
    forall r | p + 1 <= r < |w'| && w'[r].flag ensures Seen(d, w', p + 1, r) {
      if w[r].flag {
        assert Seen(d, w, p, r);
        var q, x :| 0 <= q < p && q < |w| && x != Tok(1) && Before(d.g, w[q].item, x) && Before(d.g, w[r].item, x);
        assert Before(d.g, w'[q].item, x) && Before(d.g, w'[r].item, x);
      } else {
        assert Before(d.g, w'[p].item, c) && Before(d.g, w'[r].item, c);
      }
    }
    forall q, r, x | 0 <= q < p + 1 <= r < |w'| && x != Tok(1) && Before(d.g, w'[q].item, x) &&
    Before(d.g, w'[r].item, x) ensures w'[r].flag {
      if q < p {
        assert w[r].flag;
      } else {
        assert x == c;
      }
    }
  }

  lemma FirstUnflagged(d: Tables, w: Work, p: nat, c: Sym)
    requires p < |w| && Marked(d, w, p) && !w[p].flag && Before(d.g, w[p].item, c) && c != Tok(1)
    ensures FirstAt(d, w, c, p)
  {
  }

  lemma ServedNext(d: Tables, a: Auto, kernel: seq<Entry>, w: Work, p: nat, c: Sym, j: nat)
    requires p < |w| && Served(d, a, kernel, w, p) && Before(d.g, w[p].item, c) && Target(d, a, kernel, c, j) &&
             LooksPassed(d, a, kernel, c, j)
    ensures Served(d, a, kernel, w, p + 1)
  {
    assert HasTarget(d, a, kernel, c);
    hide HasTarget;
    assert forall y :: Before(d.g, w[p].item, y) ==> y == c;
  }

  lemma ServedAll(d: Tables, a: Auto, i: nat, kernel: seq<Entry>, w: Work)
    requires i < |a.states| && Core(a.states[i]) == Core(kernel) && IsWork(d, kernel, w) &&
             Served(d, a, kernel, w, |w|) && Grows(a, a)
    ensures GotosThere(d, a, i)
  {
    GotoSame(d, a.states[i], kernel);
    forall x | x != Tok(1) && Moves(d, a.states[i], x) ensures exists j :: Target(d, a, a.states[i], x, j) {
      var b :| InClosure(d, a.states[i], b) && Before(d.g, b, x);
      assert C.Holds(w, b);
      var q :| 0 <= q < |w| && w[q].item == b;
      assert HasTarget(d, a, kernel, x);
      var j :| Target(d, a, kernel, x, j);
      hide InClosure, IsGoto;
      TargetKept(d, a, a, kernel, a.states[i], x, j);
    }
  }
}
