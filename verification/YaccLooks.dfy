/** Which lookaheads are recorded: all that the grammar gives, but for states whose mark can be overwritten. */
module YaccLooks {
  import opened YaccGrammar
  import opened YaccItems
  import opened YaccPaths
  import opened YaccSort
  import opened YaccAutomaton
  import opened YaccState
  import opened YaccStagen
  import C = YaccClosure

  /** The dot is at the end, or before the end marker. */
  predicate AtEnd(g: Grammar, it: Item)
    requires ItemOk(g, it)
  {
    it.dot == |g.prods[it.p].rhs| || g.prods[it.p].rhs[it.dot] == Tok(1)
  }

  /** The closure has an item at its end that the kernel does not have: it opens an empty production. */
  ghost predicate OpensEmpty(d: Tables, s: seq<Entry>)
  {
    exists b :: InClosure(d, s, b) && b !in Core(s) && ItemOk(d.g, b) && AtEnd(d.g, b)
  }

  /** Some symbol leads from state i back to it. */
  ghost predicate Loops(d: Tables, a: Auto, i: nat)
    requires i < |a.states|
  {
    exists x :: x != Tok(1) && Target(d, a, a.states[i], x, i)
  }

  /** New lookaheads can come to state i while it is worked on, and its mark is overwritten afterwards. */
  ghost predicate Risky(d: Tables, a: Auto, i: nat)
    requires i < |a.states|
  {
    Loops(d, a, i) && OpensEmpty(d, a.states[i])
  }

  /** State i has passed all its lookaheads on. */
  ghost predicate LooksThere(d: Tables, a: Auto, i: nat)
    requires i < |a.states|
  {
    forall x :: x != Tok(1) && Moves(d, a.states[i], x) ==> HasTarget(d, a, a.states[i], x)
  }

  /** All states that are not to be done have, unless they are at risk; not said of the state worked on. */
  ghost predicate LooksDone(d: Tables, a: Auto, busy: set<nat>)
  {
    |a.ty| == |a.states| &&
    forall i: nat :: i < |a.states| && i !in busy && a.ty[i] != MUSTDO ==> Risky(d, a, i) || LooksThere(d, a, i)
  }

  // ----- what later states keep ----------------------------------------------------------

  lemma LoopsKept(d: Tables, a: Auto, b: Auto, i: nat)
    requires Grows(a, b) && i < |a.states| && Loops(d, a, i)
    ensures Loops(d, b, i)
  {
    hide Target;
    var x :| x != Tok(1) && Target(d, a, a.states[i], x, i);
    TargetKept(d, a, b, a.states[i], b.states[i], x, i);
  }

  lemma OpensSame(d: Tables, s: seq<Entry>, r: seq<Entry>)
    requires Core(s) == Core(r) && OpensEmpty(d, s)
    ensures OpensEmpty(d, r)
  {
    hide InClosure;
    GotoSame(d, s, r);
  }

  lemma RiskyKept(d: Tables, a: Auto, b: Auto, i: nat)
    requires Grows(a, b) && i < |a.states| && Risky(d, a, i)
    ensures Risky(d, b, i)
  {
    hide Loops, OpensEmpty;
    LoopsKept(d, a, b, i);
    OpensSame(d, a.states[i], b.states[i]);
  }

  lemma HasKept(d: Tables, a: Auto, b: Auto, s: seq<Entry>, x: Sym)
    requires Grows(a, b) && HasTarget(d, a, s, x)
    ensures HasTarget(d, b, s, x)
  {
    hide Target, LooksPassed;
    var j :| Target(d, a, s, x, j) && LooksPassed(d, a, s, x, j);
    TargetKept(d, a, b, s, s, x, j);
    PassedKept(d, a, b, s, x, j);
  }

  lemma ThereKept(d: Tables, a: Auto, b: Auto, i: nat)
    requires Grows(a, b) && i < |a.states| && b.states[i] == a.states[i] && LooksThere(d, a, i)
    ensures LooksThere(d, b, i)
  {
    hide HasTarget, Moves;
    forall x | x != Tok(1) && Moves(d, b.states[i], x) ensures HasTarget(d, b, b.states[i], x) {
      HasKept(d, a, b, a.states[i], x);
    }
  }

  /** States change only to be done again. */
  ghost predicate Redone(a: Auto, b: Auto, busy: set<nat>)
  {
    |a.ty| == |a.states| && |b.ty| == |b.states| &&
    forall i: nat :: i < |b.states| && i !in busy && b.ty[i] != MUSTDO ==>
      i < |a.states| && b.states[i] == a.states[i] && b.ty[i] == a.ty[i]
  }

  lemma DoneKept(d: Tables, a: Auto, b: Auto, busy: set<nat>)
    requires LooksDone(d, a, busy) && Grows(a, b) && Redone(a, b, busy)
    ensures LooksDone(d, b, busy)
  {
    hide Grows, Risky, LooksThere;
    forall i: nat | i < |b.states| && i !in busy && b.ty[i] != MUSTDO ensures Risky(d, b, i) || LooksThere(d, b, i) {
      if Risky(d, a, i) {
        RiskyKept(d, a, b, i);
      } else {
        ThereKept(d, a, b, i);
      }
    }
  }

  lemma RegisteredRedone(a: Auto, b: Auto, s: seq<Entry>, j: nat, busy: set<nat>)
    requires Registered(a, b, s, j)
    ensures Redone(a, b, busy)
  {
    hide Joined;
  }

  // ----- the state that is worked on -----------------------------------------------------

  /** It is as it was when it was closed, or it is to be done again, or at risk. */
  ghost predicate Pending(d: Tables, a: Auto, i: nat, kernel: seq<Entry>)
  {
    i < |a.states| == |a.ty| &&
    (a.states[i] == kernel || (Loops(d, a, i) && a.ty[i] == MUSTDO) || Risky(d, a, i))
  }

  /** A kernel is registered, perhaps as the very state. */
  lemma PendingState(d: Tables, a: Auto, b: Auto, i: nat, kernel: seq<Entry>, s: seq<Entry>, c: Sym, j: nat)
    requires Pending(d, a, i, kernel) && Grows(a, b) && Registered(a, b, s, j) && c != Tok(1)
    requires Core(a.states[i]) == Core(kernel) && Target(d, b, kernel, c, j)
    ensures Pending(d, b, i, kernel)
  {
    hide Joined, Target, Core, Covers, OpensEmpty;
    if Risky(d, a, i) {
      RiskyKept(d, a, b, i);
    } else if j == i {
      SelfGrows(b);
      TargetKept(d, b, b, kernel, b.states[i], c, i);
      assert b.ty[i] == MUSTDO || b.states[i] == a.states[i];
    } else if Loops(d, a, i) {
      LoopsKept(d, a, b, i);
    }
  }

  lemma SelfGrows(a: Auto)
    ensures |a.acc| == |a.states| ==> Grows(a, a)
  {
  }

  /** The mark of a state whose closure has an end beyond the kernel. */
  lemma PendingMark(d: Tables, a: Auto, b: Auto, i: nat, kernel: seq<Entry>)
    requires Pending(d, a, i, kernel) && Grows(a, b) && b == a.(ty := b.ty) && |b.ty| == |a.ty|
    requires OpensEmpty(d, kernel) && Core(a.states[i]) == Core(kernel)
    ensures Pending(d, b, i, kernel)
  {
    hide OpensEmpty, Loops, Core;
    OpensSame(d, kernel, a.states[i]);
    if Loops(d, a, i) {
      LoopsKept(d, a, b, i);
    }
  }

  lemma EndOpens(d: Tables, kernel: seq<Entry>, w: Work, p: nat)
    requires IsWork(d, kernel, w) && FirstItems(kernel, w) && |kernel| <= p < |w| && ItemOk(d.g, w[p].item) &&
             AtEnd(d.g, w[p].item)
    ensures OpensEmpty(d, kernel)
  {
    hide InClosure, HasLook;
    assert C.Holds(w, w[p].item);
    assert w[p].item !in Core(kernel);
  }

  /** The working set begins with the kernel. */
  ghost predicate FirstItems(kernel: seq<Entry>, w: Work)
  {
    |kernel| <= |w| && forall k :: 0 <= k < |kernel| ==> w[k].item == kernel[k].item
  }

  /** The work on state i is over. */
  lemma DoneNext(d: Tables, a: Auto, i: nat, kernel: seq<Entry>, w: Work)
    requires LooksDone(d, a, {i}) && Pending(d, a, i, kernel) && IsWork(d, kernel, w) && Served(d, a, kernel, w, |w|)
    ensures LooksDone(d, a, {})
  {
    hide Risky, LooksThere, IsWork, Served;
    if a.states[i] == kernel {
      ServedThere(d, a, kernel, w, i);
    }
  }

  lemma ServedHas(d: Tables, a: Auto, kernel: seq<Entry>, w: Work, x: Sym)
    requires IsWork(d, kernel, w) && Served(d, a, kernel, w, |w|) && x != Tok(1) && Moves(d, kernel, x)
    ensures HasTarget(d, a, kernel, x)
  {
    hide InClosure, HasTarget, HasLook;
    var b :| InClosure(d, kernel, b) && Before(d.g, b, x);
    assert C.Holds(w, b);
    var q :| 0 <= q < |w| && w[q].item == b;
  }

  lemma ServedThere(d: Tables, a: Auto, kernel: seq<Entry>, w: Work, i: nat)
    requires IsWork(d, kernel, w) && Served(d, a, kernel, w, |w|) && i < |a.states| && a.states[i] == kernel
    ensures LooksThere(d, a, i)
  {
    hide IsWork, Served, HasTarget, Moves;
    forall x | x != Tok(1) && Moves(d, kernel, x) ensures HasTarget(d, a, kernel, x) {
      ServedHas(d, a, kernel, w, x);
    }
  }
}
