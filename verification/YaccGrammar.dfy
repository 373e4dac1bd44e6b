/** Grammars; which nonterminals derive the empty string, and with which tokens what they derive can begin. */
module YaccGrammar {

  datatype Sym = Tok(t: nat) | Non(n: nat)

  datatype Prod = Prod(lhs: nat, rhs: seq<Sym>)

  /** Nonterminal 0 is the added start symbol, with production 0; token 1 is the end marker. */
  datatype Grammar = Grammar(prods: seq<Prod>, nonter: nat, tokens: nat)

  predicate SymOk(g: Grammar, s: Sym)
  {
    match s
    case Tok(t) => 0 < t <= g.tokens
    case Non(n) => 0 < n < g.nonter
  }

  predicate ProdOk(g: Grammar, p: Prod)
  {
    p.lhs < g.nonter && forall k :: 0 <= k < |p.rhs| ==> SymOk(g, p.rhs[k])
  }

  predicate GrammarOk(g: Grammar)
  {
    g.tokens >= 1 && |g.prods| > 0 && (forall i :: 0 <= i < |g.prods| ==> ProdOk(g, g.prods[i])) &&
    g.prods[0].lhs == 0 && |g.prods[0].rhs| == 2 && g.prods[0].rhs[0].Non? && g.prods[0].rhs[1] == Tok(1) &&
    (forall i :: 1 <= i < |g.prods| ==> g.prods[i].lhs != 0)
  }

  // ----- deriving the empty string -------------------------------------------------------

  /** There is a derivation tree for a, of height at most h, with no leaf. */
  ghost predicate Empties(g: Grammar, a: nat, h: nat)
    decreases h, 0
  {
    h > 0 && exists i :: 0 <= i < |g.prods| && g.prods[i].lhs == a && AllEmpty(g, g.prods[i].rhs, h - 1)
  }

  ghost predicate AllEmpty(g: Grammar, rhs: seq<Sym>, h: nat)
    decreases h, 1
  {
    forall k :: 0 <= k < |rhs| ==> rhs[k].Non? && Empties(g, rhs[k].n, h)
  }

  ghost predicate Nullable(g: Grammar, a: nat) { exists h: nat :: Empties(g, a, h) }

  lemma {:induction false} EmptiesMore(g: Grammar, a: nat, h: nat, h': nat)
    requires Empties(g, a, h) && h <= h'
    ensures Empties(g, a, h')
    decreases h
  {
    var i :| 0 <= i < |g.prods| && g.prods[i].lhs == a && AllEmpty(g, g.prods[i].rhs, h - 1);
    var rhs := g.prods[i].rhs;
    forall k | 0 <= k < |rhs| ensures rhs[k].Non? && Empties(g, rhs[k].n, h' - 1) {
      EmptiesMore(g, rhs[k].n, h - 1, h' - 1);
    }
    assert AllEmpty(g, rhs, h' - 1);
  }

  /** If every symbol of a right side derives the empty string, one height serves them all. */
  lemma {:induction false} OneHeight(g: Grammar, rhs: seq<Sym>) returns (h: nat)
    requires forall k :: 0 <= k < |rhs| ==> rhs[k].Non? && Nullable(g, rhs[k].n)
    ensures AllEmpty(g, rhs, h)
  {
    if rhs == [] {
      h := 0;
    } else {
      var n := |rhs| - 1;
      var h1 := OneHeight(g, rhs[..n]);
      assert rhs[n].Non? && Nullable(g, rhs[n].n);
      var h2: nat :| Empties(g, rhs[n].n, h2);
      h := if h1 > h2 then h1 else h2;
      forall k | 0 <= k < |rhs| ensures rhs[k].Non? && Empties(g, rhs[k].n, h) {
        if k < n {
          assert rhs[..n][k] == rhs[k];
          EmptiesMore(g, rhs[k].n, h1, h);
        } else {
          EmptiesMore(g, rhs[n].n, h2, h);
        }
      }
    }
  }

  lemma NullableBy(g: Grammar, i: nat)
    requires i < |g.prods| &&
             forall k :: 0 <= k < |g.prods[i].rhs| ==> g.prods[i].rhs[k].Non? && Nullable(g, g.prods[i].rhs[k].n)
    ensures Nullable(g, g.prods[i].lhs)
  {
    var h := OneHeight(g, g.prods[i].rhs);
    assert Empties(g, g.prods[i].lhs, h + 1);
  }

  /** All symbols of the right side are marked. */
  predicate AllMarked(rhs: seq<Sym>, mark: seq<bool>)
  {
    forall k :: 0 <= k < |rhs| ==> rhs[k].Non? && rhs[k].n < |mark| && mark[rhs[k].n]
  }

  ghost predicate EmptyClosed(g: Grammar, mark: seq<bool>)
  {
    forall i ::
      1 <= i < |g.prods| && AllMarked(g.prods[i].rhs, mark) ==> g.prods[i].lhs < |mark| && mark[g.prods[i].lhs]
  }

  lemma {:induction false} ClosedHasAll(g: Grammar, mark: seq<bool>, a: nat, h: nat)
    requires GrammarOk(g) && |mark| == g.nonter && EmptyClosed(g, mark) && Empties(g, a, h)
    ensures a < |mark| && mark[a]
    decreases h
  {
    var i :| 0 <= i < |g.prods| && g.prods[i].lhs == a && AllEmpty(g, g.prods[i].rhs, h - 1);
    var rhs := g.prods[i].rhs;
    assert ProdOk(g, g.prods[i]);
    assert i != 0;
    forall k | 0 <= k < |rhs| ensures rhs[k].Non? && rhs[k].n < |mark| && mark[rhs[k].n] {
      ClosedHasAll(g, mark, rhs[k].n, h - 1);
    }
    assert AllMarked(rhs, mark);
  }

  ghost function Unmarked(mark: seq<bool>): set<nat> { set a: nat | a < |mark| && !mark[a] }

  /** Do all symbols of a right side derive the empty string, as far as known? */
  method Scan(rhs: seq<Sym>, mark: array<bool>) returns (all: bool)
    requires forall k :: 0 <= k < |rhs| && rhs[k].Non? ==> rhs[k].n < mark.Length
    ensures all <==> AllMarked(rhs, mark[..])
  {
    var k := 0;
    while k < |rhs| && rhs[k].Non? && mark[rhs[k].n]
      invariant 0 <= k <= |rhs| && forall j :: 0 <= j < k ==> rhs[j].Non? && rhs[j].n < mark.Length && mark[rhs[j].n]
    {
      k := k + 1;
    }
    all := k == |rhs|;
  }

  ghost predicate AllNullable(g: Grammar, mark: seq<bool>) { forall a: nat :: a < |mark| && mark[a] ==> Nullable(g, a) }

  /** One look through the productions, stopping at the first that marks a nonterminal. */
  method Again(g: Grammar, mark: array<bool>) returns (found: bool)
    requires GrammarOk(g) && mark.Length == g.nonter && AllNullable(g, mark[..])
    modifies mark
    ensures AllNullable(g, mark[..])
    ensures if found then Unmarked(mark[..]) < old(Unmarked(mark[..]))
            else EmptyClosed(g, mark[..]) && mark[..] == old(mark[..])
  {
    ghost var before := mark[..];
    for i := 1 to |g.prods|
      invariant mark[..] == before
      invariant forall j ::
                  1 <= j < i && AllMarked(g.prods[j].rhs, before) ==>
                    g.prods[j].lhs < |before| && before[g.prods[j].lhs]
    {
      var p := g.prods[i];
      assert ProdOk(g, p);
      if !mark[p.lhs] {
        var all := Scan(p.rhs, mark);
        if all {
          NullableBy(g, i);
          mark[p.lhs] := true;
          assert p.lhs in Unmarked(before) && p.lhs !in Unmarked(mark[..]);
          return true;
        }
      }
    }
    found := false;
  }

  /** cempty, second part: exactly the nonterminals that derive the empty string are marked. */
  method Cempty(g: Grammar) returns (empty: seq<bool>)
    requires GrammarOk(g)
    ensures |empty| == g.nonter && forall a: nat :: a < g.nonter ==> (empty[a] <==> Nullable(g, a))
  {
    var mark := new bool[g.nonter](i => false);
    var found := true;
    while found
      invariant AllNullable(g, mark[..]) && (!found ==> EmptyClosed(g, mark[..]))
      decreases Unmarked(mark[..]), found
    {
      found := Again(g, mark);
    }
    empty := mark[..];
    forall a: nat | a < g.nonter && Nullable(g, a) ensures empty[a] {
      var h: nat :| Empties(g, a, h);
      ClosedHasAll(g, empty, a, h);
    }
  }

  // ----- FIRST ---------------------------------------------------------------------------

  /** All symbols of the right side before k derive the empty string. */
  ghost predicate EmptyBefore(g: Grammar, rhs: seq<Sym>, k: nat)
  {
    k <= |rhs| && forall j :: 0 <= j < k ==> rhs[j].Non? && Nullable(g, rhs[j].n)
  }

  /** A string derived from a, with leftmost path of length at most h, begins with t. */
  ghost predicate Begins(g: Grammar, a: nat, t: nat, h: nat)
    decreases h, 1
  {
    h > 0 &&
    exists i, k ::
      0 <= i < |g.prods| && 0 <= k < |g.prods[i].rhs| && g.prods[i].lhs == a && BeginsAt(g, g.prods[i].rhs, k, t, h)
  }

  ghost predicate BeginsAt(g: Grammar, rhs: seq<Sym>, k: nat, t: nat, h: nat)
    requires k < |rhs| && h > 0
    decreases h, 0
  {
    EmptyBefore(g, rhs, k) && (rhs[k] == Tok(t) || (rhs[k].Non? && Begins(g, rhs[k].n, t, h - 1)))
  }

  ghost predicate InFirst(g: Grammar, a: nat, t: nat) { exists h: nat :: Begins(g, a, t, h) }

  /** What a right side adds: a token first after symbols that derive the empty string. */
  lemma FirstToken(g: Grammar, i: nat, k: nat, t: nat)
    requires i < |g.prods| && k < |g.prods[i].rhs| && EmptyBefore(g, g.prods[i].rhs, k) && g.prods[i].rhs[k] == Tok(t)
    ensures InFirst(g, g.prods[i].lhs, t)
  {
    assert BeginsAt(g, g.prods[i].rhs, k, t, 1);
    assert Begins(g, g.prods[i].lhs, t, 1);
  }

  lemma FirstNonterminal(g: Grammar, i: nat, k: nat, t: nat)
    requires i < |g.prods| && k < |g.prods[i].rhs| && EmptyBefore(g, g.prods[i].rhs, k) && g.prods[i].rhs[k].Non? &&
             InFirst(g, g.prods[i].rhs[k].n, t)
    ensures InFirst(g, g.prods[i].lhs, t)
  {
    var h: nat :| Begins(g, g.prods[i].rhs[k].n, t, h);
    assert BeginsAt(g, g.prods[i].rhs, k, t, h + 1);
    assert Begins(g, g.prods[i].lhs, t, h + 1);
  }

  type Sets = seq<set<nat>>

  /** Only tokens that belong there. */
  ghost predicate FirstSound(g: Grammar, first: Sets)
  {
    |first| == g.nonter && forall a: nat, t :: a < |first| && t in first[a] ==> InFirst(g, a, t) && 0 < t <= g.tokens
  }

  ghost predicate TokenIn(g: Grammar, first: Sets, p: Prod, k: nat)
    requires k < |p.rhs|
  {
    EmptyBefore(g, p.rhs, k) && p.rhs[k].Tok? ==> p.lhs < |first| && p.rhs[k].t in first[p.lhs]
  }

  ghost predicate SubsetIn(g: Grammar, first: Sets, p: Prod, k: nat)
    requires k < |p.rhs|
  {
    EmptyBefore(g, p.rhs, k) && p.rhs[k].Non? ==>
      p.lhs < |first| && p.rhs[k].n < |first| && first[p.rhs[k].n] <= first[p.lhs]
  }

  ghost predicate TokensIn(g: Grammar, first: Sets, p: Prod)
  {
    forall k: nat :: k < |p.rhs| ==> TokenIn(g, first, p, k)
  }

  ghost predicate SubsetsIn(g: Grammar, first: Sets, p: Prod)
  {
    forall k: nat :: k < |p.rhs| ==> SubsetIn(g, first, p, k)
  }

  ghost predicate HasTokens(g: Grammar, first: Sets)
  {
    forall i :: 0 <= i < |g.prods| ==> TokensIn(g, first, g.prods[i])
  }

  ghost predicate HasSubsets(g: Grammar, first: Sets)
  {
    forall i :: 0 <= i < |g.prods| ==> SubsetsIn(g, first, g.prods[i])
  }

  lemma {:induction false} FirstHasAll(g: Grammar, first: Sets, a: nat, t: nat, h: nat)
    requires HasTokens(g, first) && HasSubsets(g, first) && Begins(g, a, t, h)
    ensures a < |first| && t in first[a]
    decreases h
  {
    var i, k :| 0 <= i < |g.prods| && 0 <= k < |g.prods[i].rhs| && g.prods[i].lhs == a &&
    BeginsAt(g, g.prods[i].rhs, k, t, h);
    assert TokensIn(g, first, g.prods[i]) && SubsetsIn(g, first, g.prods[i]);
    assert TokenIn(g, first, g.prods[i], k) && SubsetIn(g, first, g.prods[i], k);
    if g.prods[i].rhs[k].Non? {
      FirstHasAll(g, first, g.prods[i].rhs[k].n, t, h - 1);
    }
  }

  /** Sets only grow. */
  ghost predicate Grew(a: Sets, b: Sets) { |a| == |b| && forall i :: 0 <= i < |a| ==> a[i] <= b[i] }

  lemma TokensKept(g: Grammar, a: Sets, b: Sets, p: Prod)
    requires TokensIn(g, a, p) && Grew(a, b)
    ensures TokensIn(g, b, p)
  {
    forall k: nat | k < |p.rhs| ensures TokenIn(g, b, p, k) {
      assert TokenIn(g, a, p, k);
    }
  }

  ghost predicate Exact(g: Grammar, empty: seq<bool>)
  {
    |empty| == g.nonter && forall a: nat :: a < g.nonter ==> (empty[a] <==> Nullable(g, a))
  }

  /** The first token of a production after symbols that derive the empty string. */
  method FillOne(g: Grammar, empty: seq<bool>, i: nat, first: array<set<nat>>)
    requires GrammarOk(g) && Exact(g, empty) && i < |g.prods| && FirstSound(g, first[..])
    modifies first
    ensures FirstSound(g, first[..]) && TokensIn(g, first[..], g.prods[i]) && Grew(old(first[..]), first[..])
  {
    var p := g.prods[i];
    assert ProdOk(g, p);
    var k := 0;
    while k < |p.rhs| && p.rhs[k].Non? && empty[p.rhs[k].n]
      invariant 0 <= k <= |p.rhs| && EmptyBefore(g, p.rhs, k)
    {
      assert SymOk(g, p.rhs[k]);
      k := k + 1;
    }
    if k < |p.rhs| && p.rhs[k].Tok? {
      assert SymOk(g, p.rhs[k]);
      FirstToken(g, i, k, p.rhs[k].t);
      first[p.lhs] := first[p.lhs] + {p.rhs[k].t};
    }
    forall j: nat | j < |p.rhs| ensures TokenIn(g, first[..], p, j) {
      assert j < |p.rhs| && p.rhs[j].Non? ==> SymOk(g, p.rhs[j]);
      if k < |p.rhs| && k < j {
        assert SymOk(g, p.rhs[k]);
      }
    }
  }

  /** Unions along a production, as far as its symbols derive the empty string. */
  method SpreadOne(g: Grammar, empty: seq<bool>, i: nat, first: array<set<nat>>) returns (changed: bool)
    requires GrammarOk(g) && Exact(g, empty) && i < |g.prods| && FirstSound(g, first[..])
    modifies first
    ensures FirstSound(g, first[..]) && Grew(old(first[..]), first[..]) &&
            (!changed ==> first[..] == old(first[..]) && SubsetsIn(g, first[..], g.prods[i]))
    ensures changed ==> first[..] != old(first[..])
  {
    var p := g.prods[i];
    assert ProdOk(g, p);
    changed := false;
    var k := 0;
    var more := true;
    ghost var before := first[..];
    while more && k < |p.rhs| && p.rhs[k].Non?
      invariant 0 <= k <= |p.rhs| && (more ==> EmptyBefore(g, p.rhs, k)) &&
                (!more ==> k < |p.rhs| && !(p.rhs[k].Non? && Nullable(g, p.rhs[k].n)))
      invariant FirstSound(g, first[..]) && Grew(before, first[..]) && (changed <==> first[..] != before)
      invariant !changed ==>
                  forall j: nat :: j < |p.rhs| && (j < k || (j == k && !more)) ==> SubsetIn(g, first[..], p, j)
      decreases |p.rhs| - k, more
    {
      assert SymOk(g, p.rhs[k]);
      var n := p.rhs[k].n;
      if !(first[n] <= first[p.lhs]) {
        forall t | t in first[n] ensures InFirst(g, p.lhs, t) {
          FirstNonterminal(g, i, k, t);
        }
        ghost var mid := first[..];
        first[p.lhs] := first[p.lhs] + first[n];
        assert first[..][p.lhs] != mid[p.lhs];
        changed := true;
      }
      if empty[n] {
        k := k + 1;
      } else {
        more := false;
      }
    }
    forall j: nat | !changed && j < |p.rhs| ensures SubsetIn(g, first[..], p, j) {
    }
  }

  /** The productions of nonterminals below a, and of a itself before j. */
  predicate Passed(p: Prod, i: nat, a: nat, j: nat) { p.lhs < a || (p.lhs == a && i < j) }

  /** First the tokens each production can begin with. */
  method Fill(g: Grammar, empty: seq<bool>, first: array<set<nat>>)
    requires GrammarOk(g) && Exact(g, empty) && FirstSound(g, first[..])
    modifies first
    ensures FirstSound(g, first[..]) && HasTokens(g, first[..])
  {
    for a := 0 to g.nonter
      invariant FirstSound(g, first[..]) &&
                forall i: nat :: i < |g.prods| && g.prods[i].lhs < a ==> TokensIn(g, first[..], g.prods[i])
    {
      for j := 0 to |g.prods|
        invariant FirstSound(g, first[..]) &&
                  forall i: nat :: i < |g.prods| && Passed(g.prods[i], i, a, j) ==> TokensIn(g, first[..], g.prods[i])
      {
        if g.prods[j].lhs == a {
          ghost var before := first[..];
          FillOne(g, empty, j, first);
          forall i: nat | i < |g.prods| && Passed(g.prods[i], i, a, j) ensures TokensIn(g, first[..], g.prods[i]) {
            TokensKept(g, before, first[..], g.prods[i]);
          }
        }
      }
    }
    forall i | 0 <= i < |g.prods| ensures TokensIn(g, first[..], g.prods[i]) {
      assert ProdOk(g, g.prods[i]);
    }
  }

  lemma GrewTrans(a: Sets, b: Sets, c: Sets)
    requires Grew(a, b) && Grew(b, c)
    ensures Grew(a, c) && (a == c ==> a == b)
  {
    if a == c {
      assert forall i :: 0 <= i < |a| ==> a[i] == b[i];
    }
  }

  /** One round of unions. */
  method Spread(g: Grammar, empty: seq<bool>, first: array<set<nat>>) returns (changes: bool)
    requires GrammarOk(g) && Exact(g, empty) && FirstSound(g, first[..])
    modifies first
    ensures FirstSound(g, first[..]) && Grew(old(first[..]), first[..]) && (changes <==> first[..] != old(first[..]))
    ensures !changes ==> HasSubsets(g, first[..])
  {
    ghost var before := first[..];
    changes := false;
    for a := 0 to g.nonter
      invariant FirstSound(g, first[..]) && Grew(before, first[..]) && (changes <==> first[..] != before)
      invariant !changes ==> forall i: nat :: i < |g.prods| && g.prods[i].lhs < a ==> SubsetsIn(g, before, g.prods[i])
    {
      for j := 0 to |g.prods|
        invariant FirstSound(g, first[..]) && Grew(before, first[..]) && (changes <==> first[..] != before)
        invariant !changes ==>
                    forall i: nat :: i < |g.prods| && Passed(g.prods[i], i, a, j) ==> SubsetsIn(g, before, g.prods[i])
      {
        if g.prods[j].lhs == a {
          ghost var mid := first[..];
          var c := SpreadOne(g, empty, j, first);
          GrewTrans(before, mid, first[..]);
          changes := changes || c;
        }
      }
    }
    forall i | !changes && 0 <= i < |g.prods| ensures SubsetsIn(g, first[..], g.prods[i]) {
      assert ProdOk(g, g.prods[i]);
    }
  }

  /** What is not yet in the sets. */
  ghost function MissingFirsts(g: Grammar, first: Sets): set<(nat, nat)>
  {
    set a: nat, t: nat | a < |first| && t <= g.tokens && t !in first[a] :: (a, t)
  }

  lemma MissingFirstsLess(g: Grammar, a: Sets, b: Sets)
    requires Grew(a, b) && a != b && FirstSound(g, b)
    ensures MissingFirsts(g, b) < MissingFirsts(g, a)
  {
    var i :| 0 <= i < |a| && a[i] != b[i];
    var t :| t in b[i] && t !in a[i];
    assert (i, t) in MissingFirsts(g, a) && (i, t) !in MissingFirsts(g, b);
  }

  lemma TokensStay(g: Grammar, a: Sets, b: Sets)
    requires HasTokens(g, a) && Grew(a, b)
    ensures HasTokens(g, b)
  {
    forall i | 0 <= i < |g.prods| ensures TokensIn(g, b, g.prods[i]) {
      TokensKept(g, a, b, g.prods[i]);
    }
  }

  /** cpfir: for each nonterminal exactly the tokens its strings can begin with. */
  method Cpfir(g: Grammar, empty: seq<bool>) returns (pfirst: Sets)
    requires GrammarOk(g) && Exact(g, empty)
    ensures |pfirst| == g.nonter && forall a: nat, t :: a < g.nonter ==> (t in pfirst[a] <==> InFirst(g, a, t))
    ensures forall a: nat, t :: a < g.nonter && t in pfirst[a] ==> 0 < t <= g.tokens
  {
    var first := new set<nat>[g.nonter](i => {});
    Fill(g, empty, first);
    var changes := true;
    while changes
      invariant FirstSound(g, first[..]) && HasTokens(g, first[..]) && (!changes ==> HasSubsets(g, first[..]))
      decreases MissingFirsts(g, first[..]), changes
    {
      ghost var before := first[..];
      changes := Spread(g, empty, first);
      TokensStay(g, before, first[..]);
      if changes {
        MissingFirstsLess(g, before, first[..]);
      }
    }
    pfirst := first[..];
    forall a: nat, t | a < g.nonter && InFirst(g, a, t) ensures t in pfirst[a] {
      var h: nat :| Begins(g, a, t, h);
      FirstHasAll(g, pfirst, a, t, h);
    }
  }
}
