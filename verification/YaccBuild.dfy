/** go2gen, and the way from a grammar to packed tables. */
module YaccBuild {
  import opened YaccGrammar
  import opened YaccItems
  import opened YaccPaths
  import opened YaccAutomaton
  import opened YaccCores
  import opened YaccStagen
  import opened YaccGenerate
  import opened YaccLink
  import C = YaccClosure
  import G = YaccGoto
  import T = YaccTables
  import O = YaccOpt

  // ----- which nonterminals can begin with c ---------------------------------------------------

  /** Nonterminal x is c, or has a production that begins with one that is, by at most h steps. */
  ghost predicate Corner(g: Grammar, x: nat, c: nat, h: nat)
    decreases h
  {
    x == c || (h > 0 && exists i :: CornerBy(g, x, i) && Corner(g, g.prods[i].rhs[0].n, c, h - 1))
  }

  /** Production i of x begins with a nonterminal. */
  predicate CornerBy(g: Grammar, x: nat, i: int)
  {
    0 <= i < |g.prods| && g.prods[i].lhs == x && g.prods[i].rhs != [] && g.prods[i].rhs[0].Non?
  }

  ghost predicate Begins(g: Grammar, x: nat, c: nat) { exists h: nat :: Corner(g, x, c, h) }

  lemma BeginsBy(g: Grammar, x: nat, i: int, c: nat)
    requires CornerBy(g, x, i) && Begins(g, g.prods[i].rhs[0].n, c)
    ensures Begins(g, x, c)
  {
    var h: nat :| Corner(g, g.prods[i].rhs[0].n, c, h);
    assert Corner(g, x, c, h + 1);
  }

  ghost predicate CornersClosed(g: Grammar, c: nat, mark: seq<bool>)
  {
    c < |mark| && mark[c] &&
    forall x: nat, i ::
      CornerBy(g, x, i) && g.prods[i].rhs[0].n < |mark| && mark[g.prods[i].rhs[0].n] ==> x < |mark| && mark[x]
  }

  lemma {:induction false} CornersMarked(g: Grammar, c: nat, mark: seq<bool>, x: nat, h: nat)
    requires CornersClosed(g, c, mark) && Corner(g, x, c, h)
    ensures x < |mark| && mark[x]
    decreases h
  {
    if x != c {
      var i :| CornerBy(g, x, i) && Corner(g, g.prods[i].rhs[0].n, c, h - 1);
      CornersMarked(g, c, mark, g.prods[i].rhs[0].n, h - 1);
    }
  }

  /** One look through the productions. */
  method MarkMore(g: Grammar, c: nat, mark: array<bool>) returns (work: bool)
    requires GrammarOk(g) && mark.Length == g.nonter && c < g.nonter && mark[c]
    requires forall x: nat :: x < mark.Length && mark[x] ==> Begins(g, x, c)
    modifies mark
    ensures mark[c] && forall x: nat :: x < mark.Length && mark[x] ==> Begins(g, x, c)
    ensures if work then Unmarked(mark[..]) < old(Unmarked(mark[..]))
            else CornersClosed(g, c, mark[..]) && mark[..] == old(mark[..])
  {
    ghost var before := mark[..];
    work := false;
    for i := 0 to |g.prods|
      invariant mark[c] && forall x: nat :: x < mark.Length && mark[x] ==> Begins(g, x, c)
      invariant forall x: nat :: x < mark.Length && before[x] ==> mark[x]
      invariant work ==> exists x: nat :: x < mark.Length && !before[x] && mark[x]
      invariant !work ==> mark[..] == before
      invariant !work ==>
                  forall j :: 0 <= j < i && CornerBy(g, g.prods[j].lhs, j) && g.prods[j].rhs[0].n < |before| &&
                              before[g.prods[j].rhs[0].n] ==>
                    g.prods[j].lhs < |before| && before[g.prods[j].lhs]
    {
      var p := g.prods[i];
      assert ProdOk(g, p);
      if p.rhs != [] && p.rhs[0].Non? {
        assert SymOk(g, p.rhs[0]);
        if mark[p.rhs[0].n] && !mark[p.lhs] {
          BeginsBy(g, p.lhs, i, c);
          work := true;
          mark[p.lhs] := true;
        }
      }
    }
    if work {
      ghost var x: nat :| x < mark.Length && !before[x] && mark[x];
      assert x in Unmarked(before) && x !in Unmarked(mark[..]);
    }
  }

  /** go2gen, first part: exactly the nonterminals that can begin with c are marked. */
  method Corners(g: Grammar, c: nat) returns (mark: seq<bool>)
    requires GrammarOk(g) && c < g.nonter
    ensures |mark| == g.nonter && forall x: nat :: x < g.nonter ==> (mark[x] <==> Begins(g, x, c))
  {
    var temp := new bool[g.nonter](i => false);
    temp[c] := true;
    assert Corner(g, c, c, 0);
    var work := true;
    while work
      invariant temp[c] && forall x: nat :: x < temp.Length && temp[x] ==> Begins(g, x, c)
      invariant !work ==> CornersClosed(g, c, temp[..])
      decreases Unmarked(temp[..]), work
    {
      work := MarkMore(g, c, temp);
    }
    mark := temp[..];
    forall x: nat | x < g.nonter && Begins(g, x, c) ensures mark[x] {
      var h: nat :| Corner(g, x, c, h);
      CornersMarked(g, c, mark, x, h);
    }
  }

  // ----- they are the ones a closure moves over ----------------------------------------------------

  /** Some kernel item stands before a nonterminal that can begin with c. */
  ghost predicate KernelBegins(d: Tables, s: seq<Entry>, c: nat)
  {
    exists k, x: nat :: 0 <= k < |s| && Before(d.g, s[k].item, Non(x)) && Begins(d.g, x, c)
  }

  lemma {:induction false} ReachBegins(d: Tables, s: seq<Entry>, b: Item, x: nat, c: nat, h: nat)
    requires Reach(d, s, b, h) && Before(d.g, b, Non(x)) && Begins(d.g, x, c)
    ensures KernelBegins(d, s, c)
    decreases h
  {
    if InKernel(s, b) {
      var k :| 0 <= k < |s| && s[k].item == b;
      assert Before(d.g, s[k].item, Non(x));
    } else {
      var a :| Reach(d, s, a, h - 1) && Opens(d.g, a, b);
      BeginsBy(d.g, d.g.prods[b.p].lhs, b.p, c);
      ReachBegins(d, s, a, d.g.prods[b.p].lhs, c, h - 1);
    }
  }

  lemma {:induction false} CornerMoves(d: Tables, s: seq<Entry>, b: Item, x: nat, c: nat, h: nat)
    requires InClosure(d, s, b) && Before(d.g, b, Non(x)) && Corner(d.g, x, c, h)
    ensures Moves(d, s, Non(c))
    decreases h
  {
    hide InClosure;
    if x != c {
      var i :| CornerBy(d.g, x, i) && Corner(d.g, d.g.prods[i].rhs[0].n, c, h - 1);
      ClosureStep(d, s, b, Item(i, 0));
      CornerMoves(d, s, Item(i, 0), d.g.prods[i].rhs[0].n, c, h - 1);
    }
  }

  /** A state has a goto on c exactly when some item of its kernel stands before a marked nonterminal. */
  lemma GotosWhere(d: Tables, s: seq<Entry>, c: nat)
    ensures Moves(d, s, Non(c)) <==> KernelBegins(d, s, c)
  {
    if Moves(d, s, Non(c)) {
      var b :| InClosure(d, s, b) && Before(d.g, b, Non(c));
      var h: nat :| Reach(d, s, b, h);
      assert Corner(d.g, c, c, 0);
      ReachBegins(d, s, b, c, c, h);
    }
    if KernelBegins(d, s, c) {
      var k, x: nat :| 0 <= k < |s| && Before(d.g, s[k].item, Non(x)) && Begins(d.g, x, c);
      var h: nat :| Corner(d.g, x, c, h);
      assert Reach(d, s, s[k].item, 0);
      CornerMoves(d, s, s[k].item, x, c, h);
    }
  }

  /** Does the kernel of a state have an item before a marked nonterminal? */
  method HasGoto(d: Tables, s: seq<Entry>, mark: seq<bool>, ghost c: nat) returns (has: bool)
    requires TablesOk(d) && KernelOk(d, s) && |mark| == d.g.nonter &&
             forall x: nat :: x < d.g.nonter ==> (mark[x] <==> Begins(d.g, x, c))
    ensures has <==> Moves(d, s, Non(c))
  {
    hide Moves, Begins;
    GotosWhere(d, s, c);
    has := false;
    for k := 0 to |s|
      invariant has <==> exists l, x: nat :: 0 <= l < k && Before(d.g, s[l].item, Non(x)) && Begins(d.g, x, c)
    {
      var it := s[k].item;
      var rhs := d.g.prods[it.p].rhs;
      assert ProdOk(d.g, d.g.prods[it.p]);
      if it.dot < |rhs| && rhs[it.dot].Non? {
        assert SymOk(d.g, rhs[it.dot]);
        if mark[rhs[it.dot].n] {
          assert Before(d.g, it, Non(rhs[it.dot].n));
          has := true;
        }
      }
    }
  }

  // ----- the rows ---------------------------------------------------------------------------------

  /** The state recorded for state i and nonterminal n, looked for again. */
  method GotoState(d: Tables, a: Auto, i: nat, n: nat) returns (j: nat)
    requires TablesOk(d) && Generated(d, a) && i < |a.states| && Moves(d, a.states[i], Non(n))
    ensures Target(d, a, a.states[i], Non(n), j)
  {
    hide Generated, Target, InClosure, Honest, KernelOk, C.IsClosure, IsGoto, Moves, Collected;
    GeneratedKernel(d, a, i);
    var kernel := a.states[i];
    var w := C.Closure(d, kernel, true);
    ClosureItems(d, kernel, w);
    MovesIs(d, kernel, w, Non(n));
    var u := 0;
    while !At(d, w, u, n)
      invariant 0 <= u < |w| && (forall q :: 0 <= q < u ==> !Before(d.g, w[q].item, Non(n))) &&
                exists q :: u <= q < |w| && Before(d.g, w[q].item, Non(n))
      decreases |w| - u
    {
      u := u + 1;
    }
    var s, _ := Collect(d, w, u, Non(n));
    j := FindShift(d, a, i, s, Non(n), w, u);
  }

  predicate At(d: Tables, w: Work, u: nat, n: nat)
    requires u < |w|
  {
    Before(d.g, w[u].item, Non(n))
  }

  /** go2gen: the gotos of all states on nonterminal n, zero where there is none. */
  method Go2gen(d: Tables, a: Auto, n: nat) returns (g: seq<int>)
    requires TablesOk(d) && Generated(d, a) && n < d.g.nonter
    ensures |g| == |a.states| && forall i :: 0 <= i < |g| ==> GotoIs(d, a, i, n, g[i])
  {
    hide Generated, Moves, Target, KernelOk, Begins;
    var mark := Corners(d.g, n);
    g := [];
    for i := 0 to |a.states|
      invariant |g| == i && forall k :: 0 <= k < i ==> GotoIs(d, a, k, n, g[k])
    {
      GeneratedKernel(d, a, i);
      var has := HasGoto(d, a.states[i], mark, n);
      var j := 0;
      if has {
        j := GotoState(d, a, i, n);
        TargetNat(d, a, a.states[i], Non(n), j);
      }
      g := g + [j];
    }
  }

  lemma TargetNat(d: Tables, a: Auto, s: seq<Entry>, x: Sym, j: nat)
    requires Target(d, a, s, x, j)
    ensures 0 < j < |a.states| && j < |a.acc| && a.acc[j] == x
  {
  }

  /** v is the goto of state i on nonterminal n, or zero if there is none. */
  ghost predicate GotoIs(d: Tables, a: Auto, i: nat, n: nat, v: int)
    requires i < |a.states|
  {
    if Moves(d, a.states[i], Non(n)) then v > 0 && Target(d, a, a.states[i], Non(n), v) else v == 0
  }

  /** The shifts of a state, by token. */
  method ShiftRowOf(d: Tables, shift: map<nat, nat>) returns (row: T.Row)
    requires d.g.tokens >= 1
    ensures forall c, v :: (c, v) in row <==> 1 < c <= d.g.tokens && c in shift && shift[c] == v
    ensures forall k, l :: 0 <= k < l < |row| ==> row[k].0 < row[l].0
  {
    row := [];
    for c := 2 to d.g.tokens + 1
      invariant forall x, v :: (x, v) in row <==> 1 < x < c && x in shift && shift[x] == v
      invariant forall k :: 0 <= k < |row| ==> row[k].0 < c
      invariant forall k, l :: 0 <= k < l < |row| ==> row[k].0 < row[l].0
    {
      if c in shift {
        row := row + [(c, shift[c])];
      }
    }
  }

  lemma ShiftIs(d: Tables, a: Auto, i: nat, shift: map<nat, nat>, row: T.Row, c: nat, v: int)
    requires i < |a.states| && (forall c :: c in shift <==> c > 1 && Moves(d, a.states[i], Tok(c)))
    requires forall c :: c in shift ==> Target(d, a, a.states[i], Tok(c), shift[c])
    requires forall c, v :: (c, v) in row <==> 1 < c <= d.g.tokens && c in shift && shift[c] == v
    ensures (c, v) in row ==> IsShift(d, a, i, c, v)
    ensures 1 < c <= d.g.tokens && Moves(d, a.states[i], Tok(c)) ==> c in shift && (c, shift[c]) in row
  {
    hide Moves;
  }

  ghost predicate HasKey(row: T.Row, c: int) { exists k :: 0 <= k < |row| && row[k].0 == c }

  /** Every shift of the state is in its row. */
  ghost predicate RowFull(d: Tables, a: Auto, i: nat, row: T.Row)
    requires i < |a.states|
  {
    forall c: nat :: 1 < c <= d.g.tokens && Moves(d, a.states[i], Tok(c)) ==> HasKey(row, c)
  }

  ghost predicate RowOf(d: Tables, a: Auto, i: nat, row: T.Row)
    requires i < |a.states|
  {
    (forall k :: 0 <= k < |row| ==> IsShift(d, a, i, row[k].0, row[k].1)) &&
    (forall k, l :: 0 <= k < l < |row| ==> row[k].0 < row[l].0) && RowFull(d, a, i, row)
  }

  /** output: the shifts of state i. */
  method OneRow(d: Tables, a: Auto, i: nat) returns (row: T.Row)
    requires TablesOk(d) && Generated(d, a) && i < |a.states|
    ensures RowOf(d, a, i, row)
  {
    hide Generated, Moves, Target;
    var shift := Shifts(d, a, i);
    row := ShiftRowOf(d, shift);
    forall k | 0 <= k < |row| ensures IsShift(d, a, i, row[k].0, row[k].1) {
      var (x, v) := row[k];
      assert (x, v) in row;
      ShiftIs(d, a, i, shift, row, x, v);
    }
    forall c: nat | 1 < c <= d.g.tokens && Moves(d, a.states[i], Tok(c)) ensures HasKey(row, c) {
      ShiftIs(d, a, i, shift, row, c, 0);
      assert (c as int, shift[c] as int) in row;
    }
  }

  method AllRows(d: Tables, a: Auto) returns (rows: seq<T.Row>)
    requires TablesOk(d) && Generated(d, a)
    ensures |rows| == |a.states| && forall i :: 0 <= i < |rows| ==> RowOf(d, a, i, rows[i])
  {
    hide Generated, RowOf;
    rows := [];
    for i := 0 to |a.states|
      invariant |rows| == i && forall k :: 0 <= k < i ==> RowOf(d, a, k, rows[k])
    {
      var row := OneRow(d, a, i);
      rows := rows + [row];
    }
  }

  /** The list and the default of nonterminal n come from its gotos. */
  ghost predicate ColumnOf(d: Tables, a: Auto, n: nat, row: T.Row, best: int, g: seq<int>)
  {
    |g| == |a.states| && (forall i :: 0 <= i < |g| ==> GotoIs(d, a, i, n, g[i])) && row == G.Listed(g, best) &&
    (best == 0 <==> forall i :: 0 <= i < |g| ==> g[i] == 0) && (best != 0 ==> best in g)
  }

  ghost predicate HasColumn(d: Tables, a: Auto, n: nat, row: T.Row, best: int)
  {
    exists g :: ColumnOf(d, a, n, row, best, g)
  }

  /** go2out: for each nonterminal the most frequent goto as its default, and the others. */
  method AllColumns(d: Tables, a: Auto) returns (gotos: seq<T.Row>, deflt: seq<int>)
    requires TablesOk(d) && Generated(d, a)
    ensures |gotos| == |deflt| == d.g.nonter && forall n :: 1 <= n < |gotos| ==> HasColumn(d, a, n, gotos[n], deflt[n])
  {
    hide Generated, Moves, Target;
    NonterOk(d);
    gotos, deflt := [[]], [0];
    for n := 1 to d.g.nonter
      invariant |gotos| == |deflt| == n && forall m :: 1 <= m < n ==> HasColumn(d, a, m, gotos[m], deflt[m])
    {
      var g := Go2gen(d, a, n);
      forall i | 0 <= i < |g| ensures g[i] >= 0 {
        assert GotoIs(d, a, i, n, g[i]);
      }
      var best := G.Best(g);
      assert ColumnOf(d, a, n, G.Listed(g, best), best, g);
      gotos, deflt := gotos + [G.Listed(g, best)], deflt + [best];
    }
  }

  lemma NonterOk(d: Tables)
    requires TablesOk(d)
    ensures d.g.nonter >= 1
  {
    assert ProdOk(d.g, d.g.prods[0]);
  }

  // ----- they are what the optimizer needs -----------------------------------------------------------

  ghost predicate TablesFrom(d: Tables, a: Auto, t: T.Tables)
  {
    |t.shifts| == |a.states| == |a.acc| == |t.acc| && |t.gotos| == |t.deflt| == d.g.nonter && d.g.nonter >= 1 &&
    (forall j :: 1 <= j < |t.acc| ==> t.acc[j] == Code(a.acc[j])) &&
    (forall i :: 0 <= i < |t.shifts| ==> RowOf(d, a, i, t.shifts[i])) &&
    (forall n :: 1 <= n < |t.gotos| ==> HasColumn(d, a, n, t.gotos[n], t.deflt[n]))
  }

  lemma RowsFrom(d: Tables, a: Auto, t: T.Tables)
    requires TablesFrom(d, a, t)
    ensures RowsOf(d, a, t.shifts)
  {
    hide HasColumn, RowFull, IsShift;
    forall i, k | 0 <= i < |t.shifts| && 0 <= k < |t.shifts[i]|
      ensures IsShift(d, a, i, t.shifts[i][k].0, t.shifts[i][k].1) {
      assert RowOf(d, a, i, t.shifts[i]);
    }
    forall i, k, l | 0 <= i < |t.shifts| && 0 <= k < l < |t.shifts[i]| ensures t.shifts[i][k].0 < t.shifts[i][l].0 {
      assert RowOf(d, a, i, t.shifts[i]);
    }
  }

  lemma ColumnFits(d: Tables, a: Auto, t: T.Tables, n: nat)
    requires TablesFrom(d, a, t) && 1 <= n < |t.gotos|
    ensures T.GotoRow(t, n, t.gotos[n]) && (t.deflt[n] == 0 || T.Reached(t, t.deflt[n], 0 - n))
  {
    hide RowOf, Moves, Target;
    assert HasColumn(d, a, n, t.gotos[n], t.deflt[n]);
    var g :| ColumnOf(d, a, n, t.gotos[n], t.deflt[n], g);
    var row := t.gotos[n];
    G.ListedIs(g, t.deflt[n]);
    forall i | 0 <= i < |g| && g[i] != 0 ensures T.Reached(t, g[i], 0 - n) {
      assert GotoIs(d, a, i, n, g[i]);
      var j: int := g[i];
      TargetNat(d, a, a.states[i], Non(n), j);
    }
    forall k | 0 <= k < |row| ensures row[k].0 >= 0 && T.Reached(t, row[k].1, 0 - n) {
      var (s, v) := row[k];
      assert (s, v) in row;
    }
  }

  /** The rows and columns of a generated automaton, with its yychk, are what the optimizer asks for. */
  lemma AllFit(d: Tables, a: Auto, t: T.Tables)
    requires TablesFrom(d, a, t) && d.g.tokens < 1000
    ensures T.WellFormed(t)
  {
    RowsFrom(d, a, t);
    hide RowOf, HasColumn, T.GotoRow, T.ShiftRow;
    forall i | 0 <= i < |t.shifts| ensures T.ShiftRow(t, t.shifts[i]) {
      RowsFit(d, a, t, i);
    }
    forall n | 1 <= n < |t.gotos|
      ensures T.GotoRow(t, n, t.gotos[n]) && (t.deflt[n] == 0 || T.Reached(t, t.deflt[n], -n)) {
      ColumnFits(d, a, t, n);
    }
  }

  // ----- from a grammar to packed tables ----------------------------------------------------------------

  /** From state i on token c the packed table gives the state the automaton goes to, or nothing. */
  ghost predicate ReadsShift(d: Tables, a: Auto, t: T.Tables, p: T.Packing, i: nat, c: nat)
    requires i < |a.states| && i < |p.indgo|
  {
    var j := T.ReadShift(t, p, i, c);
    if Moves(d, a.states[i], Tok(c)) then j > 0 && Target(d, a, a.states[i], Tok(c), j) else j == 0
  }

  /** For state i and nonterminal n, where the automaton has a goto, the packed table gives it. */
  ghost predicate ReadsGoto(d: Tables, a: Auto, t: T.Tables, p: T.Packing, i: nat, n: nat)
    requires i < |a.states| && 1 <= n < |p.pgo| && n < |t.gotos| && n < |t.deflt|
  {
    Moves(d, a.states[i], Non(n)) ==> var j := T.ReadGoto(t, p, n, i); j > 0 && Target(d, a, a.states[i], Non(n), j)
  }

  /** The packed tables are the automaton. */
  ghost predicate Faithful(d: Tables, a: Auto, t: T.Tables, p: T.Packing)
  {
    |p.indgo| == |a.states| && |p.pgo| == |t.gotos| == |t.deflt| == d.g.nonter &&
    (forall i: nat, c: nat :: i < |a.states| && 1 < c <= d.g.tokens ==> ReadsShift(d, a, t, p, i, c)) &&
    (forall i: nat, n: nat :: i < |a.states| && 1 <= n < d.g.nonter ==> ReadsGoto(d, a, t, p, i, n))
  }

  lemma ShiftsFaithful(d: Tables, a: Auto, t: T.Tables, p: T.Packing, i: nat, c: nat)
    requires Generated(d, a) && TablesFrom(d, a, t) && O.ShiftsAgree(t, p) && i < |a.states| &&
             1 < c <= d.g.tokens < 1000
    ensures i < |p.indgo| && ReadsShift(d, a, t, p, i, c)
  {
    RowsFrom(d, a, t);
    assert RowOf(d, a, i, t.shifts[i]) && |p.indgo| == |t.shifts|;
    hide TablesFrom, Generated, RowFull, Moves, Target, IsShift, RowsOf, O.ShiftsAgree, T.ReadShift, LeadsTo;
    var none: seq<Sym> := [];
    PackedShift(d, a, t, p, i, c, none);
    var j := T.ReadShift(t, p, i, c);
    if j != 0 {
      ShiftKnown(d, a, i, c, j);
    } else {
      FullRow(d, a, i, t.shifts[i], c);
    }
  }

  lemma FullRow(d: Tables, a: Auto, i: nat, row: T.Row, c: nat)
    requires i < |a.states| && RowFull(d, a, i, row) && 1 < c <= d.g.tokens &&
             forall k :: 0 <= k < |row| ==> row[k].0 != c
    ensures !Moves(d, a.states[i], Tok(c))
  {
    hide Moves;
  }

  /** A shift of the automaton moves over its token. */
  lemma ShiftKnown(d: Tables, a: Auto, i: nat, c: nat, j: int)
    requires Generated(d, a) && IsShift(d, a, i, c, j)
    ensures j > 0 && Target(d, a, a.states[i], Tok(c), j) && Moves(d, a.states[i], Tok(c))
  {
    assert StateOk(d, a.states[j]);
    var it := a.states[j][0].item;
    assert it in Core(a.states[j]);
    assert IsGoto(d, a.states[i], Tok(c), it);
  }

  lemma GotosFaithful(d: Tables, a: Auto, t: T.Tables, p: T.Packing, i: nat, n: nat)
    requires TablesFrom(d, a, t) && O.GotosAgree(t, p) && i < |a.states| && 1 <= n < d.g.nonter
    ensures n < |p.pgo| && n < |t.gotos| && n < |t.deflt| && ReadsGoto(d, a, t, p, i, n)
  {
    assert HasColumn(d, a, n, t.gotos[n], t.deflt[n]) && |p.pgo| == |t.gotos|;
    var g :| ColumnOf(d, a, n, t.gotos[n], t.deflt[n], g);
    assert GotoIs(d, a, i, n, g[i]);
    hide TablesFrom, Moves, Target, T.ReadGoto, O.GotosAgree;
    if Moves(d, a.states[i], Non(n)) {
      G.GotoRead(t, p, n, g, t.deflt[n], i);
    }
  }

  /** The outcome for a grammar: more states than there may be, no room in the array, or packed tables. */
  datatype Outcome = ManyStates | Crowded(p: T.Packing) | Built(p: T.Packing)

  /** From a grammar to packed tables that are its automaton, or the reason why not. */
  method Build(g: Grammar) returns (d: Tables, a: Auto, t: T.Tables, r: Outcome)
    requires GrammarOk(g) && g.tokens < 1000
    ensures d.g == g && (r.ManyStates? <==> TooMany(d))
    ensures !r.ManyStates? ==> Generated(d, a) && TablesFrom(d, a, t)
    ensures r.Crowded? ==> T.Packed(t, r.p) && O.Blocked(t, r.p)
    ensures r.Built? ==> Faithful(d, a, t, r.p)
  {
    hide GrammarOk, Generated, TooMany, TablesOk, T.Packed, O.Blocked, O.ShiftsAgree, O.GotosAgree, T.WellFormed,
      ReadsShift, ReadsGoto, HasColumn, RowOf;
    var ok;
    d, a, ok := Generate(g);
    t := T.Tables([], [], [], []);
    if !ok {
      return d, a, t, ManyStates;
    }
    GeneratedLists(d, a);
    NonterOk(d);
    var rows := AllRows(d, a);
    var gotos, deflt := AllColumns(d, a);
    var chk := Yychk(d, a);
    t := T.Tables(rows, gotos, deflt, chk);
    AllFit(d, a, t);
    var packed := O.Callopt(t);
    match packed {
      case NoRoom(p) => r := Crowded(p);
      case Done(p) =>
        AllFaithful(d, a, t, p);
        r := Built(p);
    }
  }

  lemma AllFaithful(d: Tables, a: Auto, t: T.Tables, p: T.Packing)
    requires Generated(d, a) && TablesFrom(d, a, t) && O.ShiftsAgree(t, p) && O.GotosAgree(t, p) && d.g.tokens < 1000
    ensures Faithful(d, a, t, p)
  {
    assert |p.indgo| == |a.states| && |p.pgo| == |t.gotos| == |t.deflt| == d.g.nonter;
    hide Generated, TablesFrom, O.ShiftsAgree, O.GotosAgree, ReadsShift, ReadsGoto;
    forall i: nat, c: nat | i < |a.states| && 1 < c <= d.g.tokens ensures ReadsShift(d, a, t, p, i, c) {
      ShiftsFaithful(d, a, t, p, i, c);
    }
    forall i: nat, n: nat | i < |a.states| && 1 <= n < d.g.nonter ensures ReadsGoto(d, a, t, p, i, n) {
      GotosFaithful(d, a, t, p, i, n);
    }
  }
}
