/** The yychk table, and what the packed shifts mean for the automaton they came from. */
module YaccLink {
  import opened YaccGrammar
  import opened YaccItems
  import opened YaccPaths
  import opened YaccAutomaton
  import opened YaccGenerate
  import T = YaccTables
  import O = YaccOpt

  // ----- yychk ----------------------------------------------------------------------------

  /** A symbol as yychk has it: a token's number, or the negative of a nonterminal's. */
  function Code(x: Sym): int { if x.Tok? then x.t else 0 - x.n }

  /** Mark the states on the list of symbol c. */
  method Walk(a: Auto, chk: array<int>, c: Sym)
    requires Sized(a) && Lists(a) && chk.Length == |a.states|
    modifies chk
    ensures forall j :: 0 <= j < chk.Length ==> chk[j] == if j >= 1 && a.acc[j] == c then Code(c) else old(chk[j])
  {
    var j := Head(a, c);
    while j != 0
      invariant 0 <= j < |a.next| && (j > 0 ==> a.acc[j] == c)
      invariant forall k: nat :: 1 <= k < chk.Length && a.acc[k] == c ==> chk[k] == Code(c) || OnList(a.next, j, k)
      invariant forall k :: 0 <= k < chk.Length && (k == 0 || a.acc[k] != c) ==> chk[k] == old(chk[k])
      decreases j
    {
      chk[j] := Code(c);
      j := a.next[j];
    }
  }

  /** Every accessing symbol is one of the grammar's. */
  lemma AccOk(d: Tables, a: Auto, j: nat)
    requires TablesOk(d) && Generated(d, a) && 1 <= j < |a.states|
    ensures SymOk(d.g, a.acc[j])
  {
    hide Lists, Apart, GotosThere, Honest;
    assert StateOk(d, a.states[j]);
    var it := a.states[j][0].item;
    assert Behind(d.g, it, a.acc[j]);
    assert ProdOk(d.g, d.g.prods[it.p]);
  }

  lemma GeneratedLists(d: Tables, a: Auto)
    requires Generated(d, a)
    ensures Sized(a) && Lists(a)
  {
  }

  /** others: each state's accessing symbol, by walking the lists of all symbols. */
  method Yychk(d: Tables, a: Auto) returns (chk: seq<int>)
    requires TablesOk(d) && Generated(d, a)
    ensures |chk| == |a.states| && chk[0] == -1000 && forall j :: 1 <= j < |chk| ==> chk[j] == Code(a.acc[j])
  {
    hide Generated, Lists;
    GeneratedLists(d, a);
    var temp := new int[|a.states|](j => -1000);
    var i := 1;
    while i <= d.g.tokens
      invariant 1 <= i <= d.g.tokens + 1
      invariant forall j ::
                  0 <= j < temp.Length ==>
                    temp[j] == if j >= 1 && a.acc[j].Tok? && 1 <= a.acc[j].t < i then Code(a.acc[j]) else -1000
    {
      Walk(a, temp, Tok(i));
      i := i + 1;
    }
    var n := 0;
    while n < d.g.nonter
      invariant 0 <= n <= d.g.nonter
      invariant forall j ::
                  0 <= j < temp.Length ==>
                    temp[j] == if j >= 1 && (if a.acc[j].Tok? then 1 <= a.acc[j].t < i else a.acc[j].n < n)
                               then Code(a.acc[j]) else -1000
    {
      Walk(a, temp, Non(n));
      n := n + 1;
    }
    forall j: nat | 1 <= j < |a.states| ensures SymOk(d.g, a.acc[j]) {
      AccOk(d, a, j);
    }
    chk := temp[..];
  }

  // ----- the shifts after packing ------------------------------------------------------------

  /** Each row lists shifts of its state, those that were kept when conflicts were settled. */
  ghost predicate RowsOf(d: Tables, a: Auto, rows: seq<T.Row>)
  {
    |rows| == |a.states| &&
    (forall i, k :: 0 <= i < |rows| && 0 <= k < |rows[i]| ==> IsShift(d, a, i, rows[i][k].0, rows[i][k].1)) &&
    (forall i, k, l :: 0 <= i < |rows| && 0 <= k < l < |rows[i]| ==> rows[i][k].0 < rows[i][l].0)
  }

  ghost predicate IsShift(d: Tables, a: Auto, i: int, c: int, v: int)
  {
    0 <= i < |a.states| && 1 < c <= d.g.tokens && v > 0 && Target(d, a, a.states[i], Tok(c), v)
  }

  /** The optimizer may be given the rows of an automaton with its yychk. */
  lemma RowsFit(d: Tables, a: Auto, t: T.Tables, i: int)
    requires RowsOf(d, a, t.shifts) && d.g.tokens < 1000 && 0 <= i < |t.shifts|
    requires |t.acc| == |a.states| == |a.acc| && forall j :: 1 <= j < |t.acc| ==> t.acc[j] == Code(a.acc[j])
    ensures T.ShiftRow(t, t.shifts[i])
  {
    var row := t.shifts[i];
    forall k | 0 <= k < |row| ensures 0 < row[k].0 < 1000 && T.Reached(t, row[k].1, row[k].0) {
      assert IsShift(d, a, i, row[k].0, row[k].1);
    }
  }

  /** What the parser finds for a token: nothing, when no shift is kept; otherwise the state whose core
      is the goto, so a prefix that leads to the one leads with the token to the other. */
  lemma PackedShift(d: Tables, a: Auto, t: T.Tables, p: T.Packing, i: nat, c: nat, path: seq<Sym>)
    requires O.ShiftsAgree(t, p) && RowsOf(d, a, t.shifts) && i < |a.states| && 1 < c <= d.g.tokens < 1000
    ensures var j := T.ReadShift(t, p, i, c);
            if j == 0 then forall k :: 0 <= k < |t.shifts[i]| ==> t.shifts[i][k].0 != c else IsShift(d, a, i, c, j)
    ensures var j := T.ReadShift(t, p, i, c);
            j != 0 && LeadsTo(d.g, path, Core(a.states[i])) ==> LeadsTo(d.g, path + [Tok(c)], Core(a.states[j]))
  {
    hide T.ReadShift, LeadsTo;
    var j := T.ReadShift(t, p, i, c);
    var row := t.shifts[i];
    if j != 0 {
      assert (c, j) in row;
      var k :| 0 <= k < |row| && row[k] == (c, j);
      assert IsShift(d, a, i, row[k].0, row[k].1);
      if LeadsTo(d.g, path, Core(a.states[i])) {
        GotoLeads(d, a.states[i], path, Tok(c), Core(a.states[j]));
      }
    } else {
      forall k | 0 <= k < |row| ensures row[k].0 != c {
        var x, v := row[k].0, row[k].1;
        assert IsShift(d, a, i, x, v) && row[k] == (x, v) && (x, v) in row;
        assert T.ReadShift(t, p, i, x) == v;
      }
    }
  }
}
