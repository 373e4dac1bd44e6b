/** Packed parser tables: what the shared array holds, and what can be read back from it. */
module YaccTables {

  type Row = seq<(int, int)>

  const YYFLAG1 := -1000

  /** What the optimizer is given: the shifts of each state by token, the gotos of each nonterminal
      by state with a default, and the accessing symbol of each state: a token, or the negative of a
      nonterminal's number. Nonterminals count from 1. */
  datatype Tables = Tables(shifts: seq<Row>, gotos: seq<Row>, deflt: seq<int>, acc: seq<int>)

  /** v is a state reached by symbol x. */
  predicate Reached(t: Tables, v: int, x: int) { 0 < v < |t.acc| && t.acc[v] == x }

  ghost predicate ShiftRow(t: Tables, row: Row)
  {
    (forall k :: 0 <= k < |row| ==> 0 < row[k].0 < 1000 && Reached(t, row[k].1, row[k].0)) &&
    (forall k, l :: 0 <= k < l < |row| ==> row[k].0 < row[l].0)
  }

  ghost predicate GotoRow(t: Tables, n: int, row: Row)
  {
    (forall k :: 0 <= k < |row| ==> row[k].0 >= 0 && Reached(t, row[k].1, -n)) &&
    (forall k, l :: 0 <= k < l < |row| ==> row[k].0 < row[l].0)
  }

  ghost predicate WellFormed(t: Tables)
  {
    |t.gotos| == |t.deflt| > 0 && (forall i :: 0 <= i < |t.shifts| ==> ShiftRow(t, t.shifts[i])) &&
    (forall n :: 1 <= n < |t.gotos| ==> GotoRow(t, n, t.gotos[n]) && (t.deflt[n] == 0 || Reached(t, t.deflt[n], -n)))
  }

  /** The optimizer's output so far; a state is placed when its entry is not the flag, a nonterminal
      when its measure is zero. */
  datatype Packing = Packing(mem: seq<int>, indgo: seq<int>, pgo: seq<int>, greed: seq<int>)

  ghost predicate Shaped(t: Tables, p: Packing)
  {
    |p.indgo| == |t.shifts| && |p.pgo| == |p.greed| == |t.gotos| == |t.deflt|
  }

  predicate PlacedState(p: Packing, i: int) { 0 <= i < |p.indgo| && p.indgo[i] != YYFLAG1 }

  predicate PlacedNonterminal(p: Packing, n: int) { 1 <= n < |p.greed| && p.greed[n] == 0 }

  predicate Cell(p: Packing, x: int, v: int) { 0 <= x < |p.mem| && p.mem[x] == v }

  /** The cells of a row at offset x. */
  ghost predicate RowAt(p: Packing, x: int, row: Row)
  {
    forall k :: 0 <= k < |row| ==> Cell(p, x + row[k].0, row[k].1)
  }

  /** State i shifts to v from the cell at x. */
  ghost predicate FromState(t: Tables, p: Packing, i: int, x: int, v: int)
    requires Shaped(t, p)
  {
    PlacedState(p, i) && 0 < v < |t.acc| && x == p.indgo[i] + t.acc[v] && (t.acc[v], v) in t.shifts[i]
  }

  /** Nonterminal n put v in the cell at x, as its default or as a goto. */
  ghost predicate FromNonterminal(t: Tables, p: Packing, n: int, x: int, v: int)
    requires Shaped(t, p)
  {
    PlacedNonterminal(p, n) && Reached(t, v, -n) &&
    ((x == p.pgo[n] && v == t.deflt[n]) || (x - p.pgo[n] - 1, v) in t.gotos[n])
  }

  ghost predicate Sourced(t: Tables, p: Packing, x: int, v: int)
    requires Shaped(t, p)
  {
    (exists i :: FromState(t, p, i, x, v)) || (exists n :: FromNonterminal(t, p, n, x, v))
  }

  ghost predicate SameRows(a: Row, b: Row) { forall e :: e in a <==> e in b }

  ghost predicate StatesAt(t: Tables, p: Packing)
    requires Shaped(t, p)
  {
    forall i :: PlacedState(p, i) ==> RowAt(p, p.indgo[i], t.shifts[i])
  }

  ghost predicate NonterminalAt(t: Tables, p: Packing, n: int)
    requires Shaped(t, p) && PlacedNonterminal(p, n)
  {
    RowAt(p, p.pgo[n] + 1, t.gotos[n]) && (t.deflt[n] != 0 ==> Cell(p, p.pgo[n], t.deflt[n]))
  }

  ghost predicate NonterminalsAt(t: Tables, p: Packing)
    requires Shaped(t, p)
  {
    forall n :: PlacedNonterminal(p, n) ==> NonterminalAt(t, p, n)
  }

  ghost predicate AllSourced(t: Tables, p: Packing)
    requires Shaped(t, p)
  {
    forall x :: 0 <= x < |p.mem| && p.mem[x] != 0 ==> Sourced(t, p, x, p.mem[x])
  }

  /** States share an offset only if they shift alike. */
  ghost predicate Shared(t: Tables, p: Packing)
    requires Shaped(t, p)
  {
    forall i, j ::
      PlacedState(p, i) && PlacedState(p, j) && p.indgo[i] == p.indgo[j] ==> SameRows(t.shifts[i], t.shifts[j])
  }

  /** What every placement keeps. */
  ghost predicate Packed(t: Tables, p: Packing)
  {
    Shaped(t, p) && StatesAt(t, p) && NonterminalsAt(t, p) && AllSourced(t, p) && Shared(t, p)
  }

  // ----- reading back --------------------------------------------------------------------

  /** What the parser finds for token x in state i: the cell, if its accessing symbol is x. */
  function ReadShift(t: Tables, p: Packing, i: int, x: int): (v: int)
    requires 0 <= i < |p.indgo|
  {
    var c := p.indgo[i] + x;
    if 0 <= c < |p.mem| && Reached(t, p.mem[c], x) then p.mem[c] else 0
  }

  lemma PackedShape(t: Tables, p: Packing)
    requires Packed(t, p)
    ensures Shaped(t, p)
  {
  }

  lemma PackedState(t: Tables, p: Packing, i: int)
    requires WellFormed(t) && Packed(t, p) && PlacedState(p, i)
    ensures ShiftRow(t, t.shifts[i]) && RowAt(p, p.indgo[i], t.shifts[i])
  {
  }

  lemma PackedNonterminal(t: Tables, p: Packing, n: int)
    requires WellFormed(t) && Packed(t, p) && PlacedNonterminal(p, n)
    ensures GotoRow(t, n, t.gotos[n]) && NonterminalAt(t, p, n)
  {
  }

  lemma PackedSource(t: Tables, p: Packing, x: int)
    requires Packed(t, p) && 0 <= x < |p.mem| && p.mem[x] != 0
    ensures Sourced(t, p, x, p.mem[x])
  {
  }

  lemma RowCell(p: Packing, x: int, row: Row, k: nat)
    requires RowAt(p, x, row) && k < |row|
    ensures Cell(p, x + row[k].0, row[k].1)
  {
  }

  lemma FoundShift(t: Tables, p: Packing, i: int, k: nat)
    requires WellFormed(t) && Packed(t, p) && PlacedState(p, i) && k < |t.shifts[i]|
    ensures ReadShift(t, p, i, t.shifts[i][k].0) == t.shifts[i][k].1
  {
    hide WellFormed, Packed, RowAt;
    PackedShape(t, p);
    PackedState(t, p, i);
    RowCell(p, p.indgo[i], t.shifts[i], k);
  }

  /** Cells that states put there have tokens for accessing symbols. */
  lemma StatePositive(t: Tables, p: Packing, i: int, x: int, v: int)
    requires WellFormed(t) && Shaped(t, p) && FromState(t, p, i, x, v)
    ensures t.acc[v] > 0
  {
    var row := t.shifts[i];
    assert ShiftRow(t, row);
    var k :| 0 <= k < |row| && row[k] == (t.acc[v], v);
  }

  lemma SameEntry(t: Tables, p: Packing, i: int, j: int, x: int, v: int)
    requires Packed(t, p) && PlacedState(p, i) && 0 < v < |t.acc| && x == p.indgo[i] + t.acc[v] &&
             FromState(t, p, j, x, v)
    ensures (t.acc[v], v) in t.shifts[i]
  {
    assert SameRows(t.shifts[i], t.shifts[j]);
  }

  /** A cell whose accessing symbol is the token was put there for this very state. */
  lemma OnlyShift(t: Tables, p: Packing, i: int, x: int)
    requires Packed(t, p) && PlacedState(p, i) && x > 0 && ReadShift(t, p, i, x) != 0
    ensures (x, ReadShift(t, p, i, x)) in t.shifts[i]
  {
    hide Packed;
    PackedShape(t, p);
    var c := p.indgo[i] + x;
    var v := p.mem[c];
    PackedSource(t, p, c);
    var j :| FromState(t, p, j, c, v);
    SameEntry(t, p, i, j, c, v);
  }

  /** The packed array gives back the shifts: a state for token x exactly when the state shifts x,
      and then the state it shifts to. */
  lemma ShiftsKept(t: Tables, p: Packing, i: int, x: int, v: int)
    requires WellFormed(t) && Packed(t, p) && PlacedState(p, i) && x > 0 && v != 0
    ensures ReadShift(t, p, i, x) == v <==> (x, v) in t.shifts[i]
  {
    hide Packed, WellFormed;
    PackedShape(t, p);
    if ReadShift(t, p, i, x) == v {
      OnlyShift(t, p, i, x);
    }
    if (x, v) in t.shifts[i] {
      var k :| 0 <= k < |t.shifts[i]| && t.shifts[i][k] == (x, v);
      FoundShift(t, p, i, k);
    }
  }

  /** A state with no shifts has the flag for an entry, and no token finds a cell from there. */
  lemma NoShifts(t: Tables, p: Packing, i: int, x: int)
    requires 0 <= i < |p.indgo| && p.indgo[i] == YYFLAG1 && 0 < x < 1000
    ensures ReadShift(t, p, i, x) == 0
  {
  }

  /** What the parser finds for nonterminal n in state s: the cell, if its accessing symbol is n,
      and the default if not. */
  function ReadGoto(t: Tables, p: Packing, n: int, s: int): (v: int)
    requires 0 <= n < |p.pgo|
  {
    var c := p.pgo[n] + 1 + s;
    if 0 <= c < |p.mem| && Reached(t, p.mem[c], -n) then p.mem[c]
    else if 0 <= p.pgo[n] < |p.mem| then p.mem[p.pgo[n]] else 0
  }

  lemma NotFromState(t: Tables, p: Packing, x: int, v: int)
    requires WellFormed(t) && Shaped(t, p) && 0 < v < |t.acc| && t.acc[v] <= 0
    ensures forall i :: !FromState(t, p, i, x, v)
  {
    hide WellFormed;
    forall i ensures !FromState(t, p, i, x, v) {
      if FromState(t, p, i, x, v) {
        StatePositive(t, p, i, x, v);
        assert false;
      }
    }
  }

  lemma OnlyGoto(t: Tables, p: Packing, n: int, s: int)
    requires WellFormed(t) && Packed(t, p) && PlacedNonterminal(p, n) && s >= 0
    requires var c := p.pgo[n] + 1 + s; 0 <= c < |p.mem| && Reached(t, p.mem[c], -n)
    ensures (s, p.mem[p.pgo[n] + 1 + s]) in t.gotos[n]
  {
    hide Packed, WellFormed;
    PackedShape(t, p);
    var c := p.pgo[n] + 1 + s;
    var v := p.mem[c];
    PackedSource(t, p, c);
    NotFromState(t, p, c, v);
    var m :| FromNonterminal(t, p, m, c, v);
  }

  /** The packed array gives back the gotos: the one listed, or else the default. */
  lemma GotosKept(t: Tables, p: Packing, n: int, s: int, v: int)
    requires WellFormed(t) && Packed(t, p) && PlacedNonterminal(p, n) && s >= 0 && t.deflt[n] != 0
    ensures (s, v) in t.gotos[n] ==> ReadGoto(t, p, n, s) == v
    ensures (forall w :: (s, w) !in t.gotos[n]) ==> ReadGoto(t, p, n, s) == t.deflt[n]
  {
    hide Packed, WellFormed, RowAt;
    PackedShape(t, p);
    PackedNonterminal(t, p, n);
    var c := p.pgo[n] + 1 + s;
    var row := t.gotos[n];
    if 0 <= c < |p.mem| && Reached(t, p.mem[c], -n) {
      OnlyGoto(t, p, n, s);
    }
    if (s, v) in row {
      var k :| 0 <= k < |row| && row[k] == (s, v);
      RowCell(p, p.pgo[n] + 1, row, k);
    }
  }
}
