/** The optimizer: every state and every nonterminal finds a place in one shared array. */
module YaccPack {
  import opened YaccTables

  const ACTSIZE := 40000

  // ----- rows of equal length, one within the other --------------------------------------

  ghost function Entries(row: Row): set<(int, int)> { set e | e in row }

  ghost predicate Ascending(row: Row) { forall k, l :: 0 <= k < l < |row| ==> row[k].0 < row[l].0 }

  lemma {:induction false} EntriesCount(row: Row)
    requires Ascending(row)
    ensures |Entries(row)| == |row|
  {
    if row != [] {
      var n := |row| - 1;
      EntriesCount(row[..n]);
      assert Entries(row) == Entries(row[..n]) + {row[n]};
      assert row[n] !in row[..n];
    } else {
      assert Entries(row) == {};
    }
  }

  lemma {:induction false} SubsetSame<T>(a: set<T>, b: set<T>)
    requires a <= b && |a| == |b|
    ensures a == b
  {
    if a != b {
      var x :| x in b && x !in a;
      SubsetSize(a, b - {x});
    }
  }

  lemma {:induction false} SubsetSize<T>(a: set<T>, b: set<T>)
    requires a <= b
    ensures |a| <= |b|
  {
    if a != {} {
      var x :| x in a;
      SubsetSize(a - {x}, b - {x});
    }
  }

  lemma SameLength(a: Row, b: Row)
    requires Ascending(a) && Ascending(b) && |a| == |b| && forall e :: e in a ==> e in b
    ensures SameRows(a, b)
  {
    EntriesCount(a);
    EntriesCount(b);
    SubsetSame(Entries(a), Entries(b));
    forall e ensures e in a <==> e in b {
      assert e in a <==> e in Entries(a);
      assert e in b <==> e in Entries(b);
    }
  }

  // ----- placing a state -----------------------------------------------------------------

  /** Every cell of the row at offset x is free or already right. */
  ghost predicate Fits(p: Packing, x: int, row: Row)
  {
    forall k :: 0 <= k < |row| ==> Cell(p, x + row[k].0, 0) || Cell(p, x + row[k].0, row[k].1)
  }

  /** r is p with the row written at offset x. */
  ghost predicate Written(mem: seq<int>, mem': seq<int>, x: int, row: Row)
  {
    |mem'| == |mem| && (forall k :: 0 <= k < |row| ==> 0 <= x + row[k].0 < |mem| && mem'[x + row[k].0] == row[k].1) &&
    forall c :: 0 <= c < |mem| ==> mem'[c] == mem[c] || InRow(mem', x, row, c)
  }

  ghost predicate InRow(mem: seq<int>, x: int, row: Row, c: int)
    requires 0 <= c < |mem|
  {
    exists k :: 0 <= k < |row| && row[k] == (c - x, mem[c])
  }

  lemma WrittenKeeps(p: Packing, mem': seq<int>, x: int, row: Row, c: int)
    requires Fits(p, x, row) && Written(p.mem, mem', x, row) && 0 <= c < |p.mem| && p.mem[c] != 0
    ensures mem'[c] == p.mem[c]
  {
    if InRow(mem', x, row, c) {
      var k :| 0 <= k < |row| && row[k] == (c - x, mem'[c]);
      assert Cell(p, x + row[k].0, 0) || Cell(p, x + row[k].0, row[k].1);
    }
  }

  lemma SourceKept(t: Tables, p: Packing, i: int, x: int, mem': seq<int>, c: int, v: int)
    requires Shaped(t, p) && 0 <= i < |p.indgo| && !PlacedState(p, i) && Sourced(t, p, c, v)
    ensures Sourced(t, p.(mem := mem', indgo := p.indgo[i := x]), c, v)
  {
    var r := p.(mem := mem', indgo := p.indgo[i := x]);
    if j :| FromState(t, p, j, c, v) {
      assert FromState(t, r, j, c, v);
    } else {
      var n :| FromNonterminal(t, p, n, c, v);
      assert FromNonterminal(t, r, n, c, v);
    }
  }

  lemma SourceNew(t: Tables, r: Packing, i: int, k: nat)
    requires Shaped(t, r) && PlacedState(r, i) && ShiftRow(t, t.shifts[i]) && k < |t.shifts[i]|
    ensures Sourced(t, r, r.indgo[i] + t.shifts[i][k].0, t.shifts[i][k].1)
  {
    var row := t.shifts[i];
    assert row[k] in row;
    assert FromState(t, r, i, r.indgo[i] + row[k].0, row[k].1);
  }

  lemma RowsKept(p: Packing, r: Packing, x: int, row: Row)
    requires RowAt(p, x, row) && |r.mem| == |p.mem| &&
             (forall c :: 0 <= c < |p.mem| && p.mem[c] != 0 ==> r.mem[c] == p.mem[c])
    requires forall k :: 0 <= k < |row| ==> row[k].1 != 0
    ensures RowAt(r, x, row)
  {
    forall k | 0 <= k < |row| ensures Cell(r, x + row[k].0, row[k].1) {
      RowCell(p, x, row, k);
    }
  }

  lemma ShiftNonzero(t: Tables, i: int)
    requires WellFormed(t) && 0 <= i < |t.shifts|
    ensures ShiftRow(t, t.shifts[i]) && forall k :: 0 <= k < |t.shifts[i]| ==> t.shifts[i][k].1 != 0
  {
  }

  lemma GotoNonzero(t: Tables, n: int)
    requires WellFormed(t) && 1 <= n < |t.gotos|
    ensures GotoRow(t, n, t.gotos[n]) && forall k :: 0 <= k < |t.gotos[n]| ==> t.gotos[n][k].1 != 0
  {
  }

  /** Nothing placed before is disturbed by writes to free cells. */
  ghost predicate Undisturbed(t: Tables, p: Packing, r: Packing)
  {
    |r.mem| == |p.mem| && forall c :: 0 <= c < |p.mem| && p.mem[c] != 0 ==> r.mem[c] == p.mem[c]
  }

  lemma StateUndisturbed(t: Tables, p: Packing, r: Packing, j: int)
    requires WellFormed(t) && Packed(t, p) && Undisturbed(t, p, r) && PlacedState(p, j) && PlacedState(r, j) &&
             r.indgo[j] == p.indgo[j]
    ensures RowAt(r, r.indgo[j], t.shifts[j])
  {
    hide WellFormed, Packed;
    PackedShape(t, p);
    PackedState(t, p, j);
    ShiftNonzero(t, j);
    RowsKept(p, r, p.indgo[j], t.shifts[j]);
  }

  lemma NonterminalUndisturbed(t: Tables, p: Packing, r: Packing, n: int)
    requires WellFormed(t) && Packed(t, p) && Undisturbed(t, p, r) && PlacedNonterminal(p, n) &&
             PlacedNonterminal(r, n) && |r.pgo| == |p.pgo| && r.pgo[n] == p.pgo[n]
    requires Shaped(t, r)
    ensures NonterminalAt(t, r, n)
  {
    hide WellFormed, Packed;
    PackedShape(t, p);
    PackedNonterminal(t, p, n);
    GotoNonzero(t, n);
    RowsKept(p, r, p.pgo[n] + 1, t.gotos[n]);
  }

  lemma SameRowsOf(t: Tables, p: Packing, i: int, j: int)
    requires Packed(t, p) && PlacedState(p, i) && PlacedState(p, j) && p.indgo[i] == p.indgo[j]
    ensures SameRows(t.shifts[i], t.shifts[j])
  {
  }

  lemma PlaceSources(t: Tables, p: Packing, r: Packing, i: int, x: int)
    requires WellFormed(t) && Packed(t, p) && 0 <= i < |p.indgo| && !PlacedState(p, i) && x != YYFLAG1
    requires r == p.(mem := r.mem, indgo := p.indgo[i := x]) && Written(p.mem, r.mem, x, t.shifts[i]) &&
             Undisturbed(t, p, r)
    ensures Shaped(t, r) && AllSourced(t, r)
  {
    hide WellFormed, Packed, Sourced;
    PackedShape(t, p);
    ShiftNonzero(t, i);
    forall c | 0 <= c < |r.mem| && r.mem[c] != 0 ensures Sourced(t, r, c, r.mem[c]) {
      if p.mem[c] != 0 {
        PackedSource(t, p, c);
        SourceKept(t, p, i, x, r.mem, c, p.mem[c]);
      } else {
        assert InRow(r.mem, x, t.shifts[i], c);
        var k :| 0 <= k < |t.shifts[i]| && t.shifts[i][k] == (c - x, r.mem[c]);
        SourceNew(t, r, i, k);
      }
    }
  }

  lemma PlaceUndisturbed(t: Tables, p: Packing, r: Packing, x: int, row: Row)
    requires Fits(p, x, row) && Written(p.mem, r.mem, x, row)
    ensures Undisturbed(t, p, r)
  {
    hide Fits;
    forall c | 0 <= c < |p.mem| && p.mem[c] != 0 ensures r.mem[c] == p.mem[c] {
      WrittenKeeps(p, r.mem, x, row, c);
    }
  }

  lemma WrittenRow(mem: seq<int>, r: Packing, x: int, row: Row)
    requires Written(mem, r.mem, x, row)
    ensures RowAt(r, x, row)
  {
  }

  lemma PlaceStates(t: Tables, p: Packing, r: Packing, i: int, x: int)
    requires WellFormed(t) && Packed(t, p) && 0 <= i < |p.indgo| && Shaped(t, r) && Undisturbed(t, p, r)
    requires r == p.(mem := r.mem, indgo := p.indgo[i := x]) && RowAt(r, x, t.shifts[i])
    ensures StatesAt(t, r) && NonterminalsAt(t, r)
  {
    hide WellFormed, Packed, Undisturbed;
    forall j | PlacedState(r, j) ensures RowAt(r, r.indgo[j], t.shifts[j]) {
      if j != i {
        StateUndisturbed(t, p, r, j);
      }
    }
    forall n | PlacedNonterminal(r, n) ensures NonterminalAt(t, r, n) {
      NonterminalUndisturbed(t, p, r, n);
    }
  }

  /** A state written where it fits, at an offset no other state has. */
  lemma PlaceState(t: Tables, p: Packing, r: Packing, i: int, x: int)
    requires WellFormed(t) && Packed(t, p) && 0 <= i < |p.indgo| && !PlacedState(p, i) && x != YYFLAG1
    requires Fits(p, x, t.shifts[i]) && Written(p.mem, r.mem, x, t.shifts[i]) &&
             (forall j :: 0 <= j < |p.indgo| ==> p.indgo[j] != x)
    requires r == p.(mem := r.mem, indgo := p.indgo[i := x])
    ensures Packed(t, r)
  {
    hide WellFormed, Packed, Fits, Written, Undisturbed, StatesAt, NonterminalsAt, AllSourced, RowAt;
    PackedShape(t, p);
    PlaceUndisturbed(t, p, r, x, t.shifts[i]);
    WrittenRow(p.mem, r, x, t.shifts[i]);
    PlaceSources(t, p, r, i, x);
    PlaceStates(t, p, r, i, x);
    assert Shared(t, r) by {
      forall j, l | PlacedState(r, j) && PlacedState(r, l) && r.indgo[j] == r.indgo[l]
        ensures SameRows(t.shifts[j], t.shifts[l]) {
        PlaceSame(t, p, i, x, j, l);
      }
    }
    hide Shared;
    PackedOf(t, r);
  }

  lemma PackedOf(t: Tables, p: Packing)
    requires Shaped(t, p) && StatesAt(t, p) && NonterminalsAt(t, p) && AllSourced(t, p) && Shared(t, p)
    ensures Packed(t, p)
  {
  }

  lemma PlaceSame(t: Tables, p: Packing, i: int, x: int, j: int, l: int)
    requires Packed(t, p) && 0 <= i < |p.indgo| && (forall j :: 0 <= j < |p.indgo| ==> p.indgo[j] != x)
    requires 0 <= j < |p.indgo| && 0 <= l < |p.indgo| && var q := p.indgo[i := x]; q[j] == q[l] && q[j] != YYFLAG1
    ensures SameRows(t.shifts[j], t.shifts[l])
  {
    if j != i && l != i {
      hide Packed, SameRows;
      SameRowsOf(t, p, j, l);
    }
  }

  // ----- a state at the offset of an equal one -------------------------------------------

  /** Every entry of the row is already there, at an offset state j has: j has the entry too. */
  lemma EntryShared(t: Tables, p: Packing, i: int, j: int, k: nat)
    requires WellFormed(t) && Packed(t, p) && 0 <= i < |p.indgo| && PlacedState(p, j) &&
             RowAt(p, p.indgo[j], t.shifts[i]) && k < |t.shifts[i]|
    ensures t.shifts[i][k] in t.shifts[j]
  {
    hide WellFormed, Packed, RowAt;
    PackedShape(t, p);
    ShiftNonzero(t, i);
    var (x, v) := t.shifts[i][k];
    RowCell(p, p.indgo[j], t.shifts[i], k);
    PackedSource(t, p, p.indgo[j] + x);
    var l :| FromState(t, p, l, p.indgo[j] + x, v);
    SameEntry(t, p, j, l, p.indgo[j] + x, v);
  }

  lemma RowShared(t: Tables, p: Packing, i: int, j: int)
    requires WellFormed(t) && Packed(t, p) && 0 <= i < |p.indgo| && PlacedState(p, j) &&
             RowAt(p, p.indgo[j], t.shifts[i])
    requires |t.shifts[i]| == |t.shifts[j]|
    ensures SameRows(t.shifts[i], t.shifts[j])
  {
    hide WellFormed, Packed, RowAt, SameRows;
    PackedShape(t, p);
    ShiftNonzero(t, i);
    ShiftNonzero(t, j);
    forall e | e in t.shifts[i] ensures e in t.shifts[j] {
      var k :| 0 <= k < |t.shifts[i]| && t.shifts[i][k] == e;
      EntryShared(t, p, i, j, k);
    }
    SameLength(t.shifts[i], t.shifts[j]);
  }

  lemma ShareSources(t: Tables, p: Packing, r: Packing, i: int, x: int)
    requires Packed(t, p) && 0 <= i < |p.indgo| && !PlacedState(p, i) && r == p.(indgo := p.indgo[i := x])
    ensures Shaped(t, r) && AllSourced(t, r)
  {
    hide Packed, Sourced;
    PackedShape(t, p);
    forall c | 0 <= c < |r.mem| && r.mem[c] != 0 ensures Sourced(t, r, c, r.mem[c]) {
      PackedSource(t, p, c);
      SourceKept(t, p, i, x, p.mem, c, p.mem[c]);
    }
  }

  lemma ShareSame(t: Tables, p: Packing, r: Packing, i: int, j: int)
    requires WellFormed(t) && Packed(t, p) && 0 <= i < |p.indgo| && !PlacedState(p, i) && PlacedState(p, j) &&
             Shaped(t, r)
    requires SameRows(t.shifts[i], t.shifts[j]) && r == p.(indgo := p.indgo[i := p.indgo[j]])
    ensures Shared(t, r)
  {
    hide WellFormed, Packed;
    forall a, b | PlacedState(r, a) && PlacedState(r, b) && r.indgo[a] == r.indgo[b]
      ensures SameRows(t.shifts[a], t.shifts[b]) {
      SameRowsOf(t, p, if a == i then j else a, if b == i then j else b);
    }
  }

  /** A state whose entries all stand at the offset of a state with as many entries. */
  lemma ShareState(t: Tables, p: Packing, r: Packing, i: int, j: int)
    requires WellFormed(t) && Packed(t, p) && 0 <= i < |p.indgo| && !PlacedState(p, i) && PlacedState(p, j)
    requires RowAt(p, p.indgo[j], t.shifts[i]) && |t.shifts[i]| == |t.shifts[j]| &&
             r == p.(indgo := p.indgo[i := p.indgo[j]])
    ensures Packed(t, r)
  {
    assert RowAt(r, p.indgo[j], t.shifts[i]);
    assert Undisturbed(t, p, r);
    hide WellFormed, Packed, RowAt, SameRows, StatesAt, NonterminalsAt, AllSourced, Shared, Undisturbed;
    PackedShape(t, p);
    RowShared(t, p, i, j);
    ShareSources(t, p, r, i, p.indgo[j]);
    ShareSame(t, p, r, i, j);
    PlaceStates(t, p, r, i, p.indgo[j]);
    PackedOf(t, r);
  }

  // ----- placing a nonterminal -----------------------------------------------------------

  /** The place at x is free for the default and the gotos of n. */
  ghost predicate Free(t: Tables, p: Packing, n: int, x: int)
    requires 1 <= n < |t.gotos|
  {
    Cell(p, x, 0) && forall k :: 0 <= k < |t.gotos[n]| ==> Cell(p, x + 1 + t.gotos[n][k].0, 0)
  }

  /** The default and the gotos of n written at x. */
  ghost predicate Filled(t: Tables, mem: seq<int>, mem': seq<int>, n: int, x: int)
    requires 1 <= n < |t.gotos| && n < |t.deflt|
  {
    0 <= x < |mem| && Written(mem[x := t.deflt[n]], mem', x + 1, t.gotos[n])
  }

  lemma FilledAt(t: Tables, mem: seq<int>, mem': seq<int>, n: int, x: int)
    requires 1 <= n < |t.gotos| && n < |t.deflt| && GotoRow(t, n, t.gotos[n]) && Filled(t, mem, mem', n, x)
    ensures |mem'| == |mem| && mem'[x] == t.deflt[n]
    ensures forall c :: 0 <= c < |mem| && c != x ==> mem'[c] == mem[c] || InRow(mem', x + 1, t.gotos[n], c)
  {
    assert !InRow(mem', x + 1, t.gotos[n], x);
  }

  lemma FillUndisturbed(t: Tables, p: Packing, r: Packing, n: int, x: int)
    requires 1 <= n < |t.gotos| && n < |t.deflt| && GotoRow(t, n, t.gotos[n]) && Free(t, p, n, x) &&
             Filled(t, p.mem, r.mem, n, x)
    ensures Undisturbed(t, p, r)
  {
    FilledAt(t, p.mem, r.mem, n, x);
    hide Filled, GotoRow;
    forall c | 0 <= c < |p.mem| && p.mem[c] != 0 ensures r.mem[c] == p.mem[c] {
      forall k | 0 <= k < |t.gotos[n]| ensures t.gotos[n][k].0 != c - (x + 1) {
        assert Cell(p, x + 1 + t.gotos[n][k].0, 0);
      }
      assert !InRow(r.mem, x + 1, t.gotos[n], c);
    }
  }

  lemma SourceStays(t: Tables, p: Packing, r: Packing, n: int, x: int, c: int, v: int)
    requires Shaped(t, p) && 1 <= n < |p.greed| && !PlacedNonterminal(p, n) && Sourced(t, p, c, v)
    requires r == p.(mem := r.mem, pgo := p.pgo[n := x], greed := p.greed[n := 0])
    ensures Sourced(t, r, c, v)
  {
    if j :| FromState(t, p, j, c, v) {
      assert FromState(t, r, j, c, v);
    } else {
      var m :| FromNonterminal(t, p, m, c, v);
      assert FromNonterminal(t, r, m, c, v);
    }
  }

  lemma SourceGoto(t: Tables, r: Packing, n: int, c: int, v: int)
    requires WellFormed(t) && Shaped(t, r) && PlacedNonterminal(r, n) && v != 0
    requires (c == r.pgo[n] && v == t.deflt[n]) ||
             exists k :: 0 <= k < |t.gotos[n]| && t.gotos[n][k] == (c - (r.pgo[n] + 1), v)
    ensures Sourced(t, r, c, v)
  {
    if c == r.pgo[n] && v == t.deflt[n] {
      assert FromNonterminal(t, r, n, c, v);
    } else {
      var k :| 0 <= k < |t.gotos[n]| && t.gotos[n][k] == (c - (r.pgo[n] + 1), v);
      assert GotoRow(t, n, t.gotos[n]) && t.gotos[n][k] in t.gotos[n];
      assert FromNonterminal(t, r, n, c, v);
    }
  }

  lemma FillSources(t: Tables, p: Packing, r: Packing, n: int, x: int)
    requires WellFormed(t) && Packed(t, p) && 1 <= n < |p.greed| && !PlacedNonterminal(p, n)
    requires r == p.(mem := r.mem, pgo := p.pgo[n := x], greed := p.greed[n := 0]) && Filled(t, p.mem, r.mem, n, x) &&
             Undisturbed(t, p, r)
    ensures Shaped(t, r) && AllSourced(t, r)
  {
    hide WellFormed, Packed, Sourced, Filled, InRow;
    PackedShape(t, p);
    GotoNonzero(t, n);
    FilledAt(t, p.mem, r.mem, n, x);
    forall c | 0 <= c < |r.mem| && r.mem[c] != 0 ensures Sourced(t, r, c, r.mem[c]) {
      if p.mem[c] != 0 {
        PackedSource(t, p, c);
        SourceStays(t, p, r, n, x, c, p.mem[c]);
      } else {
        FillNew(t, r, n, x, c);
      }
    }
  }

  lemma FillNew(t: Tables, r: Packing, n: int, x: int, c: int)
    requires WellFormed(t) && Shaped(t, r) && PlacedNonterminal(r, n) && r.pgo[n] == x && 0 <= c < |r.mem| &&
             r.mem[c] != 0
    requires (c == x && r.mem[c] == t.deflt[n]) || InRow(r.mem, x + 1, t.gotos[n], c)
    ensures Sourced(t, r, c, r.mem[c])
  {
    hide WellFormed, Sourced;
    SourceGoto(t, r, n, c, r.mem[c]);
  }

  lemma FillStates(t: Tables, p: Packing, r: Packing, n: int, x: int)
    requires WellFormed(t) && Packed(t, p) && 1 <= n < |p.greed| && Shaped(t, r) && Undisturbed(t, p, r)
    requires r == p.(mem := r.mem, pgo := p.pgo[n := x], greed := p.greed[n := 0])
    requires RowAt(r, x + 1, t.gotos[n]) && Cell(r, x, t.deflt[n])
    ensures StatesAt(t, r) && NonterminalsAt(t, r) && Shared(t, r)
  {
    hide WellFormed, Packed, Undisturbed, SameRows, RowAt;
    PackedShape(t, p);
    forall j | PlacedState(r, j) ensures RowAt(r, r.indgo[j], t.shifts[j]) {
      StateUndisturbed(t, p, r, j);
    }
    forall m | PlacedNonterminal(r, m) ensures NonterminalAt(t, r, m) {
      if m != n {
        NonterminalUndisturbed(t, p, r, m);
      }
    }
    forall j, l | PlacedState(r, j) && PlacedState(r, l) && r.indgo[j] == r.indgo[l]
      ensures SameRows(t.shifts[j], t.shifts[l]) {
      SameRowsOf(t, p, j, l);
    }
  }

  /** A nonterminal's default and gotos written to free cells. */
  lemma PlaceNonterminal(t: Tables, p: Packing, r: Packing, n: int, x: int)
    requires WellFormed(t) && Packed(t, p) && 1 <= n < |p.greed| && n < |t.gotos| && n < |t.deflt| &&
             !PlacedNonterminal(p, n)
    requires Free(t, p, n, x) && Filled(t, p.mem, r.mem, n, x)
    requires r == p.(mem := r.mem, pgo := p.pgo[n := x], greed := p.greed[n := 0])
    ensures Packed(t, r)
  {
    assert RowAt(r, x + 1, t.gotos[n]) by {
      hide WellFormed, Packed, InRow;
    }
    hide WellFormed, Packed, Free, Filled, StatesAt, NonterminalsAt, AllSourced, Shared, Undisturbed, RowAt, InRow;
    PackedShape(t, p);
    GotoNonzero(t, n);
    FilledAt(t, p.mem, r.mem, n, x);
    FillUndisturbed(t, p, r, n, x);
    FillSources(t, p, r, n, x);
    assert 0 <= x < |p.mem| by { FilledRange(t, p.mem, r.mem, n, x); }
    FillStates(t, p, r, n, x);
    PackedOf(t, r);
  }

  lemma FilledRange(t: Tables, mem: seq<int>, mem': seq<int>, n: int, x: int)
    requires 1 <= n < |t.gotos| && n < |t.deflt| && Filled(t, mem, mem', n, x)
    ensures 0 <= x < |mem|
  {
  }
}
