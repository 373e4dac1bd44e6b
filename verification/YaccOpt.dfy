/** The optimizer's methods: stin, gin, nxti and the loop that calls them. */
module YaccOpt {
  import opened YaccTables
  import opened YaccPack

  function MaxKey(row: Row): int
  {
    if row == [] then 0 else
      var m := MaxKey(row[..|row| - 1]);
      if row[|row| - 1].0 > m then row[|row| - 1].0 else m
  }

  lemma {:induction false} MaxKeyNat(row: Row)
    ensures MaxKey(row) >= 0
  {
    if row != [] {
      MaxKeyNat(row[..|row| - 1]);
    }
  }

  /** The measure by which states are taken: zero only for a state with no shifts. */
  function StateMeasure(row: Row): int { 2 * |row| + 2 * MaxKey(row) }

  function NonterminalMeasure(row: Row): int { 1 + 2 * |row| + 2 * MaxKey(row) }

  function MinKey(row: Row): int
  {
    if row == [] then 32000 else
      var m := MinKey(row[..|row| - 1]);
      if row[|row| - 1].0 < m then row[|row| - 1].0 else m
  }

  function StateOff(rows: seq<Row>): nat
  {
    if rows == [] then 0 else
      var row, m := rows[|rows| - 1], StateOff(rows[..|rows| - 1]);
      if MinKey(row) <= MaxKey(row) && MinKey(row) > m then MinKey(row) else m
  }

  function GotoOff(rows: seq<Row>): nat
  {
    if |rows| <= 1 then 0 else
      var row, m := rows[|rows| - 1], GotoOff(rows[..|rows| - 1]);
      if MaxKey(row) > m then MaxKey(row) else m
  }

  /** How far below the start of the array a state may begin. */
  function MaxOff(t: Tables): nat
  {
    var a, b := StateOff(t.shifts), GotoOff(t.gotos);
    if a > b then a else b
  }

  /** What trying a row at an offset shows. */
  datatype Trial = Clash | Over | Room(free: bool)

  datatype Pick = NoMore | State(i: nat) | Nonterminal(n: nat)

  // ----- when there is a place ---------------------------------------------------------------

  /** Entry k of the row at offset x is past the end of the array, and the ones before it fit. */
  ghost predicate OverrunsAt(p: Packing, x: int, row: Row, k: int)
  {
    0 <= k < |row| && x + row[k].0 >= |p.mem| &&
    forall l :: 0 <= l < k ==> Cell(p, x + row[l].0, 0) || Cell(p, x + row[l].0, row[l].1)
  }

  ghost predicate Overruns(p: Packing, x: int, row: Row) { exists k :: OverrunsAt(p, x, row, k) }

  /** j is the first state at offset n. */
  ghost predicate FirstSeated(p: Packing, n: int, j: int)
  {
    0 <= j < |p.indgo| && p.indgo[j] == n && forall i :: 0 <= i < j ==> p.indgo[i] != n
  }

  ghost predicate Unseated(p: Packing, n: int) { forall j :: 0 <= j < |p.indgo| ==> p.indgo[j] != n }

  /** State i may go to offset n: it fits, and no state is there, or one with as many shifts while every
      cell already holds what it should. */
  ghost predicate Accepts(t: Tables, p: Packing, i: int, n: int)
    requires Shaped(t, p) && 0 <= i < |t.shifts|
  {
    var row := t.shifts[i];
    Fits(p, n, row) &&
    (Unseated(p, n) || (RowAt(p, n, row) && exists j :: FirstSeated(p, n, j) && |t.shifts[j]| == |row|))
  }

  /** The search for state i from offset lo comes to its end, or runs over the end of the array, without
      a place. */
  ghost predicate NoPlace(t: Tables, p: Packing, i: int, lo: int)
    requires Shaped(t, p) && 0 <= i < |t.shifts|
  {
    exists stop :: Refused(t, p, i, lo, stop) && (stop == ACTSIZE || Overruns(p, stop, t.shifts[i]))
  }

  /** No offset from lo up to stop takes state i. */
  ghost predicate Refused(t: Tables, p: Packing, i: int, lo: int, stop: int)
    requires Shaped(t, p) && 0 <= i < |t.shifts|
  {
    lo <= stop <= ACTSIZE && forall n :: lo <= n < stop ==> !Accepts(t, p, i, n) && !Overruns(p, n, t.shifts[i])
  }

  lemma RefusedNone(t: Tables, p: Packing, i: int, lo: int)
    requires Shaped(t, p) && 0 <= i < |t.shifts| && lo <= ACTSIZE
    ensures Refused(t, p, i, lo, lo)
  {
  }

  lemma NoPlaceHere(t: Tables, p: Packing, i: int, lo: int, stop: int)
    requires Shaped(t, p) && 0 <= i < |t.shifts| && Refused(t, p, i, lo, stop) &&
             (stop == ACTSIZE || Overruns(p, stop, t.shifts[i]))
    ensures NoPlace(t, p, i, lo)
  {
  }

  lemma NotAccepted(t: Tables, p: Packing, i: int, n: int)
    requires Shaped(t, p) && 0 <= i < |t.shifts| && !Fits(p, n, t.shifts[i])
    ensures !Accepts(t, p, i, n)
  {
  }

  /** Where a state fits, the first state there decides. */
  lemma AcceptsIs(t: Tables, p: Packing, i: int, n: int, j: nat)
    requires Shaped(t, p) && 0 <= i < |t.shifts| && Fits(p, n, t.shifts[i]) && j <= |p.indgo|
    requires (j < |p.indgo| ==> p.indgo[j] == n) && forall k :: 0 <= k < j ==> p.indgo[k] != n
    ensures Accepts(t, p, i, n) <==> j == |p.indgo| || (RowAt(p, n, t.shifts[i]) && |t.shifts[j]| == |t.shifts[i]|)
  {
    hide Fits, RowAt;
    if j < |p.indgo| {
      assert FirstSeated(p, n, j);
      assert forall k :: FirstSeated(p, n, k) ==> k == j;
    }
  }

  lemma RefusedNext(t: Tables, p: Packing, i: int, lo: int, n: int)
    requires Shaped(t, p) && 0 <= i < |t.shifts| && Refused(t, p, i, lo, n) && n < ACTSIZE && !Accepts(t, p, i, n) &&
             !Overruns(p, n, t.shifts[i])
    ensures Refused(t, p, i, lo, n + 1)
  {
    hide Accepts, Overruns;
  }

  lemma FitsWithin(p: Packing, x: int, row: Row)
    requires Fits(p, x, row)
    ensures !Overruns(p, x, row)
  {
    forall k ensures !OverrunsAt(p, x, row, k) {
      assert 0 <= k < |row| ==> Cell(p, x + row[k].0, 0) || Cell(p, x + row[k].0, row[k].1);
    }
  }

  /** An entry in the array that clashes, after entries that fit. */
  lemma ClashAt(p: Packing, x: int, row: Row, k: int)
    requires 0 <= k < |row| && x + row[k].0 < |p.mem| && !Cell(p, x + row[k].0, 0) && !Cell(p, x + row[k].0, row[k].1)
    requires forall l :: 0 <= l < k ==> Cell(p, x + row[l].0, 0) || Cell(p, x + row[l].0, row[l].1)
    ensures !Fits(p, x, row) && !Overruns(p, x, row)
  {
    forall m ensures !OverrunsAt(p, x, row, m) {
      assert 0 <= m < k ==> Cell(p, x + row[m].0, 0) || Cell(p, x + row[m].0, row[m].1);
    }
  }

  lemma AcceptedPlace(t: Tables, p: Packing, i: int, lo: int, n: int)
    requires Shaped(t, p) && 0 <= i < |t.shifts| && Refused(t, p, i, lo, n) && n < ACTSIZE && Accepts(t, p, i, n)
    ensures !NoPlace(t, p, i, lo)
  {
    FitsWithin(p, n, t.shifts[i]);
    hide Accepts, Overruns;
    forall stop | Refused(t, p, i, lo, stop) ensures stop != ACTSIZE && !Overruns(p, stop, t.shifts[i]) {
      assert stop <= n;
    }
  }

  /** Entry k of nonterminal n at x is past the end of the array, and the cells before it are free. */
  ghost predicate GotoOverrunsAt(t: Tables, p: Packing, n: int, x: int, k: int)
    requires 1 <= n < |t.gotos|
  {
    0 <= k < |t.gotos[n]| && x + 1 + t.gotos[n][k].0 >= |p.mem| &&
    forall l :: 0 <= l < k ==> Cell(p, x + 1 + t.gotos[n][l].0, 0)
  }

  ghost predicate GotoOverruns(t: Tables, p: Packing, n: int, x: int)
    requires 1 <= n < |t.gotos|
  {
    Cell(p, x, 0) && exists k :: GotoOverrunsAt(t, p, n, x, k)
  }

  ghost predicate GotoRefused(t: Tables, p: Packing, n: int, stop: int)
    requires 1 <= n < |t.gotos|
  {
    0 <= stop <= |p.mem| && forall x :: 0 <= x < stop ==> !Free(t, p, n, x) && !GotoOverruns(t, p, n, x)
  }

  ghost predicate NoGotoPlace(t: Tables, p: Packing, n: int)
    requires 1 <= n < |t.gotos|
  {
    exists stop :: GotoRefused(t, p, n, stop) && (stop == |p.mem| || GotoOverruns(t, p, n, stop))
  }

  lemma GotoRefusedNone(t: Tables, p: Packing, n: int)
    requires 1 <= n < |t.gotos|
    ensures GotoRefused(t, p, n, 0)
  {
  }

  lemma GotoRefusedNext(t: Tables, p: Packing, n: int, x: int)
    requires 1 <= n < |t.gotos| && GotoRefused(t, p, n, x) && x < |p.mem| && !Free(t, p, n, x) &&
             !GotoOverruns(t, p, n, x)
    ensures GotoRefused(t, p, n, x + 1)
  {
    hide Free, GotoOverruns;
  }

  lemma NoGotoHere(t: Tables, p: Packing, n: int, stop: int)
    requires 1 <= n < |t.gotos| && GotoRefused(t, p, n, stop) && (stop == |p.mem| || GotoOverruns(t, p, n, stop))
    ensures NoGotoPlace(t, p, n)
  {
  }

  lemma FreeWithin(t: Tables, p: Packing, n: int, x: int)
    requires 1 <= n < |t.gotos| && Free(t, p, n, x)
    ensures !GotoOverruns(t, p, n, x)
  {
    forall k ensures !GotoOverrunsAt(t, p, n, x, k) {
      assert 0 <= k < |t.gotos[n]| ==> Cell(p, x + 1 + t.gotos[n][k].0, 0);
    }
  }

  lemma GotoClash(t: Tables, p: Packing, n: int, x: int, k: int)
    requires 1 <= n < |t.gotos| && 0 <= k < |t.gotos[n]| && x + 1 + t.gotos[n][k].0 < |p.mem| &&
             !Cell(p, x + 1 + t.gotos[n][k].0, 0)
    requires forall l :: 0 <= l < k ==> Cell(p, x + 1 + t.gotos[n][l].0, 0)
    ensures !Free(t, p, n, x) && !GotoOverruns(t, p, n, x)
  {
    forall m ensures !GotoOverrunsAt(t, p, n, x, m) {
      assert 0 <= m < k ==> Cell(p, x + 1 + t.gotos[n][m].0, 0);
    }
  }

  lemma FreePlace(t: Tables, p: Packing, n: int, x: int)
    requires 1 <= n < |t.gotos| && GotoRefused(t, p, n, x) && x < |p.mem| && Free(t, p, n, x)
    ensures !NoGotoPlace(t, p, n)
  {
    FreeWithin(t, p, n, x);
    hide Free, GotoOverruns;
    forall stop | GotoRefused(t, p, n, stop) ensures stop != |p.mem| && !GotoOverruns(t, p, n, stop) {
      assert stop <= x;
    }
  }

  /** Something that waits has no place. */
  ghost predicate Blocked(t: Tables, p: Packing)
    requires Shaped(t, p)
  {
    (exists i :: 0 <= i < |t.shifts| && !PlacedState(p, i) && t.shifts[i] != [] && NoPlace(t, p, i, 0 - MaxOff(t))) ||
    (exists n :: 1 <= n < |t.gotos| && !PlacedNonterminal(p, n) && NoGotoPlace(t, p, n))
  }

  lemma BlockedState(t: Tables, p: Packing, i: nat)
    requires Shaped(t, p) && i < |t.shifts| && !PlacedState(p, i) && t.shifts[i] != [] &&
             NoPlace(t, p, i, 0 - MaxOff(t))
    ensures Blocked(t, p)
  {
  }

  lemma BlockedNonterminal(t: Tables, p: Packing, n: nat)
    requires Shaped(t, p) && 1 <= n < |t.gotos| && !PlacedNonterminal(p, n) && NoGotoPlace(t, p, n)
    ensures Blocked(t, p)
  {
  }

  class Optimizer {
    const t: Tables
    const maxoff: nat
    const amem: array<int>
    const indgo: array<int>
    const pgo: array<int>
    const tystate: array<int>
    const ggreed: array<int>

    ghost predicate Apart()
    {
      amem != indgo && amem != pgo && amem != tystate && amem != ggreed && indgo != pgo && indgo != tystate &&
      indgo != ggreed &&
      pgo != tystate && pgo != ggreed && tystate != ggreed
    }

    ghost function P(): Packing
      reads amem, indgo, pgo, ggreed
    {
      Packing(amem[..], indgo[..], pgo[..], ggreed[..])
    }

    /** A state waits for its place, has it, or needs none. */
    ghost predicate Taken(i: int)
      reads indgo, tystate
      requires 0 <= i < indgo.Length && i < tystate.Length && i < |t.shifts|
    {
      if tystate[i] == 0 then indgo[i] != YYFLAG1 <==> t.shifts[i] != []
      else indgo[i] == YYFLAG1 && t.shifts[i] != [] && tystate[i] > 0
    }

    ghost predicate Valid()
      reads amem, indgo, pgo, tystate, ggreed
    {
      Apart() && amem.Length == ACTSIZE && maxoff == MaxOff(t) && WellFormed(t) && Packed(t, P()) &&
      tystate.Length == indgo.Length == |t.shifts| && ggreed.Length == |t.gotos| &&
      (forall i :: 0 <= i < tystate.Length ==> Taken(i)) && (forall n :: 1 <= n < ggreed.Length ==> ggreed[n] >= 0)
    }

    /** Try the entries of a row at offset n. */
    method Try(row: Row, n: int) returns (r: Trial)
      requires forall k :: 0 <= k < |row| ==> row[k].1 != 0
      ensures (r.Room? <==> Fits(P(), n, row)) && (r.Over? <==> Overruns(P(), n, row))
      ensures r.Room? ==>
                (r.free <==> !RowAt(P(), n, row)) && forall k :: 0 <= k < |row| ==> 0 <= n + row[k].0 < amem.Length
    {
      ghost var p := P();
      var free := false;
      var k := 0;
      while k < |row|
        invariant 0 <= k <= |row|
        invariant forall l ::
                    0 <= l < k ==>
                      0 <= n + row[l].0 < amem.Length && (amem[n + row[l].0] == 0 || amem[n + row[l].0] == row[l].1)
        invariant !free ==> forall l :: 0 <= l < k ==> amem[n + row[l].0] == row[l].1
        invariant free ==> exists l :: 0 <= l < k && amem[n + row[l].0] == 0
      {
        var s := n + row[k].0;
        if s < 0 {
          ClashAt(p, n, row, k);
          return Clash;
        }
        if s >= amem.Length {
          assert OverrunsAt(p, n, row, k);
          return Over;
        }
        if amem[s] == 0 {
          free := true;
        } else if amem[s] != row[k].1 {
          ClashAt(p, n, row, k);
          return Clash;
        }
        k := k + 1;
      }
      FitsWithin(p, n, row);
      r := Room(free);
    }

    /** The first state at offset n, if any. */
    method Seated(n: int) returns (j: nat)
      ensures j <= indgo.Length && (j < indgo.Length ==> indgo[j] == n) && forall i :: 0 <= i < j ==> indgo[i] != n
    {
      j := 0;
      while j < indgo.Length && indgo[j] != n
        invariant j <= indgo.Length && forall i :: 0 <= i < j ==> indgo[i] != n
      {
        j := j + 1;
      }
    }

    /** Write a row at offset n. */
    method Write(row: Row, n: int)
      requires forall k :: 0 <= k < |row| ==> 0 <= n + row[k].0 < amem.Length
      requires forall k, l :: 0 <= k < l < |row| ==> row[k].0 < row[l].0
      modifies amem
      ensures Written(old(amem[..]), amem[..], n, row)
    {
      ghost var mem := amem[..];
      var k := 0;
      while k < |row|
        invariant 0 <= k <= |row|
        invariant forall l :: 0 <= l < k ==> amem[n + row[l].0] == row[l].1
        invariant forall c ::
                    0 <= c < |mem| ==> amem[c] == mem[c] || (exists l :: 0 <= l < k && row[l] == (c - n, amem[c]))
      {
        ghost var before := amem[..];
        amem[n + row[k].0] := row[k].1;
        forall c | 0 <= c < |mem|
          ensures amem[c] == mem[c] || (exists l :: 0 <= l < k + 1 && row[l] == (c - n, amem[c])) {
          if c == n + row[k].0 {
            assert row[k] == (c - n, amem[c]);
          } else {
            assert amem[c] == before[c];
          }
        }
        k := k + 1;
      }
      forall c | 0 <= c < |mem| ensures amem[c] == mem[c] || InRow(amem[..], n, row, c) {
      }
    }

    // ----- the start ---------------------------------------------------------------------

    constructor (tables: Tables)
      requires WellFormed(tables)
      ensures Valid() && t == tables && fresh(amem) && fresh(indgo) && fresh(pgo) && fresh(tystate) && fresh(ggreed)
    {
      t := tables;
      maxoff := MaxOff(tables);
      amem := new int[ACTSIZE](i => 0);
      indgo := new int[|tables.shifts|](i => YYFLAG1);
      pgo := new int[|tables.gotos|](i => 0);
      tystate := new int[|tables.shifts|](i requires 0 <= i < |tables.shifts| => StateMeasure(tables.shifts[i]));
      ggreed := new int[|tables.gotos|](i requires 0 <= i < |tables.gotos| => NonterminalMeasure(tables.gotos[i]));
      new;
      forall i | 0 <= i < tystate.Length ensures Taken(i) {
        MaxKeyNat(t.shifts[i]);
      }
      forall n | 1 <= n < ggreed.Length ensures ggreed[n] > 0 {
        MaxKeyNat(t.gotos[n]);
      }
    }

    // ----- states ------------------------------------------------------------------------

    /** Give state i offset n in the tables. */
    method Enter(i: nat, n: int)
      requires Apart() && i < indgo.Length && i < tystate.Length
      modifies indgo, tystate
      ensures indgo[..] == old(indgo[..])[i := n] && tystate[..] == old(tystate[..])[i := 0]
    {
      indgo[i] := n;
      tystate[i] := 0;
    }

    twostate predicate Others(i: int)
      reads indgo, tystate, ggreed
    {
      i < tystate.Length == indgo.Length && (0 <= i ==> tystate[i] == 0) &&
      (forall j :: 0 <= j < tystate.Length && j != i ==> tystate[j] == old(tystate[j]) && indgo[j] == old(indgo[j])) &&
      ggreed[..] == old(ggreed[..])
    }

    /** State i at an offset that is free for it. */
    method Seat(i: nat, n: int)
      requires Valid() && i < tystate.Length && tystate[i] > 0 && n != YYFLAG1 && Fits(P(), n, t.shifts[i])
      requires (forall k :: 0 <= k < |t.shifts[i]| ==> 0 <= n + t.shifts[i][k].0 < amem.Length) &&
               (forall j :: 0 <= j < indgo.Length ==> indgo[j] != n)
      modifies amem, indgo, tystate
      ensures Valid() && Others(i)
    {
      hide WellFormed, Packed, Fits, Written;
      ghost var p := P();
      assert !PlacedState(p, i) by { assert Taken(i); }
      ShiftNonzero(t, i);
      Write(t.shifts[i], n);
      Enter(i, n);
      PlaceState(t, p, P(), i, n);
      assert Packed(t, P());
      assert forall j ::
               0 <= j < tystate.Length && j != i ==> tystate[j] == old(tystate[j]) && indgo[j] == old(indgo[j]);
      forall j | 0 <= j < tystate.Length ensures Taken(j) {
        assert old(Taken(j));
      }
    }

    /** State i at the offset of state j, which shifts alike. */
    method Share(i: nat, j: nat)
      requires Valid() && i < tystate.Length && tystate[i] > 0 && j < indgo.Length && indgo[j] != YYFLAG1
      requires RowAt(P(), indgo[j], t.shifts[i]) && |t.shifts[i]| == |t.shifts[j]|
      modifies indgo, tystate
      ensures Valid() && Others(i)
    {
      hide WellFormed, Packed, RowAt;
      ghost var p := P();
      assert !PlacedState(p, i) by { assert Taken(i); }
      Enter(i, indgo[j]);
      ShareState(t, p, P(), i, j);
      assert Packed(t, P());
      assert forall k ::
               0 <= k < tystate.Length && k != i ==> tystate[k] == old(tystate[k]) && indgo[k] == old(indgo[k]);
      forall k | 0 <= k < tystate.Length ensures Taken(k) {
        assert old(Taken(k));
      }
    }

    lemma RowOffset(i: nat, n: int)
      requires Valid() && i < tystate.Length && tystate[i] > 0
      requires forall k :: 0 <= k < |t.shifts[i]| ==> 0 <= n + t.shifts[i][k].0
      ensures n != YYFLAG1
    {
      assert Taken(i);
      ShiftNonzero(t, i);
      assert t.shifts[i][0].0 < 1000;
    }

    /** stin: place state i, at its own offset or at that of a state that shifts alike. */
    method Stin(i: nat) returns (ok: bool)
      requires Valid() && i < tystate.Length && tystate[i] > 0
      modifies amem, indgo, tystate
      ensures ok ==> Valid() && Others(i)
      ensures Shaped(t, old(P())) && (ok <==> !NoPlace(t, old(P()), i, 0 - maxoff))
      ensures !ok ==> Valid() && P() == old(P()) && tystate[..] == old(tystate[..])
    {
      hide WellFormed, Packed, Fits, RowAt, Taken, Overruns, Accepts, Refused, NoPlace;
      ghost var p := P();
      PackedShape(t, p);
      ShiftNonzero(t, i);
      var n: int := 0 - maxoff;
      RefusedNone(t, p, i, n);
      while n < ACTSIZE
        invariant Valid() && P() == p && tystate[..] == old(tystate[..]) && n <= ACTSIZE &&
                  Refused(t, p, i, 0 - maxoff, n)
      {
        var r := Try(t.shifts[i], n);
        if r.Over? {
          NoPlaceHere(t, p, i, 0 - maxoff, n);
          return false;
        }
        if r.Room? {
          RowOffset(i, n);
          var j := Seated(n);
          AcceptsIs(t, p, i, n, j);
          if j == indgo.Length {
            AcceptedPlace(t, p, i, 0 - maxoff, n);
            Seat(i, n);
            return true;
          }
          if !r.free && |t.shifts[j]| == |t.shifts[i]| {
            AcceptedPlace(t, p, i, 0 - maxoff, n);
            Share(i, j);
            return true;
          }
        } else {
          NotAccepted(t, p, i, n);
        }
        RefusedNext(t, p, i, 0 - maxoff, n);
        n := n + 1;
      }
      NoPlaceHere(t, p, i, 0 - maxoff, n);
      ok := false;
    }

    // ----- nonterminals ------------------------------------------------------------------

    /** Is the place at x free for nonterminal n? */
    method TryGoto(n: nat, x: nat) returns (r: Trial)
      requires 1 <= n < |t.gotos| && x < amem.Length && forall k :: 0 <= k < |t.gotos[n]| ==> t.gotos[n][k].0 >= 0
      ensures (r.Room? <==> Free(t, P(), n, x)) && (r.Over? <==> GotoOverruns(t, P(), n, x))
      ensures r.Room? ==> forall k :: 0 <= k < |t.gotos[n]| ==> x + 1 + t.gotos[n][k].0 < amem.Length
    {
      ghost var p := P();
      if amem[x] != 0 {
        assert !Cell(p, x, 0);
        return Clash;
      }
      var row := t.gotos[n];
      var k := 0;
      while k < |row|
        invariant 0 <= k <= |row| &&
                  forall l :: 0 <= l < k ==> x + 1 + row[l].0 < amem.Length && amem[x + 1 + row[l].0] == 0
      {
        var s := x + 1 + row[k].0;
        if s >= amem.Length {
          assert GotoOverrunsAt(t, p, n, x, k);
          return Over;
        }
        if amem[s] != 0 {
          GotoClash(t, p, n, x, k);
          return Clash;
        }
        k := k + 1;
      }
      FreeWithin(t, p, n, x);
      r := Room(true);
    }

    method WriteGoto(n: nat, x: nat)
      requires Apart() && 1 <= n < |t.gotos| && n < |t.deflt| && n < pgo.Length && n < ggreed.Length &&
               x < amem.Length && GotoRow(t, n, t.gotos[n])
      requires forall k :: 0 <= k < |t.gotos[n]| ==> x + 1 + t.gotos[n][k].0 < amem.Length
      modifies amem, pgo, ggreed
      ensures Filled(t, old(amem[..]), amem[..], n, x)
      ensures pgo[..] == old(pgo[..])[n := x] && ggreed[..] == old(ggreed[..])[n := 0]
    {
      hide Written;
      amem[x] := t.deflt[n];
      assert amem[..] == old(amem[..])[x := t.deflt[n]];
      Write(t.gotos[n], x + 1);
      pgo[n] := x;
      ggreed[n] := 0;
    }

    /** gin: place nonterminal n. */
    method Gin(n: nat) returns (ok: bool)
      requires Valid() && 1 <= n < ggreed.Length && ggreed[n] > 0
      modifies amem, pgo, ggreed
      ensures ok ==> Valid() && ggreed[..] == old(ggreed[..])[n := 0]
      ensures ok <==> !NoGotoPlace(t, old(P()), n)
      ensures !ok ==> Valid() && P() == old(P())
    {
      ghost var p := P();
      PackedShape(t, p);
      GotoNonzero(t, n);
      hide WellFormed, Packed, Free, Taken, Filled, GotoOverruns, NoGotoPlace, GotoRefused;
      var x := 0;
      GotoRefusedNone(t, p, n);
      while x < amem.Length
        invariant Valid() && P() == p && x <= amem.Length && GotoRefused(t, p, n, x)
      {
        var r := TryGoto(n, x);
        if r.Over? {
          NoGotoHere(t, p, n, x);
          return false;
        }
        if r.Room? {
          FreePlace(t, p, n, x);
          WriteGoto(n, x);
          PlaceNonterminal(t, p, P(), n, x);
          return true;
        }
        GotoRefusedNext(t, p, n, x);
        x := x + 1;
      }
      NoGotoHere(t, p, n, x);
      ok := false;
    }

    // ----- all of them -------------------------------------------------------------------

    /** nxti: what has the largest measure, if any measure is left. */
    method Nxti() returns (r: Pick)
      requires ggreed.Length > 0 && (forall i :: 0 <= i < tystate.Length ==> tystate[i] >= 0) &&
               forall n :: 1 <= n < ggreed.Length ==> ggreed[n] >= 0
      ensures r.NoMore? ==>
                (forall i :: 0 <= i < tystate.Length ==> tystate[i] == 0) &&
                forall n :: 1 <= n < ggreed.Length ==> ggreed[n] == 0
      ensures r.State? ==> r.i < tystate.Length && tystate[r.i] > 0
      ensures r.Nonterminal? ==> 1 <= r.n < ggreed.Length && ggreed[r.n] > 0
    {
      var max := 0;
      r := NoMore;
      for n := 1 to ggreed.Length
        invariant max >= 0 && forall m :: 1 <= m < n && m < ggreed.Length ==> ggreed[m] <= max
        invariant max > 0 ==> r.Nonterminal? && 1 <= r.n < ggreed.Length && ggreed[r.n] == max
      {
        if ggreed[n] >= max {
          max := ggreed[n];
          r := Nonterminal(n);
        }
      }
      for i := 0 to tystate.Length
        invariant max >= 0 && (forall m :: 1 <= m < ggreed.Length ==> ggreed[m] <= max) &&
                  forall j :: 0 <= j < i ==> tystate[j] <= max
        invariant max > 0 && r.Nonterminal? ==> 1 <= r.n < ggreed.Length && ggreed[r.n] == max
        invariant max > 0 && r.State? ==> r.i < tystate.Length && tystate[r.i] == max
        invariant max > 0 ==> !r.NoMore?
      {
        if tystate[i] >= max {
          max := tystate[i];
          r := State(i);
        }
      }
      if max == 0 {
        r := NoMore;
      }
    }

    ghost function Waiting(): set<int>
      reads tystate, ggreed
    {
      (set i | 0 <= i < tystate.Length && tystate[i] > 0 :: i) + set n | 1 <= n < ggreed.Length && ggreed[n] > 0 :: -n
    }

    lemma MeasuresNat()
      requires Valid()
      ensures ggreed.Length > 0 && (forall i :: 0 <= i < tystate.Length ==> tystate[i] >= 0) &&
              forall n :: 1 <= n < ggreed.Length ==> ggreed[n] >= 0
    {
      forall i | 0 <= i < tystate.Length ensures tystate[i] >= 0 {
        assert Taken(i);
      }
    }

    /** Every state that shifts and every nonterminal has its place. */
    ghost predicate AllPlaced()
      reads amem, indgo, pgo, tystate, ggreed
      requires Valid()
    {
      (forall i :: 0 <= i < |t.shifts| ==> (t.shifts[i] != [] <==> PlacedState(P(), i))) &&
      (forall n :: 1 <= n < |t.gotos| ==> PlacedNonterminal(P(), n))
    }

    method PackOne(r: Pick) returns (ok: bool)
      requires Valid() && !r.NoMore? && (r.State? ==> r.i < tystate.Length && tystate[r.i] > 0) &&
               (r.Nonterminal? ==> 1 <= r.n < ggreed.Length && ggreed[r.n] > 0)
      modifies amem, indgo, pgo, tystate, ggreed
      ensures ok ==> Valid() && Waiting() < old(Waiting())
      ensures !ok ==> Valid() && Shaped(t, P()) && Blocked(t, P())
    {
      hide WellFormed, Packed, Taken, NoPlace, NoGotoPlace, Blocked;
      PackedShape(t, P());
      if r.State? {
        WaitingState(r.i);
        ok := Stin(r.i);
        if ok {
          assert r.i in old(Waiting()) && r.i !in Waiting();
        } else {
          BlockedState(t, P(), r.i);
        }
      } else {
        ok := Gin(r.n);
        if ok {
          var x: int := -(r.n as int);
          assert x in old(Waiting()) && x !in Waiting();
        } else {
          BlockedNonterminal(t, P(), r.n);
        }
      }
    }

    lemma WaitingState(i: nat)
      requires Valid() && i < tystate.Length && tystate[i] > 0
      ensures !PlacedState(P(), i) && t.shifts[i] != []
    {
      assert Taken(i);
    }

    /** Place them all, the largest first. If there is room, nothing the tables say is lost. */
    method Pack() returns (ok: bool)
      requires Valid()
      modifies amem, indgo, pgo, tystate, ggreed
      ensures ok ==> Valid() && AllPlaced()
      ensures !ok ==> Valid() && Shaped(t, P()) && Blocked(t, P())
    {
      hide WellFormed, Packed, Blocked;
      ok := true;
      while ok
        invariant Valid()
        decreases Waiting(), ok
      {
        MeasuresNat();
        var r := Nxti();
        if r.NoMore? {
          forall i | 0 <= i < |t.shifts| ensures t.shifts[i] != [] <==> PlacedState(P(), i) {
            assert Taken(i);
          }
          PackedShape(t, P());
          return true;
        }
        ok := PackOne(r);
        if !ok {
          return false;
        }
      }
    }
  }

  // ----- the result ----------------------------------------------------------------------

  /** The packed tables give back every shift, and nothing that is not one. */
  ghost predicate ShiftsAgree(t: Tables, p: Packing)
  {
    |p.indgo| == |t.shifts| &&
    forall i, x, v {:trigger ReadShift(t, p, i, x), (x, v) in t.shifts[i]} ::
      0 <= i < |t.shifts| && 0 < x < 1000 && v != 0 ==>
      (ReadShift(t, p, i, x) == v <==> (x, v) in t.shifts[i])
  }

  /** The packed tables give back every goto, and the default where none is listed. */
  ghost predicate GotosAgree(t: Tables, p: Packing)
  {
    |p.pgo| == |t.gotos| == |t.deflt| &&
    forall n, s {:trigger ReadGoto(t, p, n, s)} :: 1 <= n < |t.gotos| && s >= 0 && t.deflt[n] != 0 ==>
      (forall v :: (s, v) in t.gotos[n] ==> ReadGoto(t, p, n, s) == v) &&
      ((forall v :: (s, v) !in t.gotos[n]) ==> ReadGoto(t, p, n, s) == t.deflt[n])
  }

  lemma ShiftsOf(t: Tables, p: Packing)
    requires WellFormed(t) && Packed(t, p) && forall i :: 0 <= i < |t.shifts| ==> t.shifts[i] == [] || PlacedState(p, i)
    requires forall i :: 0 <= i < |t.shifts| && t.shifts[i] == [] ==> !PlacedState(p, i)
    ensures ShiftsAgree(t, p)
  {
    hide WellFormed, Packed;
    PackedShape(t, p);
    forall i, x, v | 0 <= i < |t.shifts| && 0 < x < 1000 && v != 0
      ensures ReadShift(t, p, i, x) == v <==> (x, v) in t.shifts[i] {
      if t.shifts[i] == [] {
        NoShifts(t, p, i, x);
      } else {
        ShiftsKept(t, p, i, x, v);
      }
    }
  }

  lemma GotosOf(t: Tables, p: Packing)
    requires WellFormed(t) && Packed(t, p) && forall n :: 1 <= n < |t.gotos| ==> PlacedNonterminal(p, n)
    ensures GotosAgree(t, p)
  {
    hide WellFormed, Packed;
    PackedShape(t, p);
    forall n, s | 1 <= n < |t.gotos| && s >= 0 && t.deflt[n] != 0
      ensures forall v :: (s, v) in t.gotos[n] ==> ReadGoto(t, p, n, s) == v
      ensures (forall v :: (s, v) !in t.gotos[n]) ==> ReadGoto(t, p, n, s) == t.deflt[n]
    {
      forall v ensures (s, v) in t.gotos[n] ==> ReadGoto(t, p, n, s) == v {
        GotosKept(t, p, n, s, v);
      }
      GotosKept(t, p, n, s, 0);
    }
  }

  /** The finished packing, or the one at which something had no place. */
  datatype Result = NoRoom(p: Packing) | Done(p: Packing)

  /** callopt: pack the tables into one array, from which the parser reads the same actions. */
  method Callopt(t: Tables) returns (r: Result)
    requires WellFormed(t)
    ensures r.Done? ==> ShiftsAgree(t, r.p) && GotosAgree(t, r.p)
    ensures r.NoRoom? ==> Packed(t, r.p) && Blocked(t, r.p)
  {
    hide WellFormed, Packed, ShiftsAgree, GotosAgree, Blocked;
    var o := new Optimizer(t);
    var ok := o.Pack();
    ghost var p := o.P();
    if !ok {
      return NoRoom(Packing(o.amem[..], o.indgo[..], o.pgo[..], o.ggreed[..]));
    }
    PackedShape(t, p);
    ShiftsOf(t, p);
    GotosOf(t, p);
    r := Done(Packing(o.amem[..], o.indgo[..], o.pgo[..], o.ggreed[..]));
  }
}
