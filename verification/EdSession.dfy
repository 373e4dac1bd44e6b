/** ed's line store through any number of calls, against a plain map from addresses to texts. */
module EdSession {
  import opened EdStore

  datatype Op = Put(line: seq<Rune>) | Get(a: nat)

  datatype Reply = Address(a: nat) | Text(t: seq<Rune>) | Full

  /** The store as a map from addresses to texts, the next address, and the blocks in the two buffers,
      which depend on the calls alone. */
  datatype Plain = Plain(text: map<nat, seq<Rune>>, next: nat, iblock: int, oblock: int)

  predicate Fits(m: Plain, line: seq<Rune>) { (m.next + |TextOf(line)|) / BLK < NBLK }

  function Do(m: Plain, op: Op): (Plain, Reply)
  {
    match op
    case Put(line) =>
      var t := TextOf(line);
      var m' := m.(oblock := OutAfter(m.iblock, m.oblock, m.next, |t|));
      if Fits(m, line) then (m'.(text := m.text[m.next := t], next := m.next + Masked(|t| + 4)), Address(m.next))
      else (m', Full)
    case Get(a) =>
      if a !in m.text then (m, Full)
      else (m.(iblock := InBlock(m.iblock, m.oblock, a / BLK, (a + |m.text[a]|) / BLK)), Text(m.text[a]))
  }

  /** The map after the operations, and the replies it gives. */
  function Replay(ops: seq<Op>): (Plain, seq<Reply>)
  {
    if ops == [] then (Plain(map[], 2, -1, -1), []) else
      var (m, rs) := Replay(ops[..|ops| - 1]);
      var (m', r) := Do(m, ops[|ops| - 1]);
      (m', rs + [r])
  }

  /** Lines end, and are read only at addresses that were given out. */
  ghost predicate Asked(m: Plain, op: Op)
  {
    match op
    case Put(line) => Ended(line) && |line| <= LBSIZE
    case Get(a) => a in m.text
  }

  /** Some stored line ends in block b. */
  ghost predicate EndsIn(m: Plain, b: nat) { exists a :: a in m.text && (a + |m.text[a]|) / BLK == b }

  /** A put is safe when one of the buffers holds the block it begins in, or no line ends there. */
  ghost predicate Safe(m: Plain, op: Op)
  {
    op.Put? ==> var b := m.next / BLK; b >= NBLK || b == m.iblock || b == m.oblock || !EndsIn(m, b)
  }

  ghost predicate AllAsked(ops: seq<Op>) { forall k :: 0 <= k < |ops| ==> Asked(Replay(ops[..k]).0, ops[k]) }

  ghost predicate AllSafe(ops: seq<Op>) { forall k :: 0 <= k < |ops| ==> Safe(Replay(ops[..k]).0, ops[k]) }

  // ----- what holds as long as every put is safe ------------------------------------------------

  /** All texts are in the store, below the place where the next will go. */
  ghost predicate Stored(mem: seq<Block>, m: Plain)
  {
    forall a :: a in m.text ==> StoredAt(mem, a, m.text[a]) && a + |m.text[a]| < m.next && a % 2 == 0
  }

  /** A line that ends in the block of the next address is in the output buffer, or that buffer has
      gone on to the last block and is full of the text of a line that did not fit. */
  ghost predicate Ahead(m: Plain, out: Block)
  {
    var b := m.next / BLK;
    EndsIn(m, b) ==> m.oblock == b || (m.oblock == NBLK - 1 > b && NonZero(out))
  }

  /** The input block has been read for a line that ends there or later. */
  ghost predicate Behind(m: Plain)
  {
    m.iblock <= m.next / BLK && (m.iblock == m.next / BLK ==> EndsIn(m, m.next / BLK))
  }

  /** Every line ends below the next address. */
  ghost predicate Ordered(m: Plain) { forall a :: a in m.text ==> a + |m.text[a]| < m.next }

  lemma EndBlock(m: Plain, a: nat)
    requires Ordered(m) && a in m.text
    ensures a / BLK <= (a + |m.text[a]|) / BLK <= m.next / BLK
  {
  }

  /** A line that ends before the lost block, or while none is lost, stays. */
  lemma LineStays(mem: seq<Block>, mem': seq<Block>, next: nat, lost: int, stale: Block, a: nat, t: seq<Rune>)
    requires Kept(mem, mem', next, lost, stale) && StoredAt(mem, a, t) && a + |t| < next
    requires lost < 0 || (a + |t|) / BLK < lost
    ensures StoredAt(mem', a, t)
  {
    forall p: nat | a <= p <= a + |t| ensures At(mem', p) == At(mem, p) {
      assert p / BLK <= (a + |t|) / BLK;
    }
  }

  lemma LinesStay(mem: seq<Block>, mem': seq<Block>, m: Plain, stale: Block, line: seq<Rune>)
    requires Stored(mem, m) && Safe(m, Put(line)) && Kept(mem, mem', m.next, Lost(m.iblock, m.oblock, m.next), stale)
    ensures Stored(mem', m)
  {
    hide StoredAt, Kept, TextOf;
    forall a | a in m.text ensures StoredAt(mem', a, m.text[a]) {
      EndBlock(m, a);
      assert (a + |m.text[a]|) / BLK == m.next / BLK ==> EndsIn(m, m.next / BLK);
      LineStays(mem, mem', m.next, Lost(m.iblock, m.oblock, m.next), stale, a, m.text[a]);
    }
  }

  lemma StoredMore(mem: seq<Block>, m: Plain, t: seq<Rune>, next: nat, o: int)
    requires Stored(mem, m) && StoredAt(mem, m.next, t) && m.next + |t| < next && m.next % 2 == 0
    ensures Stored(mem, m.(text := m.text[m.next := t], next := next, oblock := o))
  {
  }

  // ----- a put ------------------------------------------------------------------------------------

  lemma PutBehind(m: Plain, t: seq<Rune>)
    requires Behind(m) && Ordered(m) && |t| <= LBSIZE - 1
    ensures var m' := m.(text := m.text[m.next := t], next := m.next + Masked(|t| + 4)); Behind(m')
  {
    MaskedEven(|t| + 1);
    var m' := m.(text := m.text[m.next := t], next := m.next + Masked(|t| + 4));
    if m.iblock == m'.next / BLK {
      assert (m.next + |t|) / BLK == m'.next / BLK;
      assert m.next in m'.text && m'.text[m.next] == t;
    }
  }

  lemma PutAhead(m: Plain, line: seq<Rune>, out: Block, out': Block)
    requires Behind(m) && Ordered(m) && Ahead(m, out) && Fits(m, line) && |TextOf(line)| <= LBSIZE - 1
    requires m.next / BLK == m.iblock == (m.next + |TextOf(line)|) / BLK ==> out' == out
    ensures Ahead(Do(m, Put(line)).0, out')
  {
    hide TextOf, StoredAt, NonZero;
    var t := TextOf(line);
    MaskedEven(|t| + 1);
    var m' := Do(m, Put(line)).0;
    var b := m'.next / BLK;
    assert m.next in m'.text && m'.text[m.next] == t;
    if EndsIn(m', b) {
      var a: nat :| a in m'.text && (a + |m'.text[a]|) / BLK == b;
      assert a != m.next ==> a in m.text && m'.text[a] == m.text[a] && a + |m.text[a]| < m.next;
      assert (m.next + |t|) / BLK == b;
    }
  }

  lemma FailAhead(m: Plain, line: seq<Rune>, out: Block, out': Block)
    requires Behind(m) && Ahead(m, out) && !Fits(m, line) && Safe(m, Put(line))
    requires m.next / BLK < NBLK - 1 ==> NonZero(out')
    ensures Ahead(Do(m, Put(line)).0, out')
  {
    hide TextOf, StoredAt, NonZero;
    var m' := Do(m, Put(line)).0;
    var b := m.next / BLK;
    assert EndsIn(m', b) <==> EndsIn(m, b);
  }

  // ----- a get --------------------------------------------------------------------------------------

  lemma GetBehind(m: Plain, a: nat)
    requires Behind(m) && Ordered(m) && a in m.text
    ensures Behind(Do(m, Get(a)).0)
  {
    EndBlock(m, a);
    var m' := Do(m, Get(a)).0;
    if m'.iblock == m.next / BLK && m'.iblock != m.iblock {
      assert (a + |m.text[a]|) / BLK == m.next / BLK;
    }
    assert EndsIn(m', m.next / BLK) <==> EndsIn(m, m.next / BLK);
  }

  lemma GetAhead(m: Plain, a: nat, out: Block)
    requires Ahead(m, out) && a in m.text
    ensures Ahead(Do(m, Get(a)).0, out)
  {
    var m' := Do(m, Get(a)).0;
    assert EndsIn(m', m.next / BLK) <==> EndsIn(m, m.next / BLK);
  }

  // ----- sessions -------------------------------------------------------------------------------------

  /** The store stands as the map says. */
  ghost predicate Agrees(s: Store, m: Plain)
    reads s, s.ibuff, s.obuff
  {
    s.Valid() && m.next == s.tline && m.iblock == s.iblock && m.oblock == s.oblock &&
    Stored(s.Mem(), m) && Behind(m) && Ahead(m, s.obuff[..])
  }

  /** One call of putline, and the map's answer. */
  method PutOne(s: Store, ghost m: Plain, line: seq<Rune>) returns (r: Reply)
    requires Agrees(s, m) && Asked(m, Put(line)) && Safe(m, Put(line))
    modifies s, s.ibuff, s.obuff
    ensures Agrees(s, Do(m, Put(line)).0) && r == Do(m, Put(line)).1
  {
    hide Stored, Ordered, StoredAt, Ended, TextOf, Masked, Kept, Ahead, Behind, NonZero, Safe, OutAfter, Lost;
    ghost var mem, out := s.Mem(), s.obuff[..];
    EndedText(line);
    StoredOrdered(mem, m);
    var a, ok := s.PutLine(line);
    LinesStay(mem, s.Mem(), m, out, line);
    if ok {
      PutBehind(m, TextOf(line));
      PutAhead(m, line, out, s.obuff[..]);
      StoredMore(s.Mem(), m, TextOf(line), s.tline, s.oblock);
      BehindOut(m.(text := m.text[m.next := TextOf(line)], next := s.tline), s.oblock);
      r := Address(a);
    } else {
      FailAhead(m, line, out, s.obuff[..]);
      StoredOut(s.Mem(), m, s.oblock);
      BehindOut(m, s.oblock);
      r := Full;
    }
  }

  lemma StoredOrdered(mem: seq<Block>, m: Plain)
    requires Stored(mem, m)
    ensures Ordered(m)
  {
  }

  lemma StoredOut(mem: seq<Block>, m: Plain, o: int)
    requires Stored(mem, m)
    ensures Stored(mem, m.(oblock := o))
  {
  }

  lemma BehindOut(m: Plain, o: int)
    requires Behind(m)
    ensures Behind(m.(oblock := o))
  {
    assert EndsIn(m.(oblock := o), m.next / BLK) <==> EndsIn(m, m.next / BLK);
  }

  /** One call of getline, and the map's answer. */
  method GetOne(s: Store, ghost m: Plain, a: nat) returns (r: Reply)
    requires Agrees(s, m) && Asked(m, Get(a))
    modifies s, s.ibuff
    ensures Agrees(s, Do(m, Get(a)).0) && r == Do(m, Get(a)).1
  {
    hide StoredAt, Ahead, NonZero, InBlock;
    StoredOrdered(s.Mem(), m);
    ghost var mem, t := s.Mem(), m.text[a];
    assert StoredAt(mem, a, t);
    var line, ok := s.GetLine(a);
    StoredOnce(mem, a, line, t);
    GetBehind(m, a);
    GetAhead(m, a, s.obuff[..]);
    s.TopBlocks();
    r := Text(line);
  }

  /** Through any number of calls, puts that fail among them, the store answers as the map does, as long as
      every put is safe. */
  method Run(ops: seq<Op>) returns (s: Store, replies: seq<Reply>)
    requires AllAsked(ops) && AllSafe(ops)
    ensures fresh(s) && fresh(s.ibuff) && fresh(s.obuff) && replies == Replay(ops).1 && Agrees(s, Replay(ops).0)
  {
    hide Replay, Agrees, Asked, Safe, Do;
    s := new Store();
    replies := [];
    ReplayNone();
    AgreesNone(s);
    assert ops[..0] == [];
    var k := 0;
    while k < |ops|
      invariant 0 <= k <= |ops| && fresh(s) && fresh(s.ibuff) && fresh(s.obuff)
      invariant replies == Replay(ops[..k]).1 && Agrees(s, Replay(ops[..k]).0)
    {
      ReplayNext(ops, k);
      ghost var m := Replay(ops[..k]).0;
      assert Asked(m, ops[k]) && Safe(m, ops[k]);
      var r;
      match ops[k] {
        case Put(line) => r := PutOne(s, m, line);
        case Get(a) => r := GetOne(s, m, a);
      }
      replies := replies + [r];
      k := k + 1;
    }
    assert ops[..k] == ops;
  }

  lemma AgreesNone(s: Store)
    requires s.Valid() && s.Mem() == [] && s.tline == 2 && s.iblock == -1 && s.oblock == -1
    ensures Agrees(s, Plain(map[], 2, -1, -1))
  {
  }

  method Session(ops: seq<Op>) returns (replies: seq<Reply>)
    requires AllAsked(ops) && AllSafe(ops)
    ensures replies == Replay(ops).1
  {
    var s;
    s, replies := Run(ops);
  }

  lemma ReplayNone()
    ensures Replay([]) == (Plain(map[], 2, -1, -1), [])
  {
  }

  lemma ReplayNext(ops: seq<Op>, k: nat)
    requires k < |ops|
    ensures var (m, rs) := Replay(ops[..k]); Replay(ops[..k + 1]) == (Do(m, ops[k]).0, rs + [Do(m, ops[k]).1])
  {
    assert ops[..k + 1][..k] == ops[..k];
  }

  // ----- and only as long -----------------------------------------------------------------------------

  /** A put that is not safe, whether or not it fits, loses every line that ends in the block it begins
      in: getline does not return its text any more. */
  method LostLine(ops: seq<Op>, line: seq<Rune>, a: nat) returns (r: Reply)
    requires AllAsked(ops) && AllSafe(ops) && Ended(line) && |line| <= LBSIZE
    requires var m := Replay(ops).0; !Safe(m, Put(line)) && a in m.text && (a + |m.text[a]|) / BLK == m.next / BLK
    ensures r != Text(Replay(ops).0.text[a])
  {
    hide Replay, Kept, StoredAt, TextOf, Masked;
    ghost var m := Replay(ops).0;
    var s, replies := Run(ops);
    ghost var mem, out := s.Mem(), s.obuff[..];
    assert EndsIn(m, m.next / BLK);
    var b, ok := s.PutLine(line);
    LineGone(mem, s.Mem(), m.next, out, a, m.text[a]);
    var t, there := s.GetLine(a);
    r := if there then Text(t) else Full;
  }

  lemma LineGone(mem: seq<Block>, mem': seq<Block>, next: nat, stale: Block, a: nat, t: seq<Rune>)
    requires Kept(mem, mem', next, next / BLK, stale) && NonZero(stale) && a + |t| < next &&
             (a + |t|) / BLK == next / BLK
    ensures !StoredAt(mem', a, t)
  {
    assert At(mem', a + |t|) == stale[(a + |t|) % BLK];
  }

  // ----- puts that fit are safe ------------------------------------------------------------------------

  ghost predicate AllFit(ops: seq<Op>)
  {
    forall k :: 0 <= k < |ops| && ops[k].Put? ==> Fits(Replay(ops[..k]).0, ops[k].line)
  }

  ghost predicate InStep(m: Plain) { Ordered(m) && Behind(m) && (EndsIn(m, m.next / BLK) ==> m.oblock == m.next / BLK) }

  lemma InStepNext(m: Plain, op: Op)
    requires InStep(m) && Asked(m, op) && (op.Put? ==> Fits(m, op.line))
    ensures Safe(m, op) && InStep(Do(m, op).0)
  {
    hide TextOf, NonZero, Masked, Ended, InBlock;
    match op {
      case Put(line) =>
        var t := TextOf(line);
        EndedText(line);
        MaskedEven(|t| + 1);
        PutBehind(m, t);
        BehindOut(m.(text := m.text[m.next := t], next := m.next + Masked(|t| + 4)),
          OutAfter(m.iblock, m.oblock, m.next, |t|));
        var none: Block := [];
        PutAhead(m, line, none, none);
        InStepPut(m, line);
      case Get(a) =>
        GetBehind(m, a);
        var none: Block := [];
        GetAhead(m, a, none);
        assert EndsIn(Do(m, op).0, m.next / BLK) <==> EndsIn(m, m.next / BLK);
    }
  }

  lemma InStepPut(m: Plain, line: seq<Rune>)
    requires InStep(m) && Asked(m, Put(line)) && Fits(m, line)
    ensures var m' := Do(m, Put(line)).0; EndsIn(m', m'.next / BLK) ==> m'.oblock == m'.next / BLK
  {
    hide TextOf, Ended;
    var t := TextOf(line);
    EndedText(line);
    MaskedEven(|t| + 1);
    var m' := Do(m, Put(line)).0;
    var b := m'.next / BLK;
    if EndsIn(m', b) {
      var a: nat :| a in m'.text && (a + |m'.text[a]|) / BLK == b;
      assert a != m.next ==> a in m.text && m'.text[a] == m.text[a] && a + |m.text[a]| < m.next;
      assert (m.next + |t|) / BLK == b;
    }
  }

  lemma {:induction false} FitsStep(ops: seq<Op>)
    requires AllAsked(ops) && AllFit(ops)
    ensures InStep(Replay(ops).0) && AllSafe(ops)
  {
    hide Replay, InStep, Asked, Safe, Do, Fits;
    if ops == [] {
      ReplayNone();
      InStepNone();
    } else {
      var n := |ops| - 1;
      FitsPrefix(ops);
      FitsStep(ops[..n]);
      InStepNext(Replay(ops[..n]).0, ops[n]);
      ReplayNext(ops, n);
      assert ops[..n + 1] == ops;
      forall k | 0 <= k < |ops| ensures Safe(Replay(ops[..k]).0, ops[k]) {
        assert ops[..n][..k] == ops[..k] || k == n;
        assert k < n ==> Safe(Replay(ops[..n][..k]).0, ops[..n][k]);
      }
    }
  }

  lemma InStepNone()
    ensures InStep(Plain(map[], 2, -1, -1))
  {
  }

  lemma FitsPrefix(ops: seq<Op>)
    requires AllAsked(ops) && AllFit(ops) && ops != []
    ensures var n := |ops| - 1;
            AllAsked(ops[..n]) && AllFit(ops[..n]) && Asked(Replay(ops[..n]).0, ops[n]) &&
            (ops[n].Put? ==> Fits(Replay(ops[..n]).0, ops[n].line))
  {
    hide Replay, Asked, Fits;
    var n := |ops| - 1;
    forall k | 0 <= k < n ensures ops[..n][..k] == ops[..k] {
    }
  }

  /** Sessions in which every line fits on the file are safe. */
  lemma FitsSafe(ops: seq<Op>)
    requires AllAsked(ops) && AllFit(ops)
    ensures AllSafe(ops)
  {
    FitsStep(ops);
  }

  // ----- a session that loses a line ---------------------------------------------------------------------

  function Letters(n: nat): (t: seq<Rune>)
    ensures |t| == n && forall i :: 0 <= i < n ==> t[i] == 97
  {
    seq(n, i => 97)
  }

  function LineOf(n: nat): seq<Rune> { Letters(n) + [NEWLINE] }

  lemma {:induction false} TextAtLeast(line: seq<Rune>, n: nat)
    requires n <= |line| && forall i :: 0 <= i < n ==> line[i] != 0 && line[i] != NEWLINE
    ensures |TextOf(line)| >= n
  {
    if n > 0 {
      TextAtLeast(line[1..], n - 1);
    }
  }

  lemma LineText(n: nat)
    ensures TextOf(LineOf(n)) == Letters(n) && Ended(LineOf(n)) && |LineOf(n)| == n + 1
  {
    var line := LineOf(n);
    assert line[n] == NEWLINE;
    TextAtLeast(line, n);
    InText(line, n);
  }

  /** k lines of four blocks each. */
  function Fill(k: nat): seq<Op>
  {
    if k == 0 then [] else Fill(k - 1) + [Put(LineOf(4092))]
  }

  /** The state after the operations and one more. */
  lemma ReplaySnoc(ops: seq<Op>, op: Op)
    ensures Replay(ops + [op]) == (Do(Replay(ops).0, op).0, Replay(ops).1 + [Do(Replay(ops).0, op).1])
  {
    assert (ops + [op])[..|ops|] == ops;
  }

  ghost predicate Fine(ops: seq<Op>) { AllAsked(ops) && AllSafe(ops) }

  lemma FineSnoc(ops: seq<Op>, op: Op)
    requires Fine(ops) && Asked(Replay(ops).0, op) && Safe(Replay(ops).0, op)
    ensures Fine(ops + [op])
  {
    hide Replay, Asked, Safe;
    var all := ops + [op];
    forall k | 0 <= k < |all| ensures Asked(Replay(all[..k]).0, all[k]) && Safe(Replay(all[..k]).0, all[k]) {
      if k < |ops| {
        assert all[..k] == ops[..k] && all[k] == ops[k];
      } else {
        assert all[..k] == ops;
      }
    }
  }

  ghost predicate Filled(m: Plain, k: nat)
  {
    m.next == 2 + 4096 * k && m.iblock == -1 && m.oblock == 4 * k - 1 &&
    forall a :: a in m.text ==> (a + |m.text[a]|) / BLK < 4 * k
  }

  lemma {:induction false} FillState(k: nat)
    requires k <= 8191
    ensures Fine(Fill(k)) && Filled(Replay(Fill(k)).0, k)
  {
    hide Replay, Fine;
    if k == 0 {
      ReplayNone();
      FineNone();
    } else {
      FillState(k - 1);
      var m := Replay(Fill(k - 1)).0;
      LineText(4092);
      hide TextOf, Ended, LineOf;
      FillNext(m, k - 1);
      FineSnoc(Fill(k - 1), Put(LineOf(4092)));
      ReplaySnoc(Fill(k - 1), Put(LineOf(4092)));
    }
  }

  lemma FineNone()
    ensures Fine([])
  {
  }

  lemma Masks()
    ensures Masked(4096) == 4096 && Masked(104) == 104
  {
  }

  /** What a put of n letters does when its first and last block are b and e. */
  lemma PutLetters(m: Plain, n: nat, b: nat, e: nat)
    requires n <= 4092 && m.next / BLK == b < NBLK && (m.next + n) / BLK == e && m.iblock == -1
    ensures var op := Put(LineOf(n)); Asked(m, op) && (b == m.oblock || !EndsIn(m, b) ==> Safe(m, op))
    ensures var m' := Do(m, Put(LineOf(n))).0; m'.iblock == -1 && m'.oblock == if e >= NBLK then NBLK - 1 else e
    ensures e < NBLK ==>
              Do(m, Put(LineOf(n))).0.text == m.text[m.next := Letters(n)] &&
              Do(m, Put(LineOf(n))).0.next == m.next + Masked(n + 4)
    ensures e >= NBLK ==> Do(m, Put(LineOf(n))).0.text == m.text && Do(m, Put(LineOf(n))).0.next == m.next
  {
    hide TextOf, Ended, LineOf, Masked, EndsIn;
    LineText(n);
    assert b <= e;
  }

  lemma FillNext(m: Plain, k: nat)
    requires Filled(m, k) && k < 8191
    ensures var op := Put(LineOf(4092)); Asked(m, op) && Safe(m, op) && Filled(Do(m, op).0, k + 1)
  {
    hide Do, Asked, LineOf, Masked, Letters, Safe;
    assert m.next / BLK == 4 * k && (m.next + 4092) / BLK == 4 * k + 3;
    PutLetters(m, 4092, 4 * k, 4 * k + 3);
    Masks();
  }

  /** A full file but for three blocks, a short line, and a line that does not fit: the next put is not
      safe, and the short line is lost. */
  lemma LossySession() returns (ops: seq<Op>, a: nat)
    ensures AllAsked(ops) && AllSafe(ops) && !Safe(Replay(ops).0, Put(LineOf(1))) && Ended(LineOf(1)) &&
            |LineOf(1)| <= LBSIZE
    ensures var m := Replay(ops).0; a in m.text && (a + |m.text[a]|) / BLK == m.next / BLK
  {
    hide Replay, Fine;
    FillState(8191);
    var o0 := Fill(8191);
    var m0 := Replay(o0).0;
    ShortNext(m0);
    var m1 := Do(m0, Put(LineOf(100))).0;
    FineSnoc(o0, Put(LineOf(100)));
    ReplaySnoc(o0, Put(LineOf(100)));
    var o1 := o0 + [Put(LineOf(100))];
    LongNext(m1, m0.next);
    FineSnoc(o1, Put(LineOf(3072)));
    ReplaySnoc(o1, Put(LineOf(3072)));
    ops, a := o1 + [Put(LineOf(3072))], m0.next;
    LineText(1);
    FineParts(ops);
  }

  lemma FineParts(ops: seq<Op>)
    requires Fine(ops)
    ensures AllAsked(ops) && AllSafe(ops)
  {
  }

  ghost predicate Short(m: Plain, a: nat)
  {
    a == 2 + 4096 * 8191 && m.next == a + 104 && m.iblock == -1 && a in m.text && |m.text[a]| == 100
  }

  lemma ShortNext(m: Plain)
    requires Filled(m, 8191)
    ensures var op := Put(LineOf(100));
            Asked(m, op) && Safe(m, op) && Short(Do(m, op).0, m.next) && Do(m, op).0.oblock == 32764
  {
    hide Do, Asked, LineOf, Masked, Letters, Safe;
    PutLetters(m, 100, 32764, 32764);
    Masks();
  }

  lemma LongNext(m: Plain, a: nat)
    requires Short(m, a) && m.oblock == 32764
    ensures var op := Put(LineOf(3072));
            Asked(m, op) && Safe(m, op) && Short(Do(m, op).0, a) && !Safe(Do(m, op).0, Put(LineOf(1)))
    ensures (a + 100) / BLK == m.next / BLK
  {
    hide Do, Asked, LineOf, Masked, Letters;
    PutLetters(m, 3072, 32764, 32767);
    var m' := Do(m, Put(LineOf(3072))).0;
    assert (a + |m'.text[a]|) / BLK == m'.next / BLK == 32764;
  }
}
