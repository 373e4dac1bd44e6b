/** ed's line store: text in a temporary file, seen through an input and an output block. */
module EdStore {

  type Rune = nat

  type Block = seq<Rune>

  const BLK := 1024       // runes in a block
  const NBLK := 32767
  const LBSIZE := 4096
  const NEWLINE: Rune := 10

  // ----- the store as blocks -----------------------------------------------------------------

  ghost predicate Blocks(mem: seq<Block>) { forall b :: 0 <= b < |mem| ==> |mem[b]| == BLK }

  /** The rune at address p. */
  function At(mem: seq<Block>, p: nat): int
  {
    if p / BLK < |mem| && p % BLK < |mem[p / BLK]| then mem[p / BLK][p % BLK] else -1
  }

  /** Block b replaced, or added after the last. */
  function WithBlock(mem: seq<Block>, b: nat, block: Block): seq<Block>
    requires b <= |mem|
  {
    if b < |mem| then mem[b := block] else mem + [block]
  }

  /** The rune at p replaced. */
  function WithRune(mem: seq<Block>, p: nat, c: Rune): seq<Block>
    requires Blocks(mem) && p / BLK < |mem|
  {
    var block: Block := mem[p / BLK];
    mem[p / BLK := block[p % BLK := c]]
  }

  lemma RuneAt(mem: seq<Block>, p: nat, c: Rune, q: nat)
    requires Blocks(mem) && p / BLK < |mem|
    ensures Blocks(WithRune(mem, p, c)) && At(WithRune(mem, p, c), q) == if q == p then c else At(mem, q)
  {
    if q != p && q / BLK == p / BLK {
      assert q % BLK != p % BLK;
    }
  }

  lemma BlockedAt(mem: seq<Block>, b: nat, block: Block, q: nat)
    requires Blocks(mem) && b <= |mem| && |block| == BLK
    ensures Blocks(WithBlock(mem, b, block)) &&
            At(WithBlock(mem, b, block), q) == if q / BLK == b then block[q % BLK] else At(mem, q)
  {
  }

  // ----- lines -----------------------------------------------------------------------------

  /** The text of a line buffer: up to its first newline, or its end. */
  function TextOf(line: seq<Rune>): (t: seq<Rune>)
    ensures |t| <= |line| && t == line[..|t|] && (forall i :: 0 <= i < |t| ==> t[i] != 0 && t[i] != NEWLINE)
    ensures |t| < |line| ==> line[|t|] == 0 || line[|t|] == NEWLINE
  {
    if line == [] || line[0] == 0 || line[0] == NEWLINE then [] else
      var t := TextOf(line[1..]);
      [line[0]] + t
  }

  /** The line buffer has an end. */
  ghost predicate Ended(line: seq<Rune>) { exists i :: 0 <= i < |line| && (line[i] == 0 || line[i] == NEWLINE) }

  lemma InText(line: seq<Rune>, i: nat)
    ensures i < |TextOf(line)| ==> i < |line| && line[i] != 0 && line[i] != NEWLINE
  {
    assert i < |TextOf(line)| ==> TextOf(line)[i] == line[i];
  }

  lemma EndedText(line: seq<Rune>)
    requires Ended(line)
    ensures |TextOf(line)| < |line|
  {
    var i :| 0 <= i < |line| && (line[i] == 0 || line[i] == NEWLINE);
    InText(line, i);
  }

  lemma TextEnds(line: seq<Rune>, k: nat)
    requires k <= |TextOf(line)| && k < |line|
    ensures line[k] == 0 || line[k] == NEWLINE <==> k == |TextOf(line)|
  {
    if k < |TextOf(line)| {
      assert TextOf(line)[k] == line[k];
    }
  }

  /** tline moves on past the line, staying even: the mask keeps bits 1 to 14. */
  function Masked(x: nat): nat { if x % 0x8000 >= x % 2 then x % 0x8000 - x % 2 else 0 }

  lemma MaskedEven(n: nat)
    requires n <= LBSIZE
    ensures Masked(n + 3) % 2 == 0 && n < Masked(n + 3) <= n + 3
  {
  }

  /** Text t is in the store at a. */
  ghost predicate StoredAt(mem: seq<Block>, a: nat, t: seq<Rune>)
  {
    At(mem, a + |t|) == 0 && forall i :: 0 <= i < |t| ==> At(mem, a + i) == t[i] && t[i] != 0
  }

  /** Where getblock points: into the input or the output buffer. */
  datatype Ptr = Ptr(input: bool, off: nat)

  class Store {
    var iblock: int
    var oblock: int
    var ichanged: bool
    var tline: nat
    var tfile: seq<Block>
    const ibuff: array<Rune>
    const obuff: array<Rune>

    /** The number of blocks written so far. */
    function Top(): nat
      reads this
    {
      if |tfile| > oblock then |tfile| else oblock + 1
    }

    /** Block b, wherever it is now. */
    ghost function BlockAt(b: nat): Block
      reads this, ibuff, obuff
    {
      if b == iblock then ibuff[..] else if b == oblock then obuff[..] else if b < |tfile| then tfile[b] else []
    }

    /** What the store holds, block after block. */
    ghost function Mem(): seq<Block>
      reads this, ibuff, obuff
    {
      seq(Top(), b requires 0 <= b < Top() reads this, ibuff, obuff => BlockAt(b))
    }

    /** The two buffers hold different blocks; the input buffer, unless it was changed, is a copy of its
        block on the file; every block but the output block is on the file. */
    ghost predicate Shape()
      reads this, ibuff, obuff
    {
      ibuff != obuff && ibuff.Length == BLK && obuff.Length == BLK && Blocks(tfile) && |tfile| <= NBLK &&
      -1 <= oblock < NBLK && oblock <= |tfile| && (oblock < 0 ==> tfile == []) &&
      -1 <= iblock < |tfile| && (iblock >= 0 ==> iblock != oblock) && (ichanged ==> iblock >= 0) &&
      (iblock >= 0 && !ichanged ==> ibuff[..] == tfile[iblock])
    }

    ghost predicate Valid()
      reads this, ibuff, obuff
    {
      Shape() && tline >= 2 && tline % 2 == 0 && iblock <= tline / BLK <= Top()
    }

    constructor ()
      ensures Valid() && Mem() == [] && tline == 2 && iblock == -1 && oblock == -1 && fresh(ibuff) && fresh(obuff)
    {
      iblock, oblock, ichanged, tline, tfile := -1, -1, false, 2, [];
      ibuff := new Rune[BLK](i => 0);
      obuff := new Rune[BLK](i => 0);
    }

    lemma MemIs(b: nat)
      requires Shape() && b < Top()
      ensures Blocks(Mem()) && |Mem()| == Top() && Mem()[b] == BlockAt(b)
    {
    }

    /** blkio, writing: the block goes to its place on the file. */
    method Save(b: nat, buf: array<Rune>)
      requires b <= |tfile| && buf.Length == BLK && Blocks(tfile)
      modifies this`tfile
      ensures Blocks(tfile) && tfile == WithBlock(old(tfile), b, buf[..])
    {
      tfile := WithBlock(tfile, b, buf[..]);
    }

    /** blkio, reading a block that is on the file. */
    method Load(b: nat)
      requires b < |tfile| && ibuff.Length == BLK && Blocks(tfile)
      modifies ibuff
      ensures ibuff[..] == tfile[b]
    {
      var i := 0;
      while i < BLK
        invariant 0 <= i <= BLK && forall j :: 0 <= j < i ==> ibuff[j] == tfile[b][j]
      {
        ibuff[i] := tfile[b][i];
        i := i + 1;
      }
    }

    /** The pointer is at the rune with address at. */
    ghost predicate Pointing(p: Ptr, at: nat)
      reads this
    {
      p.off == at % BLK && if p.input then iblock == at / BLK else oblock == at / BLK
    }

    /** The part of getblock that reads a block into the input buffer; it fails when there is no such block. */
    method ReadIn(bno: nat) returns (ok: bool)
      requires Shape() && bno != iblock && bno != oblock
      modifies this, ibuff
      ensures tline == old(tline) && oblock == old(oblock) && iblock == bno && (ok <==> bno < old(Top()))
      ensures ok ==> Shape() && Mem() == old(Mem())
    {
      ghost var mem := Mem();
      if ichanged {
        Save(iblock, ibuff);
      }
      ichanged := false;
      iblock := bno;
      ok := bno < |tfile|;
      if ok {
        Load(bno);
        assert forall b: nat :: b < Top() ==> BlockAt(b) == mem[b];
      }
    }

    /** The part of getblock that moves the output buffer to another block, with what is in the buffer. */
    method MoveOut(bno: nat)
      requires Shape() && bno != iblock && bno != oblock && bno <= Top() && bno < NBLK
      modifies this
      ensures Shape() && tline == old(tline) && iblock == old(iblock) && ichanged == old(ichanged) && oblock == bno
      ensures Mem() == WithBlock(old(Mem()), bno, obuff[..])
    {
      ghost var mem := Mem();
      if oblock >= 0 {
        Save(oblock, obuff);
      }
      assert forall b: nat :: b < |mem| ==> b != iblock ==> tfile[b] == mem[b];
      oblock := bno;
      assert forall b: nat :: b < Top() ==> BlockAt(b) == WithBlock(mem, bno, obuff[..])[b];
    }

    /** getblock: a pointer to the rune at atl, for reading or for writing. Reading changes nothing that is
        stored. Writing to a block that neither buffer holds makes the output buffer that block, with
        what is in the buffer, whether or not the block was written before. */
    method GetBlock(atl: nat, write: bool) returns (p: Ptr, ok: bool)
      requires Shape() && (write ==> atl / BLK <= Top())
      modifies this, ibuff
      ensures tline == old(tline) && (ok <==> atl / BLK < NBLK && (write || atl / BLK < old(Top())))
      ensures ok || write ==> Shape() && obuff[..] == old(obuff[..])
      ensures ok ==> Pointing(p, atl) && (write && p.input ==> ichanged)
      ensures ok && !write ==> Mem() == old(Mem()) && oblock == old(oblock)
      ensures ok && !write ==> iblock == if atl / BLK == oblock then old(iblock) else atl / BLK
      ensures write ==> iblock == old(iblock) && ibuff[..] == old(ibuff[..])
      ensures ok && write ==> oblock == if atl / BLK == iblock then old(oblock) else atl / BLK
      ensures ok && write ==> Mem() == Opened(old(Mem()), old(iblock), old(oblock), atl / BLK, obuff[..])
      ensures !ok && write ==> Mem() == old(Mem()) && oblock == old(oblock)
    {
      hide Mem;
      TopBlocks();
      var bno := atl / BLK;
      var off := atl % BLK;
      p, ok := Ptr(false, off), bno < NBLK;
      if !ok {
        return;
      }
      if bno == iblock {
        Touch(write);
        return Ptr(true, off), true;
      }
      if bno == oblock {
        return;
      }
      if !write {
        ok := ReadIn(bno);
        return Ptr(true, off), ok;
      }
      MoveOut(bno);
    }

    lemma TopBlocks()
      requires Shape()
      ensures |Mem()| == Top() <= NBLK && Blocks(Mem())
    {
    }

    method Touch(write: bool)
      requires Shape() && iblock >= 0
      modifies this`ichanged
      ensures Shape() && Mem() == old(Mem()) && (write ==> ichanged)
    {
      ghost var mem := Mem();
      ichanged := ichanged || write;
      assert forall b: nat :: b < Top() ==> BlockAt(b) == mem[b];
    }

    // ----- getline -----------------------------------------------------------------------

    /** The rune a pointer points to. */
    method Fetch(p: Ptr, ghost at: nat) returns (c: Rune)
      requires Shape() && Pointing(p, at)
      ensures at / BLK < |Mem()| && c == At(Mem(), at)
    {
      MemIs(at / BLK);
      c := if p.input then ibuff[p.off] else obuff[p.off];
    }

    /** The next rune, in the next block when this one is used up. */
    method Advance(p: Ptr, at: nat, write: bool) returns (p': Ptr, ok: bool)
      requires Shape() && Pointing(p, at) && (write && p.input ==> ichanged)
      modifies this, ibuff
      ensures tline == old(tline) && (ok <==> (at + 1) / BLK < if write then NBLK else old(Top()))
      ensures ok || write ==> Shape() && obuff[..] == old(obuff[..])
      ensures ok ==> Pointing(p', at + 1) && (write && p'.input ==> ichanged)
      ensures ok && !write ==> Mem() == old(Mem()) && oblock == old(oblock)
      ensures ok && !write ==>
                iblock == if (at + 1) / BLK in {oblock as int, at / BLK} then old(iblock) else (at + 1) / BLK
      ensures write ==> iblock == old(iblock)
      ensures ok && write ==>
                oblock == if (at + 1) / BLK in {iblock as int, at / BLK} then old(oblock) else (at + 1) / BLK
      ensures ok && write && (at + 1) / BLK == at / BLK ==> Mem() == old(Mem())
      ensures ok && write && (at + 1) / BLK != at / BLK ==>
                Mem() == Opened(old(Mem()), old(iblock), old(oblock), (at + 1) / BLK, obuff[..])
      ensures !ok && write ==> Mem() == old(Mem()) && oblock == old(oblock)
    {
      hide Mem, Opened;
      TopBlocks();
      NextBlock(at);
      if (at + 1) % BLK == 0 {
        p', ok := GetBlock(at + 1, write);
      } else {
        p', ok := p.(off := p.off + 1), true;
      }
    }

    /** getline: what is stored at tl, whichever blocks are in the buffers: up to the first zero. It fails
        when there is none before the last block ends. */
    method GetLine(tl: nat) returns (line: seq<Rune>, ok: bool)
      requires Shape()
      modifies this, ibuff
      ensures tline == old(tline) && (ok <==> exists t :: StoredAt(old(Mem()), tl, t))
      ensures ok ==> Shape() && Mem() == old(Mem()) && oblock == old(oblock) && obuff[..] == old(obuff[..]) &&
                     StoredAt(Mem(), tl, line)
      ensures ok ==> iblock == InBlock(old(iblock), oblock, tl / BLK, (tl + |line|) / BLK)
    {
      hide Mem, Shape, StoredAt, InBlock;
      ghost var mem := Mem();
      ghost var i0 := iblock;
      TopBlocks();
      var p;
      p, ok := GetBlock(tl, false);
      line := [];
      ReadStart(mem, tl, i0, oblock);
      while ok
        invariant tline == old(tline) && ReadTo(mem, tl, line)
        invariant !ok ==> (tl + |line|) / BLK >= |mem|
        invariant ok ==> Shape() && Mem() == mem && oblock == old(oblock) && obuff[..] == old(obuff[..]) &&
                         Pointing(p, tl + |line|)
        invariant ok ==> (tl + |line|) / BLK < |mem| && iblock == InBlock(i0, oblock, tl / BLK, (tl + |line|) / BLK)
        decreases |mem| * BLK - (tl + |line|), ok
      {
        var c := Fetch(p, tl + |line|);
        if c == 0 {
          ReadEnd(mem, tl, line);
          return;
        }
        ReadMore(mem, tl, line, c);
        InNext(i0, oblock, tl / BLK, tl + |line|);
        Inside(mem, tl + |line|);
        TopBlocks();
        p, ok := Advance(p, tl + |line|, false);
        line := line + [c];
      }
      ReadNone(mem, tl, line);
    }

    // ----- putline -----------------------------------------------------------------------

    /** Write one rune where the pointer is. */
    method Poke(p: Ptr, at: nat, c: Rune)
      requires Shape() && Pointing(p, at) && (p.input ==> ichanged)
      modifies ibuff, obuff
      ensures Shape() && at / BLK < |old(Mem())| && Blocks(old(Mem())) && Mem() == WithRune(old(Mem()), at, c)
      ensures p.input ==> obuff[..] == old(obuff[..])
    {
      MemIs(at / BLK);
      ghost var mem := Mem();
      ghost var block: Block := mem[at / BLK];
      ghost var block': Block := block[p.off := c];
      if p.input {
        ibuff[p.off] := c;
        assert ibuff[..] == block';
      } else {
        obuff[p.off] := c;
        assert obuff[..] == block';
      }
      assert forall b: nat :: b < Top() ==> BlockAt(b) == WithRune(mem, at, c)[b];
    }

    /** A copy has come to rune k of the line; base is what was stored when it began. */
    ghost predicate Copying(base: seq<Block>, stale: Block, a: nat, line: seq<Rune>, k: nat, i: int, o: int)
      reads this, ibuff, obuff
    {
      Shape() && tline == a && iblock == i && oblock == OutBlock(i, o, a / BLK, (a + k) / BLK) &&
      Below(base, Mem(), a) && Copied(Mem(), a, line, k) && (a / BLK == i == (a + k) / BLK ==> obuff[..] == stale)
    }

    /** One rune of the line, and the pointer moved on. */
    method PutRune(p: Ptr, a: nat, line: seq<Rune>, k: nat, ghost base: seq<Block>, ghost stale: Block, ghost i: int,
                   ghost o: int)
      returns (p': Ptr, ok: bool)
      requires Copying(base, stale, a, line, k, i, o) && k < |line| && Pointing(p, a + k) && (p.input ==> ichanged) &&
               i <= a / BLK
      modifies this, ibuff, obuff
      ensures ok <==> (a + k + 1) / BLK < NBLK
      ensures ok ==> Copying(base, stale, a, line, k + 1, i, o) && Pointing(p', a + k + 1) && (p'.input ==> ichanged)
      ensures !ok ==> Stopped(base, stale, a, line, k + 1, i, o)
    {
      hide Mem, Shape, Below, Copied, OutBlock, WithRune, Opened;
      ghost var mem := Mem();
      TopBlocks();
      Poke(p, a + k, line[k]);
      PokeKeeps(base, mem, a, line, k);
      ghost var mem1 := Mem();
      TopBlocks();
      NextBlock(a + k);
      OutNext(i, o, a, a + k);
      p', ok := Advance(p, a + k, true);
      if ok {
        OpenKeeps(base, mem1, a, line, k, iblock, OutBlock(i, o, a / BLK, (a + k) / BLK), obuff[..]);
      }
    }

    /** The copy has run out of blocks at rune k. */
    ghost predicate Stopped(base: seq<Block>, stale: Block, a: nat, line: seq<Rune>, k: nat, i: int, o: int)
      reads this, ibuff, obuff
    {
      Shape() && tline == a && iblock == i && a / BLK < NBLK <= (a + k) / BLK && (a + k) % BLK == 0 &&
      oblock == OutBlock(i, o, a / BLK, NBLK - 1) && Below(base, Mem(), a) && Copied(Mem(), a, line, k)
    }

    /** The terminator, and tline moved on. */
    method Finish(p: Ptr, a: nat, line: seq<Rune>, k: nat, ghost base: seq<Block>, ghost stale: Block, ghost i: int,
                  ghost o: int)
      requires Copying(base, stale, a, line, k, i, o) && Pointing(p, a + k) && (p.input ==> ichanged)
      requires k == |TextOf(line)| && k + 1 <= LBSIZE && a % 2 == 0 && a >= 2 && i <= a / BLK
      modifies this`tline, ibuff, obuff
      ensures Valid() && iblock == i && oblock == OutBlock(i, o, a / BLK, (a + k) / BLK) && Below(base, Mem(), a)
      ensures StoredAt(Mem(), a, TextOf(line)) && tline == a + Masked(k + 4) && a + k < tline
      ensures a / BLK == i == (a + k) / BLK ==> obuff[..] == stale
    {
      hide Mem, Shape, Below, Copied, WithRune, StoredAt, Masked, TextOf, OutBlock;
      ghost var mem := Mem();
      TopBlocks();
      Poke(p, a + k, 0);
      TopBlocks();
      PokeEnd(base, mem, a, line, k);
      MaskedEven(k + 1);
      TlineFits(a, k, a + Masked(k + 1 + 3), Top(), i);
      MoveOn(a + Masked(k + 1 + 3));
    }

    method MoveOn(tl: nat)
      modifies this`tline
      ensures tline == tl && Mem() == old(Mem()) && Top() == old(Top()) && (old(Shape()) ==> Shape())
    {
      ghost var mem := Mem();
      tline := tl;
      assert forall b: nat :: b < Top() ==> BlockAt(b) == mem[b];
    }

    /** putline: the text of the line at the old tline. All that was stored below stays, but for one block:
        when neither buffer held the block that tline is in, what it had below tline is lost to what
        was in the output buffer. It fails when the text does not fit on the file. */
    method PutLine(line: seq<Rune>) returns (a: nat, ok: bool)
      requires Valid() && Ended(line) && |line| <= LBSIZE
      modifies this, ibuff, obuff
      ensures ok <==> (old(tline) + |TextOf(line)|) / BLK < NBLK
      ensures Valid() && iblock == old(iblock) &&
              oblock == OutAfter(old(iblock), old(oblock), old(tline), |TextOf(line)|)
      ensures Kept(old(Mem()), Mem(), old(tline), Lost(old(iblock), old(oblock), old(tline)), old(obuff[..]))
      ensures ok ==> a == old(tline) && StoredAt(Mem(), a, TextOf(line)) && tline == a + Masked(|TextOf(line)| + 4) &&
                     a + |TextOf(line)| < tline
      ensures ok && old(tline) / BLK == iblock == (old(tline) + |TextOf(line)|) / BLK ==> obuff[..] == old(obuff[..])
      ensures !ok ==> tline == old(tline) && (tline / BLK < NBLK - 1 ==> NonZero(obuff[..]))
    {
      hide Mem, Below, Copied, Kept, StoredAt, Masked, TextOf, Opened, Copying, OutBlock, Stopped, NonZero;
      a := tline;
      EndedText(line);
      ghost var n, mem, stale, i, o := |TextOf(line)|, Mem(), obuff[..], iblock, oblock;
      TopBlocks();
      var p;
      p, ok := GetBlock(a, true);
      OpensKept(mem, i, o, a, stale);
      if !ok {
        FailsHere(a, 0, n);
        TopBlocks();
        return;
      }
      ghost var base := Mem();
      StartCopy(base, stale, a, line, i, o);
      var k := 0;
      while ok && line[k] != 0 && line[k] != NEWLINE
        invariant 0 <= k <= n && (ok <==> (a + k) / BLK < NBLK)
        invariant ok ==> Copying(base, stale, a, line, k, i, o) && Pointing(p, a + k) && (p.input ==> ichanged)
        invariant !ok ==> Stopped(base, stale, a, line, k, i, o)
        decreases n - k, ok
      {
        TextEnds(line, k);
        p, ok := PutRune(p, a, line, k, base, stale, i, o);
        k := k + 1;
      }
      if ok {
        TextEnds(line, k);
        Finish(p, a, line, k, base, stale, i, o);
      } else {
        FailsHere(a, k, n);
        StoppedIs(base, stale, a, line, k, i, o);
      }
      KeptBelow(mem, base, Mem(), a, Lost(i, o, a), stale);
    }

    lemma StartCopy(base: seq<Block>, stale: Block, a: nat, line: seq<Rune>, i: int, o: int)
      requires Shape() && tline == a && iblock == i && oblock == (if a / BLK == i then o else a / BLK) &&
               Mem() == base && obuff[..] == stale
      ensures Copying(base, stale, a, line, 0, i, o)
    {
    }

    lemma StoppedIs(base: seq<Block>, stale: Block, a: nat, line: seq<Rune>, k: nat, i: int, o: int)
      requires Stopped(base, stale, a, line, k, i, o) && k <= |TextOf(line)| && a >= 2 && a % 2 == 0 && i <= a / BLK
      ensures Valid() && tline == a && iblock == i && oblock == OutBlock(i, o, a / BLK, NBLK - 1) &&
              Below(base, Mem(), a)
      ensures a / BLK < NBLK - 1 ==> NonZero(obuff[..])
    {
      hide Below, TextOf;
      TopBlocks();
      if a / BLK < NBLK - 1 {
        MemIs(NBLK - 1);
        FullBlock(Mem(), a, line, k);
      }
    }
  }

  /** What getblock for writing does to the blocks. */
  ghost function Opened(mem: seq<Block>, i: int, o: int, b: nat, stale: Block): seq<Block>
  {
    if b == i || b == o || b > |mem| then mem else WithBlock(mem, b, stale)
  }

  /** The output block when a copy that began in block from has come to block to. */
  function OutBlock(i: int, o: int, from: nat, to: nat): int
  {
    if to > from then to else if from == i then o else from
  }

  lemma OutNext(i: int, o: int, a: nat, at: nat)
    requires a <= at && i <= a / BLK
    ensures var now := OutBlock(i, o, a / BLK, at / BLK); var b := (at + 1) / BLK;
      OutBlock(i, o, a / BLK, b) == (if b == i || b == at / BLK then now else b) && (b != at / BLK ==> b > i)
  {
    NextBlock(at);
  }

  /** All that is below a is as it was. */
  ghost predicate Below(base: seq<Block>, mem: seq<Block>, a: nat)
  {
    forall p: nat :: p < a ==> At(mem, p) == At(base, p)
  }

  /** The first k runes of the line are in place. */
  ghost predicate Copied(mem: seq<Block>, a: nat, line: seq<Rune>, k: nat)
  {
    k <= |line| && forall j :: 0 <= j < k ==> At(mem, a + j) == line[j]
  }

  lemma PokeKeeps(base: seq<Block>, mem: seq<Block>, a: nat, line: seq<Rune>, k: nat)
    requires Blocks(mem) && (a + k) / BLK < |mem| && Below(base, mem, a) && Copied(mem, a, line, k) && k < |line|
    ensures var mem' := WithRune(mem, a + k, line[k]);
            Blocks(mem') && Below(base, mem', a) && Copied(mem', a, line, k + 1)
  {
    hide WithRune, At;
    var mem' := WithRune(mem, a + k, line[k]);
    RuneAt(mem, a + k, line[k], a + k);
    forall q: nat | q < a ensures At(mem', q) == At(base, q) {
      RuneAt(mem, a + k, line[k], q);
    }
    forall j | 0 <= j < k + 1 ensures At(mem', a + j) == line[j] {
      RuneAt(mem, a + k, line[k], a + j);
    }
  }

  lemma PokeEnd(base: seq<Block>, mem: seq<Block>, a: nat, line: seq<Rune>, k: nat)
    requires Blocks(mem) && (a + k) / BLK < |mem| && Below(base, mem, a) && Copied(mem, a, line, k) &&
             k == |TextOf(line)|
    ensures var mem' := WithRune(mem, a + k, 0); Below(base, mem', a) && StoredAt(mem', a, TextOf(line))
  {
    hide WithRune, At;
    var mem' := WithRune(mem, a + k, 0);
    RuneAt(mem, a + k, 0, a + k);
    forall q: nat | q < a ensures At(mem', q) == At(base, q) {
      RuneAt(mem, a + k, 0, q);
    }
    forall j | 0 <= j < k ensures At(mem', a + j) == TextOf(line)[j] != 0 {
      RuneAt(mem, a + k, 0, a + j);
      InText(line, j);
    }
  }

  lemma TlineFits(a: nat, k: nat, tl: nat, top: nat, i: int)
    requires (a + k) / BLK < top && a <= tl <= a + k + 4 && i <= a / BLK
    ensures i <= tl / BLK <= top
  {
  }

  ghost predicate NonZero(block: Block) { forall j :: 0 <= j < |block| ==> block[j] != 0 }

  /** A copy that fails having begun in an earlier block has filled the last one. */
  lemma FullBlock(mem: seq<Block>, a: nat, line: seq<Rune>, k: nat)
    requires Blocks(mem) && |mem| == NBLK && Copied(mem, a, line, k) && k <= |TextOf(line)| && a / BLK < NBLK - 1 &&
             (a + k) / BLK >= NBLK
    ensures NonZero(mem[NBLK - 1])
  {
    var block: Block := mem[NBLK - 1];
    forall j | 0 <= j < BLK ensures block[j] != 0 {
      var p := (NBLK - 1) * BLK + j;
      assert p / BLK == NBLK - 1 && p % BLK == j;
      assert At(mem, a + (p - a)) == line[p - a];
      InText(line, p - a);
    }
  }

  /** The block whose runes below tline a write at tline loses, if any. */
  function Lost(i: int, o: int, tline: nat): int
  {
    var b := tline / BLK;
    if b < NBLK && b != i && b != o then b else -1
  }

  /** The output block after putline. */
  function OutAfter(i: int, o: int, a: nat, n: nat): int
  {
    if a / BLK >= NBLK then o else OutBlock(i, o, a / BLK, if (a + n) / BLK < NBLK then (a + n) / BLK else NBLK - 1)
  }

  /** What is below a is as it was, but for the lost block. */
  ghost predicate Kept(mem: seq<Block>, mem': seq<Block>, a: nat, lost: int, stale: Block)
  {
    |stale| == BLK && forall p: nat :: p < a ==> At(mem', p) == if p / BLK == lost then stale[p % BLK] else At(mem, p)
  }

  lemma OpensKept(mem: seq<Block>, i: int, o: int, a: nat, stale: Block)
    requires Blocks(mem) && |stale| == BLK && a / BLK <= |mem|
    ensures Kept(mem, if a / BLK < NBLK then Opened(mem, i, o, a / BLK, stale) else mem, a, Lost(i, o, a), stale)
  {
    hide At;
    forall p: nat | p < a
      ensures At(WithBlock(mem, a / BLK, stale), p) == if p / BLK == a / BLK then stale[p % BLK] else At(mem, p) {
      BlockedAt(mem, a / BLK, stale, p);
    }
  }

  lemma KeptBelow(mem: seq<Block>, base: seq<Block>, mem': seq<Block>, a: nat, lost: int, stale: Block)
    requires Kept(mem, base, a, lost, stale) && Below(base, mem', a)
    ensures Kept(mem, mem', a, lost, stale)
  {
  }

  lemma FailsHere(a: nat, k: nat, n: nat)
    requires k <= n && (a + k) / BLK >= NBLK
    ensures (a + n) / BLK >= NBLK
  {
  }

  /** Moving on to the next block disturbs nothing before it. */
  lemma OpenKeeps(base: seq<Block>, mem: seq<Block>, a: nat, line: seq<Rune>, k: nat, i: int, o: int, stale: Block)
    requires Blocks(mem) && |stale| == BLK && Below(base, mem, a) && Copied(mem, a, line, k + 1)
    ensures (a + k + 1) / BLK != (a + k) / BLK ==> var mem' := Opened(mem, i, o, (a + k + 1) / BLK, stale);
            Below(base, mem', a) && Copied(mem', a, line, k + 1)
  {
    hide At;
    var b := (a + k + 1) / BLK;
    if b != (a + k) / BLK && b != i && b != o && b <= |mem| {
      forall q: nat | q <= a + k ensures At(WithBlock(mem, b, stale), q) == At(mem, q) {
        BlockedAt(mem, b, stale, q);
        NextBlock(a + k);
      }
    }
  }

  lemma NextBlock(at: nat)
    ensures (at + 1) % BLK == 0 ==> (at + 1) / BLK == at / BLK + 1
    ensures (at + 1) % BLK != 0 ==> (at + 1) / BLK == at / BLK && (at + 1) % BLK == at % BLK + 1
  {
  }

  lemma Inside(mem: seq<Block>, p: nat)
    requires p / BLK < |mem|
    ensures p < |mem| * BLK
  {
  }

  /** The input block after reading the blocks from..to. */
  function InBlock(i: int, o: int, from: nat, to: nat): int
  {
    if to != o then to else if from < to then to - 1 else i
  }

  lemma InNext(i: int, o: int, from: nat, at: nat)
    requires from <= at / BLK
    ensures var now := InBlock(i, o, from, at / BLK); var b := (at + 1) / BLK;
      InBlock(i, o, from, b) == if b == o || b == at / BLK then now else b
  {
    NextBlock(at);
  }

  /** The runes read so far, none of them zero. */
  ghost predicate ReadTo(mem: seq<Block>, tl: nat, line: seq<Rune>)
  {
    forall i :: 0 <= i < |line| ==> At(mem, tl + i) == line[i] && line[i] != 0
  }

  lemma ReadStart(mem: seq<Block>, tl: nat, i: int, o: int)
    ensures ReadTo(mem, tl, []) && InBlock(i, o, tl / BLK, tl / BLK) == if tl / BLK == o then i else tl / BLK
  {
  }

  lemma ReadMore(mem: seq<Block>, tl: nat, line: seq<Rune>, c: Rune)
    requires ReadTo(mem, tl, line) && At(mem, tl + |line|) == c != 0
    ensures ReadTo(mem, tl, line + [c])
  {
  }

  lemma ReadEnd(mem: seq<Block>, tl: nat, line: seq<Rune>)
    requires ReadTo(mem, tl, line) && At(mem, tl + |line|) == 0
    ensures StoredAt(mem, tl, line)
  {
  }

  lemma RuneOf(mem: seq<Block>, a: nat, u: seq<Rune>, k: nat)
    requires ReadTo(mem, a, u)
    ensures k < |u| ==> At(mem, a + k) == u[k] != 0
  {
  }

  lemma ReadNone(mem: seq<Block>, tl: nat, line: seq<Rune>)
    requires ReadTo(mem, tl, line) && (tl + |line|) / BLK >= |mem|
    ensures forall t :: !StoredAt(mem, tl, t)
  {
    forall t: seq<Rune> ensures At(mem, tl + |t|) != 0 {
      RuneOf(mem, tl, line, |t|);
      assert |t| >= |line| ==> (tl + |t|) / BLK >= (tl + |line|) / BLK;
    }
  }

  /** A line stored at an address is the only one. */
  lemma StoredOnce(mem: seq<Block>, a: nat, t: seq<Rune>, u: seq<Rune>)
    requires StoredAt(mem, a, t) && StoredAt(mem, a, u)
    ensures t == u
  {
    RuneOf(mem, a, u, |t|);
    RuneOf(mem, a, t, |u|);
    forall i | 0 <= i < |t| ensures i < |u| ==> t[i] == u[i] {
      RuneOf(mem, a, t, i);
      RuneOf(mem, a, u, i);
    }
  }
}
