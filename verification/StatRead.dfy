/** convM2D: an entry read from its bytes. */
module StatRead {
  import opened StatBytes
  import opened StatSpec
  import opened StatLayout
  import opened StatConv

  // ----- where the strings end ----------------------------------------------------------------

  /** The first end bytes have four strings after the fixed part exactly when k are left from pos on. */
  ghost predicate Left(s: Bytes, pos: nat, k: nat)
  {
    forall end: nat :: end <= |s| ==> (Strings(s[..end], FIXED, 4) <==> Strings(s[..end], pos, k))
  }

  lemma LeftStep(s: Bytes, pos: nat, k: nat)
    requires Left(s, pos, k + 1)
    ensures pos + 2 <= |s| ==> Left(s, pos + 2 + Count(s[pos..]), k)
    ensures pos + 2 > |s| || pos + 2 + Count(s[pos..]) > |s| ==> NoEnd(s)
  {
    hide Strings, Count;
    forall end: nat | end <= |s|
      ensures Strings(s[..end], FIXED, 4) <==> pos + 2 <= end && Strings(s[..end], pos + 2 + Count(s[pos..]), k)
    {
      StringsStep(s[..end], pos, k);
      if pos + 2 <= end {
        SameCount(s, pos, end);
        StringsIn(s[..end], pos + 2 + Count(s[pos..]), k);
      }
    }
    forall end: nat | end <= |s| && pos + 2 <= |s|
      ensures Strings(s[..end], pos + 2 + Count(s[pos..]), k) ==> pos + 2 + Count(s[pos..]) <= end
    {
      StringsIn(s[..end], pos + 2 + Count(s[pos..]), k);
    }
  }

  lemma SameCount(s: Bytes, pos: nat, end: nat)
    requires pos + 2 <= end <= |s|
    ensures Count(s[..end][pos..]) == Count(s[pos..])
  {
    assert s[..end][pos..][..2] == s[pos..][..2];
  }

  lemma StringsIn(s: Bytes, pos: nat, k: nat)
    ensures Strings(s, pos, k) ==> pos <= |s|
  {
  }

  /** No beginning of the bytes has four strings after the fixed part. */
  ghost predicate NoEnd(s: Bytes) { forall end: nat :: end <= |s| ==> !Strings(s[..end], FIXED, 4) }

  /** When none are left, the strings end here and nowhere else. */
  lemma LeftNone(s: Bytes, pos: nat)
    requires Left(s, pos, 0) && pos <= |s|
    ensures Strings(s[..pos], FIXED, 4) && forall end: nat :: end <= |s| && Strings(s[..end], FIXED, 4) ==> end == pos
  {
    hide Strings;
    forall end: nat | end <= |s| ensures Strings(s[..end], FIXED, 4) <==> end == pos {
      StringsNone(s[..end], pos);
    }
  }

  // ----- the strings laid out with their zeros ---------------------------------------------------

  function Laid(ts: seq<Bytes>): Bytes
  {
    if ts == [] then [] else Laid(ts[..|ts| - 1]) + ts[|ts| - 1] + [0]
  }

  lemma {:induction false} LaidAt(ts: seq<Bytes>, i: nat, mem: Bytes)
    requires i < |ts| && Laid(ts) <= mem
    ensures |Laid(ts[..i])| <= |mem| && StrOf(mem[|Laid(ts[..i])|..]) == StrOf(ts[i])
    decreases |ts|
  {
    hide StrOf;
    var n := |ts| - 1;
    var front := Laid(ts[..n]);
    assert Laid(ts) == front + ts[n] + [0];
    if i < n {
      assert front <= mem;
      LaidAt(ts[..n], i, mem);
      assert ts[..n][..i] == ts[..i];
    } else {
      var rest := mem[|front| + |ts[n]|..];
      assert mem[|front|..] == ts[n] + rest && rest[0] == 0;
      StrIs(ts[n], rest);
    }
  }

  lemma LaidNext(ts: seq<Bytes>, t: Bytes)
    ensures Laid(ts + [t]) == Laid(ts) + t + [0]
  {
    assert (ts + [t])[..|ts|] == ts;
  }

  lemma LaidNone()
    ensures Laid([]) == []
  {
  }

  lemma PutLast(ts: seq<Bytes>, t: Bytes)
    ensures PutStrs(ts + [t]) == PutStrs(ts) + PutStr(t)
  {
    assert (ts + [t])[..|ts|] == ts;
  }

  // ----- the reader --------------------------------------------------------------------------------

  /** The numbers, in the order of the bytes. */
  method GetFixed(buf: array<Byte>, nbuf: nat, d: Dir) returns (r: Dir)
    requires STATFIXLEN <= nbuf <= buf.Length
    ensures r == Filled(buf[..nbuf], d.name, d.uid, d.gid, d.muid, d.ext)
  {
    hide Un, Offset, Field;
    Offsets();
    FieldIn(buf, nbuf, 1);
    FieldIn(buf, nbuf, 2);
    FieldIn(buf, nbuf, 3);
    FieldIn(buf, nbuf, 4);
    FieldIn(buf, nbuf, 5);
    FieldIn(buf, nbuf, 6);
    FieldIn(buf, nbuf, 7);
    FieldIn(buf, nbuf, 8);
    FieldIn(buf, nbuf, 9);
    var length := G64(buf, 33);
    r := d.(kind := G16(buf, 2), dev := G32(buf, 4), qtype := G8(buf, 8), vers := G32(buf, 9), path := G64(buf, 13));
    r := r.(mode := G32(buf, 21), atime := G32(buf, 25), mtime := G32(buf, 29), length := Signed(length));
  }

  lemma FieldIn(buf: array<Byte>, nbuf: nat, k: nat)
    requires STATFIXLEN <= nbuf <= buf.Length && k < NFIXED
    ensures Offset(k) <= Offset(k + 1) <= nbuf && Field(buf[..nbuf], k) == Un(buf[Offset(k)..Offset(k + 1)])
  {
    hide Un, Offset;
    Offsets();
    OffsetMono(k, k + 1);
    OffsetMono(k + 1, NFIXED);
    assert buf[..nbuf][Offset(k)..Offset(k + 1)] == buf[Offset(k)..Offset(k + 1)];
  }

  /** The strings read so far: i of them, up to pos. */
  ghost predicate Reading(s: Bytes, ts: seq<Bytes>, pos: nat, i: nat)
  {
    i <= 4 && FIXED <= pos <= |s| && |ts| == i && AllShort(ts) && s[FIXED..pos] == PutStrs(ts) && Left(s, pos, 4 - i)
  }

  lemma ReadNext(s: Bytes, ts: seq<Bytes>, pos: nat, i: nat)
    requires Reading(s, ts, pos, i) && i < 4
    ensures pos + 2 > |s| || pos + 2 + Count(s[pos..]) > |s| ==> NoEnd(s)
    ensures pos + 2 <= |s| && pos + 2 + Count(s[pos..]) <= |s| ==> var n := Count(s[pos..]);
            Reading(s, ts + [s[pos + 2..pos + 2 + n]], pos + 2 + n, i + 1)
  {
    hide Left, PutStrs, Count;
    LeftStep(s, pos, 3 - i);
    if pos + 2 <= |s| && pos + 2 + Count(s[pos..]) <= |s| {
      var n := Count(s[pos..]);
      var t := s[pos + 2..pos + 2 + n];
      PutLast(ts, t);
      CountShort(s, pos);
      assert s[FIXED..pos + 2 + n] == s[FIXED..pos] + s[pos..pos + 2] + t;
      assert PutStrs(ts) + s[pos..pos + 2] + t == PutStrs(ts) + PutStr(t);
    }
  }

  lemma CountShort(s: Bytes, pos: nat)
    requires pos + 2 <= |s|
    ensures var n := Count(s[pos..]); n < 0x10000 && Le(n, 2) == s[pos..pos + 2]
  {
    assert s[pos..][..2] == s[pos..pos + 2];
    LeUn(s[pos..pos + 2]);
    Small();
  }

  lemma ReadStart(s: Bytes)
    requires |s| >= FIXED
    ensures Reading(s, [], FIXED, 0)
  {
    PutNone();
  }

  /** All four are read: they are the strings of these bytes. */
  lemma ReadAll(s: Bytes, ts: seq<Bytes>, pos: nat)
    requires Reading(s, ts, pos, 4)
    ensures Strings(s[..pos], FIXED, 4) && Parts(s[..pos]) == ts
    ensures IsStat(s) ==> pos == |s|
  {
    hide PutStrs, Strings, Count;
    LeftNone(s, pos);
    assert s[..pos][FIXED..] == s[FIXED..pos];
    StringsUnique(Parts(s[..pos]), ts);
    assert s[..|s|] == s;
  }

  /** One string into the memory for strings, with its zero. */
  method Lay(strs: array<Byte>, at: nat, t: Bytes, ghost ts: seq<Bytes>)
    requires at == |Laid(ts)| && at + |t| + 1 <= strs.Length && Laid(ts) <= strs[..]
    modifies strs
    ensures Laid(ts + [t]) <= strs[..]
  {
    hide Laid, Sofar;
    ghost var was := strs[..];
    LaidNext(ts, t);
    SofarHere(was, Laid(ts));
    MemMove(strs, at, t, was, Laid(ts));
    SofarSize(was, strs[..], Laid(ts) + t);
    SofarByte(was, strs[..], Laid(ts) + t, 0);
    ghost var now := strs[..];
    strs[at + |t|] := 0;
    assert strs[..] == now[at + |t| := 0];
    SofarPrefix(was, strs[..], Laid(ts) + t + [0]);
  }

  lemma SofarHere(was: Bytes, text: Bytes)
    requires text <= was
    ensures Sofar(was, was, text)
  {
  }

  lemma SofarPrefix(was: Bytes, now: Bytes, text: Bytes)
    requires Sofar(was, now, text)
    ensures text <= now
  {
  }

  /** The places of the strings in their memory. */
  ghost predicate Placed(sv: seq<nat>, ts: seq<Bytes>)
  {
    |sv| == |ts| && forall i :: 0 <= i < |sv| ==> sv[i] == |Laid(ts[..i])|
  }

  lemma PlacedNext(sv: seq<nat>, ts: seq<Bytes>, t: Bytes)
    requires Placed(sv, ts)
    ensures Placed(sv + [|Laid(ts)|], ts + [t])
  {
    hide Laid;
    assert (ts + [t])[..|ts|] == ts;
    forall i | 0 <= i < |sv| ensures (ts + [t])[..i] == ts[..i] {
    }
  }

  lemma {:induction false} LaidSize(ts: seq<Bytes>)
    ensures |Laid(ts)| + |ts| == |PutStrs(ts)|
  {
    if ts != [] {
      LaidSize(ts[..|ts| - 1]);
    }
  }

  lemma Room(s: Bytes, ts: seq<Bytes>, pos: nat, i: nat)
    requires Reading(s, ts, pos, i)
    ensures |Laid(ts)| + i == pos - FIXED
  {
    LaidSize(ts);
  }

  /** The strings pointed at, once all are in place. */
  lemma PlacedStrings(sv: seq<nat>, ts: seq<Bytes>, mem: Bytes, i: nat)
    requires Placed(sv, ts) && Laid(ts) <= mem && i < |ts|
    ensures sv[i] <= |mem| && StrOf(mem[sv[i]..]) == StrOf(ts[i])
  {
    LaidAt(ts, i, mem);
  }

  lemma PlacedNone()
    ensures Placed([], [])
  {
  }

  lemma ReadIn(s: Bytes, ts: seq<Bytes>, pos: nat, i: nat)
    requires Reading(s, ts, pos, i)
    ensures FIXED <= pos <= |s| && |ts| == i
  {
  }

  lemma SliceOf(buf: array<Byte>, nbuf: nat, i: nat, j: nat)
    requires i <= j <= nbuf <= buf.Length
    ensures buf[i..j] == buf[..nbuf][i..j]
  {
  }

  /** The strings, copied one after another when there is memory for them; pos is zero when they do not fit. */
  method GetStrings(buf: array<Byte>, nbuf: nat, strs: array?<Byte>)
    returns (pos: nat, sv: seq<nat>, ghost ts: seq<Bytes>)
    requires FIXED <= nbuf <= buf.Length && strs != buf && (strs != null ==> strs.Length + FIXED >= nbuf)
    modifies strs
    ensures pos == 0 ==> NoEnd(buf[..nbuf])
    ensures pos > 0 ==> Reading(buf[..nbuf], ts, pos, 4) && (strs != null ==> Placed(sv, ts) && Laid(ts) <= strs[..])
  {
    hide Left, NoEnd, Laid, Count, Reading, Placed, Un;
    ghost var s := buf[..nbuf];
    ReadStart(s);
    LaidNone();
    PlacedNone();
    pos, sv, ts := FIXED, [], [];
    var i, at := 0, 0;
    while i < 4
      invariant 0 <= i <= 4 && pos >= FIXED && Reading(s, ts, pos, i) && buf[..nbuf] == s
      invariant strs != null ==> at == |Laid(ts)| && Placed(sv, ts) && Laid(ts) <= strs[..]
    {
      ReadIn(s, ts, pos, i);
      ReadNext(s, ts, pos, i);
      if pos + 2 > nbuf {
        return 0, sv, ts;
      }
      CountAt(buf, nbuf, pos);
      var ns := G16(buf, pos);
      pos := pos + 2;
      if pos + ns > nbuf {
        return 0, sv, ts;
      }
      var t := buf[pos..pos + ns];
      SliceOf(buf, nbuf, pos, pos + ns);
      if strs != null {
        Room(s, ts, pos - 2, i);
        PlacedNext(sv, ts, t);
        LaidNext(ts, t);
        sv := sv + [at];
        Lay(strs, at, t, ts);
        at := at + ns + 1;
      }
      ts := ts + [t];
      pos := pos + ns;
      i := i + 1;
    }
  }

  /** convM2D: the entry whose bytes these are, and their number; zero when there are too few. Without
      memory for the strings they are all empty. */
  method ConvM2D(buf: array<Byte>, nbuf: nat, d0: Dir, strs: array?<Byte>) returns (n: nat, d: Dir)
    requires nbuf <= buf.Length && strs != buf && (strs != null ==> strs.Length + FIXED >= nbuf)
    modifies strs
    ensures n == 0 <==> nbuf < STATFIXLEN || NoEnd(buf[..nbuf])
    ensures nbuf < STATFIXLEN ==> d == d0
    ensures nbuf >= STATFIXLEN && n == 0 ==> d == Filled(buf[..nbuf], d0.name, d0.uid, d0.gid, d0.muid, d0.ext)
    ensures nbuf >= STATFIXLEN ==> NumbersFrom(buf[..nbuf], d)
    ensures n > 0 ==> n <= nbuf && Strings(buf[..n], FIXED, 4)
    ensures n > 0 && strs != null ==> d == Decode(buf[..n]) && Shown(buf[..n], d)
    ensures n > 0 && strs == null ==> d == Filled(buf[..n], Str([]), Str([]), Str([]), Str([]), Str([]))
    ensures IsStat(buf[..nbuf]) ==> n == nbuf
  {
    hide NoEnd, Reading, Placed, Laid, Strings, Count, StrOf, Filled, Parts, Un, NumbersFrom, Shown;
    n, d := 0, d0;
    if nbuf < STATFIXLEN {
      return;
    }
    ghost var s := buf[..nbuf];
    d := GetFixed(buf, nbuf, d);
    FilledNumbers(s, d0.name, d0.uid, d0.gid, d0.muid, d0.ext);
    var sv;
    ghost var ts;
    n, sv, ts := GetStrings(buf, nbuf, strs);
    if n == 0 {
      NoEndNot(s);
      return;
    }
    ReadIn(s, ts, n, 4);
    ReadAll(s, ts, n);
    EndNot(s, n);
    assert s[..n] == buf[..n];
    FilledPrefix(s, n, d0);
    ghost var e := d;
    NumbersOnly(s, e);
    if strs != null {
      PlacedIs(sv, ts);
      PlacedStrings(sv, ts, strs[..], 0);
      PlacedStrings(sv, ts, strs[..], 1);
      PlacedStrings(sv, ts, strs[..], 2);
      PlacedStrings(sv, ts, strs[..], 3);
      d := d.(name := Str(StrOf(strs[sv[0]..])), uid := Str(StrOf(strs[sv[1]..])), gid := Str(StrOf(strs[sv[2]..])),
        muid := Str(StrOf(strs[sv[3]..])), ext := Str([]));
    } else {
      d := d.(name := Str([]), uid := Str([]), gid := Str([]), muid := Str([]), ext := Str([]));
    }
    FilledAgain(s[..n], e, d0, d.name, d.uid, d.gid, d.muid, d.ext);
    DecodeShown(s[..n], d);
  }

  lemma NumbersOnly(s: Bytes, e: Dir)
    requires |s| >= 41 && NumbersFrom(s, e)
    ensures forall n: CStr, u: CStr, g: CStr, m: CStr, x: CStr ::
              NumbersFrom(s, e.(name := n, uid := u, gid := g, muid := m, ext := x))
  {
  }

  lemma PlacedIs(sv: seq<nat>, ts: seq<Bytes>)
    requires Placed(sv, ts)
    ensures |sv| == |ts|
  {
  }

  lemma NoEndNot(s: Bytes)
    requires NoEnd(s)
    ensures !IsStat(s)
  {
    assert s[..|s|] == s;
  }

  lemma EndNot(s: Bytes, n: nat)
    requires n <= |s| && Strings(s[..n], FIXED, 4)
    ensures !NoEnd(s)
  {
  }

  /** The numbers are in the fixed part alone. */
  lemma FilledPrefix(s: Bytes, n: nat, d: Dir)
    requires FIXED <= n <= |s|
    ensures Filled(s, d.name, d.uid, d.gid, d.muid, d.ext) == Filled(s[..n], d.name, d.uid, d.gid, d.muid, d.ext)
  {
    hide Un, Offset, Field;
    Offsets();
    FieldSame(s, n, 1);
    FieldSame(s, n, 2);
    FieldSame(s, n, 3);
    FieldSame(s, n, 4);
    FieldSame(s, n, 5);
    FieldSame(s, n, 6);
    FieldSame(s, n, 7);
    FieldSame(s, n, 8);
    FieldSame(s, n, 9);
  }

  lemma FieldSame(s: Bytes, n: nat, k: nat)
    requires FIXED <= n <= |s| && k < NFIXED
    ensures Offset(k) <= Offset(k + 1) <= n && Field(s[..n], k) == Field(s, k)
  {
    hide Un, Offset;
    Offsets();
    OffsetMono(k, k + 1);
    OffsetMono(k + 1, NFIXED);
    assert s[..n][Offset(k)..Offset(k + 1)] == s[Offset(k)..Offset(k + 1)];
  }

  /** Other strings beside the same numbers. */
  lemma FilledAgain(s: Bytes, e: Dir, d: Dir, name: CStr, uid: CStr, gid: CStr, muid: CStr, ext: CStr)
    requires |s| >= FIXED && e == Filled(s, d.name, d.uid, d.gid, d.muid, d.ext)
    ensures e.(name := name, uid := uid, gid := gid, muid := muid, ext := ext) == Filled(s, name, uid, gid, muid, ext)
  {
    hide Field;
  }
}
