/** The conversions between directory entries and their bytes, and the check of a byte string. */
module StatConv {
  import opened StatBytes
  import opened StatSpec
  import opened StatLayout

  // ----- the macros that read and store integers --------------------------------------------

  function G8(buf: array<Byte>, p: nat): (v: nat)
    requires p + 1 <= buf.Length
    reads buf
    ensures v == Un(buf[p..p + 1])
  {
    buf[p]
  }

  function G16(buf: array<Byte>, p: nat): (v: nat)
    requires p + 2 <= buf.Length
    reads buf
    ensures v == Un(buf[p..p + 2])
  {
    Un2(buf[p..p + 2]);
    buf[p] + 0x100 * (buf[p + 1] as int)
  }

  function G32(buf: array<Byte>, p: nat): (v: nat)
    requires p + 4 <= buf.Length
    reads buf
    ensures v == Un(buf[p..p + 4])
  {
    Un4(buf[p..p + 4]);
    buf[p] + 0x100 * (buf[p + 1] as int) + 0x10000 * (buf[p + 2] as int) + 0x100_0000 * (buf[p + 3] as int)
  }

  function G64(buf: array<Byte>, p: nat): (v: nat)
    requires p + 8 <= buf.Length
    reads buf
    ensures v == Un(buf[p..p + 8])
  {
    Un8(buf[p..p + 8]);
    assert buf[p..p + 8][..4] == buf[p..p + 4] && buf[p..p + 8][4..] == buf[p + 4..p + 8];
    G32(buf, p) + 0x1_0000_0000 * G32(buf, p + 4)
  }

  lemma Le4(v: int)
    ensures Le(v, 4) == [v % 256, v / 0x100 % 256, v / 0x10000 % 256, v / 0x100_0000 % 256]
  {
    Le2(v / 256 / 256);
    assert Le(v / 256, 3) == [v / 256 % 256] + Le(v / 256 / 256, 2);
    assert Le(v, 4) == [v % 256] + Le(v / 256, 3);
  }

  lemma Le8(v: int)
    ensures Le(v, 8) == Le(v, 4) + Le(v / 0x1_0000_0000, 4)
  {
    Le4(v);
    var w := v / 256 / 256 / 256;
    assert w / 256 == v / 0x1_0000_0000;
    assert Le(w, 5) == [w % 256] + Le(v / 0x1_0000_0000, 4);
    assert Le(v / 256 / 256, 6) == [v / 256 / 256 % 256] + Le(w, 5);
    assert Le(v / 256, 7) == [v / 256 % 256] + Le(v / 256 / 256, 6);
    assert Le(v, 8) == [v % 256] + Le(v / 256, 7);
  }

  /** The text has been written at the start of the buffer, and nothing after it. */
  ghost predicate Sofar(was: Bytes, now: Bytes, text: Bytes)
  {
    |text| <= |was| == |now| && now[..|text|] == text && now[|text|..] == was[|text|..]
  }

  lemma SofarByte(was: Bytes, now: Bytes, text: Bytes, b: Byte)
    requires Sofar(was, now, text) && |text| < |was|
    ensures Sofar(was, now[|text| := b], text + [b])
  {
    var p := |text|;
    var now' := now[p := b];
    assert now'[..p + 1] == now[..p] + [b];
    assert now'[p + 1..] == now[p..][1..] == was[p..][1..] == was[p + 1..];
  }

  method PBit8(buf: array<Byte>, p: nat, v: int, ghost was: Bytes, ghost text: Bytes)
    requires Sofar(was, buf[..], text) && p == |text| && p + 1 <= buf.Length
    modifies buf
    ensures Sofar(was, buf[..], text + Le(v, 1))
  {
    ghost var now := buf[..];
    var b: Byte := v % 256;
    SofarByte(was, now, text, b);
    buf[p] := b;
    assert buf[..] == now[p := b];
    assert Le(v, 1) == [b];
  }

  method PBit16(buf: array<Byte>, p: nat, v: int, ghost was: Bytes, ghost text: Bytes)
    requires Sofar(was, buf[..], text) && p == |text| && p + 2 <= buf.Length
    modifies buf
    ensures Sofar(was, buf[..], text + Le(v, 2))
  {
    hide Sofar, Le;
    PBit8(buf, p, v, was, text);
    PBit8(buf, p + 1, v / 0x100, was, text + Le(v, 1));
    Le2(v);
    LeOne(v);
    LeOne(v / 0x100);
    assert text + Le(v, 1) + Le(v / 0x100, 1) == text + Le(v, 2);
  }

  lemma LeOne(v: int)
    ensures Le(v, 1) == [v % 256]
  {
  }

  lemma Le22(v: int)
    ensures Le(v, 4) == Le(v, 2) + Le(v / 0x10000, 2)
  {
    Le4(v);
    Le2(v);
    Le2(v / 0x10000);
  }

  method PBit32(buf: array<Byte>, p: nat, v: int, ghost was: Bytes, ghost text: Bytes)
    requires Sofar(was, buf[..], text) && p == |text| && p + 4 <= buf.Length
    modifies buf
    ensures Sofar(was, buf[..], text + Le(v, 4))
  {
    hide Sofar, Le;
    PBit16(buf, p, v, was, text);
    PBit16(buf, p + 2, v / 0x10000, was, text + Le(v, 2));
    Le22(v);
    assert text + Le(v, 2) + Le(v / 0x10000, 2) == text + Le(v, 4);
  }

  method PBit64(buf: array<Byte>, p: nat, v: int, ghost was: Bytes, ghost text: Bytes)
    requires Sofar(was, buf[..], text) && p == |text| && p + 8 <= buf.Length
    modifies buf
    ensures Sofar(was, buf[..], text + Le(v, 8))
  {
    hide Sofar, Le;
    PBit32(buf, p, v, was, text);
    PBit32(buf, p + 4, v / 0x1_0000_0000, was, text + Le(v, 4));
    Le8(v);
    assert text + Le(v, 4) + Le(v / 0x1_0000_0000, 4) == text + Le(v, 8);
  }

  method MemMove(buf: array<Byte>, p: nat, t: Bytes, ghost was: Bytes, ghost text: Bytes)
    requires Sofar(was, buf[..], text) && p == |text| && p + |t| <= buf.Length
    modifies buf
    ensures Sofar(was, buf[..], text + t)
  {
    hide Sofar;
    var i := 0;
    assert text + t[..0] == text;
    while i < |t|
      invariant 0 <= i <= |t| && Sofar(was, buf[..], text + t[..i])
    {
      ghost var now := buf[..];
      SofarSize(was, now, text + t[..i]);
      SofarByte(was, now, text + t[..i], t[i]);
      buf[p + i] := t[i];
      assert buf[..] == now[p + i := t[i]];
      assert text + t[..i] + [t[i]] == text + t[..i + 1];
      i := i + 1;
    }
    assert t[..i] == t;
  }

  lemma SofarSize(was: Bytes, now: Bytes, text: Bytes)
    requires Sofar(was, now, text)
    ensures |text| <= |was| == |now|
  {
  }

  // ----- sizeD2M and convD2M ---------------------------------------------------------------------

  lemma TotalNext(ts: seq<Bytes>, i: nat)
    requires i < |ts|
    ensures Total(ts[..i + 1]) == Total(ts[..i]) + |ts[i]|
  {
    assert ts[..i + 1][..i] == ts[..i];
  }

  /** sizeD2M: the number of bytes of the entry. */
  method SizeD2M(d: Dir) returns (n: nat)
    ensures n == |Encode(d)|
  {
    hide Total;
    var sv := [d.name, d.uid, d.gid, d.muid];
    ghost var ts := Texts(d);
    var ns, i := 0, 0;
    TotalNone();
    assert ts[..0] == [];
    while i < 4
      invariant 0 <= i <= 4 && ns == Total(ts[..i])
    {
      TotalNext(ts, i);
      if !sv[i].Null? {
        ns := ns + |sv[i].text|;
      }
      i := i + 1;
    }
    assert ts[..4] == ts;
    EncodeSize(d);
    n := STATFIXLEN + ns;
  }

  lemma TotalNone()
    ensures Total([]) == 0
  {
  }

  /** The numbers after the count, each at its place. */
  method PutFixed(d: Dir, buf: array<Byte>, ghost was: Bytes)
    requires buf.Length >= FIXED && Sofar(was, buf[..], Fields(Values(d), 1))
    modifies buf
    ensures Sofar(was, buf[..], Fields(Values(d), NFIXED))
  {
    hide Sofar, Le, Fields, Offset, Size;
    ghost var vs := Values(d);
    Offsets();
    FieldsNext(vs, 2);
    PBit16(buf, 2, d.kind, was, Fields(vs, 1));
    FieldsNext(vs, 3);
    PBit32(buf, 4, d.dev, was, Fields(vs, 2));
    FieldsNext(vs, 4);
    PBit8(buf, 8, d.qtype, was, Fields(vs, 3));
    FieldsNext(vs, 5);
    PBit32(buf, 9, d.vers, was, Fields(vs, 4));
    FieldsNext(vs, 6);
    PBit64(buf, 13, d.path, was, Fields(vs, 5));
    FieldsNext(vs, 7);
    PBit32(buf, 21, d.mode, was, Fields(vs, 6));
    FieldsNext(vs, 8);
    PBit32(buf, 25, d.atime, was, Fields(vs, 7));
    FieldsNext(vs, 9);
    PBit32(buf, 29, d.mtime, was, Fields(vs, 8));
    FieldsNext(vs, 10);
    PBit64(buf, 33, d.length, was, Fields(vs, 9));
  }

  lemma PutNext(ts: seq<Bytes>, i: nat)
    requires i < |ts|
    ensures PutStrs(ts[..i + 1]) == PutStrs(ts[..i]) + Le(|ts[i]|, 2) + ts[i]
    ensures |PutStrs(ts[..i + 1])| <= |PutStrs(ts)|
  {
    hide Le;
    assert ts[..i + 1][..i] == ts[..i];
    PutPrefix(ts, i + 1);
  }

  lemma {:induction false} PutPrefix(ts: seq<Bytes>, i: nat)
    requires i <= |ts|
    ensures |PutStrs(ts[..i])| <= |PutStrs(ts)|
    decreases |ts|
  {
    if i == |ts| {
      assert ts[..i] == ts;
    } else {
      PutPrefix(ts[..|ts| - 1], i);
      assert ts[..|ts| - 1][..i] == ts[..i];
    }
  }

  /** The four strings after the fixed part; there is room, so the test for it cannot fail. */
  method PutStrings(d: Dir, buf: array<Byte>, ghost was: Bytes) returns (p: nat)
    requires buf.Length >= |Encode(d)| && Sofar(was, buf[..], Fields(Values(d), NFIXED))
    modifies buf
    ensures p == |Encode(d)| && Sofar(was, buf[..], Encode(d))
  {
    hide Sofar, Le, Fields, Values, PutStrs;
    Offsets();
    var sv := [d.name, d.uid, d.gid, d.muid];
    ghost var fixed, ts := Fields(Values(d), NFIXED), Texts(d);
    p := FIXED;
    PutNone();
    assert ts[..0] == [] && fixed + [] == fixed;
    var i := 0;
    while i < 4
      invariant 0 <= i <= 4 && p == |fixed + PutStrs(ts[..i])| && Sofar(was, buf[..], fixed + PutStrs(ts[..i]))
    {
      var t := Text(sv[i]);
      PutNext(ts, i);
      ghost var text := fixed + PutStrs(ts[..i]);
      assert fixed + PutStrs(ts[..i + 1]) == text + Le(|t|, 2) + t;
      assert p + |t| + 2 <= buf.Length;
      PBit16(buf, p, |t|, was, text);
      p := p + 2;
      MemMove(buf, p, t, was, text + Le(|t|, 2));
      p := p + |t|;
      i := i + 1;
    }
    assert ts[..4] == ts;
  }

  lemma PutNone()
    ensures PutStrs([]) == []
  {
  }

  /** convD2M: the whole entry, or only its count when the buffer is too small for the rest. */
  method ConvD2M(d: Dir, buf: array<Byte>, nbuf: nat) returns (n: nat)
    requires nbuf <= buf.Length
    modifies buf
    ensures nbuf < 2 ==> n == 0 && buf[..] == old(buf[..])
    ensures 2 <= nbuf < Size(d) ==> n == 2 && Sofar(old(buf[..]), buf[..], Le(Size(d) - 2, 2))
    ensures Size(d) <= nbuf ==> n == Size(d) && Sofar(old(buf[..]), buf[..], Encode(d)) && LaidOut(buf[..n], d)
  {
    hide Sofar, Le, Fields, Encode, LaidOut;
    if nbuf < 2 {
      return 0;
    }
    ghost var was := buf[..];
    var ss := SizeD2M(d);
    EncodeSize(d);
    SofarNone(was);
    PBit16(buf, 0, ss - 2, was, []);
    FieldsFirst(d);
    if ss > nbuf {
      return 2;
    }
    PutFixed(d, buf, was);
    n := PutStrings(d, buf, was);
    SofarText(was, buf[..], Encode(d));
    EncodeLayout(buf[..n], d);
  }

  lemma SofarText(was: Bytes, now: Bytes, text: Bytes)
    ensures Sofar(was, now, text) ==> |text| <= |now| && now[..|text|] == text
  {
  }

  lemma SofarNone(was: Bytes)
    ensures Sofar(was, was, [])
  {
  }

  lemma FieldsFirst(d: Dir)
    ensures Fields(Values(d), 1) == Le(Size(d) - 2, 2) == [] + Le(Size(d) - 2, 2)
  {
    hide Le;
    FieldsNext(Values(d), 1);
  }

  // ----- statcheck ---------------------------------------------------------------------------------

  lemma CountAt(buf: array<Byte>, nbuf: nat, pos: nat)
    requires pos + 2 <= nbuf <= buf.Length
    ensures Count(buf[..nbuf][pos..]) == G16(buf, pos)
  {
    assert buf[..nbuf][pos..][..2] == buf[pos..pos + 2];
  }

  /** statcheck: zero exactly for the bytes of an entry. */
  method StatCheck(buf: array<Byte>, nbuf: nat) returns (r: int)
    requires nbuf <= buf.Length
    ensures r == 0 || r == -1
    ensures r == 0 <==> IsStat(buf[..nbuf])
  {
    hide Strings, Count, Un;
    ghost var s := buf[..nbuf];
    if nbuf < STATFIXLEN {
      return -1;
    }
    CountAt(buf, nbuf, 0);
    assert s[0..] == s;
    if nbuf != 2 + G16(buf, 0) {
      return -1;
    }
    var pos := STATFIXLEN - 8;
    var i := 0;
    while i < 4
      invariant 0 <= i <= 4 && pos >= 0 && (IsStat(s) <==> Strings(s, pos, 4 - i))
    {
      StringsStep(s, pos, 3 - i);
      if pos + 2 > nbuf {
        return -1;
      }
      CountAt(buf, nbuf, pos);
      pos := pos + 2 + G16(buf, pos);
      i := i + 1;
    }
    StringsNone(s, pos);
    r := if pos != nbuf then -1 else 0;
  }
}
