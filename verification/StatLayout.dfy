/** The bytes of a directory entry one by one, as stat(9p) lists them. */
module StatLayout {
  import opened StatBytes
  import opened StatSpec

  function U16(s: Bytes, i: nat): nat
    requires i + 2 <= |s|
  {
    s[i] + 0x100 * (s[i + 1] as int)
  }

  function U32(s: Bytes, i: nat): nat
    requires i + 4 <= |s|
  {
    s[i] + 0x100 * (s[i + 1] as int) + 0x10000 * (s[i + 2] as int) + 0x100_0000 * (s[i + 3] as int)
  }

  function U64(s: Bytes, i: nat): nat
    requires i + 8 <= |s|
  {
    U32(s, i) + 0x1_0000_0000 * U32(s, i + 4)
  }

  /** A string behind its length. */
  function Counted(t: Bytes): Bytes { [|t| % 256, |t| / 256 % 256] + t }

  /** Where each number of d is, as far as there is room for it. */
  predicate NumbersAt(s: Bytes, d: Dir)
    requires |s| >= 41
  {
    U16(s, 2) == d.kind % 0x10000 && U32(s, 4) == d.dev % 0x1_0000_0000 && s[8] == d.qtype % 0x100 &&
    U32(s, 9) == d.vers % 0x1_0000_0000 && U64(s, 13) == d.path % 0x1_0000_0000_0000_0000 &&
    U32(s, 21) == d.mode % 0x1_0000_0000 && U32(s, 25) == d.atime % 0x1_0000_0000 &&
    U32(s, 29) == d.mtime % 0x1_0000_0000 && U64(s, 33) == d.length % 0x1_0000_0000_0000_0000
  }

  /** The bytes are those of d: their number but for these two, the numbers, and the strings. */
  predicate LaidOut(s: Bytes, d: Dir)
  {
    |s| >= 41 && U16(s, 0) == (|s| - 2) % 0x10000 && NumbersAt(s, d) &&
    s[41..] == Counted(Text(d.name)) + Counted(Text(d.uid)) + Counted(Text(d.gid)) + Counted(Text(d.muid))
  }

  /** The numbers of d are those in the bytes, the length with its sign. */
  predicate NumbersFrom(s: Bytes, d: Dir)
    requires |s| >= 41
  {
    d.kind == U16(s, 2) && d.dev == U32(s, 4) && d.qtype == s[8] && d.vers == U32(s, 9) && d.path == U64(s, 13) &&
    d.mode == U32(s, 21) && d.atime == U32(s, 25) && d.mtime == U32(s, 29) &&
    d.length == if s[40] < 128 then U64(s, 33) else U64(s, 33) - 0x1_0000_0000_0000_0000
  }

  // ----- fields by their offsets ----------------------------------------------------------------

  lemma Un16(s: Bytes, i: nat)
    requires i + 2 <= |s|
    ensures Un(s[i..i + 2]) == U16(s, i)
  {
    Un2(s[i..i + 2]);
  }

  lemma Un32(s: Bytes, i: nat)
    requires i + 4 <= |s|
    ensures Un(s[i..i + 4]) == U32(s, i)
  {
    Un4(s[i..i + 4]);
  }

  lemma Un64(s: Bytes, i: nat)
    requires i + 8 <= |s|
    ensures Un(s[i..i + 8]) == U64(s, i)
  {
    hide Un, U32;
    Un8(s[i..i + 8]);
    assert s[i..i + 8][..4] == s[i..i + 4] && s[i..i + 8][4..] == s[i + 4..i + 8];
    Un32(s, i);
    Un32(s, i + 4);
  }

  ghost predicate FieldIsNow(s: Bytes, k: nat, v: nat)
    requires k < NFIXED
  {
    Offset(k) <= Offset(k + 1) <= |s| && Field(s, k) == v
  }

  lemma FieldHere(s: Bytes, k: nat, i: nat, j: nat)
    requires k < NFIXED && Offset(k) == i <= Offset(k + 1) == j <= |s|
    ensures FieldIsNow(s, k, Un(s[i..j]))
  {
  }

  lemma UnOne(s: Bytes, i: nat)
    requires i < |s|
    ensures Un(s[i..i + 1]) == s[i]
  {
    assert s[i..i + 1][1..] == [];
  }

  /** The fields as the offsets place them. */
  lemma FieldsHere(s: Bytes)
    requires |s| >= 41
    ensures FieldIsNow(s, 0, U16(s, 0)) && FieldIsNow(s, 1, U16(s, 2)) && FieldIsNow(s, 2, U32(s, 4))
    ensures FieldIsNow(s, 3, s[8]) && FieldIsNow(s, 4, U32(s, 9)) && FieldIsNow(s, 5, U64(s, 13))
    ensures FieldIsNow(s, 6, U32(s, 21)) && FieldIsNow(s, 7, U32(s, 25)) && FieldIsNow(s, 8, U32(s, 29))
    ensures FieldIsNow(s, 9, U64(s, 33))
  {
    hide Un, U16, U32, U64, Offset, FieldIsNow;
    Offsets();
    UnOne(s, 8);
    Un16(s, 0);
    Un16(s, 2);
    Un32(s, 4);
    Un32(s, 9);
    Un64(s, 13);
    Un32(s, 21);
    Un32(s, 25);
    Un32(s, 29);
    Un64(s, 33);
    FieldHere(s, 0, 0, 2);
    FieldHere(s, 1, 2, 4);
    FieldHere(s, 2, 4, 8);
    FieldHere(s, 3, 8, 9);
    FieldHere(s, 4, 9, 13);
    FieldHere(s, 5, 13, 21);
    FieldHere(s, 6, 21, 25);
    FieldHere(s, 7, 25, 29);
    FieldHere(s, 8, 29, 33);
    FieldHere(s, 9, 33, 41);
  }

  lemma PutCounted(t: Bytes)
    ensures PutStr(t) == Counted(t)
  {
    Le2(|t|);
  }

  lemma PutFour(a: Bytes, b: Bytes, c: Bytes, d: Bytes)
    ensures PutStrs([a, b, c, d]) == Counted(a) + Counted(b) + Counted(c) + Counted(d)
  {
    PutCounted(a);
    PutCounted(b);
    PutCounted(c);
    PutCounted(d);
    hide Counted, PutStr;
    assert [a, b, c, d][..3] == [a, b, c] && [a, b, c][..2] == [a, b] && [a, b][..1] == [a] && [a][..0] == [];
    assert PutStrs([a]) == [] + PutStr(a);
    assert PutStrs([a, b]) == PutStrs([a]) + PutStr(b);
    assert PutStrs([a, b, c]) == PutStrs([a, b]) + PutStr(c);
  }

  // ----- encoding -------------------------------------------------------------------------------

  /** The numbers laid out are the fields of the encoding, the count too. */
  ghost predicate HasFields(s: Bytes, d: Dir)
    requires |s| >= 41
  {
    forall k :: 0 <= k < NFIXED ==> HasField(s, d, k)
  }

  ghost predicate HasField(s: Bytes, d: Dir, k: nat)
    requires k < NFIXED
  {
    Offset(k) <= Offset(k + 1) <= |s| && Field(s, k) == Values(d)[k] % Pow256(WIDTHS[k])
  }

  lemma NumbersAre(s: Bytes, d: Dir)
    requires |s| >= 41
    ensures HasFields(s, d) <==> U16(s, 0) == (Size(d) - 2) % 0x10000 && NumbersAt(s, d)
  {
    FieldsHere(s);
    Small();
    hide U16, U32, U64, Pow256, Field, Size, Offset;
    assert HasField(s, d, 0) <==> U16(s, 0) == (Size(d) - 2) % 0x10000;
    assert HasField(s, d, 1) <==> U16(s, 2) == d.kind % 0x10000;
    assert HasField(s, d, 2) <==> U32(s, 4) == d.dev % 0x1_0000_0000;
    assert HasField(s, d, 3) <==> s[8] == d.qtype % 0x100;
    assert HasField(s, d, 4) <==> U32(s, 9) == d.vers % 0x1_0000_0000;
    assert HasField(s, d, 5) <==> U64(s, 13) == d.path % 0x1_0000_0000_0000_0000;
    assert HasField(s, d, 6) <==> U32(s, 21) == d.mode % 0x1_0000_0000;
    assert HasField(s, d, 7) <==> U32(s, 25) == d.atime % 0x1_0000_0000;
    assert HasField(s, d, 8) <==> U32(s, 29) == d.mtime % 0x1_0000_0000;
    assert HasField(s, d, 9) <==> U64(s, 33) == d.length % 0x1_0000_0000_0000_0000;
  }

  lemma FieldsAre(s: Bytes, d: Dir)
    requires |s| >= 41
    ensures s[..41] == Fields(Values(d), NFIXED) ==> HasFields(s, d)
    ensures HasFields(s, d) ==> s[..41] == Fields(Values(d), NFIXED)
  {
    hide Field, Values, Fields, Pow256, Le, Offset;
    Offsets();
    var vs := Values(d);
    if s[..41] == Fields(vs, NFIXED) {
      forall k | 0 <= k < NFIXED ensures HasField(s, d, k) {
        FieldIsThere(s, vs, k);
      }
    }
    if HasFields(s, d) {
      forall k | 0 <= k < NFIXED ensures SameField(s, vs, k) {
        assert HasField(s, d, k);
        FieldIs(s, vs, k);
      }
      FieldsOf(s, vs, NFIXED);
    }
  }

  lemma FieldIsThere(s: Bytes, vs: seq<int>, k: nat)
    requires |s| >= 41 && |vs| == NFIXED && s[..41] == Fields(vs, NFIXED) && k < NFIXED
    ensures Offset(k) <= Offset(k + 1) <= |s| && Field(s, k) == vs[k] % Pow256(WIDTHS[k])
  {
    hide Le, Un, Pow256, Fields, Offset;
    Offsets();
    FieldsAt(vs, NFIXED, k);
    assert s == s[..41] + s[41..];
    SliceLeft(s[..41], s[41..], Offset(k), Offset(k + 1));
    UnLe(vs[k], WIDTHS[k]);
  }

  /** Bytes are the encoding of an entry exactly when everything is at its place. */
  lemma EncodeLayout(s: Bytes, d: Dir)
    ensures s == Encode(d) <==> LaidOut(s, d)
  {
    PutFour(Text(d.name), Text(d.uid), Text(d.gid), Text(d.muid));
    Offsets();
    EncodeSize(d);
    hide Fields, PutStrs, Counted, NumbersAt, U16, Size, Values;
    var strings := PutStrs(Texts(d));
    assert |Fields(Values(d), NFIXED)| == 41;
    assert s == Encode(d) <==> |s| >= 41 && s[..41] == Fields(Values(d), NFIXED) && s[41..] == strings by {
      if |s| >= 41 {
        assert s == s[..41] + s[41..];
      }
    }
    if |s| >= 41 {
      NumbersAre(s, d);
      FieldsAre(s, d);
      assert s[41..] == strings ==> |s| == |Encode(d)|;
    }
  }

  // ----- decoding -------------------------------------------------------------------------------

  lemma FilledNumbers(s: Bytes, name: CStr, uid: CStr, gid: CStr, muid: CStr, ext: CStr)
    requires |s| >= 41
    ensures var d := Filled(s, name, uid, gid, muid, ext);
            NumbersFrom(s, d) && d.name == name && d.uid == uid && d.gid == gid && d.muid == muid && d.ext == ext
  {
    FieldsHere(s);
    assert U64(s, 33) < 0x8000_0000_0000_0000 <==> s[40] < 128;
    hide U16, U32, U64, Field, Offset;
  }

  lemma PartsAre(s: Bytes, ts: seq<Bytes>)
    requires |s| >= 41 && |ts| == 4 && AllShort(ts) && s[41..] == PutStrs(ts)
    ensures Strings(s, 41, 4) && Parts(s) == ts
  {
    hide PutStrs;
    StringsUnique(ts, Parts(s));
  }

  lemma FourShort(a: Bytes, b: Bytes, c: Bytes, e: Bytes)
    requires Short(a) && Short(b) && Short(c) && Short(e)
    ensures AllShort([a, b, c, e])
  {
  }

  /** What the strings behind the numbers say is the entry decoded: each up to its first zero. */
  lemma DecodeLayout(s: Bytes, a: Bytes, b: Bytes, c: Bytes, e: Bytes)
    requires |s| >= 41 && Short(a) && Short(b) && Short(c) && Short(e)
    requires s[41..] == Counted(a) + Counted(b) + Counted(c) + Counted(e)
    ensures Strings(s, 41, 4)
    ensures var d := Decode(s);
            NumbersFrom(s, d) && d.name == Str(StrOf(a)) && d.uid == Str(StrOf(b)) && d.gid == Str(StrOf(c)) &&
            d.muid == Str(StrOf(e)) && d.ext == Str([])
  {
    hide Counted, PutStrs, NumbersFrom, Filled, StrOf, Strings, Parts, AllShort, Short;
    PutFour(a, b, c, e);
    FourShort(a, b, c, e);
    PartsAre(s, [a, b, c, e]);
    FilledNumbers(s, Str(StrOf(a)), Str(StrOf(b)), Str(StrOf(c)), Str(StrOf(e)), Str([]));
  }

  /** The entry that the bytes show: their numbers, and their four strings in this order. */
  ghost predicate Shown(s: Bytes, d: Dir)
  {
    |s| >= 41 && NumbersFrom(s, d) &&
    exists a: Bytes, b: Bytes, c: Bytes, e: Bytes :: FourAre(s, a, b, c, e) && d.name == Str(StrOf(a)) &&
      d.uid == Str(StrOf(b)) && d.gid == Str(StrOf(c)) && d.muid == Str(StrOf(e)) && d.ext == Str([])
  }

  predicate FourAre(s: Bytes, a: Bytes, b: Bytes, c: Bytes, e: Bytes)
    requires |s| >= 41
  {
    |a| < 0x10000 && |b| < 0x10000 && |c| < 0x10000 && |e| < 0x10000 &&
    s[41..] == Counted(a) + Counted(b) + Counted(c) + Counted(e)
  }

  /** Decoding gives the one entry that the bytes show. */
  lemma DecodeShown(s: Bytes, d: Dir)
    requires Strings(s, 41, 4)
    ensures Shown(s, d) <==> d == Decode(s)
  {
    hide Counted, NumbersFrom, StrOf, Decode, PutStrs;
    var ts := Parts(s);
    assert ts == [ts[0], ts[1], ts[2], ts[3]];
    assert Short(ts[0]) && Short(ts[1]) && Short(ts[2]) && Short(ts[3]);
    PutFour(ts[0], ts[1], ts[2], ts[3]);
    DecodeLayout(s, ts[0], ts[1], ts[2], ts[3]);
    assert FourAre(s, ts[0], ts[1], ts[2], ts[3]);
    if Shown(s, d) {
      var a, b, c, e :| FourAre(s, a, b, c, e) && d.name == Str(StrOf(a)) && d.uid == Str(StrOf(b)) &&
        d.gid == Str(StrOf(c)) && d.muid == Str(StrOf(e)) && d.ext == Str([]);
      assert Short(a) && Short(b) && Short(c) && Short(e);
      DecodeLayout(s, a, b, c, e);
      SameNumbers(s, d, Decode(s));
    }
  }

  lemma SameNumbers(s: Bytes, d: Dir, e: Dir)
    requires |s| >= 41 && NumbersFrom(s, d) && NumbersFrom(s, e)
    ensures d.kind == e.kind && d.dev == e.dev && d.qtype == e.qtype && d.vers == e.vers && d.path == e.path
    ensures d.mode == e.mode && d.atime == e.atime && d.mtime == e.mtime && d.length == e.length
  {
  }
}
