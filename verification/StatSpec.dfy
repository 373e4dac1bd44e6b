/** A directory entry and its bytes. */
module StatSpec {
  import opened StatBytes

  /** What a char pointer points at. */
  datatype CStr = Null | Str(text: Bytes)

  datatype Dir = Dir(kind: int, dev: int, qtype: int, vers: int, path: int, mode: int, atime: int, mtime: int,
                     length: int, name: CStr, uid: CStr, gid: CStr, muid: CStr, ext: CStr)

  const NFIXED := 10
  const FIXED := 41          // bytes before the strings
  const STATFIXLEN := 49     // with the four counts
  const WIDTHS: seq<nat> := [2, 2, 4, 1, 4, 8, 4, 4, 4, 8]

  function Offset(k: nat): nat
    requires k <= NFIXED
  {
    if k == 0 then 0 else Offset(k - 1) + WIDTHS[k - 1]
  }

  lemma Offsets()
    ensures Offset(0) == 0 && Offset(1) == 2 && Offset(2) == 4 && Offset(3) == 8 && Offset(4) == 9 && Offset(5) == 13
    ensures Offset(6) == 21 && Offset(7) == 25 && Offset(8) == 29 && Offset(9) == 33 && Offset(10) == FIXED
  {
    assert Offset(1) == 2;
    assert Offset(2) == 4;
    assert Offset(3) == 8;
    assert Offset(4) == 9;
    assert Offset(5) == 13;
    assert Offset(6) == 21;
    assert Offset(7) == 25;
    assert Offset(8) == 29;
    assert Offset(9) == 33;
  }

  /** The first k fields, one after the other. */
  function Fields(vs: seq<int>, k: nat): (s: Bytes)
    requires k <= NFIXED == |vs|
    ensures |s| == Offset(k)
  {
    if k == 0 then [] else Fields(vs, k - 1) + Le(vs[k - 1], WIDTHS[k - 1])
  }

  function Text(c: CStr): Bytes { if c.Null? then [] else c.text }

  function Texts(d: Dir): seq<Bytes> { [Text(d.name), Text(d.uid), Text(d.gid), Text(d.muid)] }

  function Total(ts: seq<Bytes>): nat
  {
    if ts == [] then 0 else Total(ts[..|ts| - 1]) + |ts[|ts| - 1]|
  }

  function Size(d: Dir): nat { STATFIXLEN + Total(Texts(d)) }

  function Values(d: Dir): (vs: seq<int>)
    ensures |vs| == NFIXED
  {
    [Size(d) - 2, d.kind, d.dev, d.qtype, d.vers, d.path, d.mode, d.atime, d.mtime, d.length]
  }

  /** The bytes of an entry: the count, the other numbers, the strings. */
  function Encode(d: Dir): Bytes { Fields(Values(d), NFIXED) + PutStrs(Texts(d)) }

  /** The bytes of some entry: as many as they say, the fixed part, and exactly four strings. */
  ghost predicate IsStat(s: Bytes) { |s| >= STATFIXLEN && Count(s) + 2 == |s| && Strings(s, FIXED, 4) }

  /** The strings after the fixed part. */
  ghost function Parts(s: Bytes): (ts: seq<Bytes>)
    requires Strings(s, FIXED, 4)
    ensures |ts| == 4 && AllShort(ts) && s[FIXED..] == PutStrs(ts)
  {
    var ts: seq<Bytes> :| |ts| == 4 && AllShort(ts) && s[FIXED..] == PutStrs(ts);
    ts
  }

  function Field(s: Bytes, k: nat): nat
    requires k < NFIXED && Offset(k) <= Offset(k + 1) <= |s|
  {
    Un(s[Offset(k)..Offset(k + 1)])
  }

  function Signed(v: nat): int { if v < 0x8000_0000_0000_0000 then v else v - 0x1_0000_0000_0000_0000 }

  /** The numbers in the fixed part, and these strings. */
  function Filled(s: Bytes, name: CStr, uid: CStr, gid: CStr, muid: CStr, ext: CStr): Dir
    requires |s| >= FIXED
  {
    Offsets();
    Dir(Field(s, 1), Field(s, 2), Field(s, 3), Field(s, 4), Field(s, 5), Field(s, 6), Field(s, 7), Field(s, 8),
        Signed(Field(s, 9)), name, uid, gid, muid, ext)
  }

  function WithStrings(s: Bytes, ts: seq<Bytes>): Dir
    requires |s| >= FIXED && |ts| == 4
  {
    Filled(s, Str(StrOf(ts[0])), Str(StrOf(ts[1])), Str(StrOf(ts[2])), Str(StrOf(ts[3])), Str([]))
  }

  ghost function Decode(s: Bytes): Dir
    requires Strings(s, FIXED, 4)
  {
    WithStrings(s, Parts(s))
  }

  // ----- sizes ----------------------------------------------------------------------------------

  lemma {:induction false} PutSize(ts: seq<Bytes>)
    ensures |PutStrs(ts)| == Total(ts) + 2 * |ts|
  {
    if ts != [] {
      PutSize(ts[..|ts| - 1]);
    }
  }

  /** An entry takes as many bytes as sizeD2M says. */
  lemma EncodeSize(d: Dir)
    ensures |Encode(d)| == Size(d)
  {
    Offsets();
    PutSize(Texts(d));
  }

  lemma {:induction false} TotalMore(ts: seq<Bytes>, i: nat)
    requires i < |ts|
    ensures |ts[i]| <= Total(ts)
  {
    if i < |ts| - 1 {
      TotalMore(ts[..|ts| - 1], i);
    }
  }

  // ----- fields ---------------------------------------------------------------------------------

  lemma {:induction false} OffsetMono(k: nat, n: nat)
    requires k <= n <= NFIXED
    ensures Offset(k) <= Offset(n)
    decreases n
  {
    if k < n {
      OffsetMono(k, n - 1);
    }
  }

  /** Each field is where its offset says. */
  lemma {:induction false} FieldsAt(vs: seq<int>, n: nat, k: nat)
    requires |vs| == NFIXED && k < n <= NFIXED
    ensures Offset(k) <= Offset(k + 1) <= Offset(n) && Fields(vs, n)[Offset(k)..Offset(k + 1)] == Le(vs[k], WIDTHS[k])
  {
    hide Le, Fields, Offset;
    FieldsNext(vs, n);
    OffsetMono(k, k + 1);
    if k < n - 1 {
      FieldsAt(vs, n - 1, k);
      SliceLeft(Fields(vs, n - 1), Le(vs[n - 1], WIDTHS[n - 1]), Offset(k), Offset(k + 1));
    }
  }

  lemma FieldsNext(vs: seq<int>, n: nat)
    requires |vs| == NFIXED && 0 < n <= NFIXED
    ensures Fields(vs, n) == Fields(vs, n - 1) + Le(vs[n - 1], WIDTHS[n - 1])
    ensures Offset(n - 1) <= Offset(n) && Fields(vs, n)[Offset(n - 1)..Offset(n)] == Le(vs[n - 1], WIDTHS[n - 1])
  {
    hide Le;
  }

  lemma SliceLeft(x: Bytes, y: Bytes, a: nat, b: nat)
    requires a <= b <= |x|
    ensures (x + y)[a..b] == x[a..b]
  {
  }

  /** The fixed part is its fields. */
  lemma {:induction false} FieldsOf(s: Bytes, vs: seq<int>, n: nat)
    requires |vs| == NFIXED && n <= NFIXED && Offset(n) <= |s|
    requires forall k :: 0 <= k < n ==> SameField(s, vs, k)
    ensures s[..Offset(n)] == Fields(vs, n)
  {
    hide Le;
    if n > 0 {
      OffsetMono(n - 1, n);
      FieldsOf(s, vs, n - 1);
      assert SameField(s, vs, n - 1);
      assert s[..Offset(n)] == s[..Offset(n - 1)] + s[Offset(n - 1)..Offset(n)];
    }
  }

  ghost predicate SameField(s: Bytes, vs: seq<int>, k: nat)
    requires |vs| == NFIXED && k < NFIXED
  {
    Offset(k) <= Offset(k + 1) <= |s| && s[Offset(k)..Offset(k + 1)] == Le(vs[k], WIDTHS[k])
  }

  /** A value that agrees with a field modulo its width has its bytes. */
  lemma FieldIs(s: Bytes, vs: seq<int>, k: nat)
    requires |vs| == NFIXED && k < NFIXED && Offset(k) <= Offset(k + 1) <= |s| &&
             vs[k] % Pow256(WIDTHS[k]) == Field(s, k)
    ensures SameField(s, vs, k)
  {
    hide Le, Un, Pow256;
    var w := WIDTHS[k];
    var b := s[Offset(k)..Offset(k + 1)];
    assert |b| == w;
    LeUn(b);
    LeMod(vs[k], w);
  }

  lemma LeMod(v: int, n: nat)
    ensures Le(v, n) == Le(v % Pow256(n), n)
  {
    UnLe(v, n);
    LeUn(Le(v, n));
  }

  /** A field of an encoded entry holds its value, as far as it has room. */
  lemma EncodedField(d: Dir, k: nat)
    requires k < NFIXED
    ensures Offset(k) <= Offset(k + 1) <= |Encode(d)| && Field(Encode(d), k) == Values(d)[k] % Pow256(WIDTHS[k])
  {
    hide Le, Un, Pow256, PutStrs, Values, Fields, Offset;
    var vs := Values(d);
    FieldsAt(vs, NFIXED, k);
    SliceLeft(Fields(vs, NFIXED), PutStrs(Texts(d)), Offset(k), Offset(k + 1));
    UnLe(vs[k], WIDTHS[k]);
  }

  // ----- an encoded entry is well formed, unless it is too long ---------------------------------

  lemma EncodeStrings(d: Dir)
    requires Size(d) - 2 < 0x10000
    ensures Strings(Encode(d), FIXED, 4) && Parts(Encode(d)) == Texts(d)
  {
    hide PutStrs, Fields, Total;
    Offsets();
    var ts := Texts(d);
    forall i | 0 <= i < |ts| ensures Short(ts[i]) {
      TotalMore(ts, i);
    }
    assert Encode(d)[FIXED..] == PutStrs(ts);
    assert |ts| == 4 && AllShort(ts);
    StringsUnique(ts, Parts(Encode(d)));
  }

  lemma EncodedCount(d: Dir)
    ensures |Encode(d)| >= STATFIXLEN && Count(Encode(d)) == (Size(d) - 2) % 0x10000
  {
    hide PutStrs, Fields, Total, Un;
    EncodeSize(d);
    EncodedField(d, 0);
    Offsets();
    Small();
  }

  /** statcheck accepts an encoded entry exactly when its size fits the count. */
  lemma EncodeValid(d: Dir)
    ensures IsStat(Encode(d)) <==> Size(d) - 2 < 0x10000
  {
    hide Encode, Size, Count, Strings;
    EncodeSize(d);
    EncodedCount(d);
    if Size(d) - 2 < 0x10000 {
      EncodeStrings(d);
    }
  }

  // ----- decoding what was encoded -----------------------------------------------------------------

  /** The entry with its numbers cut to their widths, and empty strings for missing ones. */
  function Trim(d: Dir): Dir
  {
    Dir(d.kind % 0x10000, d.dev % 0x1_0000_0000, d.qtype % 0x100, d.vers % 0x1_0000_0000,
        d.path % 0x1_0000_0000_0000_0000, d.mode % 0x1_0000_0000, d.atime % 0x1_0000_0000, d.mtime % 0x1_0000_0000,
        Signed(d.length % 0x1_0000_0000_0000_0000),
        Str(Text(d.name)), Str(Text(d.uid)), Str(Text(d.gid)), Str(Text(d.muid)), Str([]))
  }

  /** C strings have no zero in them. */
  ghost predicate NulFree(ts: seq<Bytes>) { forall i :: 0 <= i < |ts| ==> 0 !in ts[i] }

  predicate Word(v: int) { 0 <= v < 0x1_0000_0000 }

  /** Every number fits its field, and no string is missing. */
  predicate InRange(d: Dir)
  {
    0 <= d.kind < 0x10000 && Word(d.dev) && 0 <= d.qtype < 0x100 && Word(d.vers) &&
    0 <= d.path < 0x1_0000_0000_0000_0000 && Word(d.mode) && Word(d.atime) && Word(d.mtime) &&
    -0x8000_0000_0000_0000 <= d.length < 0x8000_0000_0000_0000 &&
    d.name.Str? && d.uid.Str? && d.gid.Str? && d.muid.Str? && d.ext == Str([])
  }

  lemma TrimRange(d: Dir)
    ensures Trim(d) == d <==> InRange(d)
  {
  }

  /** Decoding gives back the entry, as far as the format has room for it. */
  lemma DecodeEncode(d: Dir)
    requires NulFree(Texts(d)) && Size(d) - 2 < 0x10000
    ensures IsStat(Encode(d)) && Decode(Encode(d)) == Trim(d)
  {
    hide Encode, Size, Count, Strings, Field, Signed, Offset;
    EncodeValid(d);
    EncodeStrings(d);
    EncodedNumbers(d);
    StrIs(Text(d.name), []);
    StrIs(Text(d.uid), []);
    StrIs(Text(d.gid), []);
    StrIs(Text(d.muid), []);
    var ts := Texts(d);
    assert 0 !in ts[0] && 0 !in ts[1] && 0 !in ts[2] && 0 !in ts[3];
  }

  lemma EncodedNumbers(d: Dir)
    requires |Encode(d)| >= FIXED
    ensures var (n, u, g, m) := (Str(Text(d.name)), Str(Text(d.uid)), Str(Text(d.gid)), Str(Text(d.muid)));
            Filled(Encode(d), n, u, g, m, Str([])) == Trim(d)
  {
    hide Encode, Size, Field, Signed, Pow256, Total;
    Offsets();
    Small();
    EncodedField(d, 1);
    EncodedField(d, 2);
    EncodedField(d, 3);
    EncodedField(d, 4);
    EncodedField(d, 5);
    EncodedField(d, 6);
    EncodedField(d, 7);
    EncodedField(d, 8);
    EncodedField(d, 9);
  }

  /** An entry comes back exactly when it is in range. */
  lemma RoundTrip(d: Dir)
    requires NulFree(Texts(d)) && Size(d) - 2 < 0x10000
    ensures IsStat(Encode(d)) && (Decode(Encode(d)) == d <==> InRange(d))
  {
    hide Encode, Decode, Size, Trim, InRange, IsStat;
    DecodeEncode(d);
    TrimRange(d);
  }

  // ----- encoding what was decoded -----------------------------------------------------------------

  lemma DecodedTotal(s: Bytes)
    requires IsStat(s)
    ensures Total(Parts(s)) == |s| - STATFIXLEN
    ensures Total(Texts(Decode(s))) <= Total(Parts(s)) &&
            (Total(Texts(Decode(s))) == Total(Parts(s)) <==> NulFree(Parts(s)))
    ensures NulFree(Parts(s)) ==> Texts(Decode(s)) == Parts(s)
  {
    hide PutStrs, Strings, Filled, Count;
    var ts := Parts(s);
    PutSize(ts);
    var us := Texts(Decode(s));
    assert us == [StrOf(ts[0]), StrOf(ts[1]), StrOf(ts[2]), StrOf(ts[3])] by { FilledTexts(s, ts); }
    Total4(ts);
    Total4(us);
    StrWhole(ts[0]);
    StrWhole(ts[1]);
    StrWhole(ts[2]);
    StrWhole(ts[3]);
    assert ts == [ts[0], ts[1], ts[2], ts[3]];
  }

  lemma FilledTexts(s: Bytes, ts: seq<Bytes>)
    requires |s| >= FIXED && |ts| == 4
    ensures Texts(WithStrings(s, ts)) == [StrOf(ts[0]), StrOf(ts[1]), StrOf(ts[2]), StrOf(ts[3])]
  {
  }

  lemma Total4(ts: seq<Bytes>)
    requires |ts| == 4
    ensures Total(ts) == |ts[0]| + |ts[1]| + |ts[2]| + |ts[3]|
  {
    assert ts[..3][..2] == ts[..2] && ts[..2][..1] == ts[..1] && ts[..1][..0] == [];
    assert Total(ts[..1]) == |ts[0]|;
    assert Total(ts[..2]) == |ts[0]| + |ts[1]|;
    assert Total(ts[..3]) == |ts[0]| + |ts[1]| + |ts[2]|;
  }

  lemma StrWhole(t: Bytes)
    ensures |StrOf(t)| == |t| <==> 0 !in t
    ensures StrOf(t) == t <==> 0 !in t
  {
    StrIs(t, []);
  }

  lemma DecodedFields(s: Bytes)
    requires IsStat(s) && NulFree(Parts(s))
    ensures Fields(Values(Decode(s)), NFIXED) == s[..FIXED]
  {
    hide Le, Un, Fields, Parts, Strings, Count, Total, SameField, Texts;
    Offsets();
    var d := Decode(s);
    var vs := Values(d);
    DecodedTotal(s);
    forall k | 0 <= k < NFIXED ensures SameField(s, vs, k) {
      DecodedField(s, k);
    }
    FieldsOf(s, vs, NFIXED);
  }

  lemma DecodedField(s: Bytes, k: nat)
    requires IsStat(s) && NulFree(Parts(s)) && k < NFIXED
    ensures SameField(s, Values(Decode(s)), k)
  {
    hide Le, Fields, Parts, Strings, Total, SameField, Texts, Un, Pow256, Offset;
    Offsets();
    Small();
    DecodedTotal(s);
    var vs := Values(Decode(s));
    DecodedValue(s, k);
    FieldRange(s, k);
    FieldIs(s, vs, k);
  }

  lemma FieldRange(s: Bytes, k: nat)
    requires |s| >= FIXED && k < NFIXED
    ensures Offset(k) <= Offset(k + 1) <= |s| && Field(s, k) < Pow256(WIDTHS[k])
  {
    hide Un, Pow256;
    Offsets();
    LeUn(s[Offset(k)..Offset(k + 1)]);
  }

  lemma DecodedValue(s: Bytes, k: nat)
    requires IsStat(s) && NulFree(Parts(s)) && k < NFIXED
    ensures Offset(k) <= Offset(k + 1) <= |s| && Values(Decode(s))[k] % Pow256(WIDTHS[k]) == Field(s, k)
  {
    hide Parts, Strings, Total, Texts, Pow256, Offset, Un;
    Offsets();
    Small();
    DecodedTotal(s);
    FieldRange(s, k);
    ModSmall(Field(s, k), Pow256(WIDTHS[k]));
    if k == 0 {
      assert Field(s, 0) == Count(s);
    } else if k == 9 {
      SignedMod(Field(s, 9));
    }
  }

  lemma ModSmall(v: nat, m: nat)
    requires v < m
    ensures v % m == v
  {
  }

  lemma SignedMod(v: nat)
    requires v < 0x1_0000_0000_0000_0000
    ensures Signed(v) % 0x1_0000_0000_0000_0000 == v
  {
  }

  /** Bytes that statcheck accepts come back exactly when no string has a zero in it. */
  lemma EncodeDecode(s: Bytes)
    requires IsStat(s)
    ensures Encode(Decode(s)) == s <==> NulFree(Parts(s))
  {
    hide PutStrs, Fields, Values, Parts, Strings, Total, Texts, Decode, Count;
    DecodedTotal(s);
    EncodeSize(Decode(s));
    if NulFree(Parts(s)) {
      DecodedFields(s);
      assert s == s[..FIXED] + s[FIXED..];
    }
  }
}
