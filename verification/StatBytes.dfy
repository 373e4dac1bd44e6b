/** Integers and strings as 9P lays them out: little-endian, and counted by two bytes. */
module StatBytes {

  type Byte = x: int | 0 <= x < 256

  type Bytes = seq<Byte>

  // ----- integers ---------------------------------------------------------------------------

  function Pow256(n: nat): (r: nat)
    ensures r > 0
  {
    if n == 0 then 1 else 256 * Pow256(n - 1)
  }

  /** The low n bytes of v, in two's complement, least significant first. */
  function Le(v: int, n: nat): (s: Bytes)
    ensures |s| == n
    decreases n
  {
    if n == 0 then [] else [v % 256] + Le(v / 256, n - 1)
  }

  /** The unsigned integer in a string of bytes. */
  function Un(s: Bytes): nat
  {
    if s == [] then 0 else s[0] + 256 * Un(s[1..])
  }

  lemma {:induction false} UnLe(v: int, n: nat)
    ensures Un(Le(v, n)) == v % Pow256(n)
    decreases n
  {
    if n > 0 {
      UnLe(v / 256, n - 1);
      assert Le(v, n)[1..] == Le(v / 256, n - 1);
      DigitMod(v, Pow256(n - 1));
    }
  }

  lemma DigitMod(v: int, m: nat)
    requires m > 0
    ensures v % (256 * m) == v % 256 + 256 * (v / 256 % m)
  {
    var q, r := v / 256 / m, v / 256 % m;
    assert v / 256 == m * q + r;
    assert v == 256 * (m * q + r) + v % 256;
    ModIs(v, 256 * m, q, 256 * r + v % 256);
  }

  lemma {:induction false} MulMore(m: nat, a: int, b: int)
    ensures a < b ==> m * a + m <= m * b
    decreases b - a
  {
    if a < b {
      MulMore(m, a, b - 1);
      assert m * b == m * (b - 1) + m;
    }
  }

  lemma ModIs(v: int, m: nat, q: int, r: nat)
    requires m > 0 && v == m * q + r && r < m
    ensures v % m == r
  {
    var x := v / m;
    MulMore(m, x, q);
    MulMore(m, q, x);
  }

  lemma {:induction false} LeUn(s: Bytes)
    ensures Le(Un(s), |s|) == s && Un(s) < Pow256(|s|)
  {
    if s != [] {
      LeUn(s[1..]);
      assert Un(s) % 256 == s[0] && Un(s) / 256 == Un(s[1..]);
    }
  }

  lemma Small()
    ensures Pow256(1) == 0x100 && Pow256(2) == 0x10000 && Pow256(4) == 0x1_0000_0000 &&
            Pow256(8) == 0x1_0000_0000_0000_0000
  {
    assert Pow256(3) == 256 * Pow256(2) && Pow256(4) == 256 * Pow256(3);
    assert Pow256(5) == 256 * Pow256(4) && Pow256(6) == 256 * Pow256(5) && Pow256(7) == 256 * Pow256(6);
  }

  /** Few bytes, written out. */
  lemma Un2(s: Bytes)
    requires |s| == 2
    ensures Un(s) == s[0] + 0x100 * (s[1] as int)
  {
    assert Un(s[1..]) == s[1] + 256 * Un(s[1..][1..]);
  }

  lemma Un4(s: Bytes)
    requires |s| == 4
    ensures Un(s) == s[0] + 0x100 * (s[1] as int) + 0x10000 * (s[2] as int) + 0x100_0000 * (s[3] as int)
  {
    Un2(s[2..]);
    assert s[1..][1..] == s[2..];
    assert Un(s[1..]) == s[1] + 256 * Un(s[2..]);
  }

  lemma Un8(s: Bytes)
    requires |s| == 8
    ensures Un(s) == Un(s[..4]) + 0x1_0000_0000 * Un(s[4..])
  {
    assert s[1..][1..] == s[2..] && s[2..][1..] == s[3..] && s[3..][1..] == s[4..];
    assert Un(s[3..]) == s[3] + 256 * Un(s[4..]);
    assert Un(s[2..]) == s[2] + 256 * Un(s[3..]);
    assert Un(s[1..]) == s[1] + 256 * Un(s[2..]);
    Un4(s[..4]);
  }

  lemma Le2(v: int)
    ensures Le(v, 2) == [v % 256, v / 0x100 % 256]
  {
    assert Le(v / 256, 1) == [v / 256 % 256] + Le(v / 256 / 256, 0);
  }

  // ----- strings ------------------------------------------------------------------------------

  /** A C string in a buffer: up to its first zero. */
  function StrOf(s: Bytes): (t: Bytes)
    ensures |t| <= |s| && t == s[..|t|] && 0 !in t && (|t| < |s| ==> s[|t|] == 0)
  {
    if s == [] || s[0] == 0 then [] else [s[0]] + StrOf(s[1..])
  }

  lemma {:induction false} StrIs(t: Bytes, rest: Bytes)
    requires rest == [] || rest[0] == 0
    ensures StrOf(t + rest) == StrOf(t)
    ensures 0 !in t ==> StrOf(t) == t
  {
    if t == [] {
      assert t + rest == rest;
    } else {
      assert (t + rest)[1..] == t[1..] + rest;
      StrIs(t[1..], rest);
    }
  }

  function PutStr(t: Bytes): Bytes { Le(|t|, 2) + t }

  function PutStrs(ts: seq<Bytes>): Bytes
  {
    if ts == [] then [] else PutStrs(ts[..|ts| - 1]) + PutStr(ts[|ts| - 1])
  }

  ghost predicate Short(t: Bytes) { |t| < 0x10000 }

  ghost predicate AllShort(ts: seq<Bytes>) { forall i :: 0 <= i < |ts| ==> Short(ts[i]) }

  lemma {:induction false} PutFirst(t: Bytes, ts: seq<Bytes>)
    ensures PutStrs([t] + ts) == PutStr(t) + PutStrs(ts)
  {
    hide PutStr;
    var all := [t] + ts;
    if ts == [] {
      assert all[..0] == [] && all == [t];
    } else {
      var n := |ts| - 1;
      PutFirst(t, ts[..n]);
      assert all[..|all| - 1] == [t] + ts[..n];
    }
  }

  /** The count before a string. */
  function Count(s: Bytes): nat
    requires |s| >= 2
  {
    Un(s[..2])
  }

  lemma CountOf(t: Bytes, rest: Bytes)
    requires Short(t)
    ensures |PutStr(t) + rest| >= 2 + |t| && Count(PutStr(t) + rest) == |t| && (PutStr(t) + rest)[2..2 + |t|] == t &&
            (PutStr(t) + rest)[2 + |t|..] == rest
  {
    hide Le, Un;
    var s := PutStr(t) + rest;
    assert s[..2] == Le(|t|, 2);
    UnLe(|t|, 2);
    Small();
  }

  /** From pos on there are exactly k strings. */
  ghost predicate Strings(s: Bytes, pos: nat, k: nat)
  {
    pos <= |s| && exists ts: seq<Bytes> :: |ts| == k && AllShort(ts) && s[pos..] == PutStrs(ts)
  }

  lemma StringsNone(s: Bytes, pos: nat)
    ensures Strings(s, pos, 0) <==> pos == |s|
  {
    if pos == |s| {
      var none: seq<Bytes> := [];
      assert |none| == 0 && AllShort(none) && s[pos..] == PutStrs(none);
    }
  }

  lemma StringsStep(s: Bytes, pos: nat, k: nat)
    ensures Strings(s, pos, k + 1) <==> pos + 2 <= |s| && Strings(s, pos + 2 + Count(s[pos..]), k)
  {
    hide PutStr, PutStrs, Count;
    if Strings(s, pos, k + 1) {
      var ts: seq<Bytes> :| |ts| == k + 1 && AllShort(ts) && s[pos..] == PutStrs(ts);
      assert ts == [ts[0]] + ts[1..];
      PutFirst(ts[0], ts[1..]);
      CountOf(ts[0], PutStrs(ts[1..]));
      assert s[pos + 2 + |ts[0]|..] == s[pos..][2 + |ts[0]|..];
      assert |ts[1..]| == k && AllShort(ts[1..]);
    }
    if pos + 2 <= |s| && Strings(s, pos + 2 + Count(s[pos..]), k) {
      StringsMore(s, pos, k);
    }
  }

  lemma StringsMore(s: Bytes, pos: nat, k: nat)
    requires pos + 2 <= |s| && Strings(s, pos + 2 + Count(s[pos..]), k)
    ensures Strings(s, pos, k + 1)
  {
    hide PutStrs, Le, Un;
    var n := Count(s[pos..]);
    var ts: seq<Bytes> :| |ts| == k && AllShort(ts) && s[pos + 2 + n..] == PutStrs(ts);
    var t := s[pos + 2..pos + 2 + n];
    LeUn(s[pos..][..2]);
    Small();
    PutFirst(t, ts);
    assert s[pos..] == PutStr(t) + s[pos + 2 + n..];
    assert |[t] + ts| == k + 1 && AllShort([t] + ts);
  }

  /** The strings are determined by the bytes. */
  lemma {:induction false} StringsUnique(ts: seq<Bytes>, us: seq<Bytes>)
    requires AllShort(ts) && AllShort(us) && |ts| == |us| && PutStrs(ts) == PutStrs(us)
    ensures ts == us
  {
    hide PutStr, PutStrs, Count;
    if ts != [] {
      assert ts == [ts[0]] + ts[1..] && us == [us[0]] + us[1..];
      PutFirst(ts[0], ts[1..]);
      PutFirst(us[0], us[1..]);
      CountOf(ts[0], PutStrs(ts[1..]));
      CountOf(us[0], PutStrs(us[1..]));
      StringsUnique(ts[1..], us[1..]);
    }
  }
}
