/** What a join of two key-sorted files is: the nested-loop join, and the lines left unmatched. */
module JoinSpec {
  import opened JoinKeys

  /** A line: its join field in a buffer, and its number of fields. */
  datatype Line = Line(field: seq<Rune>, count: nat)

  function KeyOf(l: Line): seq<Rune> { StrOf(l.field) }

  ghost predicate IsFile(f: seq<Line>) { forall p :: 0 <= p < |f| ==> Terminated(f[p].field) && f[p].count > 0 }

  ghost predicate Sorted(f: seq<Line>) { forall p, q :: 0 <= p < q < |f| ==> Compare(KeyOf(f[p]), KeyOf(f[q])) <= 0 }

  /** One line of output: from a line of each file, or of one of them. */
  datatype Emit = Both(i: nat, j: nat) | First(i: nat) | Second(j: nat)

  predicate Matches(f1: seq<Line>, f2: seq<Line>, i: nat, j: nat)
    requires i < |f1| && j < |f2|
  {
    KeyOf(f1[i]) == KeyOf(f2[j])
  }

  /** Line i against the first j lines of file 2. */
  function Row(f1: seq<Line>, f2: seq<Line>, i: nat, j: nat): (r: seq<Emit>)
    requires i < |f1| && j <= |f2|
    ensures forall e :: e in r ==> e.Both? && e.i == i && e.j < j && Matches(f1, f2, i, e.j)
  {
    if j == 0 then [] else Row(f1, f2, i, j - 1) + if Matches(f1, f2, i, j - 1) then [Both(i, j - 1)] else []
  }

  /** The nested loops, for the first i lines of file 1. */
  function Nested(f1: seq<Line>, f2: seq<Line>, i: nat): (r: seq<Emit>)
    requires i <= |f1|
    ensures forall e :: e in r ==> e.Both? && e.i < |f1| && e.j < |f2| && Matches(f1, f2, e.i, e.j)
  {
    if i == 0 then [] else Nested(f1, f2, i - 1) + Row(f1, f2, i - 1, |f2|)
  }

  ghost predicate Lone1(f1: seq<Line>, f2: seq<Line>, i: nat)
    requires i < |f1|
  {
    forall j :: 0 <= j < |f2| ==> !Matches(f1, f2, i, j)
  }

  ghost predicate Lone2(f1: seq<Line>, f2: seq<Line>, j: nat)
    requires j < |f2|
  {
    forall i :: 0 <= i < |f1| ==> !Matches(f1, f2, i, j)
  }

  /** The unmatched among the first i lines of file 1. */
  ghost function Lones1(f1: seq<Line>, f2: seq<Line>, i: nat): (r: seq<Emit>)
    requires i <= |f1|
    ensures forall e :: e in r ==> e.First? && e.i < |f1| && Lone1(f1, f2, e.i)
  {
    if i == 0 then [] else Lones1(f1, f2, i - 1) + if Lone1(f1, f2, i - 1) then [First(i - 1)] else []
  }

  ghost function Lones2(f1: seq<Line>, f2: seq<Line>, j: nat): (r: seq<Emit>)
    requires j <= |f2|
    ensures forall e :: e in r ==> e.Second? && e.j < |f2| && Lone2(f1, f2, e.j)
  {
    if j == 0 then [] else Lones2(f1, f2, j - 1) + if Lone2(f1, f2, j - 1) then [Second(j - 1)] else []
  }

  // ----- an output as its three kinds ----------------------------------------------------

  datatype Kind = Pairs | Firsts | Seconds

  function KindOf(e: Emit): Kind { if e.Both? then Pairs else if e.First? then Firsts else Seconds }

  function Only(out: seq<Emit>, k: Kind): (r: seq<Emit>)
    ensures forall e :: e in r <==> e in out && KindOf(e) == k
  {
    if out == [] then [] else
      var rest := Only(out[..|out| - 1], k);
      var e := out[|out| - 1];
      assert forall x :: x in out <==> x in out[..|out| - 1] || x == e;
      if KindOf(e) == k then rest + [e] else rest
  }

  lemma OnlyMore(out: seq<Emit>, e: Emit, k: Kind)
    ensures Only(out + [e], k) == Only(out, k) + if KindOf(e) == k then [e] else []
  {
    assert (out + [e])[..|out|] == out;
  }

  predicate InFiles(f1: seq<Line>, f2: seq<Line>, e: Emit)
  {
    match e
    case Both(i, j) => i < |f1| && j < |f2|
    case First(i) => i < |f1|
    case Second(j) => j < |f2|
  }

  /** The key a line of output begins with. */
  function EmitKey(f1: seq<Line>, f2: seq<Line>, e: Emit): seq<Rune>
    requires InFiles(f1, f2, e)
  {
    if e.Second? then KeyOf(f2[e.j]) else KeyOf(f1[e.i])
  }

  ghost predicate AllIn(f1: seq<Line>, f2: seq<Line>, out: seq<Emit>)
  {
    forall k :: 0 <= k < |out| ==> InFiles(f1, f2, out[k])
  }

  ghost predicate InOrder(f1: seq<Line>, f2: seq<Line>, out: seq<Emit>)
    requires AllIn(f1, f2, out)
  {
    forall k, l :: 0 <= k < l < |out| ==> Compare(EmitKey(f1, f2, out[k]), EmitKey(f1, f2, out[l])) <= 0
  }

  /** The output of a join: pairs as the nested loops give them, the unmatched lines that were asked for
      each once, and all in key order. */
  ghost predicate IsJoin(f1: seq<Line>, f2: seq<Line>, a1: bool, a2: bool, out: seq<Emit>)
  {
    AllIn(f1, f2, out) && InOrder(f1, f2, out) &&
    Only(out, Pairs) == Nested(f1, f2, |f1|) &&
    Only(out, Firsts) == (if a1 then Lones1(f1, f2, |f1|) else []) &&
    Only(out, Seconds) == (if a2 then Lones2(f1, f2, |f2|) else [])
  }

  // ----- there is only one such output ----------------------------------------------------

  /** Different kinds of output come from different keys. */
  ghost predicate Apart(f1: seq<Line>, f2: seq<Line>, out: seq<Emit>)
    requires AllIn(f1, f2, out)
  {
    forall k, l ::
      0 <= k < |out| && 0 <= l < |out| && EmitKey(f1, f2, out[k]) == EmitKey(f1, f2, out[l]) ==>
        KindOf(out[k]) == KindOf(out[l])
  }

  ghost predicate SameKinds(out: seq<Emit>, out': seq<Emit>) { forall k :: Only(out, k) == Only(out', k) }

  lemma KindsApart(f1: seq<Line>, f2: seq<Line>, a1: bool, a2: bool, out: seq<Emit>)
    requires IsJoin(f1, f2, a1, a2, out)
    ensures Apart(f1, f2, out)
  {
    forall k, l | 0 <= k < |out| && 0 <= l < |out| && EmitKey(f1, f2, out[k]) == EmitKey(f1, f2, out[l])
      ensures KindOf(out[k]) == KindOf(out[l])
    {
      var e, d := out[k], out[l];
      assert e in Only(out, KindOf(e)) && d in Only(out, KindOf(d));
      PairKeys(f1, f2, a1, a2, out, e, d);
      PairKeys(f1, f2, a1, a2, out, d, e);
    }
  }

  lemma PairKeys(f1: seq<Line>, f2: seq<Line>, a1: bool, a2: bool, out: seq<Emit>, e: Emit, d: Emit)
    requires IsJoin(f1, f2, a1, a2, out) && e in out && d in out && EmitKey(f1, f2, e) == EmitKey(f1, f2, d)
    ensures e.Both? ==> d.Both?
    ensures e.First? ==> !d.Second?
  {
    assert e in Only(out, KindOf(e)) && d in Only(out, KindOf(d));
    assert e.Both? && d.First? ==> Matches(f1, f2, d.i, e.j);
    assert e.Both? && d.Second? ==> Matches(f1, f2, e.i, d.j);
    assert e.First? && d.Second? ==> Matches(f1, f2, e.i, d.j);
  }

  /** What is in one output is in the other, no later than its last line. */
  lemma LastIsLater(f1: seq<Line>, f2: seq<Line>, out: seq<Emit>, out': seq<Emit>)
    requires AllIn(f1, f2, out) && AllIn(f1, f2, out') && InOrder(f1, f2, out') && SameKinds(out, out') && out != [] &&
             out' != []
    ensures out[|out| - 1] in out'
    ensures Compare(EmitKey(f1, f2, out[|out| - 1]), EmitKey(f1, f2, out'[|out'| - 1])) <= 0
  {
    hide Compare, Only, KindOf, EmitKey;
    var e := out[|out| - 1];
    assert e in Only(out, KindOf(e));
    assert e in Only(out', KindOf(e));
    var k :| 0 <= k < |out'| && out'[k] == e;
    CompareZero(EmitKey(f1, f2, e), EmitKey(f1, f2, e));
  }

  lemma OnlyLast(out: seq<Emit>, k: Kind)
    requires out != []
    ensures var n := |out| - 1;
            Only(out, k) == if KindOf(out[n]) == k then Only(out[..n], k) + [out[n]] else Only(out[..n], k)
  {
    var n := |out| - 1;
    assert out == out[..n] + [out[n]];
    OnlyMore(out[..n], out[n], k);
  }

  /** The last lines of two outputs with the same contents are equal. */
  lemma SameLast(f1: seq<Line>, f2: seq<Line>, out: seq<Emit>, out': seq<Emit>)
    requires AllIn(f1, f2, out) && AllIn(f1, f2, out') && InOrder(f1, f2, out) && InOrder(f1, f2, out') &&
             Apart(f1, f2, out)
    requires SameKinds(out, out') && out != [] && out' != []
    ensures out[|out| - 1] == out'[|out'| - 1]
  {
    hide Compare, Only, KindOf, EmitKey, InOrder;
    var e, d := out[|out| - 1], out'[|out'| - 1];
    LastIsLater(f1, f2, out, out');
    LastIsLater(f1, f2, out', out);
    CompareFlip(EmitKey(f1, f2, e), EmitKey(f1, f2, d));
    CompareZero(EmitKey(f1, f2, e), EmitKey(f1, f2, d));
    assert d in out && KindOf(e) == KindOf(d);
    OnlyLast(out, KindOf(e));
    OnlyLast(out', KindOf(e));
    LastOf(Only(out[..|out| - 1], KindOf(e)), e, Only(out'[..|out'| - 1], KindOf(e)), d);
  }

  lemma LastOf(s: seq<Emit>, e: Emit, t: seq<Emit>, d: Emit)
    ensures s + [e] == t + [d] <==> s == t && e == d
  {
    if s + [e] == t + [d] {
      assert (s + [e])[|s|] == e && (t + [d])[|t|] == d;
      assert s == (s + [e])[..|s|] && t == (t + [d])[..|t|];
    }
  }

  lemma {:induction false} SameOutputs(f1: seq<Line>, f2: seq<Line>, out: seq<Emit>, out': seq<Emit>)
    requires AllIn(f1, f2, out) && AllIn(f1, f2, out') && InOrder(f1, f2, out) && InOrder(f1, f2, out') &&
             Apart(f1, f2, out)
    requires SameKinds(out, out')
    ensures out == out'
    decreases |out|
  {
    hide Compare, Only, KindOf, EmitKey;
    SomeKind(out, out');
    if out != [] && out' != [] {
      SameLast(f1, f2, out, out');
      var n, m := |out| - 1, |out'| - 1;
      forall k ensures Only(out[..n], k) == Only(out'[..m], k) {
        OnlyLast(out, k);
        OnlyLast(out', k);
        assert Only(out, k) == Only(out', k);
        LastOf(Only(out[..n], k), out[n], Only(out'[..m], k), out'[m]);
      }
      SameOutputs(f1, f2, out[..n], out'[..m]);
      assert out == out[..n] + [out[n]] && out' == out'[..m] + [out'[m]];
    }
  }

  lemma SomeKind(out: seq<Emit>, out': seq<Emit>)
    requires SameKinds(out, out')
    ensures out == [] <==> out' == []
  {
    assert out != [] ==> out[0] in Only(out, KindOf(out[0])) && Only(out, KindOf(out[0])) == Only(out', KindOf(out[0]));
    assert out' != [] ==>
             out'[0] in Only(out', KindOf(out'[0])) && Only(out, KindOf(out'[0])) == Only(out', KindOf(out'[0]));
  }

  /** A join has one output. */
  lemma JoinUnique(f1: seq<Line>, f2: seq<Line>, a1: bool, a2: bool, out: seq<Emit>, out': seq<Emit>)
    requires IsJoin(f1, f2, a1, a2, out) && IsJoin(f1, f2, a1, a2, out')
    ensures out == out'
  {
    KindsApart(f1, f2, a1, a2, out);
    forall k ensures Only(out, k) == Only(out', k) {
      assert k == Pairs || k == Firsts || k == Seconds;
    }
    SameOutputs(f1, f2, out, out');
  }
}
