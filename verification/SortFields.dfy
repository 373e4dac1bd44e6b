/** buildkey: the key of a line, field after field, and sort by several fields. */
module SortFields {
  import opened SortKey
  import opened SortNumber
  import opened SortDecimal
  import opened SortSpec
  import SortGn
  import SortMain

  /** How a field is compared: its bytes, its bytes reversed, or the number it begins with. */
  datatype Kind = Plain | Reverse | Numeric(g: bool, r: bool)

  datatype Field = Field(kind: Kind, text: Text)

  function FlipAll(s: Text): (r: Key)
    ensures |r| == |s| && forall i :: 0 <= i < |s| ==> r[i] == Flip(s[i])
  {
    seq(|s|, i requires 0 <= i < |s| => Flip(s[i]))
  }

  function FieldKey(f: Field): (k: Key)
    ensures k != []
  {
    match f.kind
    case Plain => f.text + [0]
    case Reverse => FlipAll(f.text) + [255]
    case Numeric(g, r) => Encode(Normal(Read(f.text, g)), r)
  }

  /** How two fields compare: negative, zero or positive. */
  function FieldCmp(f: Field, h: Field): int
    requires f.kind == h.kind
  {
    match f.kind
    case Plain => TextCmp(f.text, h.text)
    case Reverse => -TextCmp(f.text, h.text)
    case Numeric(g, r) => if r then ValueCmp(f.text, h.text, g) * -1 else ValueCmp(f.text, h.text, g)
  }

  function TextCmp(x: Text, y: Text): int { if x == y then 0 else if Le(x, y) then -1 else 1 }

  function ValueCmp(x: Text, y: Text, g: bool): int
  {
    var a, b := Value(Read(x, g)), Value(Read(y, g));
    if a == b then 0 else if a < b then -1 else 1
  }

  /** A text without a zero byte, or a number in reach. */
  predicate FieldOk(f: Field)
  {
    match f.kind
    case Numeric(g, _) => InReach(Normal(Read(f.text, g)))
    case _ => 0 !in f.text
  }

  /** The keys x and y are apart and in the order that c says. */
  ghost predicate Ranked(x: Key, y: Key, c: int)
  {
    Apart(x, y) && (Le(x, y) <==> c <= 0) && (x == y <==> c == 0)
  }

  // ----- one field -----------------------------------------------------------------------

  lemma RankedSame(x: Key, y: Key)
    requires x == y
    ensures Ranked(x, y, 0)
  {
    CommonIs(x, y, |x|);
  }

  lemma RankedAt(x: Key, y: Key, n: nat)
    requires n < |x| && n < |y| && (forall i :: 0 <= i < n ==> x[i] == y[i]) && x[n] != y[n]
    ensures Ranked(x, y, if x[n] < y[n] then -1 else 1)
  {
    FirstDiffer(x, y, n);
  }

  /** Texts without a zero byte, the shorter closed by one. */
  lemma PlainRanked(x: Text, y: Text)
    requires 0 !in x && 0 !in y
    ensures Ranked(x + [0], y + [0], TextCmp(x, y))
  {
    var n := Common(x, y);
    if x == y {
      RankedSame(x + [0], y + [0]);
    } else {
      assert n < |x| ==> x[n] in x;
      assert n < |y| ==> y[n] in y;
      RankedAt(x + [0], y + [0], n);
    }
  }

  lemma ReverseRanked(x: Text, y: Text)
    requires 0 !in x && 0 !in y
    ensures Ranked(FlipAll(x) + [255], FlipAll(y) + [255], -TextCmp(x, y))
  {
    var n := Common(x, y);
    if x == y {
      RankedSame(FlipAll(x) + [255], FlipAll(y) + [255]);
    } else {
      assert n < |x| ==> x[n] in x;
      assert n < |y| ==> y[n] in y;
      RankedAt(FlipAll(x) + [255], FlipAll(y) + [255], n);
    }
  }

  lemma FieldRanked(f: Field, h: Field)
    requires f.kind == h.kind && FieldOk(f) && FieldOk(h)
    ensures Ranked(FieldKey(f), FieldKey(h), FieldCmp(f, h))
  {
    hide Le, TextCmp, Value, Read, Normal, Encode, InReach;
    match f.kind
    case Plain => PlainRanked(f.text, h.text);
    case Reverse => ReverseRanked(f.text, h.text);
    case Numeric(g, r) =>
      SortGn.KeysEmbed(f.text, h.text, g, r);
      LeRefl(FieldKey(f));
  }

  function Spelt(kind: Kind, s: Text): (k: Key)
    requires !kind.Numeric?
  {
    FieldKey(Field(kind, s))
  }

  lemma PrefixKey(kind: Kind, x: Text, k: nat)
    requires !kind.Numeric? && k < |x| && x[k] == 0
    ensures !Apart(Spelt(kind, x), Spelt(kind, x[..k]))
  {
    CommonIs(Spelt(kind, x), Spelt(kind, x[..k]), k + 1);
  }

  /** A text field is told apart from all texts without a zero byte exactly if it has none itself. */
  lemma NulExact(kind: Kind, x: Text)
    requires !kind.Numeric?
    ensures 0 !in x <==> forall y: Text :: 0 !in y ==> Apart(Spelt(kind, x), Spelt(kind, y))
  {
    if 0 in x {
      var k := FirstNul(x);
      PrefixKey(kind, x, k);
      assert 0 !in x[..k];
    } else {
      forall y: Text | 0 !in y ensures Apart(Spelt(kind, x), Spelt(kind, y)) {
        FieldRanked(Field(kind, x), Field(kind, y));
      }
    }
  }

  function FirstNul(x: Text): (k: nat)
    requires 0 in x
    ensures k < |x| && x[k] == 0 && 0 !in x[..k]
  {
    if x[0] == 0 then 0 else
      var k := FirstNul(x[1..]);
      assert x[..k + 1] == [x[0]] + x[1..][..k];
      k + 1
  }

  // ----- a line of fields ----------------------------------------------------------------

  /** The fields' keys one after the other. */
  function KeyOf(fs: seq<Field>): (k: Key)
    ensures fs != [] ==> k != []
  {
    if fs == [] then [] else FieldKey(fs[0]) + KeyOf(fs[1..])
  }

  predicate SameKinds(fs: seq<Field>, hs: seq<Field>)
  {
    |fs| == |hs| && forall i :: 0 <= i < |fs| ==> fs[i].kind == hs[i].kind
  }

  /** The first field in which two lines differ decides. */
  function LineCmp(fs: seq<Field>, hs: seq<Field>): int
    requires SameKinds(fs, hs)
  {
    if fs == [] then 0
    else if FieldCmp(fs[0], hs[0]) != 0 then FieldCmp(fs[0], hs[0])
    else LineCmp(fs[1..], hs[1..])
  }

  predicate AllOk(fs: seq<Field>) { forall i :: 0 <= i < |fs| ==> FieldOk(fs[i]) }

  lemma CommonMore(x: Key, y: Key, x': Key, y': Key)
    requires Apart(x, y)
    ensures Common(x + x', y + y') == if x == y then |x| + Common(x', y') else Common(x, y)
    ensures x == y <==> Common(x, y) == |x|
  {
    var n := Common(x, y);
    if x == y {
      assert (x + x')[|x|..] == x' && (y + y')[|x|..] == y';
      CommonPast(x + x', y + y', |x|);
      CommonIs(x, y, |x|);
    } else {
      CommonIs(x + x', y + y', n);
    }
  }

  /** What follows two keys that are apart matters only if they are equal. */
  lemma RankedMore(x: Key, y: Key, c: int, x': Key, y': Key, c': int)
    requires Ranked(x, y, c) && Ranked(x', y', c')
    ensures Ranked(x + x', y + y', if c != 0 then c else c')
  {
    CommonMore(x, y, x', y');
    hide Common;
    assert x + x' == y + y' ==> (x + x')[|x|..] == x' && (y + y')[|y|..] == y';
    assert forall i :: 0 <= i < |x| ==> (x + x')[i] == x[i];
    assert forall i :: 0 <= i < |y| ==> (y + y')[i] == y[i];
    assert forall i :: |x| <= i < |x + x'| ==> (x + x')[i] == x'[i - |x|];
    assert forall i :: |y| <= i < |y + y'| ==> (y + y')[i] == y'[i - |y|];
  }

  /** Keys of lines order field by field, are equal exactly if every field compares equal, and
      none is a proper prefix of another. */
  lemma {:induction false} LinesRanked(fs: seq<Field>, hs: seq<Field>)
    requires SameKinds(fs, hs) && AllOk(fs) && AllOk(hs)
    ensures Ranked(KeyOf(fs), KeyOf(hs), LineCmp(fs, hs))
    decreases |fs|
  {
    hide Ranked, FieldKey, FieldCmp, FieldOk;
    if fs == [] {
      RankedSame([], []);
    } else {
      FieldRanked(fs[0], hs[0]);
      LinesRanked(fs[1..], hs[1..]);
      RankedMore(FieldKey(fs[0]), FieldKey(hs[0]), FieldCmp(fs[0], hs[0]), KeyOf(fs[1..]), KeyOf(hs[1..]),
                 LineCmp(fs[1..], hs[1..]));
    }
  }

  // ----- building keys -------------------------------------------------------------------

  /** dokey_r: the complement of every byte, and a terminator. */
  method DokeyR(k: Key, text: Text) returns (key: Key)
    ensures key == k + FlipAll(text) + [255]
  {
    key := k;
    var lp := 0;
    assert FlipAll([]) == [];
    while lp < |text|
      invariant 0 <= lp <= |text| && key == k + FlipAll(text[..lp])
    {
      assert FlipAll(text[..lp + 1]) == FlipAll(text[..lp]) + [Flip(text[lp])];
      key := key + [Flip(text[lp])];
      lp := lp + 1;
    }
    assert text[..lp] == text;
    key := key + [255];
  }

  /** One field's key goes behind what there is. */
  method Dokey(k: Key, f: Field) returns (key: Key)
    ensures key == k + FieldKey(f)
  {
    match f.kind
    case Plain => key := k + f.text + [0];
    case Reverse =>
      key := DokeyR(k, f.text);
      assert key == k + (FlipAll(f.text) + [255]);
    case Numeric(g, r) =>
      var n := SortGn.DokeyGn(f.text, g, r);
      key := k + n;
  }

  /** A line as buildkey finds it: the fields asked for, and the whole of it. */
  datatype Record = Record(fields: seq<Field>, whole: Field)

  /** What counts: the fields, then the whole line unless -u makes do with the fields. */
  function Parts(l: Record, unique: bool): seq<Field>
  {
    if unique && l.fields != [] then l.fields else l.fields + [l.whole]
  }

  lemma {:induction false} KeyOfSnoc(fs: seq<Field>, f: Field)
    ensures KeyOf(fs + [f]) == KeyOf(fs) + FieldKey(f)
  {
    if fs == [] {
      assert [f][1..] == [];
    } else {
      assert (fs + [f])[1..] == fs[1..] + [f];
      KeyOfSnoc(fs[1..], f);
    }
  }

  method BuildKey(l: Record, unique: bool) returns (k: Key)
    ensures k == KeyOf(Parts(l, unique))
  {
    hide FieldKey;
    k := [];
    var i := 0;
    while i < |l.fields|
      invariant 0 <= i <= |l.fields| && k == KeyOf(l.fields[..i])
    {
      assert l.fields[..i + 1] == l.fields[..i] + [l.fields[i]];
      KeyOfSnoc(l.fields[..i], l.fields[i]);
      k := Dokey(k, l.fields[i]);
      i := i + 1;
    }
    assert l.fields[..i] == l.fields;
    if !(unique && |k| > 0) {
      KeyOfSnoc(l.fields, l.whole);
      k := Dokey(k, l.whole);
    }
  }

  // ----- sort, by fields -----------------------------------------------------------------

  /** All lines have the fields of the command line, and fields that can be told apart. */
  ghost predicate Table(ls: seq<Record>, unique: bool)
  {
    (forall i, j :: 0 <= i < |ls| && 0 <= j < |ls| ==> SameKinds(Parts(ls[i], unique), Parts(ls[j], unique))) &&
    (forall i :: 0 <= i < |ls| ==> AllOk(Parts(ls[i], unique)))
  }

  /** The lines read, each with its key. */
  ghost predicate Keyed(ls: seq<Record>, lines: seq<Line>, unique: bool)
  {
    |lines| <= |ls| && forall i :: 0 <= i < |lines| ==> lines[i] == Line(i, KeyOf(Parts(ls[i], unique)))
  }

  lemma TableRanked(ls: seq<Record>, i: nat, j: nat, unique: bool)
    requires Table(ls, unique) && i < |ls| && j < |ls|
    ensures SameKinds(Parts(ls[i], unique), Parts(ls[j], unique))
    ensures Ranked(KeyOf(Parts(ls[i], unique)), KeyOf(Parts(ls[j], unique)),
                   LineCmp(Parts(ls[i], unique), Parts(ls[j], unique)))
  {
    hide Ranked, AllOk, SameKinds, LineCmp, KeyOf, Parts;
    LinesRanked(Parts(ls[i], unique), Parts(ls[j], unique));
  }

  lemma TableApart(ls: seq<Record>, lines: seq<Line>, unique: bool)
    requires Table(ls, unique) && Keyed(ls, lines, unique)
    ensures PrefixFree(multiset(lines))
  {
    hide Table, KeyOf, Apart, LineCmp, Le, SameKinds;
    forall l, m | l in multiset(lines) && m in multiset(lines) ensures Apart(l.key, m.key) {
      assert l in lines && m in lines;
      TableRanked(ls, l.id, m.id, unique);
    }
  }

  ghost function Cmp(ls: seq<Record>, i: nat, j: nat, unique: bool): int
    requires Table(ls, unique) && i < |ls| && j < |ls|
  {
    LineCmp(Parts(ls[i], unique), Parts(ls[j], unique))
  }

  /** Lines are put out in the order of their fields; each once, or with unique one of every group
      of lines that compare equal. */
  ghost predicate Ordered(ls: seq<Record>, order: seq<nat>, unique: bool)
    requires Table(ls, unique)
  {
    (forall i :: 0 <= i < |order| ==> order[i] < |ls|) &&
    (forall i, j :: 0 <= i < j < |order| ==>
      Cmp(ls, order[i], order[j], unique) <= 0 && (unique ==> Cmp(ls, order[i], order[j], unique) < 0)) &&
    (if unique then forall k: nat :: k < |ls| ==> HasEqual(ls, order, k, unique)
     else |order| == |ls| && forall k: nat :: k < |ls| ==> k in order)
  }

  ghost predicate HasEqual(ls: seq<Record>, order: seq<nat>, k: nat, unique: bool)
    requires Table(ls, unique) && k < |ls|
  {
    exists i :: 0 <= i < |order| && order[i] < |ls| && Cmp(ls, k, order[i], unique) == 0
  }

  lemma OutIn(ls: seq<Record>, lines: seq<Line>, out: seq<Line>, unique: bool, i: nat)
    requires Keyed(ls, lines, unique) && |lines| == |ls| && Holds(multiset(lines), out, unique) && i < |out|
    ensures out[i].id < |ls| && out[i].key == KeyOf(Parts(ls[out[i].id], unique))
  {
    hide KeyOf, Parts;
    assert out[i] in out;
    assert out[i] in multiset(out);
    assert out[i] in multiset(lines);
    assert out[i] in lines;
  }

  lemma OutOrdered(ls: seq<Record>, lines: seq<Line>, out: seq<Line>, unique: bool, i: nat, j: nat)
    requires Table(ls, unique) && Keyed(ls, lines, unique) && |lines| == |ls| && IsSort(multiset(lines), out, unique)
    requires i < j < |out| && out[i].id < |ls| && out[j].id < |ls|
    ensures var c := Cmp(ls, out[i].id, out[j].id, unique); c <= 0 && (unique ==> c < 0)
  {
    hide Table, Keyed, KeyOf, Parts, LineCmp, Le, Holds, Apart, SameKinds;
    OutIn(ls, lines, out, unique, i);
    OutIn(ls, lines, out, unique, j);
    TableRanked(ls, out[i].id, out[j].id, unique);
  }

  function Ids(out: seq<Line>): (r: seq<nat>)
    ensures |r| == |out| && forall i :: 0 <= i < |out| ==> r[i] == out[i].id
  {
    seq(|out|, i requires 0 <= i < |out| => out[i].id)
  }

  lemma OutEvery(ls: seq<Record>, lines: seq<Line>, out: seq<Line>, k: nat)
    requires Keyed(ls, lines, false) && |lines| == |ls| && Holds(multiset(lines), out, false) && k < |ls|
    ensures k in Ids(out) && |out| == |ls|
  {
    hide KeyOf, Parts;
    assert lines[k] in multiset(lines);
    assert lines[k] in multiset(out);
    var i :| 0 <= i < |out| && out[i] == lines[k];
    assert Ids(out)[i] == k;
    assert |multiset(out)| == |out| && |multiset(lines)| == |lines|;
  }

  lemma OutEqual(ls: seq<Record>, lines: seq<Line>, out: seq<Line>, k: nat)
    requires Table(ls, true) && Keyed(ls, lines, true) && |lines| == |ls| && Holds(multiset(lines), out, true)
    requires k < |ls|
    ensures HasEqual(ls, Ids(out), k, true)
  {
    hide Table, KeyOf, Parts, LineCmp, Le, Apart, SameKinds;
    assert lines[k] in multiset(lines);
    assert HasKey(multiset(out), lines[k].key);
    var l :| l in multiset(out) && l.key == lines[k].key;
    var i :| 0 <= i < |out| && out[i] == l;
    OutIn(ls, lines, out, true, i);
    TableRanked(ls, k, l.id, true);
    assert Ids(out)[i] == l.id;
  }

  lemma OutIs(ls: seq<Record>, lines: seq<Line>, out: seq<Line>, unique: bool)
    requires Table(ls, unique) && Keyed(ls, lines, unique) && |lines| == |ls| && IsSort(multiset(lines), out, unique)
    ensures Ordered(ls, Ids(out), unique)
  {
    hide Table, Keyed, Cmp, HasEqual, Holds, InOrder;
    var order := Ids(out);
    forall i | 0 <= i < |order| ensures order[i] < |ls| {
      OutIn(ls, lines, out, unique, i);
    }
    forall i, j | 0 <= i < j < |order|
      ensures Cmp(ls, order[i], order[j], unique) <= 0 && (unique ==> Cmp(ls, order[i], order[j], unique) < 0)
    {
      OutOrdered(ls, lines, out, unique, i, j);
    }
    if unique {
      forall k: nat | k < |ls| ensures HasEqual(ls, order, k, unique) {
        OutEqual(ls, lines, out, k);
      }
    } else {
      OutCount(lines, out);
      forall k: nat | k < |ls| ensures k in order {
        OutEvery(ls, lines, out, k);
      }
    }
  }

  lemma OutCount(lines: seq<Line>, out: seq<Line>)
    requires Holds(multiset(lines), out, false)
    ensures |out| == |lines|
  {
    assert |multiset(out)| == |out| && |multiset(lines)| == |lines|;
  }

  /** sort by fields: the numbers of the lines in the order they are put out. */
  method SortByFields(ls: seq<Record>, mline: nat, unique: bool) returns (order: seq<nat>)
    requires Table(ls, unique)
    ensures Ordered(ls, order, unique)
  {
    hide Table, KeyOf, Parts, IsSort, PrefixFree, Ordered;
    var lines: seq<Line> := [];
    while |lines| < |ls|
      invariant Keyed(ls, lines, unique)
      decreases |ls| - |lines|
    {
      var k := BuildKey(ls[|lines|], unique);
      lines := lines + [Line(|lines|, k)];
    }
    TableApart(ls, lines, unique);
    var out := SortMain.Sort(lines, mline, unique);
    OutIs(ls, lines, out, unique);
    order := Ids(out);
  }
}
