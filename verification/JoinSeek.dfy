/** join with a second file that can be rewound. */
module JoinSeek {
  import opened JoinKeys
  import opened JoinSpec
  import opened JoinSteps

  class Joiner {
    const f1: seq<Line>
    const f2: seq<Line>
    const a1: bool
    const a2: bool
    var pos1: nat           // the lines read so far
    var pos2: nat
    var at1: nat            // the line in the buffer
    var at2: nat
    var out: seq<Emit>

    constructor (f1: seq<Line>, f2: seq<Line>, a1: bool, a2: bool)
      ensures this.f1 == f1 && this.f2 == f2 && this.a1 == a1 && this.a2 == a2 && pos1 == 0 && pos2 == 0 && out == []
    {
      this.f1, this.f2, this.a1, this.a2 := f1, f2, a1, a2;
      pos1, pos2, at1, at2, out := 0, 0, 0, 0, [];
    }

    ghost predicate Valid() { IsFile(f1) && IsFile(f2) && Sorted(f1) && Sorted(f2) }

    /** The buffer holds line i and the file stands after it; or line i would be past the end. */
    ghost predicate Has1(n1: nat, i: nat)
      reads this
    {
      i <= |f1| && (n1 > 0 <==> i < |f1|) && (i < |f1| ==> at1 == i && pos1 == i + 1) && (i == |f1| ==> pos1 == i)
    }

    ghost predicate Has2(n2: nat, j: nat)
      reads this
    {
      j <= |f2| && (n2 > 0 <==> j < |f2|) && (j < |f2| ==> at2 == j && pos2 == j + 1) && (j == |f2| ==> pos2 == j)
    }

    /** input(F1): the next line, or zero at the end of the file. */
    method Get1() returns (n1: nat)
      requires IsFile(f1) && pos1 <= |f1|
      modifies this`pos1, this`at1
      ensures Has1(n1, old(pos1))
    {
      n1 := 0;
      if pos1 < |f1| {
        at1, n1, pos1 := pos1, f1[pos1].count, pos1 + 1;
      }
    }

    /** input(F2). */
    method Get2() returns (n2: nat)
      requires IsFile(f2) && pos2 <= |f2|
      modifies this`pos2, this`at2
      ensures Has2(n2, old(pos2))
    {
      n2 := 0;
      if pos2 < |f2| {
        at2, n2, pos2 := pos2, f2[pos2].count, pos2 + 1;
      }
    }

    /** fseek on file 2 to a place ftell gave, and the line there. */
    method Seek(place: nat) returns (n2: nat)
      requires IsFile(f2) && place <= |f2|
      modifies this`pos2, this`at2
      ensures Has2(n2, place)
    {
      pos2 := place;
      n2 := Get2();
    }

    method Comp() returns (c: int)
      requires Valid() && at1 < |f1| && at2 < |f2|
      ensures c == Cmp(f1, f2, at1, at2)
    {
      c := RuneCmp(f1[at1].field, f2[at2].field);
    }

    /** output, of the lines in the buffers. */
    method Output(n1: nat, n2: nat)
      modifies this`out
      ensures n1 > 0 && n2 > 0 ==> out == old(out) + [Both(at1, at2)]
      ensures n1 > 0 && n2 == 0 ==> out == old(out) + [First(at1)]
      ensures n1 == 0 ==> out == old(out) + [Second(at2)]
    {
      out := out + [if n1 > 0 && n2 > 0 then Both(at1, at2) else if n1 > 0 then First(at1) else Second(at2)];
    }

    /** The first line of a group of file 1 against the group of file 2, which ends at top2. */
    method FirstRow(n1: nat, n2: nat, ghost i: nat, ghost j: nat) returns (top2: nat)
      requires Valid() && Has1(n1, i) && Has2(n2, j) && i < |f1| && j < |f2|
      requires Done(f1, f2, a1, a2, out, i, j) && Cmp(f1, f2, i, j) == 0
      modifies this`out, this`pos2, this`at2
      ensures IsGroup(f2, j, top2) && InGroup(f1, f2, a1, a2, out, i, j, i + 1, j)
    {
      hide Sorted, Cmp, Done, InGroup, IsFile, KeyOf, IsGroup;
      GroupStart(f1, f2, a1, a2, out, i, j);
      top2 := 0;
      var m2 := n2;
      ghost var q := j;
      var c := Comp();
      while m2 > 0 && c == 0
        invariant Has2(m2, q) && j <= q && (q == j ==> c == 0) && (q > j ==> top2 == q)
        invariant m2 > 0 ==> c == Cmp(f1, f2, i, q)
        invariant InGroup(f1, f2, a1, a2, out, i, j, i, q)
        decreases |f2| - q
      {
        GroupEmit(f1, f2, a1, a2, out, i, j, i, q);
        Output(n1, m2);
        top2 := pos2;
        m2 := Get2();
        q := q + 1;
        if m2 > 0 {
          c := Comp();
        }
      }
      RowEnds(f1, f2, a1, a2, out, i, j, i, q);
      GroupRow(f1, f2, a1, a2, out, i, j, i, q);
    }

    /** The other lines of the group of file 1, rewinding file 2 for each; then file 2 stands after the
        group and file 1 at line p. */
    method OtherRows(bot2: nat, top2: nat, ghost i: nat) returns (n1: nat, n2: nat, ghost p: nat)
      requires Valid() && i < |f1| && pos1 == i + 1 && IsGroup(f2, bot2, top2) &&
               InGroup(f1, f2, a1, a2, out, i, bot2, i + 1, bot2)
      modifies this`out, this`pos1, this`at1, this`pos2, this`at2
      ensures i < p && Has1(n1, p) && Has2(n2, top2) && Done(f1, f2, a1, a2, out, p, top2)
    {
      hide Sorted, Cmp, Done, InGroup, IsFile, KeyOf, IsGroup;
      GroupSize(f2, bot2, top2);
      n2 := Seek(bot2);
      n1 := Get1();
      p := i + 1;
      ghost var q := bot2;
      while true
        invariant i < p && Has1(n1, p) && Has2(n2, q) && InGroup(f1, f2, a1, a2, out, i, bot2, p, q)
        decreases |f1| - p, |f2| - q
      {
        var c := 0;
        if n1 > 0 && n2 > 0 {
          c := Comp();
        }
        GroupPlace(f1, f2, a1, a2, out, i, bot2, p, q);
        if n1 > 0 && n2 > 0 && c == 0 {
          GroupEmit(f1, f2, a1, a2, out, i, bot2, p, q);
          Output(n1, n2);
          n2 := Get2();
          q := q + 1;
        } else if (n1 > 0 && n2 > 0 && c < 0) || n2 == 0 {
          GroupRow(f1, f2, a1, a2, out, i, bot2, p, q);
          n2 := Seek(bot2);
          n1 := Get1();
          p, q := p + 1, bot2;
        } else {
          GroupDone(f1, f2, a1, a2, out, i, bot2, p, q, top2);
          n2 := Seek(top2);
          return;
        }
      }
    }

    /** seek2: the join of the two files. */
    method Seek2()
      requires Valid() && pos1 == 0 && pos2 == 0 && out == []
      modifies this
      ensures IsJoin(f1, f2, a1, a2, out)
    {
      hide Sorted, Cmp, Done, IsFile, IsGroup, InGroup, KeyOf;
      var bot2 := pos2;
      var n1 := Get1();
      var n2 := Get2();
      ghost var i := 0;
      DoneNone(f1, f2, a1, a2);
      while (n1 > 0 && n2 > 0) || ((a1 || a2) && n1 + n2 > 0)
        invariant Has1(n1, i) && Has2(n2, bot2) && Done(f1, f2, a1, a2, out, i, bot2)
        decreases |f1| + |f2| - i - bot2
      {
        var c := 0;
        if n1 > 0 && n2 > 0 {
          c := Comp();
        }
        if (n1 > 0 && n2 > 0 && c > 0) || n1 == 0 {
          StepSecond(f1, f2, a1, a2, out, i, bot2);
          if a2 {
            Output(0, n2);
          }
          bot2 := pos2;
          n2 := Get2();
        } else if (n1 > 0 && n2 > 0 && c < 0) || n2 == 0 {
          StepFirst(f1, f2, a1, a2, out, i, bot2);
          if a1 {
            Output(n1, 0);
          }
          n1 := Get1();
          i := i + 1;
        } else {
          var top2 := FirstRow(n1, n2, i, bot2);
          GroupSize(f2, bot2, top2);
          n1, n2, i := OtherRows(bot2, top2, i);
          bot2 := top2;
        }
      }
      DoneAll(f1, f2, a1, a2, out, i, bot2);
    }
  }

  lemma GroupSize(f2: seq<Line>, j: nat, t: nat)
    requires IsGroup(f2, j, t)
    ensures j < t <= |f2|
  {
  }

  /** Where the first row stops the group ends. */
  lemma RowEnds(f1: seq<Line>, f2: seq<Line>, a1: bool, a2: bool, out: seq<Emit>, i: nat, j: nat, p: nat, q: nat)
    requires Sorted(f2) && InGroup(f1, f2, a1, a2, out, i, j, p, q) && j < q && (q < |f2| ==> Cmp(f1, f2, p, q) != 0)
    ensures IsGroup(f2, j, q) && (q < |f2| ==> Cmp(f1, f2, p, q) < 0)
  {
    hide Sorted, Compare, KeyOf, Separated, Ordered, Upto, Holds;
    if q < |f2| {
      GroupHigh(f1, f2, i, j, p, q);
      CmpMatches(f1, f2, p, q);
    }
  }

  /** While a group is being paired, a line of file 1 that is below line q, or has none left, is one of
      the group and has been paired with all of it. */
  lemma GroupPlace(f1: seq<Line>, f2: seq<Line>, a1: bool, a2: bool, out: seq<Emit>, i: nat, j: nat, p: nat, q: nat)
    requires Sorted(f1) && InGroup(f1, f2, a1, a2, out, i, j, p, q)
    ensures q == |f2| ==> q > j && p < |f1|
    ensures p < |f1| && q < |f2| && Cmp(f1, f2, p, q) < 0 ==> q > j
  {
    hide Sorted, Compare, KeyOf, Separated, Ordered, Upto, Holds;
    if p < |f1| {
      GroupLow(f1, f2, i, j, p, q);
    }
  }
}
