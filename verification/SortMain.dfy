/** sort from end to end: lines in memory, runs spilled when it is full, and what is put out. */
module SortMain {
  import opened SortKey
  import opened SortSpec
  import opened SortRadix
  import opened SortMerge
  import SortDescend
  import SortBubble

  /** The runs left stand for the lines of all; with unique, for all their keys. */
  ghost predicate Carried(all: multiset<Line>, pool: multiset<Line>, unique: bool)
  {
    if unique then (forall l :: l in pool ==> l in all) && (forall l :: l in all ==> HasKey(pool, l.key))
    else pool == all
  }

  ghost predicate AllSorted(runs: seq<Run>) { forall i :: 0 <= i < |runs| ==> Sorted(runs[i]) }

  lemma CarriedApart(all: multiset<Line>, pool: multiset<Line>, unique: bool)
    requires Carried(all, pool, unique) && PrefixFree(all)
    ensures PrefixFree(pool)
  {
  }

  lemma HasKeyMore(a: multiset<Line>, b: multiset<Line>, k: Key)
    requires HasKey(a, k)
    ensures HasKey(a + b, k) && HasKey(b + a, k)
  {
    var l :| l in a && l.key == k;
    assert l in a + b && l in b + a;
  }

  lemma HasKeyEither(a: multiset<Line>, b: multiset<Line>, k: Key)
    requires HasKey(a + b, k)
    ensures HasKey(a, k) || HasKey(b, k)
  {
    var l :| l in a + b && l.key == k;
  }

  /** A sorted run for some of the lines stands for them. */
  lemma CarriedMerge(all: multiset<Line>, some: multiset<Line>, rest: multiset<Line>, run: seq<Line>, unique: bool)
    requires Carried(all, some + rest, unique) && IsSort(some, run, unique)
    ensures Carried(all, rest + multiset(run), unique)
  {
    if unique {
      forall l | l in rest + multiset(run) ensures l in all {
        if l in multiset(run) {
          assert l in run;
        }
        assert l in some + rest;
      }
      forall l | l in all ensures HasKey(rest + multiset(run), l.key) {
        HasKeyEither(some, rest, l.key);
        if HasKey(some, l.key) {
          var m :| m in some && m.key == l.key;
          assert HasKey(multiset(run), m.key);
          HasKeyMore(multiset(run), rest, l.key);
        } else {
          HasKeyMore(rest, multiset(run), l.key);
        }
      }
    }
  }

  lemma CarriedDone(all: multiset<Line>, pool: multiset<Line>, out: seq<Line>, unique: bool)
    requires Carried(all, pool, unique) && IsSort(pool, out, unique)
    ensures IsSort(all, out, unique)
  {
    if unique {
      forall l | l in all ensures HasKey(multiset(out), l.key) {
        assert HasKey(pool, l.key);
        var m :| m in pool && m.key == l.key;
        assert HasKey(multiset(out), m.key);
      }
    }
  }

  // ----- files that have lines -----------------------------------------------------------

  function Nonempty(runs: seq<Run>): seq<Run>
  {
    if runs == [] then [] else Nonempty(runs[..|runs| - 1]) + if runs[|runs| - 1] == [] then [] else [runs[|runs| - 1]]
  }

  lemma NonemptyLast(runs: seq<Run>)
    requires runs != []
    ensures Nonempty(runs) == Nonempty(runs[..|runs| - 1]) + if runs[|runs| - 1] == [] then [] else [runs[|runs| - 1]]
  {
  }

  lemma PoolSnoc(r: seq<Run>, run: Run)
    ensures Pool(r + if run == [] then [] else [run]) == Pool(r) + multiset(run)
  {
    hide Pool;
    if run == [] {
      assert r + [] == r;
    } else {
      PoolConcat(r, [run]);
      PoolOne(run);
    }
  }

  lemma {:induction false} NonemptyIs(runs: seq<Run>)
    requires AllSorted(runs)
    ensures Ready(Nonempty(runs)) && Pool(Nonempty(runs)) == Pool(runs)
  {
    hide Pool, Nonempty, Sorted;
    if runs == [] {
      NonemptyNone(runs);
    } else {
      var n := |runs| - 1;
      NonemptyIs(runs[..n]);
      NonemptyLast(runs);
      PoolSnoc(Nonempty(runs[..n]), runs[n]);
      PoolLast(runs);
    }
  }

  lemma NonemptyNone(runs: seq<Run>)
    requires runs == []
    ensures Nonempty(runs) == []
  {
  }

  lemma PoolSplit(runs: seq<Run>, i: nat, n: nat)
    requires i + n <= |runs|
    ensures Pool(runs[i..]) == Pool(runs[i..i + n]) + Pool(runs[i + n..])
  {
    hide Pool;
    PoolConcat(runs[i..i + n], runs[i + n..]);
    assert runs[i..] == runs[i..i + n] + runs[i + n..];
  }

  lemma PoolAppend(runs: seq<Run>, run: Run, j: nat)
    requires j <= |runs|
    ensures Pool((runs + [run])[j..]) == Pool(runs[j..]) + multiset(run)
  {
    hide Pool;
    PoolConcat(runs[j..], [run]);
    PoolOne(run);
    assert (runs + [run])[j..] == runs[j..] + [run];
  }

  lemma LinesApart(lines: seq<Line>, all: multiset<Line>)
    requires PrefixFree(all) && multiset(lines) <= all
    ensures SortBubble.AllApart(lines, 0, |lines|)
  {
    forall l, m | l in lines[0..|lines|] && m in lines[0..|lines|] ensures Apart(l.key, m.key) {
      assert l in multiset(lines) && m in multiset(lines);
    }
  }

  class Sorter {
    const unique: bool
    const mline: nat
    const count: array<int>
    var lines: seq<Line>
    var temp: seq<Run>

    constructor (mline: nat, unique: bool)
      ensures this.mline == mline && this.unique == unique && lines == [] && temp == [] && fresh(count) &&
              AllZero(count[..])
    {
      this.mline, this.unique := mline, unique;
      lines, temp := [], [];
      count := new int[257](i => 0);
    }

    /** sort4 on the lines in memory. */
    method SortLines(ghost all: multiset<Line>) returns (s: seq<Line>)
      requires AllZero(count[..]) && PrefixFree(all) && multiset(lines) <= all
      modifies count
      ensures AllZero(count[..]) && multiset(s) == multiset(lines) && Sorted(s)
    {
      hide AllZero, PrefixFree, SortBubble.AllApart, Le;
      var a := new Line[|lines|](i requires 0 <= i < |lines| reads this => lines[i]);
      LinesApart(lines, all);
      assert a[..] == lines;
      SortDescend.Sort4(a, count);
      s := a[..];
    }

    /** tempout: the lines in memory become a run. */
    method TempOut(ghost all: multiset<Line>)
      requires AllZero(count[..]) && PrefixFree(all) && multiset(lines) <= all && AllSorted(temp)
      modifies this, count
      ensures AllZero(count[..]) && lines == [] && AllSorted(temp) && |temp| == old(|temp|) + 1 &&
              Pool(temp) == old(Pool(temp) + multiset(lines))
    {
      hide AllZero, PrefixFree, Pool, Sorted;
      var run := SortLines(all);
      PoolAppend(temp, run, 0);
      assert (temp + [run])[0..] == temp + [run] && temp[0..] == temp;
      temp := temp + [run];
      lines := [];
    }

    /** dofile: read lines, spilling a run whenever memory is full. */
    method DoFile(input: seq<Line>)
      requires AllZero(count[..]) && PrefixFree(multiset(input)) && lines == [] && temp == []
      modifies this, count
      ensures AllZero(count[..]) && AllSorted(temp) && Pool(temp) + multiset(lines) == multiset(input)
    {
      hide AllZero, PrefixFree, Pool, Sorted;
      PoolNone(temp);
      var i := 0;
      while i < |input|
        invariant 0 <= i <= |input| && AllZero(count[..]) && AllSorted(temp) &&
                  Pool(temp) + multiset(lines) == multiset(input[..i])
      {
        ghost var all := multiset(input);
        assert input == input[..i] + input[i..];
        if |lines| >= mline {
          TempOut(all);
        }
        lines := lines + [input[i]];
        assert input[..i + 1] == input[..i] + [input[i]];
        i := i + 1;
      }
      assert input[..i] == input;
    }

    /** mergeout: ten runs at a time into a new run, until ten or fewer are left. */
    method MergeOut(ghost all: multiset<Line>) returns (out: seq<Line>)
      requires AllZero(count[..]) && PrefixFree(all) && AllSorted(temp) && Pool(temp) == all && temp != []
      modifies this, count
      ensures AllZero(count[..]) && IsSort(all, out, unique)
    {
      hide AllZero, PrefixFree, Pool, Carried, IsSort, Sorted, Nonempty;
      var i := 0;
      out := [];
      assert temp[0..] == temp;
      CarriedAll(all, unique);
      while i < |temp|
        invariant 0 <= i <= |temp| && AllZero(count[..]) && AllSorted(temp)
        invariant if i < |temp| then Carried(all, Pool(temp[i..]), unique) else IsSort(all, out, unique)
        decreases |temp| - i
      {
        var n := |temp| - i;
        if n > NMERGE {
          n := NMERGE;
          var run := MergeSome(i, n, all);
          CarriedRun(all, temp, i, n, run, unique);
          SortRun(temp[i..i + n], run, unique);
          temp := temp + [run];
        } else {
          assert temp[i..i + n] == temp[i..];
          out := MergeSome(i, n, all);
          CarriedDone(all, Pool(temp[i..]), out, unique);
        }
        i := i + n;
      }
    }

    method MergeSome(i: nat, n: nat, ghost all: multiset<Line>) returns (run: seq<Line>)
      requires AllZero(count[..]) && PrefixFree(all) && AllSorted(temp) && i + n <= |temp| &&
               Carried(all, Pool(temp[i..]), unique)
      modifies count
      ensures AllZero(count[..]) && IsSort(Pool(temp[i..i + n]), run, unique)
    {
      hide AllZero, Pool, Carried, IsSort, Sorted, Nonempty, Ready, PrefixFree;
      CarriedApart(all, Pool(temp[i..]), unique);
      PoolSplit(temp, i, n);
      PrefixFreeLess(Pool(temp[i..]), Pool(temp[i..i + n]));
      NonemptyIs(temp[i..i + n]);
      run := Merge(Nonempty(temp[i..i + n]), unique, count);
    }

    /** printout: sorted in memory, with lines of a key already put out left away. */
    method PrintOut(ghost all: multiset<Line>) returns (out: seq<Line>)
      requires AllZero(count[..]) && PrefixFree(all) && multiset(lines) == all
      modifies count
      ensures AllZero(count[..]) && IsSort(all, out, unique)
    {
      hide AllZero, PrefixFree, Emitted, IsSort, Emit, Le;
      var s := SortLines(all);
      out := [];
      EmittedStart(all, unique);
      assert s[0..] == s;
      for i := 0 to |s|
        invariant AllZero(count[..]) && Emitted(all, out, multiset(s[i..]), unique)
      {
        HeadTail(s[i..]);
        assert s[i..][1..] == s[i + 1..] && s[i..][0] == s[i];
        LeastFirst(s, i);
        EmitStep(all, out, multiset(s[i..]), s[i], unique);
        assert multiset(s[i..]) - multiset{s[i]} == multiset(s[i + 1..]);
        out := Emit(out, s[i], unique);
      }
      assert s[|s|..] == [];
      EmittedAll(all, out, unique);
    }
  }

  lemma CarriedAll(all: multiset<Line>, unique: bool)
    ensures Carried(all, all, unique)
  {
    forall l | l in all ensures HasKey(all, l.key) {
    }
  }

  lemma CarriedRun(all: multiset<Line>, temp: seq<Run>, i: nat, n: nat, run: Run, unique: bool)
    requires i + n < |temp| && Carried(all, Pool(temp[i..]), unique) && IsSort(Pool(temp[i..i + n]), run, unique)
    ensures Carried(all, Pool((temp + [run])[i + n..]), unique)
  {
    hide Pool, Carried, IsSort;
    PoolSplit(temp, i, n);
    CarriedMerge(all, Pool(temp[i..i + n]), Pool(temp[i + n..]), run, unique);
    PoolAppend(temp, run, i + n);
  }

  lemma SortRun(runs: seq<Run>, run: Run, unique: bool)
    requires IsSort(Pool(runs), run, unique)
    ensures Sorted(run)
  {
  }

  lemma LeastFirst(s: seq<Line>, i: nat)
    requires Sorted(s) && i < |s|
    ensures forall m :: m in multiset(s[i..]) ==> Le(s[i].key, m.key)
  {
    forall m | m in multiset(s[i..]) ensures Le(s[i].key, m.key) {
      assert m in s[i..];
      var j :| 0 <= j < |s[i..]| && s[i..][j] == m;
      if j == 0 {
        LeRefl(m.key);
      }
    }
  }

  /** All of sort: whatever the memory, the lines in order of their keys; with unique, one per key. */
  method Sort(input: seq<Line>, mline: nat, unique: bool) returns (out: seq<Line>)
    requires PrefixFree(multiset(input))
    ensures IsSort(multiset(input), out, unique)
  {
    hide AllZero, PrefixFree, IsSort, Pool, AllSorted;
    ghost var all := multiset(input);
    var s := new Sorter(mline, unique);
    s.DoFile(input);
    if s.temp != [] {
      s.TempOut(all);
      out := s.MergeOut(all);
    } else {
      PoolNone(s.temp);
      out := s.PrintOut(all);
    }
  }
}
