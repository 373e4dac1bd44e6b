/** How many states a grammar needs: one for every core that a prefix leads to. */
module YaccCores {
  import opened YaccGrammar
  import opened YaccItems
  import opened YaccPaths
  import opened YaccSort
  import opened YaccAutomaton

  /** There are as many cores as there may be states at most, each of them needed. */
  ghost predicate TooMany(d: Tables)
  {
    exists cores: set<set<Item>> :: |cores| >= NSTATES && AllNeeded(d, cores)
  }

  ghost predicate AllNeeded(d: Tables, cores: set<set<Item>>) { forall c :: c in cores ==> c != {} && Reachable(d, c) }

  /** The cores of these states. */
  ghost function CoresOf(states: seq<seq<Entry>>): set<set<Item>>
  {
    if states == [] then {} else CoresOf(states[..|states| - 1]) + {Core(states[|states| - 1])}
  }

  lemma {:induction false} CoresIn(states: seq<seq<Entry>>, c: set<Item>)
    ensures c in CoresOf(states) <==> exists i :: 0 <= i < |states| && Core(states[i]) == c
  {
    hide Core;
    if states != [] {
      var n := |states| - 1;
      CoresIn(states[..n], c);
      if c in CoresOf(states[..n]) {
        var i :| 0 <= i < n && Core(states[..n][i]) == c;
        assert Core(states[i]) == c;
      }
    }
  }

  lemma {:induction false} CoresCount(states: seq<seq<Entry>>)
    ensures |CoresOf(states)| <= |states|
    ensures (forall i, j :: 0 <= i < j < |states| ==> Core(states[i]) != Core(states[j])) ==>
              |CoresOf(states)| == |states|
  {
    hide Core;
    if states != [] {
      var n := |states| - 1;
      CoresCount(states[..n]);
      CoresIn(states[..n], Core(states[n]));
    }
  }

  lemma StateNeeded(d: Tables, s: seq<Entry>)
    requires StateOk(d, s)
    ensures Core(s) != {} && Reachable(d, Core(s))
  {
    assert s[0].item in Core(s);
  }

  lemma CoresApart(d: Tables, a: Auto)
    requires StatesOk(d, a) && Apart(a)
    ensures forall i, j :: 0 <= i < j < |a.states| ==> Core(a.states[i]) != Core(a.states[j])
  {
    forall i, j | 0 <= i < j < |a.states| ensures Core(a.states[i]) != Core(a.states[j]) {
      assert StateOk(d, a.states[i]) && StateOk(d, a.states[j]);
      if Core(a.states[i]) == Core(a.states[j]) {
        CoreSame(a.states[i], a.states[j]);
        assert false;
      }
    }
  }

  lemma NewCore(d: Tables, a: Auto, s: seq<Entry>)
    requires StatesOk(d, a) && StateOk(d, s) && forall j :: 0 <= j < |a.states| ==> !SameItems(a.states[j], s)
    ensures Core(s) !in CoresOf(a.states)
  {
    CoresIn(a.states, Core(s));
    forall i | 0 <= i < |a.states| ensures Core(a.states[i]) != Core(s) {
      assert StateOk(d, a.states[i]);
      if Core(a.states[i]) == Core(s) {
        CoreSame(a.states[i], s);
        assert false;
      }
    }
  }

  /** A new core when all states are used up: no automaton of the grammar could do with so few. */
  lemma Overflows(d: Tables, a: Auto, s: seq<Entry>)
    requires StatesOk(d, a) && Apart(a) && StateOk(d, s) && |a.states| + 1 >= NSTATES
    requires forall j :: 0 <= j < |a.states| ==> !SameItems(a.states[j], s)
    ensures TooMany(d)
  {
    hide StateOk, Apart, SameItems, Reachable, Core;
    CoresApart(d, a);
    CoresCount(a.states);
    NewCore(d, a, s);
    var cores := CoresOf(a.states) + {Core(s)};
    forall c | c in cores ensures c != {} && Reachable(d, c) {
      CoresIn(a.states, c);
      StateNeeded(d, s);
      if c in CoresOf(a.states) {
        var i :| 0 <= i < |a.states| && Core(a.states[i]) == c;
        StateNeeded(d, a.states[i]);
      }
    }
    assert |cores| >= NSTATES && AllNeeded(d, cores);
  }

  /** When every core needed is there, and not all states are used, there are not too many. */
  lemma NotTooMany(d: Tables, a: Auto)
    requires |a.states| < NSTATES && forall c :: c != {} && Reachable(d, c) ==> c in CoresOf(a.states)
    ensures !TooMany(d)
  {
    hide Reachable;
    if TooMany(d) {
      var cores: set<set<Item>> :| |cores| >= NSTATES && AllNeeded(d, cores);
      CoresCount(a.states);
      SubsetSmaller(cores, CoresOf(a.states));
      assert false;
    }
  }

  lemma SubsetSmaller<T>(x: set<T>, y: set<T>)
    requires x <= y
    ensures |x| <= |y|
  {
    assert y == x + (y - x);
  }
}
