/** go2out: the gotos of a nonterminal, with the most frequent one made the default. */
module YaccGoto {
  import opened YaccTables
  import opened YaccOpt

  /** How often v stands in g from j on. */
  function Times(g: seq<int>, j: nat, v: int): nat
    requires j <= |g|
    decreases |g| - j
  {
    if j == |g| then 0 else (if g[j] == v then 1 else 0) + Times(g, j + 1, v)
  }

  lemma {:induction false} TimesLess(g: seq<int>, j: nat, k: nat, v: int)
    requires j <= k <= |g|
    ensures Times(g, k, v) <= Times(g, j, v)
    decreases k - j
  {
    if j < k {
      TimesLess(g, j + 1, k, v);
    }
  }

  lemma {:induction false} TimesAll(g: seq<int>, j: nat, v: int)
    requires j <= |g| && forall i :: 0 <= i < j ==> g[i] != v
    ensures Times(g, j, v) == Times(g, 0, v)
  {
    if j > 0 {
      TimesAll(g, j - 1, v);
    }
  }

  lemma {:induction false} TimesNone(g: seq<int>, j: nat, v: int)
    requires j <= |g| && forall i :: j <= i < |g| ==> g[i] != v
    ensures Times(g, j, v) == 0
    decreases |g| - j
  {
    if j < |g| {
      TimesNone(g, j + 1, v);
    }
  }

  method CountFrom(g: seq<int>, j: nat, v: int) returns (n: nat)
    requires j <= |g|
    ensures n == Times(g, j, v)
  {
    n := 0;
    var k := |g|;
    while k > j
      invariant j <= k <= |g| && n == Times(g, k, v)
    {
      k := k - 1;
      if g[k] == v {
        n := n + 1;
      }
    }
  }

  lemma SeenBefore(g: seq<int>, j: nat, v: int)
    requires j < |g| && g[j] == v
    ensures Times(g, 0, v) >= 1 && (Times(g, j, v) == Times(g, 0, v) || exists i :: 0 <= i < j && g[i] == v)
  {
    TimesLess(g, 0, j, v);
    if forall i :: 0 <= i < j ==> g[i] != v {
      TimesAll(g, j, v);
    }
  }

  /** The most frequent goto, or zero if there is none. */
  method Best(g: seq<int>) returns (best: int)
    requires forall j :: 0 <= j < |g| ==> g[j] >= 0
    ensures best == 0 <==> forall j :: 0 <= j < |g| ==> g[j] == 0
    ensures best != 0 ==> best in g
    ensures forall v :: v != 0 ==> Times(g, 0, v) <= Times(g, 0, best) || best == 0
  {
    best := -1;
    var times := 0;
    for j := 0 to |g|
      invariant if times == 0 then best == -1 else best > 0 && best in g && times == Times(g, 0, best)
      invariant forall i :: 0 <= i < j && g[i] != 0 ==> times > 0 && Times(g, 0, g[i]) <= times
    {
      if g[j] != 0 && g[j] != best {
        var count := CountFrom(g, j, g[j]);
        SeenBefore(g, j, g[j]);
        TimesLess(g, 0, j, g[j]);
        if count > times {
          best := g[j];
          times := count;
        }
      }
    }
    if best == -1 {
      best := 0;
    }
    forall v | v != 0 ensures Times(g, 0, v) <= Times(g, 0, best) || best == 0 {
      if v !in g {
        TimesNone(g, 0, v);
      }
    }
  }

  /** The gotos other than the default, in order of states. */
  function Listed(g: seq<int>, best: int): Row
  {
    if g == [] then [] else
      var n := |g| - 1;
      Listed(g[..n], best) + if g[n] != 0 && g[n] != best then [(n, g[n])] else []
  }

  lemma {:induction false} ListedIs(g: seq<int>, best: int)
    ensures forall s, v :: (s, v) in Listed(g, best) <==> 0 <= s < |g| && g[s] == v && v != 0 && v != best
    ensures forall k, l :: 0 <= k < l < |Listed(g, best)| ==> Listed(g, best)[k].0 < Listed(g, best)[l].0
  {
    if g != [] {
      var n := |g| - 1;
      ListedIs(g[..n], best);
      var row := Listed(g[..n], best);
      forall k | 0 <= k < |row| ensures row[k].0 < n {
        var (a, b) := row[k];
        assert row[k] in row && (a, b) in row;
      }
      assert forall s, v ::
               (s, v) in Listed(g, best) <==> (s, v) in row || (s == n && v == g[n] && v != 0 && v != best);
    }
  }

  /** From the packed tables the parser reads every goto, listed or by default. */
  lemma GotoRead(t: Tables, p: Packing, n: int, g: seq<int>, best: int, s: int)
    requires GotosAgree(t, p) && 1 <= n < |t.gotos| && t.gotos[n] == Listed(g, best) && t.deflt[n] == best != 0
    requires 0 <= s < |g| && g[s] != 0
    ensures ReadGoto(t, p, n, s) == g[s]
  {
    ListedIs(g, best);
    var v := ReadGoto(t, p, n, s);
    if g[s] != best {
      assert (s, g[s]) in t.gotos[n];
    } else {
      assert forall w :: (s, w) !in t.gotos[n];
    }
  }
}
