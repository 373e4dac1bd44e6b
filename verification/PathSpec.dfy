/** Path names: their elements, the directory they lead to, and their shortest form. */
module PathSpec {

  type Name = seq<char>

  const NUL := '\0'

  /** The text up to the first slash. */
  function Head(s: Name): (h: Name)
    ensures |h| <= |s| && h == s[..|h|] && '/' !in h && (|h| < |s| ==> s[|h|] == '/')
  {
    if s == [] || s[0] == '/' then [] else [s[0]] + Head(s[1..])
  }

  /** The elements between the slashes, empty ones included. */
  function Split(s: Name): (els: seq<Name>)
    ensures |els| > 0 && forall k :: 0 <= k < |els| ==> '/' !in els[k]
    decreases |s|
  {
    var h := Head(s);
    if |h| == |s| then [s] else [h] + Split(s[|h| + 1..])
  }

  predicate Rooted(s: Name) { s != [] && s[0] == '/' }

  // ----- the stack of elements kept -------------------------------------------------------

  /** One more element on the stack. */
  function Keep(rooted: bool, stack: seq<Name>, e: Name): seq<Name>
  {
    if e == "" || e == "." then stack
    else if e != ".." then stack + [e]
    else if stack != [] && stack[|stack| - 1] != ".." then stack[..|stack| - 1]
    else if rooted then stack
    else stack + [e]
  }

  function Fold(rooted: bool, stack: seq<Name>, els: seq<Name>): seq<Name>
    decreases |els|
  {
    if els == [] then stack else Fold(rooted, Keep(rooted, stack, els[0]), els[1..])
  }

  /** The stack with slashes between its elements. */
  function Join(stack: seq<Name>): Name
  {
    var n := |stack|;
    if n == 0 then "" else if n == 1 then stack[0] else Join(stack[..n - 1]) + "/" + stack[n - 1]
  }

  function Render(rooted: bool, stack: seq<Name>): Name { (if rooted then "/" else "") + Join(stack) }

  function Stack(s: Name): seq<Name> { Fold(Rooted(s), [], Split(s)) }

  /** The clean name: the elements folded over a stack. */
  function Clean(s: Name): Name
  {
    var c := Render(Rooted(s), Stack(s));
    if c == "" then "." else c
  }

  // ----- what a stack looks like -----------------------------------------------------------

  predicate Plain(e: Name) { e != "" && e != "." && e != ".." && '/' !in e }

  /** The number of leading parents. */
  function Ups(stack: seq<Name>): (k: nat)
    ensures k <= |stack| && (forall i :: 0 <= i < k ==> stack[i] == "..") && (k < |stack| ==> stack[k] != "..")
  {
    if stack == [] || stack[0] != ".." then 0 else 1 + Ups(stack[1..])
  }

  /** Parents first, none of them in a rooted path, then plain names. */
  ghost predicate Good(rooted: bool, stack: seq<Name>)
  {
    (rooted ==> Ups(stack) == 0) && forall i :: Ups(stack) <= i < |stack| ==> Plain(stack[i])
  }

  lemma {:induction false} UpsIs(stack: seq<Name>, k: nat)
    requires k <= |stack| && (forall i :: 0 <= i < k ==> stack[i] == "..") && (k < |stack| ==> stack[k] != "..")
    ensures Ups(stack) == k
  {
    if k > 0 {
      UpsIs(stack[1..], k - 1);
    }
  }

  lemma GoodKeep(rooted: bool, stack: seq<Name>, e: Name)
    requires Good(rooted, stack) && '/' !in e
    ensures Good(rooted, Keep(rooted, stack, e))
  {
    hide Ups;
    var stack' := Keep(rooted, stack, e);
    var k, n := Ups(stack), |stack|;
    if |stack'| > n && e == ".." {
      assert k == n;
      UpsIs(stack', n + 1);
    } else {
      UpsIs(stack', k);
    }
  }

  lemma {:induction false} GoodFold(rooted: bool, stack: seq<Name>, els: seq<Name>)
    requires Good(rooted, stack) && forall k :: 0 <= k < |els| ==> '/' !in els[k]
    ensures Good(rooted, Fold(rooted, stack, els))
    decreases |els|
  {
    hide Good, Keep;
    if els != [] {
      GoodKeep(rooted, stack, els[0]);
      GoodFold(rooted, Keep(rooted, stack, els[0]), els[1..]);
    }
  }

  /** The normal form has no empty or dot elements, and parents only at the front of a relative path. */
  lemma StackGood(s: Name)
    ensures Good(Rooted(s), Stack(s))
  {
    GoodFold(Rooted(s), [], Split(s));
  }

  // ----- back from the text -----------------------------------------------------------------

  lemma {:induction false} HeadOf(e: Name, rest: Name)
    requires '/' !in e && (rest == [] || rest[0] == '/')
    ensures Head(e + rest) == e
  {
    if e == [] {
      assert e + rest == rest;
    } else {
      assert (e + rest)[1..] == e[1..] + rest;
      HeadOf(e[1..], rest);
    }
  }

  lemma {:induction false} FoldMore(rooted: bool, stack: seq<Name>, els: seq<Name>, e: Name)
    ensures Fold(rooted, stack, els + [e]) == Keep(rooted, Fold(rooted, stack, els), e)
    decreases |els|
  {
    hide Keep;
    if els == [] {
      assert els + [e] == [e] && [e][1..] == [];
    } else {
      assert (els + [e])[1..] == els[1..] + [e];
      FoldMore(rooted, Keep(rooted, stack, els[0]), els[1..], e);
    }
  }

  lemma {:induction false} SplitMore(s: Name, e: Name)
    requires '/' !in e
    ensures Split(s + "/" + e) == Split(s) + [e]
    decreases |s|
  {
    hide Head;
    var h := Head(s);
    var t := s + "/" + e;
    var rest := s[|h|..] + "/" + e;
    assert t == h + rest && (rest[0] == '/');
    HeadOf(h, rest);
    if |h| == |s| {
      assert s == h && t[|h| + 1..] == e;
      HeadOf(e, []);
      assert e + [] == e && Split(e) == [e] && Split(s) == [s];
    } else {
      assert t[|h| + 1..] == s[|h| + 1..] + "/" + e;
      SplitMore(s[|h| + 1..], e);
    }
  }

  /** A path's elements are what was joined. */
  lemma {:induction false} SplitJoin(stack: seq<Name>)
    requires stack != [] && forall i :: 0 <= i < |stack| ==> '/' !in stack[i]
    ensures Split(Join(stack)) == stack
  {
    var n := |stack| - 1;
    if n == 0 {
      HeadOf(stack[0], []);
      assert stack[0] + [] == stack[0];
    } else {
      SplitJoin(stack[..n]);
      SplitMore(Join(stack[..n]), stack[n]);
    }
  }

  lemma {:induction false} FoldGood(rooted: bool, stack: seq<Name>)
    requires Good(rooted, stack)
    ensures Fold(rooted, [], stack) == stack
  {
    hide Fold;
    if stack == [] {
      FoldNone(rooted, []);
    } else {
      var n := |stack| - 1;
      GoodInit(rooted, stack);
      FoldGood(rooted, stack[..n]);
      assert stack == stack[..n] + [stack[n]];
      FoldMore(rooted, [], stack[..n], stack[n]);
    }
  }

  lemma FoldNone(rooted: bool, stack: seq<Name>)
    ensures Fold(rooted, stack, []) == stack
  {
  }

  /** The last element of a good stack is kept on top of the others. */
  lemma GoodInit(rooted: bool, stack: seq<Name>)
    requires Good(rooted, stack) && stack != []
    ensures var n := |stack| - 1; Good(rooted, stack[..n]) && Keep(rooted, stack[..n], stack[n]) == stack
  {
    hide Ups;
    var n := |stack| - 1;
    var k := Ups(stack);
    UpsIs(stack[..n], if k <= n then k else n);
    assert stack == stack[..n] + [stack[n]];
  }

  lemma GoodText(rooted: bool, stack: seq<Name>)
    requires Good(rooted, stack)
    ensures forall i :: 0 <= i < |stack| ==> '/' !in stack[i] && stack[i] != ""
  {
  }

  lemma {:induction false} JoinHead(stack: seq<Name>)
    requires stack != [] && forall i :: 0 <= i < |stack| ==> '/' !in stack[i] && stack[i] != ""
    ensures Join(stack) != "" && Join(stack)[0] != '/'
  {
    if |stack| == 1 {
      assert stack[0][0] in stack[0];
    } else {
      JoinHead(stack[..|stack| - 1]);
    }
  }

  /** A good stack is the stack of its own text. */
  lemma RenderStack(rooted: bool, stack: seq<Name>)
    requires Good(rooted, stack)
    ensures var c := Render(rooted, stack);
            Rooted(c) == rooted && Stack(c) == stack && (c == "" <==> !rooted && stack == [])
  {
    hide Good, Split, Join, Fold;
    FoldGood(rooted, stack);
    if stack == [] {
      JoinNone();
      RootStack();
      assert "/" + "" == "/";
    } else {
      GoodText(rooted, stack);
      SplitJoin(stack);
      JoinHead(stack);
      SplitRoot(Join(stack));
      assert "" + Join(stack) == Join(stack);
    }
  }

  lemma JoinNone()
    ensures Join([]) == ""
  {
  }

  lemma RootStack()
    ensures Stack("/") == [] && Stack("") == [] && Stack(".") == []
  {
    assert Head("/") == "" && "/"[1..] == "";
    assert Split("/") == ["", ""];
    assert Head(".") == ['.'] + Head("."[1..]);
    assert Split(".") == ["."];
  }

  /** The empty element before the first slash changes nothing. */
  lemma SplitRoot(s: Name)
    ensures Fold(true, [], Split("/" + s)) == Fold(true, [], Split(s))
  {
    var t := "/" + s;
    assert Head(t) == "" && t[1..] == s;
    assert Split(t) == [""] + Split(s);
    assert ([""] + Split(s))[1..] == Split(s);
  }

  /** Cleaning twice is cleaning once. */
  lemma CleanTwice(s: Name)
    ensures Clean(Clean(s)) == Clean(s) && Stack(Clean(s)) == Stack(s) && Rooted(Clean(s)) == Rooted(s)
  {
    hide Stack, Render;
    StackGood(s);
    RenderStack(Rooted(s), Stack(s));
    RootStack();
    RenderNone();
  }

  lemma RenderNone()
    ensures Render(false, []) == ""
  {
  }

  // ----- the directory a path leads to -------------------------------------------------------

  /** One element further: the parent of the root is the root. */
  function Enter(dir: seq<Name>, e: Name): seq<Name>
  {
    if e == "" || e == "." then dir
    else if e != ".." then dir + [e]
    else if dir == [] then []
    else dir[..|dir| - 1]
  }

  function Follow(dir: seq<Name>, els: seq<Name>): seq<Name>
    decreases |els|
  {
    if els == [] then dir else Enter(Follow(dir, els[..|els| - 1]), els[|els| - 1])
  }

  /** Where a path leads from a directory. */
  function Resolve(dir: seq<Name>, s: Name): seq<Name> { Follow(if Rooted(s) then [] else dir, Split(s)) }

  lemma FollowMore(dir: seq<Name>, els: seq<Name>, e: Name)
    ensures Follow(dir, els + [e]) == Enter(Follow(dir, els), e)
  {
    assert (els + [e])[..|els|] == els;
  }

  /** Keeping an element on the stack leads where entering it does. */
  lemma KeepEnters(rooted: bool, dir: seq<Name>, stack: seq<Name>, e: Name)
    requires Good(rooted, stack) && (rooted ==> dir == [])
    ensures Follow(dir, Keep(rooted, stack, e)) == Enter(Follow(dir, stack), e)
  {
    FollowMore(dir, stack, e);
    if e == ".." && stack != [] && stack[|stack| - 1] != ".." {
      var n := |stack| - 1;
      assert Plain(stack[n]);
      assert Enter(Follow(dir, stack[..n]), stack[n])[..|Follow(dir, stack[..n])|] == Follow(dir, stack[..n]);
    }
  }

  lemma {:induction false} FoldFollows(rooted: bool, dir: seq<Name>, els: seq<Name>)
    requires (rooted ==> dir == []) && forall k :: 0 <= k < |els| ==> '/' !in els[k]
    ensures Follow(dir, Fold(rooted, [], els)) == Follow(dir, els)
  {
    hide Good, Keep, Enter, Fold;
    if els == [] {
      FoldNone(rooted, []);
    } else {
      var n := |els| - 1;
      FoldFollows(rooted, dir, els[..n]);
      assert els == els[..n] + [els[n]];
      FoldMore(rooted, [], els[..n], els[n]);
      GoodNone(rooted);
      GoodFold(rooted, [], els[..n]);
      KeepEnters(rooted, dir, Fold(rooted, [], els[..n]), els[n]);
    }
  }

  lemma GoodNone(rooted: bool)
    ensures Good(rooted, [])
  {
  }

  /** Where a path leads depends on its stack alone. */
  lemma ResolveStack(dir: seq<Name>, s: Name)
    ensures Resolve(dir, s) == Follow(if Rooted(s) then [] else dir, Stack(s))
  {
    FoldFollows(Rooted(s), if Rooted(s) then [] else dir, Split(s));
  }

  /** The clean name leads where the name does. */
  lemma CleanResolves(dir: seq<Name>, s: Name)
    ensures Resolve(dir, Clean(s)) == Resolve(dir, s)
  {
    hide Resolve, Clean, Stack, Follow;
    ResolveStack(dir, s);
    ResolveStack(dir, Clean(s));
    CleanTwice(s);
  }

  // ----- and only names with the same clean form do ------------------------------------------

  /** A name longer than any of these. */
  function Longer(els: seq<Name>): (x: Name)
    ensures Plain(x) && forall i :: 0 <= i < |els| ==> |x| > |els[i]|
  {
    if els == [] then "aaa" else
      var x := Longer(els[1..]);
      var y := x + Others(els[0]);
      assert y[0] == x[0];
      y
  }

  function Others(e: Name): (y: Name)
    ensures |y| == |e| && '/' !in y
  {
    if e == [] then [] else ['a'] + Others(e[1..])
  }

  function Copies(x: Name, n: nat): (c: seq<Name>)
    ensures |c| == n && forall i :: 0 <= i < n ==> c[i] == x
  {
    if n == 0 then [] else Copies(x, n - 1) + [x]
  }

  /** A good stack takes its parents off the directory and puts its names on. */
  lemma {:induction false} FollowGood(rooted: bool, dir: seq<Name>, stack: seq<Name>)
    requires Good(rooted, stack) && |dir| >= Ups(stack)
    ensures Follow(dir, stack) == dir[..|dir| - Ups(stack)] + stack[Ups(stack)..]
  {
    hide Ups, Keep;
    if stack != [] {
      var n := |stack| - 1;
      GoodInit(rooted, stack);
      UpsInit(rooted, stack);
      FollowGood(rooted, dir, stack[..n]);
    } else {
      assert dir[..|dir|] == dir;
    }
  }

  lemma UpsInit(rooted: bool, stack: seq<Name>)
    requires Good(rooted, stack) && stack != []
    ensures var n := |stack| - 1; Ups(stack[..n]) == if Ups(stack) <= n then Ups(stack) else n
    ensures var n := |stack| - 1; if Ups(stack) <= n then Plain(stack[n]) else stack[n] == ".."
  {
    hide Ups;
    var n := |stack| - 1;
    UpsIs(stack[..n], if Ups(stack) <= n then Ups(stack) else n);
  }

  /** A directory deep enough, of elements in neither stack. */
  function Far(stack: seq<Name>, stack': seq<Name>): (dir: seq<Name>)
    ensures |dir| == |stack| + |stack'| + 1
    ensures forall i :: 0 <= i < |dir| ==> Plain(dir[i]) && dir[i] !in stack && dir[i] !in stack'
  {
    var x := Longer(stack + stack');
    assert forall i :: 0 <= i < |stack| ==> (stack + stack')[i] == stack[i];
    assert forall i :: 0 <= i < |stack'| ==> (stack + stack')[|stack| + i] == stack'[i];
    Copies(x, |stack| + |stack'| + 1)
  }

  lemma FarOrder(dir: seq<Name>, m: nat, tail: seq<Name>, m': nat, tail': seq<Name>)
    requires m < m' <= |dir| && dir[m] !in tail
    ensures dir[..m] + tail != dir[..m'] + tail'
  {
    assert (dir[..m'] + tail')[m] == dir[m];
    assert tail != [] ==> (dir[..m] + tail)[m] == tail[0];
  }

  /** Two stacks that leave the same from far away are equal. */
  lemma FarApart(dir: seq<Name>, k: nat, tail: seq<Name>, k': nat, tail': seq<Name>)
    requires k <= |dir| && k' <= |dir| && dir[..|dir| - k] + tail == dir[..|dir| - k'] + tail'
    requires forall i :: 0 <= i < |dir| ==> dir[i] !in tail && dir[i] !in tail'
    ensures k == k' && tail == tail'
  {
    var m, m' := |dir| - k, |dir| - k';
    if m < m' {
      FarOrder(dir, m, tail, m', tail');
    } else if m' < m {
      FarOrder(dir, m', tail', m, tail);
    } else {
      assert tail == (dir[..m] + tail)[m..] && tail' == (dir[..m] + tail')[m..];
    }
  }

  lemma StackApart(stack: seq<Name>, stack': seq<Name>)
    requires Good(false, stack) && Good(false, stack') &&
             Follow(Far(stack, stack'), stack) == Follow(Far(stack, stack'), stack')
    ensures stack == stack'
  {
    hide Far, Follow, Plain;
    var dir := Far(stack, stack');
    FollowGood(false, dir, stack);
    FollowGood(false, dir, stack');
    FarApart(dir, Ups(stack), stack[Ups(stack)..], Ups(stack'), stack'[Ups(stack')..]);
    SamePrefix(stack, stack');
  }

  lemma SamePrefix(stack: seq<Name>, stack': seq<Name>)
    requires Ups(stack) == Ups(stack') && stack[Ups(stack)..] == stack'[Ups(stack')..]
    ensures stack == stack'
  {
    hide Ups;
    var k := Ups(stack);
    assert stack == stack[..k] + stack[k..] && stack' == stack'[..k] + stack'[k..];
    assert stack[..k] == stack'[..k];
  }

  /** A rooted path leads to one place; a relative one to different places from different directories. */
  lemma RootedApart(dir: seq<Name>, stack: seq<Name>, stack': seq<Name>)
    requires Good(true, stack) && Good(false, stack') && |dir| > |stack'| && dir[0] !in stack
    ensures Follow([], stack) != Follow(dir, stack')
  {
    hide Follow, Plain;
    RootedSame(stack);
    FollowGood(false, dir, stack');
    assert Follow(dir, stack')[0] == dir[0];
  }

  /** Two names lead to the same place from everywhere. */
  ghost predicate SamePlace(s: Name, s': Name) { forall dir :: Resolve(dir, s) == Resolve(dir, s') }

  /** Names lead to the same place from everywhere exactly when their clean names are equal. */
  lemma CleanCanonical(s: Name, s': Name)
    ensures SamePlace(s, s') <==> Clean(s) == Clean(s')
  {
    if Clean(s) == Clean(s') {
      SameClean(s, s');
    }
    if SamePlace(s, s') {
      SameStacks(s, s');
    }
  }

  lemma SameClean(s: Name, s': Name)
    requires Clean(s) == Clean(s')
    ensures SamePlace(s, s')
  {
    hide Resolve, Clean;
    forall dir ensures Resolve(dir, s) == Resolve(dir, s') {
      CleanResolves(dir, s);
      CleanResolves(dir, s');
    }
  }

  lemma SameStacks(s: Name, s': Name)
    requires SamePlace(s, s')
    ensures Rooted(s) == Rooted(s') && Stack(s) == Stack(s')
  {
    hide Resolve, Stack, Far, Follow, Good, Rooted;
    var t, t' := Stack(s), Stack(s');
    StackGood(s);
    StackGood(s');
    var dir := Far(t, t');
    ResolveStack(dir, s);
    ResolveStack(dir, s');
    assert Resolve(dir, s) == Resolve(dir, s');
    if Rooted(s) && Rooted(s') {
      RootedSame(t);
      RootedSame(t');
    } else if Rooted(s) {
      RootedApart(dir, t, t');
    } else if Rooted(s') {
      RootedApart(dir, t', t);
    } else {
      StackApart(t, t');
    }
  }

  lemma RootedSame(stack: seq<Name>)
    requires Good(true, stack)
    ensures Follow([], stack) == stack
  {
    FollowGood(true, [], stack);
  }

  // ----- and it is the shortest ---------------------------------------------------------------

  /** The length of the elements, each with a slash. */
  function Weight(els: seq<Name>): nat
    decreases |els|
  {
    if els == [] then 0 else Weight(els[..|els| - 1]) + |els[|els| - 1]| + 1
  }

  lemma WeightMore(els: seq<Name>, e: Name)
    ensures Weight(els + [e]) == Weight(els) + |e| + 1
  {
    assert (els + [e])[..|els|] == els;
  }

  lemma {:induction false} WeightCons(e: Name, els: seq<Name>)
    ensures Weight([e] + els) == |e| + 1 + Weight(els)
    decreases |els|
  {
    if els == [] {
      assert [e] + els == [] + [e];
      WeightMore([], e);
    } else {
      var n := |els| - 1;
      WeightCons(e, els[..n]);
      assert [e] + els == [e] + els[..n] + [els[n]];
      WeightMore([e] + els[..n], els[n]);
    }
  }

  lemma {:induction false} WeightSplit(s: Name)
    ensures Weight(Split(s)) == |s| + 1
    decreases |s|
  {
    hide Weight;
    var h := Head(s);
    if |h| == |s| {
      assert [s] == [s] + [];
      WeightCons(s, []);
      WeightNone();
    } else {
      WeightSplit(s[|h| + 1..]);
      WeightCons(h, Split(s[|h| + 1..]));
    }
  }

  lemma WeightNone()
    ensures Weight([]) == 0
  {
  }

  lemma {:induction false} WeightJoin(stack: seq<Name>)
    requires stack != []
    ensures |Join(stack)| + 1 == Weight(stack)
  {
    if |stack| > 1 {
      WeightJoin(stack[..|stack| - 1]);
    }
  }

  lemma WeightKeep(rooted: bool, stack: seq<Name>, e: Name)
    ensures Weight(Keep(rooted, stack, e)) <= Weight(stack) + if e == "" then 0 else |e| + 1
  {
    WeightMore(stack, e);
  }

  lemma {:induction false} WeightFold(rooted: bool, stack: seq<Name>, els: seq<Name>)
    ensures Weight(Fold(rooted, stack, els)) <= Weight(stack) + Weight(els)
    decreases |els|
  {
    hide Keep, Weight;
    if els == [] {
      WeightNone();
    } else {
      WeightKeep(rooted, stack, els[0]);
      WeightFold(rooted, Keep(rooted, stack, els[0]), els[1..]);
      assert els == [els[0]] + els[1..];
      WeightCons(els[0], els[1..]);
    }
  }

  /** The slash of a rooted path counts once. */
  lemma WeightStack(s: Name)
    ensures Weight(Stack(s)) <= |s| + if Rooted(s) then 0 else 1
  {
    hide Weight;
    WeightNone();
    if Rooted(s) {
      assert s == "/" + s[1..];
      SplitRoot(s[1..]);
      WeightFold(true, [], Split(s[1..]));
      WeightSplit(s[1..]);
    } else {
      WeightFold(false, [], Split(s));
      WeightSplit(s);
    }
  }

  lemma CleanNoLonger(s: Name)
    requires s != ""
    ensures |Clean(s)| <= |s|
  {
    hide Weight, Fold, Split;
    WeightStack(s);
    if Stack(s) != [] {
      WeightJoin(Stack(s));
    }
  }

  /** No name that leads to the same place from everywhere is shorter, but the empty one. */
  lemma NoShorter(s: Name, s': Name)
    requires s' != "" && SamePlace(s, s')
    ensures |Clean(s)| <= |s'|
  {
    hide Clean, SamePlace;
    CleanCanonical(s, s');
    CleanNoLonger(s');
  }

  /** The empty name leads where the dot does, and is shorter. */
  lemma EmptyShorter()
    ensures Clean("") == "." && SamePlace(".", "") && Clean(".") == "." && |Clean(".")| > |""|
  {
    hide SamePlace;
    RootStack();
    RenderNone();
    CleanCanonical(".", "");
  }

  /** The clean name is the shortest of all that lead to the same place from everywhere, exactly when it is
      not the dot. */
  lemma CleanShortest(s: Name)
    ensures (forall s' :: SamePlace(s, s') ==> |Clean(s)| <= |s'|) <==> Clean(s) != "."
    ensures SamePlace(s, Clean(s))
  {
    hide Clean, SamePlace;
    CleanTwice(s);
    CleanCanonical(s, Clean(s));
    CleanCanonical(s, "");
    EmptyShorter();
    if Clean(s) != "." {
      forall s' | SamePlace(s, s') ensures |Clean(s)| <= |s'| {
        CleanCanonical(s, s');
        NoShorter(s, s');
      }
    }
  }
}
