/** cleanname: a path rewritten in place by a reader p and a writer q. */
module CleanName {
  import opened PathSpec

  /** The string in a buffer: up to its first NUL. */
  function StrOf(s: seq<char>): (t: Name)
    ensures |t| <= |s| && t == s[..|t|] && NUL !in t && (|t| < |s| ==> s[|t|] == NUL)
  {
    if s == [] || s[0] == NUL then [] else [s[0]] + StrOf(s[1..])
  }

  lemma {:induction false} StrIs(s: seq<char>, n: nat)
    requires n < |s| && s[n] == NUL && NUL !in s[..n]
    ensures StrOf(s) == s[..n]
  {
    if n > 0 {
      assert s[0] == s[..n][0] && s[1..][..n - 1] == s[..n][1..];
      StrIs(s[1..], n - 1);
    }
  }

  predicate IsSep(c: char) { c == '/' || c == NUL }

  // ----- the text of a stack ------------------------------------------------------------------

  /** A stack's text, with the slash that a further element needs. */
  function Opened(rooted: bool, stack: seq<Name>): Name
  {
    if stack == [] then Render(rooted, []) else Render(rooted, stack) + "/"
  }

  lemma RenderPush(rooted: bool, stack: seq<Name>, e: Name)
    ensures Render(rooted, stack + [e]) == Opened(rooted, stack) + e
  {
    assert (stack + [e])[..|stack|] == stack;
    if stack == [] {
      assert Join([e]) == e;
      assert Render(rooted, []) + e == Render(rooted, [e]);
    } else {
      assert Join(stack + [e]) == Join(stack) + "/" + e;
    }
  }

  /** Longer stacks have longer texts. */
  lemma {:induction false} RenderLonger(rooted: bool, stack: seq<Name>, k: nat)
    requires k <= |stack| && forall i :: 0 <= i < |stack| ==> stack[i] != ""
    ensures |Render(rooted, stack[..k])| <= |Render(rooted, stack)| &&
            (k < |stack| ==> |Opened(rooted, stack[..k])| < |Render(rooted, stack)|)
    decreases |stack|
  {
    if k == |stack| {
      assert stack[..k] == stack;
    } else {
      var n := |stack| - 1;
      RenderLonger(rooted, stack[..n], k);
      assert stack[..n][..k] == stack[..k];
      assert stack == stack[..n] + [stack[n]];
      RenderPush(rooted, stack[..n], stack[n]);
    }
  }

  // ----- the state of the rewrite ---------------------------------------------------------------

  /** What has been written is a good stack's text, with its parents ending at dotdot. */
  ghost predicate Written(s: seq<char>, rooted: bool, stack: seq<Name>, q: nat, dotdot: nat)
  {
    Good(rooted, stack) && q <= |s| && s[..q] == Render(rooted, stack) &&
    dotdot == |Render(rooted, stack[..Ups(stack)])|
  }

  /** What is left to read is untouched. */
  ghost predicate Unread(s: seq<char>, path: Name, p: nat)
  {
    p <= |path| < |s| && s[p..|path|] == path[p..] && s[|path|] == NUL
  }

  /** The writer is behind the reader, with room for a slash where an element starts. */
  ghost predicate Behind(s: seq<char>, rooted: bool, stack: seq<Name>, p: nat, q: nat)
    requires p < |s|
  {
    q <= p && (stack != [] && !IsSep(s[p]) ==> q < p)
  }

  ghost predicate Cleaning(s: seq<char>, path: Name, rooted: bool, stack: seq<Name>, p: nat, q: nat, dotdot: nat)
  {
    Written(s, rooted, stack, q, dotdot) && Unread(s, path, p) && Behind(s, rooted, stack, p, q) &&
    rooted == Rooted(path) && NUL !in path && Fold(rooted, stack, Split(path[p..])) == Stack(path)
  }

  lemma UnreadAt(s: seq<char>, path: Name, p: nat, k: nat)
    requires Unread(s, path, p) && p <= k < |s| && k <= |path|
    ensures k < |path| ==> s[k] == path[k] && Unread(s, path, k + 1)
    ensures k == |path| ==> s[k] == NUL
    ensures Unread(s, path, k)
  {
    if k < |path| {
      assert s[p..|path|][k - p] == s[k];
    }
    assert s[k..|path|] == s[p..|path|][k - p..];
  }

  // ----- what each kind of element does to the fold ----------------------------------------------

  /** The element at p is done with when the reader stands at the separator after it. */
  lemma TakeHead(rooted: bool, stack: seq<Name>, s: Name)
    ensures Fold(rooted, stack, Split(s)) == Fold(rooted, Keep(rooted, stack, Head(s)), Split(s[|Head(s)|..]))
  {
    hide Keep;
    var h := Head(s);
    var rest := s[|h|..];
    FoldSplit(rooted, stack, s);
    FoldSplit(rooted, Keep(rooted, stack, h), rest);
    KeepNone(rooted, Keep(rooted, stack, h));
    if |h| < |s| {
      assert Head(rest) == "" && rest[1..] == s[|h| + 1..];
    } else {
      assert h == s && rest == [];
    }
  }

  lemma KeepNone(rooted: bool, stack: seq<Name>)
    ensures Keep(rooted, stack, "") == stack && Keep(rooted, stack, ".") == stack
  {
  }

  lemma FoldSplit(rooted: bool, stack: seq<Name>, s: Name)
    ensures var h := Head(s);
            Fold(rooted, stack, Split(s)) == if |h| == |s| then Keep(rooted, stack, s)
            else Fold(rooted, Keep(rooted, stack, h), Split(s[|h| + 1..]))
  {
    hide Keep;
    var h := Head(s);
    if |h| == |s| {
      assert [s][1..] == [];
    } else {
      assert ([h] + Split(s[|h| + 1..]))[1..] == Split(s[|h| + 1..]);
    }
  }

  /** A slash is an empty element. */
  lemma TakeSlash(rooted: bool, stack: seq<Name>, s: Name)
    requires s != [] && s[0] == '/'
    ensures Fold(rooted, stack, Split(s)) == Fold(rooted, stack, Split(s[1..]))
  {
    FoldSplit(rooted, stack, s);
    KeepNone(rooted, stack);
  }

  /** The first characters tell the kind of the element. */
  lemma HeadKind(s: Name)
    requires s != []
    ensures Head(s) == "" <==> s[0] == '/'
    ensures Head(s) == "." <==> s[0] == '.' && (|s| == 1 || s[1] == '/')
    ensures Head(s) == ".." <==> |s| >= 2 && s[0] == '.' && s[1] == '.' && (|s| == 2 || s[2] == '/')
  {
    var h := Head(s);
    assert |h| > 0 ==> h[0] == s[0];
    assert |h| > 1 ==> h[1] == s[1];
    assert |h| > 2 ==> h[2] == s[2];
    if |h| == 1 {
      assert h == [s[0]];
    }
    if |h| == 2 {
      assert h == [s[0], s[1]];
    }
  }

  /** The same of a buffer. */
  lemma ReadKind(s: seq<char>, path: Name, p: nat)
    requires Unread(s, path, p) && p < |path| && NUL !in path
    ensures var h := Head(path[p..]);
      s[p] != NUL && p + 1 < |s| && (h == "" <==> s[p] == '/') && (h == "." <==> s[p] == '.' && IsSep(s[p + 1])) &&
      (s[p + 1] != NUL ==> p + 2 < |s|) && (h == ".." <==> s[p] == '.' && s[p + 1] == '.' && IsSep(s[p + 2]))
  {
    hide Head;
    var t := path[p..];
    HeadKind(t);
    UnreadAt(s, path, p, p);
    UnreadAt(s, path, p, p + 1);
    assert t[0] == path[p] && path[p] in path;
    if p + 1 < |path| {
      assert t[1] == path[p + 1] && path[p + 1] in path;
      UnreadAt(s, path, p, p + 2);
      if p + 2 < |path| {
        assert t[2] == path[p + 2] && path[p + 2] in path;
      }
    }
  }

  // ----- one element ------------------------------------------------------------------------------

  /** The reader is at the separator after an element, and the writer has its effect. */
  lemma Advance(s: seq<char>, s': seq<char>, path: Name, rooted: bool, stack: seq<Name>, stack': seq<Name>, p: nat,
                q: nat, dotdot: nat, q': nat, dotdot': nat)
    requires Cleaning(s, path, rooted, stack, p, q, dotdot) && p < |path|
    requires var h := Head(path[p..]); var p' := p + |h|;
             stack' == Keep(rooted, stack, h) && |s'| == |s| && s'[p'..] == s[p'..] && q' <= p'
    requires Written(s', rooted, stack', q', dotdot')
    ensures Cleaning(s', path, rooted, stack', p + |Head(path[p..])|, q', dotdot')
  {
    hide Written, Keep, Fold, Split, Stack;
    var h := Head(path[p..]);
    var p' := p + |h|;
    TakeHead(rooted, stack, path[p..]);
    assert path[p..][|h|..] == path[p'..];
    UnreadAt(s, path, p, p');
    assert s'[p'..|path|] == s'[p'..][..|path| - p'];
    assert s[p'..|path|] == s[p'..][..|path| - p'];
    assert s'[|path|] == s'[p'..][|path| - p'];
    UnreadAt(s', path, p', p');
  }

  lemma SlashStep(s: seq<char>, path: Name, rooted: bool, stack: seq<Name>, p: nat, q: nat, dotdot: nat)
    requires Cleaning(s, path, rooted, stack, p, q, dotdot) && p < |path| && path[p] == '/'
    ensures Cleaning(s, path, rooted, stack, p + 1, q, dotdot)
  {
    hide Written, Fold, Split, Stack;
    TakeSlash(rooted, stack, path[p..]);
    assert path[p..][1..] == path[p + 1..];
    UnreadAt(s, path, p, p);
  }

  /** The writer is past dotdot when there is an element to go back over. */
  lemma CanBacktrack(s: seq<char>, rooted: bool, stack: seq<Name>, q: nat, dotdot: nat)
    requires Written(s, rooted, stack, q, dotdot)
    ensures dotdot <= q && (q > dotdot <==> Ups(stack) < |stack|)
    ensures q > dotdot <==> stack != [] && stack[|stack| - 1] != ".."
    ensures q == (if rooted then 1 else 0) <==> stack == []
  {
    hide Ups, Render;
    GoodText(rooted, stack);
    RenderLonger(rooted, stack, Ups(stack));
    RenderLonger(rooted, stack, 0);
    RenderSize(rooted);
    assert stack[..0] == [] && stack[..|stack|] == stack;
  }

  lemma RenderSize(rooted: bool)
    ensures |Render(rooted, [])| == (if rooted then 1 else 0) && Opened(rooted, []) == Render(rooted, [])
  {
  }

  lemma WrittenUp(s: seq<char>, stack: seq<Name>, q: nat)
    requires Good(false, stack) && Ups(stack) == |stack| && q <= |s| && s[..q] == Opened(false, stack) + ".."
    ensures Written(s, false, stack + [".."], q, q)
  {
    hide Ups;
    UpsIs(stack + [".."], |stack| + 1);
    RenderPush(false, stack, "..");
    assert (stack + [".."])[..|stack| + 1] == stack + [".."];
  }

  lemma WrittenName(s: seq<char>, rooted: bool, stack: seq<Name>, e: Name, q: nat, dotdot: nat)
    requires Good(rooted, stack) && Plain(e) && q <= |s| && s[..q] == Opened(rooted, stack) + e &&
             dotdot == |Render(rooted, stack[..Ups(stack)])|
    ensures Written(s, rooted, stack + [e], q, dotdot)
  {
    hide Ups, Render;
    UpsIs(stack + [e], Ups(stack));
    RenderPush(rooted, stack, e);
    assert (stack + [e])[..Ups(stack)] == stack[..Ups(stack)];
  }

  lemma WrittenLess(s: seq<char>, rooted: bool, stack: seq<Name>, q: nat, dotdot: nat)
    requires Written(s, rooted, stack, q, dotdot) && Ups(stack) < |stack|
    ensures var n := |stack| - 1; var m := |Render(rooted, stack[..n])|;
            m <= q && Written(s, rooted, stack[..n], m, dotdot)
  {
    hide Ups, Keep;
    var n := |stack| - 1;
    var m := |Render(rooted, stack[..n])|;
    GoodInit(rooted, stack);
    UpsInit(rooted, stack);
    assert stack == stack[..n] + [stack[n]];
    RenderPush(rooted, stack[..n], stack[n]);
    assert stack[..n][..Ups(stack)] == stack[..Ups(stack)];
    assert s[..m] == s[..q][..m];
  }

  // ----- the rewrite --------------------------------------------------------------------------------

  /** Back over the last element, to the slash before it or to dotdot. */
  method Backtrack(a: array<char>, q0: nat, dotdot: nat, ghost rooted: bool, ghost stack: seq<Name>) returns (q: nat)
    requires Written(a[..], rooted, stack, q0, dotdot) && q0 > dotdot && Ups(stack) < |stack|
    ensures q == |Render(rooted, stack[..|stack| - 1])|
  {
    hide Written, Render;
    ghost var m := |Render(rooted, stack[..|stack| - 1])|;
    LastElement(a[..], rooted, stack, q0, dotdot);
    assert forall i :: m < i < q0 ==> a[i] == a[..][i] != '/';
    q := q0 - 1;
    while q > dotdot && a[q] != '/'
      invariant m <= q < q0
    {
      q := q - 1;
    }
  }

  lemma LastElement(s: seq<char>, rooted: bool, stack: seq<Name>, q: nat, dotdot: nat)
    requires Written(s, rooted, stack, q, dotdot) && Ups(stack) < |stack|
    ensures var m := |Render(rooted, stack[..|stack| - 1])|;
            dotdot <= m < q <= |s| && (m > dotdot ==> s[m] == '/') && forall i :: m < i < q ==> s[i] != '/'
  {
    hide Render, Ups, Keep;
    var n := |stack| - 1;
    var m := |Render(rooted, stack[..n])|;
    WrittenLess(s, rooted, stack, q, dotdot);
    CanBacktrack(s, rooted, stack[..n], m, dotdot);
    assert stack == stack[..n] + [stack[n]];
    RenderPush(rooted, stack[..n], stack[n]);
    RenderSize(rooted);
    var e := stack[n];
    assert Plain(e);
    var t := Opened(rooted, stack[..n]) + e;
    forall i | 0 <= i < q ensures s[i] == t[i] {
      assert s[i] == s[..q][i];
    }
    forall i | m < i < q ensures s[i] != '/' {
      assert t[i] == e[i - |Opened(rooted, stack[..n])|];
    }
  }

  /** A real element, moved down to the writer together with the separator after it. */
  method CopyElement(a: array<char>, p0: nat, q0: nat, ghost path: Name) returns (p: nat, q: nat)
    requires Unread(a[..], path, p0) && q0 <= p0 <= |path| < a.Length && NUL !in path
    modifies a
    ensures p == p0 + |Head(path[p0..])| && q == q0 + |Head(path[p0..])| && p < a.Length
    ensures a[..q] == old(a[..q0]) + Head(path[p0..]) && a[p..] == old(a[p..])
  {
    hide Head, Unread, Copied;
    ghost var h := Head(path[p0..]);
    ghost var was := a[..];
    p, q := p0, q0;
    ReadElement(was, path, p0, 0);
    CopyNone(was, h, p0, q0);
    a[q] := a[p];
    assert a[..] == was[q := was[p]];
    while a[q] != '/' && a[q] != NUL
      invariant p0 <= p <= p0 + |h| && p < a.Length && q == q0 + (p - p0)
      invariant Copied(a[..], was, h, p0, q0, p - p0) && a[q] == was[p]
      decreases |h| - (p - p0)
    {
      ReadElement(was, path, p0, p - p0);
      ReadElement(was, path, p0, p - p0 + 1);
      ghost var now := a[..];
      CopyNext(now, was, h, p0, q0, p - p0);
      p, q := p + 1, q + 1;
      a[q] := a[p];
      assert a[..] == now[q := now[p]];
    }
    ReadElement(was, path, p0, p - p0);
    CopyDone(a[..], was, h, p0, q0);
  }

  /** The first k characters of h have been moved down. */
  ghost predicate Copied(s: seq<char>, was: seq<char>, h: Name, p: nat, q: nat, k: nat)
  {
    k <= |h| && |s| == |was| && q <= p && p + k < |s| && s[..q + k] == was[..q] + h[..k] && s[p + k..] == was[p + k..]
  }

  /** Writing the character at the reader where the writer is changes neither part. */
  lemma CopyWrite(s: seq<char>, was: seq<char>, h: Name, p: nat, q: nat, k: nat)
    requires Copied(s, was, h, p, q, k)
    ensures s[p + k] == was[p + k] && Copied(s[q + k := s[p + k]], was, h, p, q, k)
  {
    assert s[p + k] == s[p + k..][0] && was[p + k] == was[p + k..][0];
    var s' := s[q + k := s[p + k]];
    assert s'[..q + k] == s[..q + k];
    assert s'[p + k..] == s[p + k..];
  }

  lemma CopyNone(was: seq<char>, h: Name, p: nat, q: nat)
    requires q <= p < |was|
    ensures Copied(was[q := was[p]], was, h, p, q, 0)
  {
    assert was[..q] + h[..0] == was[..q];
    CopyWrite(was, was, h, p, q, 0);
  }

  lemma CopyNext(s: seq<char>, was: seq<char>, h: Name, p: nat, q: nat, k: nat)
    requires Copied(s, was, h, p, q, k) && k < |h| && p + k + 1 < |s| && s[q + k] == h[k]
    ensures s[p + k + 1] == was[p + k + 1] && Copied(s[q + k + 1 := s[p + k + 1]], was, h, p, q, k + 1)
  {
    assert s[..q + k + 1] == s[..q + k] + [h[k]];
    assert h[..k + 1] == h[..k] + [h[k]];
    Suffix(s, was, p + k, p + k + 1);
    CopyWrite(s, was, h, p, q, k + 1);
  }

  lemma CopyDone(s: seq<char>, was: seq<char>, h: Name, p: nat, q: nat)
    requires Copied(s, was, h, p, q, |h|)
    ensures q <= p && p + |h| < |s| == |was| && s[..q + |h|] == was[..q] + h && s[p + |h|..] == was[p + |h|..]
  {
    assert h[..|h|] == h;
  }

  lemma Suffix(s: seq<char>, t: seq<char>, k: nat, m: nat)
    requires |s| == |t| && k <= m <= |s| && s[k..] == t[k..]
    ensures s[m..] == t[m..]
  {
    assert s[m..] == s[k..][m - k..] && t[m..] == t[k..][m - k..];
  }

  lemma ReadElement(s: seq<char>, path: Name, p: nat, k: nat)
    requires Unread(s, path, p) && NUL !in path && k <= |Head(path[p..])|
    ensures var h := Head(path[p..]); p + k < |s| && (k < |h| <==> !IsSep(s[p + k])) && (k < |h| ==> s[p + k] == h[k])
  {
    var t := path[p..];
    var h := Head(t);
    UnreadAt(s, path, p, p + k);
    if k < |h| {
      assert h[k] == t[k] == path[p + k] && path[p + k] in path && h[k] in h;
    } else if k < |t| {
      assert t[k] == path[p + k];
    }
  }

  /** An element dropped: nothing is written. */
  lemma DropStep(s: seq<char>, path: Name, rooted: bool, stack: seq<Name>, p: nat, q: nat, dotdot: nat)
    requires Cleaning(s, path, rooted, stack, p, q, dotdot) && p < |path| &&
             Keep(rooted, stack, Head(path[p..])) == stack
    ensures Cleaning(s, path, rooted, stack, p + |Head(path[p..])|, q, dotdot)
  {
    hide Written, Keep, Head;
    Advance(s, s, path, rooted, stack, stack, p, q, dotdot, q, dotdot);
  }

  /** A parent, with an element to go back over. */
  lemma PopStep(s: seq<char>, path: Name, rooted: bool, stack: seq<Name>, p: nat, q: nat, dotdot: nat)
    requires Cleaning(s, path, rooted, stack, p, q, dotdot) && p < |path| && Head(path[p..]) == ".." &&
             Ups(stack) < |stack|
    ensures var n := |stack| - 1; Cleaning(s, path, rooted, stack[..n], p + 2, |Render(rooted, stack[..n])|, dotdot)
  {
    hide Written, Render, Head;
    var n := |stack| - 1;
    CanBacktrack(s, rooted, stack, q, dotdot);
    WrittenLess(s, rooted, stack, q, dotdot);
    Advance(s, s, path, rooted, stack, stack[..n], p, q, dotdot, |Render(rooted, stack[..n])|, dotdot);
  }

  /** A parent of a relative path that has only parents. */
  lemma UpStep(s: seq<char>, s': seq<char>, path: Name, stack: seq<Name>, p: nat, q: nat, dotdot: nat, q': nat)
    requires Cleaning(s, path, false, stack, p, q, dotdot) && p < |path| && Head(path[p..]) == ".." &&
             Ups(stack) == |stack|
    requires |s'| == |s| && q' <= p + 2 <= |s| && s'[p + 2..] == s[p + 2..] && s'[..q'] == Opened(false, stack) + ".."
    ensures Cleaning(s', path, false, stack + [".."], p + 2, q', q')
  {
    hide Render, Head, Opened;
    CanBacktrack(s, false, stack, q, dotdot);
    WrittenUp(s', stack, q');
    Advance(s, s', path, false, stack, stack + [".."], p, q, dotdot, q', q');
  }

  /** A real element. */
  lemma NameStep(s: seq<char>, s': seq<char>, path: Name, rooted: bool, stack: seq<Name>, p: nat, q: nat, dotdot: nat,
                 q': nat)
    requires Cleaning(s, path, rooted, stack, p, q, dotdot) && p < |path| && Plain(Head(path[p..]))
    requires var h := Head(path[p..]);
             |s'| == |s| && q' <= p + |h| <= |s| && s'[p + |h|..] == s[p + |h|..] &&
             s'[..q'] == Opened(rooted, stack) + h
    ensures Cleaning(s', path, rooted, stack + [Head(path[p..])], p + |Head(path[p..])|, q', dotdot)
  {
    hide Render, Head, Opened;
    var h := Head(path[p..]);
    WrittenName(s', rooted, stack, h, q', dotdot);
    Advance(s, s', path, rooted, stack, stack + [h], p, q, dotdot, q', dotdot);
  }

  /** There is room for the slash before an element. */
  lemma Room(s: seq<char>, path: Name, rooted: bool, stack: seq<Name>, p: nat, q: nat, dotdot: nat)
    requires Cleaning(s, path, rooted, stack, p, q, dotdot)
    ensures q <= p <= |path| < |s| && s[..q] == Render(rooted, stack) && (s[p] != NUL <==> p < |path|) &&
            (p < |path| ==> s[p] == path[p])
    ensures p < |path| && path[p] != '/' ==> q == (if rooted then 1 else 0) || q < p
  {
    CanBacktrack(s, rooted, stack, q, dotdot);
    UnreadAt(s, path, p, p);
    assert p < |path| ==> path[p] in path;
  }

  lemma StartClean(s: seq<char>)
    requires |StrOf(s)| < |s|
    ensures var path := StrOf(s); var r := if s[0] == '/' then 1 else 0; Cleaning(s, path, s[0] == '/', [], r, r, r)
  {
    var path := StrOf(s);
    var r := if s[0] == '/' then 1 else 0;
    RenderSize(s[0] == '/');
    assert s[0] == '/' ==> path != [];
    assert path != [] ==> path[0] == s[0];
    assert s[..r] == Render(s[0] == '/', []);
    var none: seq<Name> := [];
    assert none[..Ups(none)] == [];
    if s[0] == '/' {
      TakeSlash(true, [], path);
    } else {
      assert path[0..] == path;
    }
  }

  /** The writer opens an element: a slash, unless it is the first. */
  method Open(a: array<char>, q0: nat, r: nat, ghost rooted: bool, ghost stack: seq<Name>) returns (q: nat)
    requires q0 < a.Length && r == (if rooted then 1 else 0) && a[..q0] == Render(rooted, stack) &&
             (q0 == r <==> stack == [])
    modifies a
    ensures q == (if q0 == r then q0 else q0 + 1) && a[..q] == Opened(rooted, stack) && a[q..] == old(a[q..])
  {
    q := q0;
    if q != r {
      ghost var was := a[..];
      a[q] := '/';
      q := q + 1;
      assert a[..q] == was[..q0] + "/";
    }
  }

  /** A relative path goes up once more. */
  method PutUp(a: array<char>, q0: nat, ghost path: Name, ghost stack: seq<Name>, ghost p: nat, ghost dotdot: nat)
    returns (q: nat)
    requires Cleaning(a[..], path, false, stack, p, q0, dotdot) && p < |path| && Head(path[p..]) == ".." &&
             Ups(stack) == |stack|
    modifies a
    ensures Cleaning(a[..], path, false, stack + [".."], p + 2, q, q)
  {
    hide Cleaning, Head, Ups, Render, Opened;
    ghost var was := a[..];
    UpRoom(was, path, stack, p, q0, dotdot);
    q := Open(a, q0, 0, false, stack);
    ghost var mid := a[..];
    a[q] := '.';
    a[q + 1] := '.';
    assert a[..] == mid[q := '.'][q + 1 := '.'];
    TwoDots(was, mid, p, q);
    q := q + 2;
    UpStep(was, a[..], path, stack, p, q0, dotdot, q);
  }

  lemma TwoDots(was: seq<char>, mid: seq<char>, p: nat, q: nat)
    requires q <= p && p + 2 <= |mid| == |was| && mid[q..] == was[q..]
    ensures var s := mid[q := '.'][q + 1 := '.']; s[..q + 2] == mid[..q] + ".." && s[p + 2..] == was[p + 2..]
  {
    assert forall i :: q <= i < |mid| ==> mid[i] == mid[q..][i - q] && was[i] == was[q..][i - q];
  }

  lemma UpRoom(s: seq<char>, path: Name, stack: seq<Name>, p: nat, q: nat, dotdot: nat)
    requires Cleaning(s, path, false, stack, p, q, dotdot) && p < |path| && Head(path[p..]) == ".."
    ensures p + 2 <= |path| < |s| && q <= p && (q == 0 || q < p) && s[..q] == Render(false, stack) &&
            (q == 0 <==> stack == [])
  {
    HeadKind(path[p..]);
    Room(s, path, false, stack, p, q, dotdot);
    CanBacktrack(s, false, stack, q, dotdot);
  }

  /** A real element goes on. */
  method PutName(a: array<char>, p0: nat, q0: nat, r: nat, ghost path: Name, ghost rooted: bool, ghost stack: seq<Name>,
                 ghost dotdot: nat) returns (p: nat, q: nat)
    requires Cleaning(a[..], path, rooted, stack, p0, q0, dotdot) && p0 < |path| && Plain(Head(path[p0..])) &&
             r == (if rooted then 1 else 0)
    modifies a
    ensures p == p0 + |Head(path[p0..])| && Cleaning(a[..], path, rooted, stack + [Head(path[p0..])], p, q, dotdot)
  {
    hide Cleaning, Head, Ups, Render, Opened, Unread, Plain;
    ghost var was := a[..];
    NameRoom(was, path, rooted, stack, p0, q0, dotdot);
    q := Open(a, q0, r, rooted, stack);
    ghost var mid := a[..];
    Suffix(mid, was, q, p0);
    UnreadSame(was, mid, path, p0);
    p, q := CopyElement(a, p0, q, path);
    Suffix(mid, was, p0, p);
    NameStep(was, a[..], path, rooted, stack, p0, q0, dotdot, q);
  }

  lemma UnreadSame(s: seq<char>, s': seq<char>, path: Name, p: nat)
    requires Unread(s, path, p) && |s'| == |s| && s'[p..] == s[p..]
    ensures Unread(s', path, p)
  {
    assert s'[p..|path|] == s'[p..][..|path| - p] && s[p..|path|] == s[p..][..|path| - p];
    assert s'[|path|] == s'[p..][|path| - p] && s[|path|] == s[p..][|path| - p];
  }

  lemma NameRoom(s: seq<char>, path: Name, rooted: bool, stack: seq<Name>, p: nat, q: nat, dotdot: nat)
    requires Cleaning(s, path, rooted, stack, p, q, dotdot) && p < |path| && Plain(Head(path[p..]))
    ensures q <= p < |s| && (q == (if rooted then 1 else 0) || q < p) && s[..q] == Render(rooted, stack) &&
            (q == (if rooted then 1 else 0) <==> stack == [])
    ensures Unread(s, path, p) && |path| < |s| && NUL !in path
  {
    HeadKind(path[p..]);
    Room(s, path, rooted, stack, p, q, dotdot);
    CanBacktrack(s, rooted, stack, q, dotdot);
  }

  /** One turn of the loop, by the kind of the element at the reader. */
  method Turn(a: array<char>, p0: nat, q0: nat, dotdot0: nat, r: nat, ghost path: Name, rooted: bool,
              ghost stack0: seq<Name>) returns (p: nat, q: nat, dotdot: nat, ghost stack: seq<Name>)
    requires Cleaning(a[..], path, rooted, stack0, p0, q0, dotdot0) && p0 < |path| && r == (if rooted then 1 else 0)
    modifies a
    ensures p > p0 && Cleaning(a[..], path, rooted, stack, p, q, dotdot)
  {
    hide Cleaning, Head, Ups, Render, Keep, Good, Unread;
    p, q, dotdot, stack := p0, q0, dotdot0, stack0;
    TurnKind(a[..], path, rooted, stack, p, q, dotdot);
    if a[p] == '/' {
      SlashStep(a[..], path, rooted, stack, p, q, dotdot);
      p := p + 1;
    } else if a[p] == '.' && IsSep(a[p + 1]) {
      DropStep(a[..], path, rooted, stack, p, q, dotdot);
      p := p + 1;
    } else if a[p] == '.' && a[p + 1] == '.' && IsSep(a[p + 2]) {
      p := p + 2;
      if q > dotdot {
        PopStep(a[..], path, rooted, stack, p0, q, dotdot);
        q := Backtrack(a, q, dotdot, rooted, stack);
        stack := stack[..|stack| - 1];
      } else if !rooted {
        q := PutUp(a, q, path, stack, p0, dotdot);
        dotdot, stack := q, stack + [".."];
      } else {
        DropStep(a[..], path, rooted, stack, p0, q, dotdot);
      }
    } else {
      p, q := PutName(a, p, q, r, path, rooted, stack, dotdot);
      stack := stack + [Head(path[p0..])];
    }
  }

  lemma TurnKind(s: seq<char>, path: Name, rooted: bool, stack: seq<Name>, p: nat, q: nat, dotdot: nat)
    requires Cleaning(s, path, rooted, stack, p, q, dotdot) && p < |path|
    ensures var h := Head(path[p..]);
      p + 1 < |s| && s[p] == path[p] && (h == "" <==> s[p] == '/') && (h == "." <==> s[p] == '.' && IsSep(s[p + 1])) &&
      (s[p + 1] != NUL ==> p + 2 < |s|) && (h == ".." <==> s[p] == '.' && s[p + 1] == '.' && IsSep(s[p + 2])) &&
      (Plain(h) <==> h != "" && h != "." && h != "..")
    ensures Written(s, rooted, stack, q, dotdot) && (q > dotdot <==> Ups(stack) < |stack|) && Ups(stack) <= |stack|
    ensures var h := Head(path[p..]);
            h == "." || (h == ".." && rooted && q <= dotdot) ==> Keep(rooted, stack, h) == stack
  {
    hide Head;
    ReadKind(s, path, p);
    UnreadAt(s, path, p, p);
    CanBacktrack(s, rooted, stack, q, dotdot);
  }

  /** cleanname: the clean name, in place. */
  method CleanInPlace(a: array<char>)
    requires a.Length >= 2 && |StrOf(a[..])| < a.Length
    modifies a
    ensures StrOf(a[..]) == Clean(StrOf(old(a[..])))
  {
    hide Cleaning, StrOf, Clean, Render;
    ghost var path := StrOf(a[..]);
    StartClean(a[..]);
    var rooted := a[0] == '/';
    var r := if rooted then 1 else 0;
    var p: nat, q: nat, dotdot: nat := r, r, r;
    ghost var stack := [];
    Room(a[..], path, rooted, stack, p, q, dotdot);
    while a[p] != NUL
      invariant 0 <= p <= |path| < a.Length && (a[p] != NUL <==> p < |path|)
      invariant Cleaning(a[..], path, rooted, stack, p, q, dotdot)
      decreases |path| - p
    {
      p, q, dotdot, stack := Turn(a, p, q, dotdot, r, path, rooted, stack);
      Room(a[..], path, rooted, stack, p, q, dotdot);
    }
    Room(a[..], path, rooted, stack, p, q, dotdot);
    Finished(a[..], path, rooted, stack, p, q, dotdot);
    if q == 0 {
      a[q] := '.';
      q := q + 1;
    }
    ghost var text := a[..q];
    a[q] := NUL;
    assert a[..q] == text;
    StrIs(a[..], q);
  }

  lemma Finished(s: seq<char>, path: Name, rooted: bool, stack: seq<Name>, p: nat, q: nat, dotdot: nat)
    requires Cleaning(s, path, rooted, stack, p, q, dotdot) && p == |path|
    ensures Clean(path) == (if q == 0 then "." else s[..q]) && NUL !in s[..q]
  {
    FoldSplit(rooted, stack, path[p..]);
    KeepNone(rooted, stack);
    assert path[p..] == [];
    RenderChars(path, rooted, stack);
  }

  lemma RenderChars(path: Name, rooted: bool, stack: seq<Name>)
    requires NUL !in path && stack == Stack(path)
    ensures NUL !in Render(rooted, stack)
  {
    SplitChars(path);
    FoldChars(Rooted(path), [], Split(path));
    JoinChars(stack);
  }

  ghost predicate NoNul(els: seq<Name>) { forall k :: 0 <= k < |els| ==> NUL !in els[k] }

  lemma {:induction false} SplitChars(s: Name)
    requires NUL !in s
    ensures NoNul(Split(s))
    decreases |s|
  {
    var h := Head(s);
    if |h| < |s| {
      SplitChars(s[|h| + 1..]);
    }
  }

  lemma {:induction false} FoldChars(rooted: bool, stack: seq<Name>, els: seq<Name>)
    requires NoNul(stack) && NoNul(els)
    ensures NoNul(Fold(rooted, stack, els))
    decreases |els|
  {
    if els != [] {
      FoldChars(rooted, Keep(rooted, stack, els[0]), els[1..]);
    }
  }

  lemma {:induction false} JoinChars(stack: seq<Name>)
    requires NoNul(stack)
    ensures NUL !in Join(stack)
  {
    if |stack| > 1 {
      JoinChars(stack[..|stack| - 1]);
    }
  }
}
