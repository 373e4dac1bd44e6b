/** The threads that write to the server and read from it, and the server itself. */
module NinePOut {
  import opened NinePState
  import opened NinePStep
  import opened NinePInv
  import opened NinePRel
  import opened NinePPut
  import opened NinePCnt
  import opened NinePMove
  import opened NinePTurn
  import NinePSettle

  lemma LifeParts(s: State)
    requires Life(s)
    ensures Links(s) && ActiveHeld(s) && OutOk(s) && ServerOk(s) && ReplyOrder(s) && SyncsOk(s) && Logged(s)
    ensures forall f: nat :: f < |s.msgs| ==> FlushOk(s, f)
  {
  }

  lemma ActiveLive(s: State, m: nat, xm: multiset<nat>, xf: multiset<nat>, xafid: nat)
    requires Cnt(s, xm, xf, {}, xafid) && Links(s) && ActiveHeld(s) && m < |s.msgs| && Active(s.msgs[m].stage)
    ensures s.msgs[m].ref > 0
  {
    hide Cnt, Links;
    RootedActive(s, m);
    HeldLive(s, m, xm, xf, xafid);
  }

  // ----- a request leaves the queue ------------------------------------------------------

  lemma TakeQueue(s: State)
    requires OutQueue(s) && OutAll(s) && OutSorted(s) && s.outq != [] && s.outq[0].Out?
    ensures var r := OutTake(s); OutQueue(r) && OutAll(r)
  {
    var r := OutTake(s);
    var m := s.outq[0].m;
    assert forall i :: 0 <= i < |r.outq| ==> r.outq[i] == s.outq[i + 1];
    forall x: nat | x < |r.msgs| && r.msgs[x].stage == Queued ensures Out(x) in r.outq {
      assert s.outq == [Out(m)] + r.outq;
      assert Out(x) in s.outq;
    }
  }

  lemma TakeSorted(s: State)
    requires OutQueue(s) && OutSorted(s) && s.outq != [] && s.outq[0].Out?
    ensures OutSorted(OutTake(s))
  {
    var r := OutTake(s);
    assert forall i :: 0 <= i < |r.outq| ==> r.outq[i] == s.outq[i + 1];
    assert |r.msgs| == |s.msgs| && forall x: nat :: x < |s.msgs| ==> r.msgs[x].serial == s.msgs[x].serial;
    hide OutTake;
    forall i, j | 0 <= i < j < |r.outq| && r.outq[i].Out? && r.outq[j].Out?
      ensures M(r, r.outq[i].m).serial < M(r, r.outq[j].m).serial {
      assert s.outq[i + 1].Out? && s.outq[j + 1].Out?;
    }
  }

  lemma TakeOut(s: State)
    requires OutQueue(s) && OutAll(s) && OutSorted(s) && s.outq != [] && s.outq[0].Out?
    ensures var r := OutTake(s); OutQueue(r) && OutAll(r) && OutSorted(r)
  {
    hide OutQueue, OutAll, OutSorted;
    TakeQueue(s);
    TakeSorted(s);
  }

  lemma TakeBefore(s: State)
    requires OutQueue(s) && OutSorted(s) && OutBefore(s) && OutThread(s) && s.out.OIdle? && s.outq != [] &&
             s.outq[0].Out?
    ensures var r := OutTake(s); OutBefore(r) && OutThread(r)
  {
    var r := OutTake(s);
    assert forall i :: 0 <= i < |r.outq| ==> r.outq[i] == s.outq[i + 1];
  }

  lemma TakeSyncs(s: State)
    requires SyncsOk(s) && s.outq != [] && s.outq[0].Out?
    ensures SyncsOk(OutTake(s))
  {
    var r := OutTake(s);
    assert forall i :: 0 <= i < |r.outq| ==> r.outq[i] == s.outq[i + 1];
    assert r.conns == s.conns;
    hide OutTake;
    forall i, j | 0 <= i < j < |r.outq| && r.outq[i].Sync? ensures r.outq[i] != r.outq[j] {
      assert s.outq[i + 1].Sync?;
    }
  }

  lemma TakeServer(s: State)
    requires OutQueue(s) && ServerOk(s) && ReplyOrder(s) && SyncsOk(s) && s.outq != [] && s.outq[0].Out?
    ensures var r := OutTake(s); ServerOk(r) && ReplyOrder(r) && SyncsOk(r)
  {
    TakeSyncs(s);
    hide SyncsOk;
    var r := OutTake(s);
    forall x: nat | x < |r.msgs| && r.msgs[x].stage == Replied ensures InReplies(r, x) {
      assert InReplies(s, x);
    }
  }

  lemma TakeFlush(s: State, f: nat)
    requires OutQueue(s) && s.outq != [] && s.outq[0].Out? && f < |s.msgs| && FlushOk(s, f)
    ensures FlushOk(OutTake(s), f)
  {
  }

  lemma TakeOuter(s: State)
    requires OutQueue(s) && s.outq != [] && s.outq[0].Out?
    ensures Outer(s, OutTake(s)) && OutPhase(s, OutTake(s))
  {
  }

  lemma TakeDone(s: State)
    requires Life(s) && s.out.OIdle? && s.outq != [] && s.outq[0].Out?
    ensures Outer(s, OutTake(s)) && OuterDone(s, OutTake(s)) && s.outq[0].m < |s.msgs| &&
            s.msgs[s.outq[0].m].stage == Queued
  {
    LifeParts(s);
    hide Life, Links, ActiveHeld, ServerOk, ReplyOrder, SyncsOk, Logged, OutAll, OutSorted, OutBefore, OutThread, Outer,
      OutPhase, FlushOk;
    TakeOut(s);
    TakeBefore(s);
    TakeServer(s);
    TakeOuter(s);
    forall f: nat | f < |OutTake(s).msgs| ensures FlushOk(OutTake(s), f) {
      TakeFlush(s, f);
    }
  }

  lemma TakeCnt(s: State, xafid: nat)
    requires Cnt(s, multiset{}, multiset{}, {}, xafid) && s.out.OIdle? && s.outq != [] && s.outq[0].Out? &&
             s.outq[0].m < |s.msgs|
    requires s.msgs[s.outq[0].m].ref > 0
    ensures Cnt(OutTake(s), multiset{}, multiset{}, {}, xafid)
  {
    hide Cnt;
    var m := s.outq[0].m;
    StageCnt(s, m, s.msgs[m].(stage := Writing), multiset{}, multiset{}, xafid);
    assert s.outq == [s.outq[0]] + s.outq[1..];
    var s1 := SetMsg(s, m, s.msgs[m].(stage := Writing));
    assert OutDelta(s1, OutTake(s), multiset{}, multiset{});
    hide OutDelta;
    OutChange(s1, OutTake(s), multiset{}, multiset{}, multiset{}, {}, xafid);
  }

  lemma OuterInv(s: State, r: State, xm: multiset<nat>, xafid: nat)
    requires Inv(s, xafid) && Outer(s, r) && OuterDone(s, r) && Cnt(r, xm, multiset{}, {}, xafid)
    ensures Ok(r, xm, multiset{}, xafid) && NoFresh(r)
  {
    hide Cnt, Life, OuterDone;
    OuterLife(s, r);
    forall x: nat | x < |r.msgs| ensures !r.msgs[x].stage.Fresh? {
      assert MoveMsg(s.msgs[x], r.msgs[x]);
    }
  }

  lemma OutTakeInv(s: State, xafid: nat)
    requires Inv(s, xafid) && Enabled(s, SOutTake)
    ensures Inv(OutTake(s), xafid)
  {
    hide Cnt, NoFresh, Life, Outer, OuterDone;
    TakeDone(s);
    LifeParts(s);
    hide Links, ActiveHeld, OutOk, ServerOk, ReplyOrder, SyncsOk, Logged, FlushOk;
    ActiveLive(s, s.outq[0].m, multiset{}, multiset{}, xafid);
    TakeCnt(s, xafid);
    OuterInv(s, OutTake(s), multiset{}, xafid);
  }

  // ----- a request reaches the server ----------------------------------------------------

  lemma WriteOut(s: State)
    requires OutOk(s) && s.out.OWriting?
    ensures OutOk(OutWrite(s)) && s.out.m < |s.msgs| && s.msgs[s.out.m].stage == Writing
  {
    var r := OutWrite(s);
    assert OutQueue(r) && OutAll(r) && OutSorted(r);
    assert OutBefore(r);
  }

  lemma WriteServer(s: State)
    requires OutThread(s) && ServerOk(s) && ReplyOrder(s) && SyncsOk(s) && s.out.OWriting?
    ensures var r := OutWrite(s); ServerOk(r) && ReplyOrder(r) && SyncsOk(r)
  {
    var r := OutWrite(s);
    forall x: nat | x < |r.msgs| && r.msgs[x].stage == Replied ensures InReplies(r, x) {
      assert InReplies(s, x);
    }
  }

  /** What is still queued is later than what has left. */
  lemma QueuedLater(s: State, m: nat, x: nat)
    requires OutAll(s) && OutBefore(s) && m < |s.msgs| && x < |s.msgs| && Departed(s.msgs[m].stage)
    ensures s.msgs[x].stage == Queued ==> s.msgs[m].serial < s.msgs[x].serial
  {
  }

  /** A flush reaches the server after the request it names. */
  lemma WriteAfter(s: State)
    requires Links(s) && OutOk(s) && s.out.OWriting? && s.out.m < |s.msgs| && s.msgs[s.out.m].oldm.Some?
    ensures var om := s.msgs[s.out.m].oldm.value;
            om < |s.msgs| && om != s.out.m && s.msgs[om].stage !in {Queued, Writing}
  {
    assert MsgLinks(s, s.msgs[s.out.m]);
    QueuedLater(s, s.out.m, s.msgs[s.out.m].oldm.value);
  }

  lemma WriteFlush(s: State, f: nat)
    requires Links(s) && OutOk(s) && s.out.OWriting? && f < |s.msgs| && FlushOk(s, f)
    ensures FlushOk(OutWrite(s), f)
  {
    if f == s.out.m && s.msgs[f].oldm.Some? {
      WriteAfter(s);
    }
  }

  lemma WriteOuter(s: State)
    requires OutThread(s) && s.out.OWriting?
    ensures Outer(s, OutWrite(s)) && OutPhase(s, OutWrite(s))
  {
  }

  lemma WriteDone(s: State)
    requires Life(s) && s.out.OWriting?
    ensures Outer(s, OutWrite(s)) && OuterDone(s, OutWrite(s)) && s.out.m < |s.msgs| && s.msgs[s.out.m].stage == Writing
  {
    LifeParts(s);
    hide Life, Links, ActiveHeld, ServerOk, ReplyOrder, SyncsOk, Logged, Outer, OutPhase, FlushOk, OutQueue, OutAll,
      OutSorted, OutBefore;
    WriteOut(s);
    WriteServer(s);
    WriteOuter(s);
    forall f: nat | f < |OutWrite(s).msgs| ensures FlushOk(OutWrite(s), f) {
      WriteFlush(s, f);
    }
  }

  lemma WriteCnt(s: State, xafid: nat)
    requires Cnt(s, multiset{}, multiset{}, {}, xafid) && s.out.OWriting? && s.out.m < |s.msgs| &&
             s.msgs[s.out.m].ref > 0
    ensures Cnt(OutWrite(s), multiset{}, multiset{}, {}, xafid)
  {
    hide Cnt;
    var m := s.out.m;
    StageCnt(s, m, s.msgs[m].(stage := Sent), multiset{}, multiset{}, xafid);
    var s1 := SetMsg(s, m, s.msgs[m].(stage := Sent));
    var s2 := s1.(out := OWritten(m));
    assert OutDelta(s1, s2, multiset{}, multiset{});
    hide OutDelta;
    OutChange(s1, s2, multiset{}, multiset{}, multiset{}, {}, xafid);
    CntFrame(s2, OutWrite(s), multiset{}, multiset{}, {}, xafid);
  }

  lemma OutWriteInv(s: State, xafid: nat)
    requires Inv(s, xafid) && Enabled(s, SOutWrite)
    ensures Inv(OutWrite(s), xafid)
  {
    hide Cnt, NoFresh, Life, Outer, OuterDone;
    WriteDone(s);
    LifeParts(s);
    hide Links, ActiveHeld, OutOk, ServerOk, ReplyOrder, SyncsOk, Logged, FlushOk;
    ActiveLive(s, s.out.m, multiset{}, multiset{}, xafid);
    WriteCnt(s, xafid);
    OuterInv(s, OutWrite(s), multiset{}, xafid);
  }

  // ----- the writer lets go --------------------------------------------------------------

  lemma IdleOut(s: State, r: State)
    requires OutOk(s) && s.out.OWritten? && r == s.(out := OIdle)
    ensures OutOk(r) && s.out.m < |s.msgs|
  {
    assert OutQueue(r) && OutAll(r);
    assert OutSorted(r) by { hide OutBefore, OutThread, OutAll; }
    assert OutBefore(r) by { hide OutSorted, OutThread, OutAll; }
    assert OutThread(r) by { hide OutSorted, OutBefore, OutAll, OutQueue; }
  }

  lemma IdleServer(s: State, r: State)
    requires ServerOk(s) && ReplyOrder(s) && SyncsOk(s) && r == s.(out := OIdle)
    ensures ServerOk(r) && ReplyOrder(r) && SyncsOk(r)
  {
    forall x: nat | x < |r.msgs| && r.msgs[x].stage == Replied ensures InReplies(r, x) {
      assert InReplies(s, x);
    }
  }

  lemma IdleDone(s: State)
    requires Life(s) && s.out.OWritten?
    ensures Outer(s, s.(out := OIdle)) && OuterDone(s, s.(out := OIdle)) && s.out.m < |s.msgs|
  {
    LifeParts(s);
    hide Life, Links, ActiveHeld, Logged, OutOk, ServerOk, ReplyOrder, SyncsOk;
    var r := s.(out := OIdle);
    IdleOut(s, r);
    IdleServer(s, r);
    forall f: nat | f < |r.msgs| ensures FlushOk(r, f) {
      assert FlushOk(s, f);
    }
  }

  lemma IdleCnt(s: State, xafid: nat)
    requires Cnt(s, multiset{}, multiset{}, {}, xafid) && s.out.OWritten? && s.out.m < |s.msgs|
    ensures Cnt(s.(out := OIdle), multiset{s.out.m}, multiset{}, {}, xafid)
  {
    hide Cnt;
    OutChange(s, s.(out := OIdle), multiset{}, multiset{s.out.m}, multiset{}, {}, xafid);
  }

  lemma OutPutInv(s: State, xafid: nat)
    requires Inv(s, xafid) && Enabled(s, SOutPut)
    ensures Inv(OutPut(s), xafid)
  {
    hide Cnt, NoFresh, Life, Outer, OuterDone, MsgPut, NinePSettle.Calm;
    IdleDone(s);
    IdleCnt(s, xafid);
    var r := s.(out := OIdle);
    OuterInv(s, r, multiset{s.out.m}, xafid);
    assert multiset{} + multiset{s.out.m} == multiset{s.out.m};
    NinePSettle.PutOk(r, s.out.m, multiset{}, multiset{}, xafid);
    NinePSettle.CalmNoFresh(r, OutPut(s));
  }

  // ----- the server answers --------------------------------------------------------------

  /** The answer to t; the request it flushes, if the server still has it, is forgotten. */
  lemma ServeIs(s: State, t: nat, err: bool, short: bool)
    requires t in s.pend && t < |s.msgs| &&
             (s.pend[t].flushes.Some? && s.pend[t].flushes.value in s.pend ==> s.pend[t].flushes.value < |s.msgs|)
    ensures var r := Serve(s, t, err, short); var q := s.pend[t];
      var cut := q.flushes.Some? && q.flushes.value in s.pend && q.flushes.value != t;
      var ms := s.msgs[t := s.msgs[t].(stage := Replied)];
      r == s.(msgs := if cut then ms[q.flushes.value := s.msgs[q.flushes.value].(stage := Cancelled)] else ms,
              pend := if cut then s.pend - {t} - {q.flushes.value} else s.pend - {t},
              replies := s.replies + [Reply(t, q.serial, err, short)])
  {
  }

  /** Messages that have reached the server move on; the queue to it stays. */
  ghost predicate Shed(s: State, r: State)
  {
    |r.msgs| == |s.msgs| && |r.conns| == |s.conns| && r.conns == s.conns && r.outq == s.outq && r.out == s.out &&
    (forall x: nat :: x < |s.msgs| ==> r.msgs[x].serial == s.msgs[x].serial) &&
    (forall x: nat :: x < |s.msgs| && s.msgs[x].stage !in {Sent, Replied} ==> r.msgs[x].stage == s.msgs[x].stage) &&
    (forall x: nat :: x < |s.msgs| && s.msgs[x].stage in {Sent, Replied} ==> r.msgs[x].stage !in {Queued, Writing})
  }

  lemma ShedOut(s: State, r: State)
    requires Shed(s, r) && OutOk(s) && SyncsOk(s)
    ensures OutOk(r) && SyncsOk(r)
  {
    assert OutQueue(r) && OutAll(r);
    assert OutSorted(r);
    assert OutBefore(r) by { hide OutAll, OutThread, SyncsOk; }
    assert OutThread(r) by { hide OutQueue, OutAll, SyncsOk, OutSorted, OutBefore; }
  }

  /** How the server's answer moves messages on. */
  ghost predicate Served(s: State, r: State, t: nat, cut: Option<nat>)
  {
    t < |s.msgs| && t in s.pend && |r.msgs| == |s.msgs| && r.msgs[t] == s.msgs[t].(stage := Replied) &&
    (cut.Some? ==> cut.value != t && cut.value in s.pend && cut.value < |s.msgs| && s.msgs[t].oldm == cut) &&
    (cut.Some? ==> r.msgs[cut.value] == s.msgs[cut.value].(stage := Cancelled)) &&
    (forall x: nat :: x < |s.msgs| && x != t && Some(x) != cut ==> r.msgs[x] == s.msgs[x]) &&
    (cut.None? && s.msgs[t].oldm.Some? ==> s.msgs[t].oldm.value !in s.pend || s.msgs[t].oldm.value == t) &&
    (forall x :: x in r.pend <==> x in s.pend && x != t && Some(x) != cut) &&
    (forall x :: x in r.pend ==> r.pend[x] == s.pend[x]) &&
    |r.replies| == |s.replies| + 1 && (forall i :: 0 <= i < |s.replies| ==> r.replies[i] == s.replies[i]) &&
    r.replies[|s.replies|].tag == t && r.replies[|s.replies|].serial == s.msgs[t].serial &&
    r == s.(msgs := r.msgs, pend := r.pend, replies := r.replies)
  }

  lemma ServeServed(s: State, t: nat, err: bool, short: bool) returns (cut: Option<nat>)
    requires PendOk(s) && t in s.pend
    ensures Served(s, Serve(s, t, err, short), t, cut)
  {
    ServeIs(s, t, err, short);
    var q := s.pend[t];
    cut := if q.flushes.Some? && q.flushes.value in s.pend && q.flushes.value != t then q.flushes else None;
  }

  lemma ServedOut(s: State, r: State, t: nat, cut: Option<nat>)
    requires Served(s, r, t, cut) && PendOk(s) && OutOk(s) && SyncsOk(s)
    ensures OutOk(r) && SyncsOk(r)
  {
    assert Shed(s, r);
    hide Served, OutOk, SyncsOk, Shed;
    ShedOut(s, r);
  }

  lemma ServedReplies(s: State, r: State, t: nat, cut: Option<nat>, m: nat)
    requires Served(s, r, t, cut) && (m == t || InReplies(s, m))
    ensures InReplies(r, m)
  {
    if m == t {
      assert r.replies[|s.replies|].tag == m;
    } else {
      var i :| 0 <= i < |s.replies| && s.replies[i].tag == m;
      assert r.replies[i].tag == m;
    }
  }

  lemma ServedServer(s: State, r: State, t: nat, cut: Option<nat>)
    requires Served(s, r, t, cut) && ServerOk(s)
    ensures ServerOk(r)
  {
    forall m: nat | m < |r.msgs| && r.msgs[m].stage == Replied ensures InReplies(r, m) {
      ServedReplies(s, r, t, cut, m);
    }
    hide InReplies;
    assert PendOk(r) by { hide RepliesOk; }
    assert RepliesOk(r);
  }

  /** No reply to a flush of t while the server still has t. */
  lemma NotFlushed(s: State, t: nat)
    requires Links(s) && t < |s.msgs| && s.msgs[t].stage == Sent && forall f: nat :: f < |s.msgs| ==> FlushOk(s, f)
    ensures s.msgs[t].oldm != Some(t) &&
            forall f: nat :: f < |s.msgs| && s.msgs[f].stage == Replied ==> s.msgs[f].oldm != Some(t)
  {
    assert MsgLinks(s, s.msgs[t]);
    forall f: nat | f < |s.msgs| && s.msgs[f].stage == Replied ensures s.msgs[f].oldm != Some(t) {
      assert FlushOk(s, f);
    }
  }

  lemma ServedTags(s: State, r: State, t: nat, cut: Option<nat>)
    requires Served(s, r, t, cut) && RepliesOk(s)
    ensures forall i ::
              0 <= i < |s.replies| ==>
                r.replies[i] == s.replies[i] && s.replies[i].tag < |s.msgs| && s.msgs[s.replies[i].tag].stage == Replied
    ensures |r.replies| == |s.replies| + 1 && r.replies[|s.replies|].tag == t && t < |s.msgs|
    ensures |r.msgs| == |s.msgs| && forall x: nat :: x < |s.msgs| ==> r.msgs[x].oldm == s.msgs[x].oldm
  {
  }

  lemma ServedOrder(s: State, r: State, t: nat, cut: Option<nat>)
    requires Served(s, r, t, cut) && Links(s) && ServerOk(s) && ReplyOrder(s) &&
             forall f: nat :: f < |s.msgs| ==> FlushOk(s, f)
    ensures ReplyOrder(r)
  {
    hide Links, FlushOk, Served, ServerOk, RepliesOk;
    ServedParts(s, r, t, cut);
    NotFlushed(s, t);
    ServedTags(s, r, t, cut);
  }

  lemma ServedParts(s: State, r: State, t: nat, cut: Option<nat>)
    requires Served(s, r, t, cut) && ServerOk(s)
    ensures RepliesOk(s) && t < |s.msgs| && s.msgs[t].stage == Sent
  {
    hide RepliesOk;
  }

  lemma ServedFlush(s: State, r: State, t: nat, cut: Option<nat>, f: nat)
    requires Served(s, r, t, cut) && Links(s) && PendOk(s) && f < |s.msgs| && FlushOk(s, f)
    ensures FlushOk(r, f)
  {
    assert MsgLinks(s, s.msgs[f]);
    assert s.msgs[t].stage == Sent;
  }

  lemma ServedOuter(s: State, r: State, t: nat, cut: Option<nat>)
    requires Served(s, r, t, cut) && PendOk(s)
    ensures Outer(s, r) && OutPhase(s, r)
  {
  }

  lemma ServedDone(s: State, r: State, t: nat, cut: Option<nat>)
    requires Served(s, r, t, cut) && Life(s)
    ensures Outer(s, r) && OuterDone(s, r)
  {
    LifeParts(s);
    hide Life, Links, ActiveHeld, OutOk, ReplyOrder, SyncsOk, Logged, Outer, OutPhase, FlushOk, RepliesOk, PendOk,
      InReplies;
    ServedOut(s, r, t, cut);
    ServedServer(s, r, t, cut);
    ServedOrder(s, r, t, cut);
    ServedOuter(s, r, t, cut);
    forall f: nat | f < |r.msgs| ensures FlushOk(r, f) {
      ServedFlush(s, r, t, cut, f);
    }
  }

  lemma ServedCnt(s: State, r: State, t: nat, cut: Option<nat>, xafid: nat)
    requires Served(s, r, t, cut) && Cnt(s, multiset{}, multiset{}, {}, xafid) && s.msgs[t].ref > 0 &&
             (cut.Some? ==> s.msgs[cut.value].ref > 0)
    ensures Cnt(r, multiset{}, multiset{}, {}, xafid)
  {
    hide Cnt;
    StageCnt(s, t, s.msgs[t].(stage := Replied), multiset{}, multiset{}, xafid);
    var s1 := SetMsg(s, t, s.msgs[t].(stage := Replied));
    if cut.Some? {
      StageCnt(s1, cut.value, s1.msgs[cut.value].(stage := Cancelled), multiset{}, multiset{}, xafid);
      var s2 := SetMsg(s1, cut.value, s1.msgs[cut.value].(stage := Cancelled));
      assert r.msgs == s2.msgs;
      CntFrame(s2, r, multiset{}, multiset{}, {}, xafid);
    } else {
      assert r.msgs == s1.msgs;
      CntFrame(s1, r, multiset{}, multiset{}, {}, xafid);
    }
  }

  lemma ServeInv(s: State, t: nat, err: bool, short: bool, xafid: nat)
    requires Inv(s, xafid) && Enabled(s, SServe(t, err, short))
    ensures Inv(Serve(s, t, err, short), xafid)
  {
    hide Cnt, NoFresh, Life, Outer, OuterDone, Serve;
    LifeParts(s);
    var cut := ServeServed(s, t, err, short);
    assert s.msgs[t].stage == Sent && (cut.Some? ==> s.msgs[cut.value].stage == Sent);
    hide Links, ActiveHeld, OutOk, ServerOk, ReplyOrder, SyncsOk, Logged, FlushOk;
    var r := Serve(s, t, err, short);
    ServedDone(s, r, t, cut);
    ActiveLive(s, t, multiset{}, multiset{}, xafid);
    if cut.Some? {
      ActiveLive(s, cut.value, multiset{}, multiset{}, xafid);
    }
    ServedCnt(s, r, t, cut, xafid);
    OuterInv(s, r, multiset{}, xafid);
  }

  // ----- a reply is read -----------------------------------------------------------------

  lemma HeadReply(s: State)
    requires RepliesOk(s) && s.replies != []
    ensures s.replies[0].tag < |s.msgs| && s.msgs[s.replies[0].tag].stage == Replied
  {
  }

  lemma FetchOut(s: State)
    requires RepliesOk(s) && OutOk(s) && SyncsOk(s) && s.replies != []
    ensures var r := Fetch(s, s.replies[0]); OutOk(r) && SyncsOk(r)
  {
    hide Fetch, OutOk, SyncsOk, Shed, RepliesOk;
    FetchShed(s);
    ShedOut(s, Fetch(s, s.replies[0]));
  }

  lemma FetchShed(s: State)
    requires RepliesOk(s) && s.replies != []
    ensures Shed(s, Fetch(s, s.replies[0]))
  {
    hide RepliesOk;
    HeadReply(s);
  }

  lemma FetchReplies(s: State, m: nat)
    requires s.replies != [] && InReplies(s, m) && m != s.replies[0].tag
    ensures InReplies(Fetch(s, s.replies[0]), m)
  {
    var r := Fetch(s, s.replies[0]);
    var i :| 0 <= i < |s.replies| && s.replies[i].tag == m;
    assert r.replies[i - 1].tag == m;
  }

  lemma FetchOrder(s: State)
    requires RepliesOk(s) && ReplyOrder(s) && s.replies != []
    ensures ReplyOrder(Fetch(s, s.replies[0]))
  {
    HeadReply(s);
    var r := Fetch(s, s.replies[0]);
    assert forall i :: 0 <= i < |r.replies| ==> r.replies[i] == s.replies[i + 1];
    forall i, j | 0 <= i < |r.replies| && 0 <= j < |r.replies| && M(r, r.replies[i].tag).oldm == Some(r.replies[j].tag)
      ensures j < i {
      assert M(s, s.replies[i + 1].tag).oldm == Some(s.replies[j + 1].tag);
    }
  }

  lemma FetchPend(s: State)
    requires PendOk(s) && RepliesOk(s) && s.replies != []
    ensures PendOk(Fetch(s, s.replies[0]))
  {
    HeadReply(s);
  }

  lemma FetchTags(s: State)
    requires RepliesOk(s) && s.replies != []
    ensures RepliesOk(Fetch(s, s.replies[0]))
  {
    HeadReply(s);
    var r := Fetch(s, s.replies[0]);
    assert forall i :: 0 <= i < |r.replies| ==> r.replies[i] == s.replies[i + 1];
  }

  lemma FetchStage(s: State, m: nat)
    requires RepliesOk(s) && s.replies != [] && m < |s.msgs|
    ensures var r := Fetch(s, s.replies[0]); |r.msgs| == |s.msgs|
    ensures Fetch(s, s.replies[0]).msgs[m].stage == Replied ==> s.msgs[m].stage == Replied && m != s.replies[0].tag
  {
    HeadReply(s);
  }

  lemma FetchServer(s: State)
    requires ServerOk(s) && ReplyOrder(s) && s.replies != []
    ensures var r := Fetch(s, s.replies[0]); ServerOk(r) && ReplyOrder(r)
  {
    hide ReplyOrder, PendOk, RepliesOk, InReplies, Fetch;
    FetchOrder(s);
    FetchPend(s);
    FetchTags(s);
    var r := Fetch(s, s.replies[0]);
    FetchExtent(s);
    forall m: nat | m < |r.msgs| && r.msgs[m].stage == Replied ensures InReplies(r, m) {
      FetchStage(s, m);
      FetchReplies(s, m);
    }
  }

  lemma FetchExtent(s: State)
    requires s.replies != []
    ensures |Fetch(s, s.replies[0]).msgs| == |s.msgs|
  {
  }

  /** When the reply to a flush is read, the request it names is not on its way any more. */
  lemma FetchAfter(s: State, x: nat)
    requires ServerOk(s) && ReplyOrder(s) && s.replies != [] && M(s, s.replies[0].tag).oldm == Some(x) && x < |s.msgs|
    ensures s.msgs[x].stage != Replied
  {
    assert s.msgs[x].stage == Replied ==> InReplies(s, x);
  }

  lemma FetchFlush(s: State, f: nat)
    requires ServerOk(s) && ReplyOrder(s) && s.replies != [] && f < |s.msgs| && FlushOk(s, f) && MsgLinks(s, s.msgs[f])
    ensures FlushOk(Fetch(s, s.replies[0]), f)
  {
    HeadReply(s);
    if f == s.replies[0].tag && s.msgs[f].oldm.Some? {
      FetchAfter(s, s.msgs[f].oldm.value);
    }
  }

  lemma FetchOuter(s: State)
    requires RepliesOk(s) && s.replies != []
    ensures Outer(s, Fetch(s, s.replies[0])) && OutPhase(s, Fetch(s, s.replies[0]))
  {
    HeadReply(s);
  }

  lemma FetchDone(s: State)
    requires Life(s) && s.replies != []
    ensures var r := Fetch(s, s.replies[0]); Outer(s, r) && OuterDone(s, r)
  {
    LifeParts(s);
    hide Life, ActiveHeld, OutOk, ReplyOrder, SyncsOk, Logged, Outer, OutPhase, FlushOk, RepliesOk, PendOk, InReplies;
    FetchOut(s);
    FetchServer(s);
    FetchOuter(s);
    forall f: nat | f < |Fetch(s, s.replies[0]).msgs| ensures FlushOk(Fetch(s, s.replies[0]), f) {
      FetchFlush(s, f);
    }
  }

  lemma FetchCnt(s: State, xafid: nat)
    requires Cnt(s, multiset{}, multiset{}, {}, xafid) && s.replies != [] && s.replies[0].tag < |s.msgs| &&
             s.msgs[s.replies[0].tag].ref > 0
    ensures Cnt(Fetch(s, s.replies[0]), multiset{s.replies[0].tag}, multiset{}, {}, xafid)
  {
    hide Cnt;
    var q := s.replies[0];
    var o := s.msgs[q.tag];
    var v := o.(ref := o.ref + 1, err := q.err, short := q.short, stage := Fetched);
    RefChange(s, q.tag, v, multiset{}, multiset{q.tag}, multiset{}, {}, xafid);
    CntFrame(SetMsg(s, q.tag, v), Fetch(s, q), multiset{q.tag}, multiset{}, {}, xafid);
  }

  /** The reply is for a message that is still there, and the reading thread holds it. */
  lemma FetchOk(s: State, xafid: nat)
    requires Inv(s, xafid) && s.replies != []
    ensures var m := s.replies[0].tag; var r := Fetch(s, s.replies[0]);
      m < |s.msgs| && s.msgs[m].ref > 0 && s.msgs[m].stage == Replied && s.msgs[m].conn.Some? && Waits(s, m) &&
      Ok(r, multiset{m}, multiset{}, xafid) && NoFresh(r)
  {
    hide Cnt, NoFresh, Life, Outer, OuterDone, Fetch;
    LifeParts(s);
    HeadReply(s);
    var m := s.replies[0].tag;
    hide Links, OutOk, ServerOk, ReplyOrder, SyncsOk, Logged, FlushOk;
    ActiveLive(s, m, multiset{}, multiset{}, xafid);
    FetchDone(s);
    FetchCnt(s, xafid);
    OuterInv(s, Fetch(s, s.replies[0]), multiset{m}, xafid);
  }
}
