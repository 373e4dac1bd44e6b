/** The steps of a connection's two threads, one change at a time. */
module NinePTurn {
  import opened NinePState
  import opened NinePStep
  import opened NinePInv
  import opened NinePRel
  import opened NinePPut
  import opened NinePCnt
  import opened NinePHold
  import opened NinePMove

  lemma QuietRefl(s: State, c: nat)
    requires c < |s.conns|
    ensures forall d: Conn :: Quiet(s, SetConn(s, c, d), c)
  {
  }

  /** The connection's own part holds now. */
  lemma OwnPart(s: State, c: nat)
    requires Life(s) && c < |s.conns|
    ensures ConnLinks(s, c) && ConnStages(s, s.conns[c]) && Phase(s, c) && SyncsOk(s)
    ensures forall x: nat :: x < |s.msgs| && Active(s.msgs[x].stage) && s.msgs[x].conn == Some(c) ==> Waits(s, x)
  {
  }

  lemma QueuedClient(s: State, c: nat, g: nat)
    requires Life(s) && c < |s.conns| && Some(g) in s.conns[c].outq
    ensures ClientMsg(s, c, g)
  {
    var i :| 0 <= i < |s.conns[c].outq| && s.conns[c].outq[i] == Some(g);
    assert ConnLinks(s, c);
  }


  lemma CntRange(s: State, xm: multiset<nat>, xf: multiset<nat>, dying: set<nat>, xafid: nat)
    requires Cnt(s, xm, xf, dying, xafid)
    ensures (forall x :: x in xm ==> x < |s.msgs|) && (forall f :: f in xf ==> IsFid(s, f))
  {
  }

  // ----- a tag leaves the table ----------------------------------------------------------

  lemma TagDelDone(s: State, c: nat, k: nat)
    requires c < |s.conns| && k in s.conns[c].tag && s.conns[c].tag[k] < |s.msgs| &&
             !Active(s.msgs[s.conns[c].tag[k]].stage)
    requires ConnLinks(s, c) && ConnStages(s, s.conns[c]) && Phase(s, c) && SyncsOk(s)
    requires forall x: nat :: x < |s.msgs| && Active(s.msgs[x].stage) && s.msgs[x].conn == Some(c) ==> Waits(s, x)
    ensures ConnDone(s, TagDel(s, c, k), c)
  {
    var r := TagDel(s, c, k);
    forall x: nat | x < |r.msgs| && Active(r.msgs[x].stage) && r.msgs[x].conn == Some(c) ensures Waits(r, x) {
      assert Waits(s, x);
    }
  }

  lemma TagDelDelta(s: State, c: nat, k: nat, m: nat, xm: multiset<nat>)
    requires c < |s.conns| && k in s.conns[c].tag && s.conns[c].tag[k] == m && ConnLinks(s, c)
    ensures var d := s.conns[c]; ConnDelta(s, c, d.(tag := d.tag - {k}), xm, xm + multiset{m})
  {
    var d := s.conns[c];
    assert ClientMsg(s, c, m) && s.msgs[m].ctag == k;
  }

  lemma SameFids(s: State, c: nat, d: Conn, xf: multiset<nat>)
    requires c < |s.conns| && d.fid == s.conns[c].fid
    ensures TableDelta(s, c, d, xf, xf)
  {
  }

  /** Deleting a tag hands the table's reference to the thread. */
  lemma TagDelOk(s: State, c: nat, k: nat, xm: multiset<nat>, xf: multiset<nat>, xafid: nat)
    requires Ok(s, xm, xf, xafid) && c < |s.conns| && k in s.conns[c].tag
    requires s.conns[c].tag[k] < |s.msgs| && !Active(s.msgs[s.conns[c].tag[k]].stage)
    ensures Ok(TagDel(s, c, k), xm + multiset{s.conns[c].tag[k]}, xf, xafid)
  {
    hide Cnt, Life, ConnDone, ConnDelta, TableDelta, Quiet, ConnLinks, ConnStages, Phase, SyncsOk;
    OwnPart(s, c);
    var m := s.conns[c].tag[k];
    var d := s.conns[c].(tag := s.conns[c].tag - {k});
    TagDelDone(s, c, k);
    QuietRefl(s, c);
    QuietLife(s, TagDel(s, c, k), c);
    TagDelDelta(s, c, k, m, xm);
    SameFids(s, c, d, xf);
    CntRange(s, xm, xf, {}, xafid);
    ConnChange(s, c, d, xm, xm + multiset{m}, xf, xf, {}, xafid);
  }

  // ----- a fid leaves the table ----------------------------------------------------------

  lemma FidDelDone(s: State, c: nat, k: nat)
    requires c < |s.conns| && k in s.conns[c].fid && !(s.conns[c].pc.ClunkWait? && s.conns[c].pc.k == k)
    requires ConnLinks(s, c) && ConnStages(s, s.conns[c]) && Phase(s, c) && SyncsOk(s)
    requires forall x: nat :: x < |s.msgs| && Active(s.msgs[x].stage) && s.msgs[x].conn == Some(c) ==> Waits(s, x)
    ensures ConnDone(s, FidDel(s, c, k), c)
  {
    hide ConnMoved, ConnStages, Phase, SyncsOk, ConnLinks;
    var r := FidDel(s, c, k);
    FidDelMoved(s, c, k);
    FidDelRest(s, c, k);
    forall x: nat | x < |r.msgs| && Active(r.msgs[x].stage) && r.msgs[x].conn == Some(c) ensures Waits(r, x) {
      assert Waits(s, x);
    }
  }

  lemma FidDelMoved(s: State, c: nat, k: nat)
    requires c < |s.conns| && k in s.conns[c].fid && !(s.conns[c].pc.ClunkWait? && s.conns[c].pc.k == k) &&
             ConnLinks(s, c)
    ensures ConnMoved(s, FidDel(s, c, k), c)
  {
  }

  lemma FidDelRest(s: State, c: nat, k: nat)
    requires c < |s.conns| && ConnStages(s, s.conns[c]) && Phase(s, c) && SyncsOk(s)
    ensures var r := FidDel(s, c, k); ConnStages(r, r.conns[c]) && Phase(r, c) && SyncsOk(r)
  {
  }

  lemma FidDelDelta(s: State, c: nat, k: nat, f: nat, xf: multiset<nat>)
    requires c < |s.conns| && k in s.conns[c].fid && s.conns[c].fid[k] == f && ConnLinks(s, c)
    ensures var d := s.conns[c]; TableDelta(s, c, d.(fid := d.fid - {k}), xf, xf + multiset{f}) && IsFid(s, f)
  {
  }

  lemma SameHeld(s: State, c: nat, d: Conn, xm: multiset<nat>)
    requires c < |s.conns| && d == s.conns[c].(fid := d.fid, nmsg := d.nmsg)
    ensures ConnDelta(s, c, d, xm, xm)
  {
    forall x: nat | x < |s.msgs| ensures HoldsIf(s.msgs[x], c, d, x) == HoldsIf(s.msgs[x], c, s.conns[c], x) {
      SameHolds(s.conns[c], d, s.msgs[x].ctag, x);
    }
  }

  lemma FidDelOk(s: State, c: nat, k: nat, xm: multiset<nat>, xf: multiset<nat>, xafid: nat)
    requires Ok(s, xm, xf, xafid) && c < |s.conns| && k in s.conns[c].fid &&
             !(s.conns[c].pc.ClunkWait? && s.conns[c].pc.k == k)
    ensures Ok(FidDel(s, c, k), xm, xf + multiset{s.conns[c].fid[k]}, xafid)
  {
    hide Cnt, Life, ConnDone, ConnDelta, TableDelta, Quiet, ConnLinks, ConnStages, Phase, SyncsOk;
    OwnPart(s, c);
    var f := s.conns[c].fid[k];
    var d := s.conns[c].(fid := s.conns[c].fid - {k});
    FidDelDone(s, c, k);
    QuietRefl(s, c);
    QuietLife(s, FidDel(s, c, k), c);
    FidDelDelta(s, c, k, f, xf);
    SameHeld(s, c, d, xm);
    CntRange(s, xm, xf, {}, xafid);
    ConnChange(s, c, d, xm, xm, xf, xf + multiset{f}, {}, xafid);
  }

  // ----- the writing thread takes a reply ------------------------------------------------

  lemma TakeReplyIs(s: State, c: nat, m: nat)
    requires c < |s.conns| && m < |s.msgs| && s.conns[c].outq != []
    ensures TakeReply(s, c, m) ==
      SetMsg(SetConn(s, c, s.conns[c].(outq := s.conns[c].outq[1..], outpc := CWriting(m))), m,
        s.msgs[m].(stage := Handling))
  {
  }

  lemma TakeReplyQuiet(s: State, c: nat, m: nat)
    requires c < |s.conns| && m < |s.msgs| && s.conns[c].outq != [] && s.msgs[m].stage == Delivered &&
             s.msgs[m].conn == Some(c)
    ensures Quiet(s, TakeReply(s, c, m), c)
  {
  }

  lemma TakeReplyStages(s: State, c: nat, m: nat)
    requires c < |s.conns| && m < |s.msgs| && s.conns[c].outq != [] && s.conns[c].outq[0] == Some(m) &&
             ConnStages(s, s.conns[c])
    ensures ConnStages(TakeReply(s, c, m), TakeReply(s, c, m).conns[c]) && s.msgs[m].stage == Delivered
  {
    var r := TakeReply(s, c, m);
    var d, e := s.conns[c], r.conns[c];
    assert forall i :: 0 <= i < |e.outq| ==> e.outq[i] == d.outq[i + 1];
  }

  lemma TakeReplyPhase(s: State, c: nat, m: nat)
    requires c < |s.conns| && m < |s.msgs| && s.conns[c].outq != [] && s.conns[c].outq[0] == Some(m) &&
             s.conns[c].outpc.CIdle?
    requires Phase(s, c) && SyncsOk(s) && s.msgs[m].stage == Delivered
    ensures Phase(TakeReply(s, c, m), c) && SyncsOk(TakeReply(s, c, m))
  {
    var r := TakeReply(s, c, m);
    var d, e := s.conns[c], r.conns[c];
    assert forall i :: 0 <= i < |e.outq| ==> e.outq[i] == d.outq[i + 1];
  }

  lemma TakeReplyMoved(s: State, c: nat, m: nat)
    requires c < |s.conns| && m < |s.msgs| && s.conns[c].outq != [] && s.conns[c].outq[0] == Some(m) && ConnLinks(s, c)
    ensures ConnMoved(s, TakeReply(s, c, m), c)
  {
    var r := TakeReply(s, c, m);
    var d, e := s.conns[c], r.conns[c];
    assert forall i :: 0 <= i < |e.outq| ==> e.outq[i] == d.outq[i + 1];
    assert d.outq[0].Some?;
  }

  lemma TakeReplyDone(s: State, c: nat, m: nat)
    requires c < |s.conns| && m < |s.msgs| && s.conns[c].outq != [] && s.conns[c].outq[0] == Some(m) &&
             s.conns[c].outpc.CIdle?
    requires ConnLinks(s, c) && ConnStages(s, s.conns[c]) && Phase(s, c) && SyncsOk(s)
    requires forall x: nat :: x < |s.msgs| && Active(s.msgs[x].stage) && s.msgs[x].conn == Some(c) ==> Waits(s, x)
    ensures ConnDone(s, TakeReply(s, c, m), c)
  {
    hide ConnMoved, ConnStages, Phase, SyncsOk, ConnLinks;
    var r := TakeReply(s, c, m);
    TakeReplyMoved(s, c, m);
    TakeReplyStages(s, c, m);
    TakeReplyPhase(s, c, m);
    forall x: nat | x < |r.msgs| && Active(r.msgs[x].stage) && r.msgs[x].conn == Some(c) ensures Waits(r, x) {
      assert Waits(s, x);
    }
  }

  lemma QueueHead(q: seq<Option<nat>>, m: nat)
    requires q != [] && q[0] == Some(m)
    ensures forall x: nat :: multiset(q)[Some(x)] == multiset(q[1..])[Some(x)] + One(x == m)
  {
    assert q == [q[0]] + q[1..];
  }

  lemma TakeReplyDelta(s: State, c: nat, m: nat, xm: multiset<nat>)
    requires c < |s.conns| && s.conns[c].outq != [] && s.conns[c].outq[0] == Some(m) && s.conns[c].outpc.CIdle?
    ensures var d := s.conns[c]; ConnDelta(s, c, d.(outq := d.outq[1..], outpc := CWriting(m)), xm, xm)
  {
    QueueHead(s.conns[c].outq, m);
  }

  /** A message held by a queue or a thread has a count. */
  lemma HeldLive(s: State, m: nat, xm: multiset<nat>, xf: multiset<nat>, xafid: nat)
    requires Cnt(s, xm, xf, {}, xafid) && m < |s.msgs| && (Rooted(s, m) > 0 || xm[m] > 0)
    ensures s.msgs[m].ref > 0
  {
    assert s.msgs[m].ref == Held(s, m) + xm[m];
  }

  /** What moving on does to the count: nothing. */
  lemma StageCnt(s: State, m: nat, v: Msg, xm: multiset<nat>, xf: multiset<nat>, xafid: nat)
    requires Cnt(s, xm, xf, {}, xafid) && m < |s.msgs| && s.msgs[m].ref > 0
    requires v == s.msgs[m].(stage := v.stage, err := v.err, short := v.short)
    ensures Cnt(SetMsg(s, m, v), xm, xf, {}, xafid)
  {
    RefChange(s, m, v, xm, xm, xf, {}, xafid);
  }

  lemma HeadClient(s: State, c: nat)
    requires Links(s) && c < |s.conns| && s.conns[c].outq != [] && s.conns[c].outq[0].Some? && ConnStages(s, s.conns[c])
    ensures ClientMsg(s, c, s.conns[c].outq[0].value) && s.msgs[s.conns[c].outq[0].value].stage == Delivered
    ensures Rooted(s, s.conns[c].outq[0].value) > 0
  {
    assert ConnLinks(s, c);
    RootedByQueue(s, c, 0);
  }

  lemma TakeReplyOk(s: State, c: nat, m: nat, xafid: nat)
    requires Ok(s, multiset{}, multiset{}, xafid) && c < |s.conns| && s.conns[c].outq != [] &&
             s.conns[c].outq[0] == Some(m)
    requires s.conns[c].outpc.CIdle?
    ensures Ok(TakeReply(s, c, m), multiset{}, multiset{}, xafid) && ClientMsg(s, c, m) && s.msgs[m].stage == Delivered
  {
    var e := s.conns[c].(outq := s.conns[c].outq[1..], outpc := CWriting(m));
    hide Cnt, ConnDone, ConnDelta, TableDelta, Quiet, Phase, SyncsOk, TakeReply, Links, Stages, Phases, Logged,
      AnswersOk;
    assert Links(s);
    OwnPart(s, c);
    HeadClient(s, c);
    hide Life, ConnLinks, ConnStages;
    HeldLive(s, m, multiset{}, multiset{}, xafid);
    TakeReplyDone(s, c, m);
    TakeReplyQuiet(s, c, m);
    QuietLife(s, TakeReply(s, c, m), c);
    TakeReplyDelta(s, c, m, multiset{});
    SameFids(s, c, e, multiset{});
    ConnChange(s, c, e, multiset{}, multiset{}, multiset{}, multiset{}, {}, xafid);
    StageCnt(SetConn(s, c, e), m, s.msgs[m].(stage := Handling), multiset{}, multiset{}, xafid);
    TakeReplyIs(s, c, m);
  }

  // ----- the reply has been written ------------------------------------------------------

  lemma LetReplyIs(s: State, c: nat, m: nat)
    requires c < |s.conns| && m < |s.msgs|
    ensures LetReply(s, c, m) == SetMsg(SetConn(s, c, s.conns[c].(outpc := CIdle)), m, s.msgs[m].(stage := Done))
  {
  }

  lemma LetReplyQuiet(s: State, c: nat, m: nat)
    requires c < |s.conns| && m < |s.msgs| && s.msgs[m].stage == Handling && s.msgs[m].conn == Some(c)
    ensures Quiet(s, LetReply(s, c, m), c)
  {
  }

  lemma LetReplyDone(s: State, c: nat, m: nat)
    requires c < |s.conns| && m < |s.msgs| && s.conns[c].outpc == CWriting(m)
    requires ConnLinks(s, c) && ConnStages(s, s.conns[c]) && Phase(s, c) && SyncsOk(s)
    requires forall x: nat :: x < |s.msgs| && Active(s.msgs[x].stage) && s.msgs[x].conn == Some(c) ==> Waits(s, x)
    ensures ConnDone(s, LetReply(s, c, m), c)
  {
    var r := LetReply(s, c, m);
    assert s.msgs[m].stage == Handling;
    forall x: nat | x < |r.msgs| && Active(r.msgs[x].stage) && r.msgs[x].conn == Some(c) ensures Waits(r, x) {
      assert Waits(s, x);
    }
    assert ConnMoved(s, r, c);
    assert ConnStages(r, r.conns[c]);
  }

  lemma LetReplyDelta(s: State, c: nat, m: nat, xm: multiset<nat>)
    requires c < |s.conns| && s.conns[c].outpc == CWriting(m) && ClientMsg(s, c, m)
    ensures ConnDelta(s, c, s.conns[c].(outpc := CIdle), xm, xm + multiset{m})
  {
  }

  lemma WriterClient(s: State, c: nat)
    requires Links(s) && c < |s.conns| && s.conns[c].outpc.CWriting? && ConnStages(s, s.conns[c])
    ensures ClientMsg(s, c, s.conns[c].outpc.m) && s.msgs[s.conns[c].outpc.m].stage == Handling
    ensures Rooted(s, s.conns[c].outpc.m) > 0
  {
    assert ConnLinks(s, c);
    RootedByThreads(s, c);
  }

  lemma LetReplyOk(s: State, c: nat, m: nat, xafid: nat)
    requires Ok(s, multiset{}, multiset{}, xafid) && c < |s.conns| && s.conns[c].outpc == CWriting(m)
    ensures Ok(LetReply(s, c, m), multiset{m}, multiset{}, xafid)
  {
    var e := s.conns[c].(outpc := CIdle);
    hide Cnt, ConnDone, ConnDelta, TableDelta, Quiet, Phase, SyncsOk, LetReply, Links, Stages, Phases, Logged,
      AnswersOk;
    assert Links(s);
    OwnPart(s, c);
    WriterClient(s, c);
    hide Life, ConnLinks, ConnStages;
    HeldLive(s, m, multiset{}, multiset{}, xafid);
    LetReplyDone(s, c, m);
    LetReplyQuiet(s, c, m);
    QuietLife(s, LetReply(s, c, m), c);
    LetReplyDelta(s, c, m, multiset{});
    assert multiset{} + multiset{m} == multiset{m};
    SameFids(s, c, e, multiset{});
    ConnChange(s, c, e, multiset{}, multiset{m}, multiset{}, multiset{}, {}, xafid);
    StageCnt(SetConn(s, c, e), m, s.msgs[m].(stage := Done), multiset{m}, multiset{}, xafid);
    LetReplyIs(s, c, m);
  }

  lemma ConnWrittenInv(s: State, c: nat, xafid: nat)
    requires Inv(s, xafid) && Enabled(s, SConnWritten(c))
    ensures Inv(ConnWritten(s, c), xafid)
  {
    hide Cnt, Life, LetReply, MsgPut;
    var m := s.conns[c].outpc.m;
    LetReplyOk(s, c, m, xafid);
    LetReplyNoFresh(s, c, m);
    hide NoFresh;
    PutMsg(LetReply(s, c, m), m, multiset{m}, multiset{}, {}, xafid);
    assert multiset{m} - multiset{m} == multiset{};
    RelNoFresh(LetReply(s, c, m), MsgPut(LetReply(s, c, m), m));
  }

  lemma LetReplyNoFresh(s: State, c: nat, m: nat)
    requires NoFresh(s)
    ensures NoFresh(LetReply(s, c, m))
  {
  }

  lemma RelNoFresh(s: State, r: State)
    requires Rel(s, r) && NoFresh(s)
    ensures NoFresh(r)
  {
    forall m: nat | m < |r.msgs| ensures !r.msgs[m].stage.Fresh? {
      assert MsgRel(s, r, m);
    }
  }
}
