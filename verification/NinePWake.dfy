/** Replies from the server: to a client's queue, or to the thread that asked. */
module NinePWake {
  import opened NinePState
  import opened NinePStep
  import opened NinePInv
  import opened NinePRel
  import opened NinePPut
  import opened NinePCnt
  import opened NinePHold
  import opened NinePMove
  import opened NinePTurn
  import opened NinePSettle
  import NinePOut
  import NinePOwn

  /** A quiet step of connection c, counts shown apart. */
  lemma QuietOk(s: State, r: State, c: nat, xm: multiset<nat>, xm': multiset<nat>, xf: multiset<nat>, xafid: nat)
    requires Ok(s, xm, xf, xafid) && Quiet(s, r, c) && ConnDone(s, r, c) && Cnt(r, xm', xf, {}, xafid)
    ensures Ok(r, xm', xf, xafid)
  {
    hide Cnt, Quiet, ConnDone, Life;
    QuietLife(s, r, c);
  }

  // ----- to a client ---------------------------------------------------------------------

  function Push(s: State, c: nat, m: nat): State
  {
    var s1 := SetStage(s, m, Delivered);
    SetConn(s1, c, C(s1, c).(outq := C(s1, c).outq + [Some(m)]))
  }

  lemma PushStages(s: State, c: nat, m: nat)
    requires c < |s.conns| && m < |s.msgs| && s.msgs[m].stage == Fetched && ConnStages(s, s.conns[c])
    ensures var r := Push(s, c, m); ConnStages(r, r.conns[c])
  {
  }

  lemma PushPhase(s: State, c: nat, m: nat)
    requires c < |s.conns| && m < |s.msgs| && s.msgs[m].stage == Fetched && Phase(s, c) && SyncsOk(s) &&
             !Flushed?(s.conns[c].pc)
    ensures var r := Push(s, c, m); Phase(r, c) && SyncsOk(r)
  {
  }

  lemma PushMoved(s: State, c: nat, m: nat)
    requires c < |s.conns| && ClientMsg(s, c, m) && ConnLinks(s, c)
    ensures ConnMoved(s, Push(s, c, m), c)
  {
  }

  lemma PushQuiet(s: State, c: nat, m: nat)
    requires c < |s.conns| && ClientMsg(s, c, m) && s.msgs[m].stage == Fetched
    ensures Quiet(s, Push(s, c, m), c)
  {
  }

  lemma PushDone(s: State, c: nat, m: nat)
    requires Life(s) && c < |s.conns| && ClientMsg(s, c, m) && s.msgs[m].stage == Fetched && !Flushed?(s.conns[c].pc)
    ensures ConnDone(s, Push(s, c, m), c)
  {
    hide Life, ConnMoved, ConnStages, Phase, SyncsOk, ConnLinks;
    OwnPart(s, c);
    PushStages(s, c, m);
    PushPhase(s, c, m);
    PushMoved(s, c, m);
    var r := Push(s, c, m);
    forall x: nat | x < |r.msgs| && Active(r.msgs[x].stage) && r.msgs[x].conn == Some(c) ensures Waits(r, x) {
      assert Waits(s, x);
    }
  }

  lemma PushCnt(s: State, c: nat, m: nat, xafid: nat)
    requires Ok(s, multiset{m}, multiset{}, xafid) && c < |s.conns| && ClientMsg(s, c, m)
    ensures Cnt(Push(s, c, m), multiset{}, multiset{}, {}, xafid)
  {
    hide Cnt, Life, FidsOk;
    NinePOwn.OkLinks(s, multiset{m}, multiset{}, xafid);
    XmRange(s, multiset{m}, multiset{}, xafid);
    var v := s.msgs[m].(stage := Delivered);
    FieldsK(s, m, v, multiset{m}, multiset{}, xafid);
    PushReplyK(SetMsg(s, m, v), c, m, multiset{m}, multiset{}, xafid);
    assert multiset{m} - multiset{m} == multiset{};
  }

  lemma PushOk(s: State, c: nat, m: nat, xafid: nat)
    requires Ok(s, multiset{m}, multiset{}, xafid) && c < |s.conns| && ClientMsg(s, c, m) && s.msgs[m].stage == Fetched
    requires !Flushed?(s.conns[c].pc)
    ensures Ok(Push(s, c, m), multiset{}, multiset{}, xafid)
  {
    hide Cnt, Life, ConnDone, Quiet, Push;
    PushDone(s, c, m);
    PushQuiet(s, c, m);
    PushCnt(s, c, m, xafid);
    QuietOk(s, Push(s, c, m), c, multiset{m}, multiset{}, multiset{}, xafid);
  }

  // ----- to a thread: the message is done with -------------------------------------------

  lemma DoneQuiet(s: State, c: nat, m: nat)
    requires c < |s.conns| && m < |s.msgs| && s.msgs[m].conn == Some(c) && s.msgs[m].stage == Fetched
    ensures Quiet(s, SetStage(s, m, Done), c)
  {
  }

  lemma DoneDone(s: State, c: nat, m: nat)
    requires Life(s) && c < |s.conns| && m < |s.msgs| && s.msgs[m].conn == Some(c) && s.msgs[m].stage == Fetched
    ensures ConnDone(s, SetStage(s, m, Done), c)
  {
    hide Life;
    OwnPart(s, c);
    var r := SetStage(s, m, Done);
    assert ConnMoved(s, r, c) && ConnStages(r, r.conns[c]) && SyncsOk(r);
    hide ConnMoved, ConnStages, ConnLinks, SyncsOk;
    forall x: nat | x < |r.msgs| && Active(r.msgs[x].stage) && r.msgs[x].conn == Some(c) ensures Waits(r, x) {
      assert Waits(s, x);
    }
  }

  lemma DoneOk(s: State, c: nat, m: nat, xafid: nat)
    requires Ok(s, multiset{m}, multiset{}, xafid) && c < |s.conns| && m < |s.msgs| && s.msgs[m].conn == Some(c) &&
             s.msgs[m].stage == Fetched
    ensures Ok(SetStage(s, m, Done), multiset{m}, multiset{}, xafid)
  {
    hide Cnt, Life, ConnDone, Quiet;
    DoneDone(s, c, m);
    DoneQuiet(s, c, m);
    HeldLive(s, m, multiset{m}, multiset{}, xafid);
    StageCnt(s, m, s.msgs[m].(stage := Done), multiset{m}, multiset{}, xafid);
    QuietOk(s, SetStage(s, m, Done), c, multiset{m}, multiset{m}, multiset{}, xafid);
  }

  // ----- an internal flush is answered ---------------------------------------------------

  lemma FlushingDone(s: State, c: nat, om: nat, m: nat)
    requires Life(s) && c < |s.conns| && s.conns[c].pc == FlushWait(om, m) && m < |s.msgs| && s.msgs[m].stage == Done &&
             s.conns[c].internal.None?
    ensures ConnDone(s, SetPc(s, c, Flushing), c)
  {
    hide Life;
    OwnPart(s, c);
    var r := SetPc(s, c, Flushing);
    assert ConnMoved(s, r, c) && ConnStages(r, r.conns[c]) && SyncsOk(r);
    hide ConnMoved, ConnStages, ConnLinks, SyncsOk;
    forall x: nat | x < |r.msgs| && Active(r.msgs[x].stage) && r.msgs[x].conn == Some(c) ensures Waits(r, x) {
      assert Waits(s, x);
    }
  }

  lemma FlushParts(s: State, c: nat, om: nat, m: nat)
    requires Life(s) && c < |s.conns| && s.conns[c].pc == FlushWait(om, m)
    ensures m < |s.msgs| && s.msgs[m].conn == Some(c) && s.msgs[m].oldm == Some(om) && ClientMsg(s, c, om)
    ensures s.msgs[m].stage == Done ==> !Active(s.msgs[om].stage)
  {
    assert ConnLinks(s, c);
    assert FlushOk(s, m);
  }

  lemma FlushingOk(s: State, c: nat, om: nat, m: nat, xafid: nat)
    requires Ok(s, multiset{m}, multiset{}, xafid) && c < |s.conns| && s.conns[c].pc == FlushWait(om, m) &&
             m < |s.msgs| && s.msgs[m].stage == Done && s.conns[c].internal.None?
    ensures Ok(SetPc(s, c, Flushing), multiset{om} + multiset{m} + multiset{m}, multiset{}, xafid)
  {
    hide Cnt, Life, ConnDone, FidsOk, Quiet;
    FlushParts(s, c, om, m);
    FlushingDone(s, c, om, m);
    QuietRefl(s, c);
    NinePOwn.OkLinks(s, multiset{m}, multiset{}, xafid);
    SetPcK(s, c, Flushing, multiset{m}, multiset{om} + multiset{m} + multiset{m}, multiset{}, xafid);
    QuietOk(s, SetPc(s, c, Flushing), c, multiset{m}, multiset{om} + multiset{m} + multiset{m}, multiset{}, xafid);
  }

  lemma CalmHeld(s: State, r: State, y: nat, xm: multiset<nat>, xf: multiset<nat>, xafid: nat)
    requires Calm(s, r) && Cnt(r, xm, xf, {}, xafid) && xm[y] > 0
    ensures y < |s.msgs| && y < |r.msgs| && r.msgs[y] == s.msgs[y].(ref := r.msgs[y].ref) && r.msgs[y].ref > 0
  {
    XmRange(r, xm, xf, xafid);
    assert y in xm;
    hide Cnt;
    assert CalmMsg(s.msgs[y], r.msgs[y]);
  }

  lemma FlushDoneOk(s: State, c: nat, om: nat, m: nat, xafid: nat)
    requires Ok(s, multiset{m}, multiset{}, xafid) && c < |s.conns| && s.conns[c].pc == FlushWait(om, m) &&
             m < |s.msgs| && s.msgs[m].stage == Done && s.conns[c].internal.None?
    ensures Ok(FlushDone(s, c, om, m), multiset{}, multiset{}, xafid) &&
            Calm(SetPc(s, c, Flushing), FlushDone(s, c, om, m))
  {
    hide Cnt, Life, MsgPut, TagRelease, Calm;
    FlushingOk(s, c, om, m, xafid);
    FlushParts(s, c, om, m);
    var s1 := SetPc(s, c, Flushing);
    var s2 := MsgPut(s1, m);
    PutOk(s1, m, multiset{om} + multiset{m}, multiset{}, xafid);
    var s3 := MsgPut(s2, m);
    PutOk(s2, m, multiset{om}, multiset{}, xafid);
    CalmTrans(s1, s2, s3);
    CalmHeld(s1, s3, om, multiset{om}, multiset{}, xafid);
    TagReleaseOk(s3, om, multiset{om}, multiset{}, xafid);
    var s4 := TagRelease(s3, om);
    CalmTrans(s1, s3, s4);
    assert multiset{} + multiset{om} == multiset{om};
    PutOk(s4, om, multiset{}, multiset{}, xafid);
    CalmTrans(s1, s4, MsgPut(s4, om));
  }
}
