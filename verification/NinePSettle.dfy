/** Settling a reply: what the writing thread does before it answers a client. */
module NinePSettle {
  import opened NinePState
  import opened NinePStep
  import opened NinePInv
  import opened NinePRel
  import opened NinePPut
  import NinePCnt
  import opened NinePMove
  import opened NinePTurn

  /** Only tables and counts change, and messages may go. */
  ghost predicate Calm(s: State, r: State)
  {
    |r.msgs| == |s.msgs| && |r.conns| == |s.conns| && r.log == s.log && r.answers == s.answers && r.out == s.out &&
    r.refused == s.refused &&
    (forall c: nat ::
      c < |s.conns| ==>
        r.conns[c] == s.conns[c].(tag := r.conns[c].tag, fid := r.conns[c].fid, nmsg := r.conns[c].nmsg)) &&
    (forall m: nat :: m < |s.msgs| ==> CalmMsg(s.msgs[m], r.msgs[m]))
  }

  /** The message is the same up to its count, or gone. */
  ghost predicate CalmMsg(o: Msg, v: Msg)
  {
    (v == o.(ref := v.ref) && (o.ref == 0 ==> v.ref == 0)) || (Clean(v) && v.ref == 0)
  }

  lemma RelCalm(s: State, r: State)
    requires Rel(s, r)
    ensures Calm(s, r)
  {
    forall c: nat | c < |s.conns| ensures r.conns[c] == s.conns[c].(nmsg := r.conns[c].nmsg) {
      assert ConnRel(s.conns[c], r.conns[c]);
    }
    forall m: nat | m < |s.msgs| ensures CalmMsg(s.msgs[m], r.msgs[m]) {
      assert MsgRel(s, r, m);
    }
  }

  lemma CalmTrans(s: State, r: State, t: State)
    requires Calm(s, r) && Calm(r, t)
    ensures Calm(s, t)
  {
    forall m: nat | m < |s.msgs| ensures CalmMsg(s.msgs[m], t.msgs[m]) {
      assert CalmMsg(s.msgs[m], r.msgs[m]) && CalmMsg(r.msgs[m], t.msgs[m]);
    }
  }

  lemma CalmNoFresh(s: State, r: State)
    requires Calm(s, r) && NoFresh(s)
    ensures NoFresh(r)
  {
    forall m: nat | m < |r.msgs| ensures !r.msgs[m].stage.Fresh? {
      assert CalmMsg(s.msgs[m], r.msgs[m]);
    }
  }

  lemma TagDelCalm(s: State, c: nat, k: nat)
    requires c < |s.conns|
    ensures Calm(s, TagDel(s, c, k))
  {
  }

  lemma FidDelCalm(s: State, c: nat, k: nat)
    requires c < |s.conns|
    ensures Calm(s, FidDel(s, c, k))
  {
  }

  lemma PutOk(s: State, m: nat, xm: multiset<nat>, xf: multiset<nat>, xafid: nat)
    requires Ok(s, xm + multiset{m}, xf, xafid)
    ensures Ok(MsgPut(s, m), xm, xf, xafid) && Calm(s, MsgPut(s, m))
  {
    hide Cnt, Life, MsgPut, Rel, Calm;
    PutMsg(s, m, xm + multiset{m}, xf, {}, xafid);
    assert xm + multiset{m} - multiset{m} == xm;
    RelCalm(s, MsgPut(s, m));
  }

  lemma FidPutOk(s: State, f: nat, xm: multiset<nat>, xf: multiset<nat>, xafid: nat)
    requires Ok(s, xm, xf + multiset{f}, xafid)
    ensures Ok(FidPut(s, f), xm, xf, xafid) && Calm(s, FidPut(s, f))
  {
    hide Cnt, Life, FidPut, Rel, Calm;
    FidPutCnt(s, f, xm, xf + multiset{f}, {}, xafid);
    assert xf + multiset{f} - multiset{f} == xf;
    RelCalm(s, FidPut(s, f));
  }

  lemma MsgConn(s: State, m: nat)
    requires Life(s) && m < |s.msgs| && s.msgs[m].conn.Some?
    ensures s.msgs[m].conn.value < |s.conns|
  {
    assert MsgLinks(s, s.msgs[m]);
  }

  lemma CalmRefl(s: State)
    ensures Calm(s, s)
  {
  }

  /** Taking a settled request's tag from its table, if it is still there. */
  lemma TagReleaseOk(s: State, m: nat, xm: multiset<nat>, xf: multiset<nat>, xafid: nat)
    requires Ok(s, xm, xf, xafid) && m < |s.msgs| && s.msgs[m].conn.Some? && !Active(s.msgs[m].stage)
    ensures Ok(TagRelease(s, m), xm, xf, xafid) && Calm(s, TagRelease(s, m))
  {
    hide Cnt, Life, MsgPut, Calm;
    MsgConn(s, m);
    var c, k := s.msgs[m].conn.value, s.msgs[m].ctag;
    if k in s.conns[c].tag && s.conns[c].tag[k] == m {
      TagDelOk(s, c, k, xm, xf, xafid);
      TagDelCalm(s, c, k);
      PutOk(TagDel(s, c, k), m, xm, xf, xafid);
      CalmTrans(s, TagDel(s, c, k), TagRelease(s, m));
    } else {
      CalmRefl(s);
    }
  }

  lemma FidReleaseOk(s: State, c: nat, f: nat, xm: multiset<nat>, xf: multiset<nat>, xafid: nat)
    requires Ok(s, xm, xf, xafid) && c < |s.conns| && IsFid(s, f) && !s.conns[c].pc.ClunkWait?
    ensures Ok(FidRelease(s, c, f), xm, xf, xafid) && Calm(s, FidRelease(s, c, f))
  {
    hide Cnt, Life, FidPut, Calm;
    var k := s.fids[f].cfid;
    if k >= 0 && k in s.conns[c].fid && s.conns[c].fid[k] == f {
      FidDelOk(s, c, k, xm, xf, xafid);
      FidDelCalm(s, c, k);
      FidPutOk(FidDel(s, c, k), f, xm, xf, xafid);
      CalmTrans(s, FidDel(s, c, k), FidRelease(s, c, f));
    } else {
      CalmRefl(s);
    }
  }

  lemma FidReleaseOptOk(s: State, c: nat, f: Option<nat>, xafid: nat)
    requires Ok(s, multiset{}, multiset{}, xafid) && c < |s.conns| && OptFid(s, f) && !s.conns[c].pc.ClunkWait?
    ensures Ok(FidReleaseOpt(s, c, f), multiset{}, multiset{}, xafid) && Calm(s, FidReleaseOpt(s, c, f))
  {
    hide Ok, Calm, FidRelease;
    if f.Some? {
      FidReleaseOk(s, c, f.value, multiset{}, multiset{}, xafid);
    } else {
      CalmRefl(s);
    }
  }

  /** What is known of the message the writing thread holds. */
  lemma WriterPart(s: State, c: nat, m: nat)
    requires Life(s) && c < |s.conns| && s.conns[c].outpc == CWriting(m)
    ensures ClientMsg(s, c, m) && s.msgs[m].stage == Handling && MsgLinks(s, s.msgs[m]) && FlushOk(s, m) &&
            !s.conns[c].pc.ClunkWait?
  {
    assert ConnLinks(s, c) && ConnStages(s, s.conns[c]) && Phase(s, c);
  }

  lemma WriterNeeds(s: State, c: nat, m: nat)
    requires Life(s) && c < |s.conns| && s.conns[c].outpc == CWriting(m)
    ensures m < |s.msgs| && s.msgs[m].conn == Some(c) && !s.conns[c].pc.ClunkWait?
    ensures OptFid(s, s.msgs[m].fid) && OptFid(s, s.msgs[m].newfid) && OptFid(s, s.msgs[m].afid)
    ensures s.msgs[m].oldm.Some? ==> var om := s.msgs[m].oldm.value;
            om < |s.msgs| && s.msgs[om].conn.Some? && !Active(s.msgs[om].stage)
  {
    hide Life;
    WriterPart(s, c, m);
  }

  lemma SettleFids(s: State, c: nat, m: nat, xafid: nat)
    requires Ok(s, multiset{}, multiset{}, xafid) && c < |s.conns| && m < |s.msgs| && !s.conns[c].pc.ClunkWait?
    requires OptFid(s, s.msgs[m].fid) && OptFid(s, s.msgs[m].newfid) && OptFid(s, s.msgs[m].afid)
    ensures forall f :: f in {s.msgs[m].fid, s.msgs[m].newfid, s.msgs[m].afid} ==>
      Ok(FidReleaseOpt(s, c, f), multiset{}, multiset{}, xafid) && Calm(s, FidReleaseOpt(s, c, f))
  {
    hide Ok, Calm, FidReleaseOpt;
    FidReleaseOptOk(s, c, s.msgs[m].fid, xafid);
    FidReleaseOptOk(s, c, s.msgs[m].newfid, xafid);
    FidReleaseOptOk(s, c, s.msgs[m].afid, xafid);
  }

  lemma SettleOk(s: State, c: nat, m: nat, xafid: nat)
    requires Ok(s, multiset{}, multiset{}, xafid) && c < |s.conns| && s.conns[c].outpc == CWriting(m)
    requires IsOpen(M(s, m).kind) ==> M(s, m).fid.Some?
    ensures Ok(Settle(s, m), multiset{}, multiset{}, xafid) && Calm(s, Settle(s, m))
  {
    hide Ok, Calm, TagRelease, FidReleaseOpt, OptFid;
    OkLife(s, multiset{}, multiset{}, xafid);
    hide Life;
    WriterNeeds(s, c, m);
    CalmRefl(s);
    SettleFids(s, c, m, xafid);
    var o := s.msgs[m];
    if o.kind == Tflush && o.oldm.Some? {
      TagReleaseOk(s, o.oldm.value, multiset{}, multiset{}, xafid);
    }
  }

  lemma OkLife(s: State, xm: multiset<nat>, xf: multiset<nat>, xafid: nat)
    requires Ok(s, xm, xf, xafid)
    ensures Life(s)
  {
  }

  // ----- the answer ----------------------------------------------------------------------

  lemma AnswerLogged(s: State, c: nat, m: nat)
    requires Logged(s) && AnswersOk(s) && ClientMsg(s, c, m) && s.msgs[m].stage == Delivered
    ensures AnswerOk(s, Answer(c, s.msgs[m].ctag, s.msgs[m].serial))
    ensures forall i :: 0 <= i < |s.answers| ==> s.answers[i].serial != s.msgs[m].serial
  {
  }

  lemma LoggedOf(s: State)
    requires Life(s)
    ensures Links(s) && Stages(s) && Phases(s) && Logged(s) && AnswersOk(s)
  {
  }

  lemma AnswerKeeps(s: State, r: State, a: Answer)
    requires Links(s) && Stages(s) && Phases(s) && Logged(s) && r == s.(answers := s.answers + [a])
    ensures Links(r) && Stages(r) && Phases(r) && Logged(r)
  {
    AnswerLinks(s, r, a);
    AnswerStages(s, r, a);
    AnswerPhases(s, r, a);
  }

  lemma AnswerLinks(s: State, r: State, a: Answer)
    requires Links(s) && r == s.(answers := s.answers + [a])
    ensures Links(r)
  {
    forall m: nat | m < |r.msgs| ensures MsgLinks(r, r.msgs[m]) {
      assert MsgLinks(s, s.msgs[m]);
    }
    forall c: nat | c < |r.conns| ensures ConnLinks(r, c) {
      assert ConnLinks(s, c);
    }
  }

  lemma AnswerStages(s: State, r: State, a: Answer)
    requires Stages(s) && r == s.(answers := s.answers + [a])
    ensures Stages(r)
  {
    forall m: nat | m < |r.msgs| && Active(r.msgs[m].stage) ensures r.msgs[m].conn.Some? && Waits(r, m) {
      assert Waits(s, m);
    }
    forall c: nat | c < |r.conns| ensures ConnStages(r, r.conns[c]) {
      assert ConnStages(s, s.conns[c]);
    }
    forall f: nat | f < |r.msgs| ensures FlushOk(r, f) {
      assert FlushOk(s, f);
    }
    forall m: nat | m < |r.msgs| && r.msgs[m].stage == Replied ensures InReplies(r, m) {
      assert InReplies(s, m);
    }
    assert OutOk(r);
  }

  lemma AnswerPhases(s: State, r: State, a: Answer)
    requires Phases(s) && r == s.(answers := s.answers + [a])
    ensures Phases(r)
  {
    forall c: nat | c < |r.conns| ensures Phase(r, c) {
      assert Phase(s, c);
    }
  }

  /** One more answer, to a request that is not waiting for one any more. */
  lemma AnswerAdds(s: State, r: State, a: Answer)
    requires AnswersOk(s) && r == s.(answers := s.answers + [a]) && AnswerOk(s, a)
    requires forall i :: 0 <= i < |s.answers| ==> s.answers[i].serial != a.serial
    requires forall m: nat ::
               m < |s.msgs| && s.msgs[m].conn.Some? && Unanswered(s.msgs[m].stage) ==> a.serial != s.msgs[m].serial
    ensures AnswersOk(r)
  {
    forall i | 0 <= i < |r.answers| ensures AnswerOk(r, r.answers[i]) {
      assert i < |s.answers| ==> AnswerOk(s, s.answers[i]);
    }
  }

  lemma OthersDiffer(s: State, m: nat)
    requires Logged(s) && m < |s.msgs| && s.msgs[m].conn.Some? && s.msgs[m].stage == Handling
    ensures forall x: nat ::
              x < |s.msgs| && s.msgs[x].conn.Some? && Unanswered(s.msgs[x].stage) ==>
                s.msgs[m].serial != s.msgs[x].serial
  {
    forall x: nat | x < |s.msgs| && s.msgs[x].conn.Some? && Unanswered(s.msgs[x].stage)
      ensures s.msgs[m].serial != s.msgs[x].serial {
      assert x < m || m < x;
    }
  }

  lemma AnswerLife(s: State, m: nat, a: Answer)
    requires Life(s) && m < |s.msgs| && s.msgs[m].conn.Some? && s.msgs[m].stage == Handling &&
             a.serial == s.msgs[m].serial && AnswerOk(s, a)
    requires forall i :: 0 <= i < |s.answers| ==> s.answers[i].serial != a.serial
    ensures Life(s.(answers := s.answers + [a]))
  {
    hide Links, Stages, Phases, Logged, AnswersOk, AnswerOk;
    OthersDiffer(s, m);
    AnswerAdds(s, s.(answers := s.answers + [a]), a);
    AnswerKeeps(s, s.(answers := s.answers + [a]), a);
  }

  /** What the writing thread does with a reply up to the write. */
  lemma TakeSettle(s: State, c: nat, m: nat, xafid: nat)
    requires Inv(s, xafid) && c < |s.conns| && s.conns[c].outpc.CIdle? && s.conns[c].outq != [] &&
             s.conns[c].outq[0] == Some(m)
    requires !NilHead(s, c)
    ensures var r := TagRelease(Settle(TakeReply(s, c, m), m), m);
      Ok(r, multiset{}, multiset{}, xafid) && Calm(TakeReply(s, c, m), r) && NoFresh(r) && c < |r.conns| &&
      r.conns[c].outpc == CWriting(m) &&
      ClientMsg(s, c, m) && s.msgs[m].stage == Delivered
  {
    hide Cnt, Life, TagRelease, Settle, Calm, NoFresh;
    TakeReplyOk(s, c, m, xafid);
    var s1 := TakeReply(s, c, m);
    TakeReplyNoFresh(s, c, m);
    TakenMsg(s, c, m);
    hide TakeReply;
    SettleOk(s1, c, m, xafid);
    var s2 := Settle(s1, m);
    CalmWriter(s1, s2, c);
    WriterPart(s2, c, m);
    TagReleaseOk(s2, m, multiset{}, multiset{}, xafid);
    var r := TagRelease(s2, m);
    CalmTrans(s1, s2, r);
    CalmWriter(s1, r, c);
    CalmNoFresh(s1, r);
  }

  lemma TakeReplyNoFresh(s: State, c: nat, m: nat)
    requires NoFresh(s) && c < |s.conns|
    ensures NoFresh(TakeReply(s, c, m)) && c < |TakeReply(s, c, m).conns| &&
            TakeReply(s, c, m).conns[c].outpc == CWriting(m)
  {
  }

  lemma CalmWriter(s: State, r: State, c: nat)
    requires Calm(s, r) && c < |s.conns|
    ensures c < |r.conns| && r.conns[c].outpc == s.conns[c].outpc
  {
  }

  /** A message the thread still holds is as it was. */
  lemma CalmClient(s: State, r: State, c: nat, m: nat)
    requires Calm(s, r) && ClientMsg(r, c, m)
    ensures m < |s.msgs| && r.msgs[m] == s.msgs[m].(ref := r.msgs[m].ref) && r.answers == s.answers && r.log == s.log
  {
    assert CalmMsg(s.msgs[m], r.msgs[m]);
  }

  lemma TakenMsg(s: State, c: nat, m: nat)
    requires c < |s.conns| && m < |s.msgs|
    ensures var r := TakeReply(s, c, m);
            m < |r.msgs| && r.msgs[m] == s.msgs[m].(stage := Handling) && r.answers == s.answers && r.log == s.log
  {
  }

  lemma AnswerKept(s: State, r: State, a: Answer)
    requires AnswerOk(s, a) && r.log == s.log
    ensures AnswerOk(r, a)
  {
  }

  lemma ConnTakeIs(s: State, c: nat, m: nat)
    requires c < |s.conns| && s.conns[c].outq != [] && s.conns[c].outq[0] == Some(m) && m < |s.msgs|
    ensures var r := TagRelease(Settle(TakeReply(s, c, m), m), m);
      ConnTake(s, c) == r.(answers := r.answers + [Answer(c, s.msgs[m].ctag, s.msgs[m].serial)])
  {
    hide TagRelease, Settle, TakeReply;
  }

  lemma AnswerCnt(s: State, a: Answer, xafid: nat)
    requires Cnt(s, multiset{}, multiset{}, {}, xafid)
    ensures Cnt(s.(answers := s.answers + [a]), multiset{}, multiset{}, {}, xafid)
  {
    hide Cnt;
    NinePCnt.CntFrame(s, s.(answers := s.answers + [a]), multiset{}, multiset{}, {}, xafid);
  }

  /** A reply goes to its client once, under the client's own tag, and the tables lose what it ends. */
  lemma ConnTakeInv(s: State, c: nat, xafid: nat)
    requires Inv(s, xafid) && Enabled(s, SConnTake(c)) && !NilHead(s, c)
    ensures Inv(ConnTake(s, c), xafid)
  {
    var m := s.conns[c].outq[0].value;
    var s1 := TakeReply(s, c, m);
    var r := TagRelease(Settle(s1, m), m);
    var a := Answer(c, s.msgs[m].ctag, s.msgs[m].serial) by { hide Cnt, Life, NoFresh; HeadIs(s, c, xafid); }
    hide Cnt, Life, NoFresh, Calm, TagRelease, Settle, TakeReply, AnswerOk, Links, Stages, Phases, Logged, AnswersOk;
    TakeSettle(s, c, m, xafid);
    LoggedOf(s);
    AnswerLogged(s, c, m);
    WriterPart(r, c, m);
    CalmClient(s1, r, c, m);
    TakenMsg(s, c, m);
    AnswerKept(s, r, a);
    AnswerLife(r, m, a);
    AnswerCnt(r, a, xafid);
    ConnTakeIs(s, c, m);
    AnswerNoFresh(r, a);
  }

  lemma HeadIs(s: State, c: nat, xafid: nat)
    requires Inv(s, xafid) && c < |s.conns| && s.conns[c].outq != [] && s.conns[c].outq[0].Some?
    ensures s.conns[c].outq[0].value < |s.msgs|
  {
    hide Cnt, Life, NoFresh;
    QueuedClient(s, c, s.conns[c].outq[0].value);
  }

  lemma AnswerNoFresh(s: State, a: Answer)
    requires NoFresh(s)
    ensures NoFresh(s.(answers := s.answers + [a]))
  {
  }
}
