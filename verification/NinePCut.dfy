/** An internal clunk is answered: the message is unlinked and the fid's entry goes. */
module NinePCut {
  import opened NinePState
  import opened NinePStep
  import opened NinePInv
  import opened NinePRel
  import opened NinePPut
  import opened NinePCnt
  import opened NinePHold
  import opened NinePMove
  import opened NinePTurn
  import opened NinePSettle
  import NinePOwn

  /** The message the connection waited for, unlinked, and the connection waiting no more. */
  function Cut(s: State, c: nat, m: nat): State { Unlink(SetPc(s, c, Clunking), m) }

  ghost predicate Waiting(s: State, c: nat, k: nat, m: nat)
  {
    c < |s.conns| && m < |s.msgs| && s.conns[c].pc == ClunkWait(k, m) && s.msgs[m].conn == Some(c) &&
    s.msgs[m].internal &&
    s.msgs[m].oldm.None? && s.msgs[m].stage == Done && k in s.conns[c].fid && s.conns[c].internal.None?
  }

  lemma CutIs(s: State, c: nat, k: nat, m: nat)
    requires Waiting(s, c, k, m)
    ensures Cut(s, c, m) == s.(msgs := s.msgs[m := Unlinked(s.msgs[m])],
                               conns := s.conns[c := s.conns[c].(pc := Clunking, nmsg := s.conns[c].nmsg - 1)])
  {
  }

  // ----- counts --------------------------------------------------------------------------

  lemma UnlinkIs(s: State, m: nat)
    requires m < |s.msgs| && s.msgs[m].conn.Some? && s.msgs[m].conn.value < |s.conns|
    ensures Unlink(s, m) == (var c := s.msgs[m].conn.value;
      s.(msgs := s.msgs[m := Unlinked(s.msgs[m])], conns := s.conns[c := s.conns[c].(nmsg := s.conns[c].nmsg - 1)]))
  {
  }

  lemma UnlinkHeld(s: State, m: nat, x: nat)
    requires m < |s.msgs| && s.msgs[m].conn.Some? && s.msgs[m].conn.value < |s.conns| && s.msgs[m].oldm.None?
    requires ConnHolds(s.conns[s.msgs[m].conn.value], s.msgs[m].ctag, m) == 0
    ensures Held(Unlink(s, m), x) == Held(s, x)
  {
    UnlinkIs(s, m);
    OldmCounts(s.msgs, m, Unlinked(s.msgs[m]));
  }

  lemma UnlinkTables(s: State, m: nat, f: nat)
    requires m < |s.msgs| && s.msgs[m].conn.Some? && s.msgs[m].conn.value < |s.conns|
    ensures forall k: int :: Count(Unlink(s, m).conns, TableHas(k, f)) == Count(s.conns, TableHas(k, f))
  {
    UnlinkIs(s, m);
    var c := s.msgs[m].conn.value;
    TableCounts(s.conns, c, s.conns[c].(nmsg := s.conns[c].nmsg - 1));
  }

  lemma UnlinkFidHeld(s: State, m: nat, f: nat)
    requires m < |s.msgs| && s.msgs[m].conn.Some? && s.msgs[m].conn.value < |s.conns|
    ensures FidHeld(Unlink(s, m), f) + FidRefs(s.msgs[m])[f] == FidHeld(s, f)
  {
    UnlinkIs(s, m);
    UnlinkTables(s, m, f);
    FidCounts(s.msgs, m, Unlinked(s.msgs[m]));
    FidRefsIs(s.msgs[m], f);
    hide FidRefs;
  }

  lemma UnlinkRefF(s: State, m: nat, xf: multiset<nat>, xafid: nat)
    requires RefF(s, xf) && FreeF(s, xafid) && m < |s.msgs| && s.msgs[m].conn.Some? && s.msgs[m].conn.value < |s.conns|
    requires OptFid(s, s.msgs[m].fid) && OptFid(s, s.msgs[m].newfid) && OptFid(s, s.msgs[m].afid)
    ensures RefF(Unlink(s, m), xf + FidRefs(s.msgs[m])) && FreeF(Unlink(s, m), xafid)
  {
    UnlinkIs(s, m);
    var r := Unlink(s, m);
    assert r.fids == s.fids && r.freef == s.freef;
    assert FreeF(r, xafid) by { hide RefF, Unlink, FidRefs; }
    hide FreeF, Unlink;
    forall f: nat ensures FidHeld(r, f) + FidRefs(s.msgs[m])[f] == FidHeld(s, f) {
      UnlinkFidHeld(s, m, f);
    }
    hide FidHeld;
  }

  lemma UnlinkRest(s: State, m: nat)
    requires FreeM(s, {}) && Counts(s) && m < |s.msgs| && s.msgs[m].ref > 0 && s.msgs[m].conn.Some? &&
             s.msgs[m].conn.value < |s.conns|
    ensures FreeM(Unlink(s, m), {}) && Counts(Unlink(s, m))
  {
    UnlinkIs(s, m);
    ConnCounts(s.msgs, m, Unlinked(s.msgs[m]));
  }

  lemma UnlinkRefM(s: State, m: nat, xm: multiset<nat>)
    requires RefM(s, xm) && m < |s.msgs| && s.msgs[m].conn.Some? && s.msgs[m].conn.value < |s.conns| &&
             s.msgs[m].oldm.None?
    requires ConnHolds(s.conns[s.msgs[m].conn.value], s.msgs[m].ctag, m) == 0
    ensures RefM(Unlink(s, m), xm)
  {
    forall x: nat | x < |s.msgs| ensures Held(Unlink(s, m), x) == Held(s, x) {
      UnlinkHeld(s, m, x);
    }
    UnlinkIs(s, m);
    hide Held;
  }

  lemma UnlinkCnt(s: State, m: nat, xm: multiset<nat>, xf: multiset<nat>, xafid: nat)
    requires K(s, xm, xf, xafid) && m < |s.msgs| && s.msgs[m].ref > 0 && s.msgs[m].conn.Some? &&
             s.msgs[m].conn.value < |s.conns| && s.msgs[m].oldm.None?
    requires ConnHolds(s.conns[s.msgs[m].conn.value], s.msgs[m].ctag, m) == 0
    ensures Cnt(Unlink(s, m), xm, xf + FidRefs(s.msgs[m]), {}, xafid)
  {
    FidsOkOpt(s, m);
    hide RefM, RefF, FreeM, FreeF, Counts, Held, ConnHolds, FidRefs;
    UnlinkRefM(s, m, xm);
    UnlinkRefF(s, m, xf, xafid);
    UnlinkRest(s, m);
    UnlinkIs(s, m);
  }

  /** Nothing but its waiting keeps the connection tied to the message. */
  lemma OnlyWaits(s: State, c: nat, k: nat, m: nat)
    requires Life(s) && Waiting(s, c, k, m)
    ensures s.conns[c].tag == map[] && s.conns[c].outq == [] && s.conns[c].outpc.CGone?
  {
    assert Phase(s, c);
  }

  lemma CutCnt(s: State, c: nat, k: nat, m: nat, xafid: nat)
    requires Ok(s, multiset{m}, multiset{}, xafid) && Waiting(s, c, k, m)
    ensures Cnt(Cut(s, c, m), multiset{m} + multiset{m}, multiset{} + FidRefs(s.msgs[m]), {}, xafid)
  {
    hide Cnt, Life, FidsOk;
    OnlyWaits(s, c, k, m);
    NinePOwn.OkLinks(s, multiset{m}, multiset{}, xafid);
    SetPcK(s, c, Clunking, multiset{m}, multiset{m} + multiset{m}, multiset{}, xafid);
    XmRange(s, multiset{m}, multiset{}, xafid);
    hide K, Unlink;
    UnlinkCnt(SetPc(s, c, Clunking), m, multiset{m} + multiset{m}, multiset{}, xafid);
  }

  // ----- everything else -----------------------------------------------------------------

  lemma CutLinks(s: State, c: nat, k: nat, m: nat)
    requires Links(s) && Waiting(s, c, k, m)
    ensures Links(Cut(s, c, m))
  {
    CutIs(s, c, k, m);
    var r := Cut(s, c, m);
    hide Cut;
    forall x: nat | x < |r.msgs| ensures MsgLinks(r, r.msgs[x]) {
      assert MsgLinks(s, s.msgs[x]);
    }
    forall a: nat | a < |r.conns| ensures ConnLinks(r, a) {
      CutConnLinks(s, c, k, m, a);
    }
  }

  lemma CutConnLinks(s: State, c: nat, k: nat, m: nat, a: nat)
    requires Links(s) && Waiting(s, c, k, m) && a < |s.conns|
    ensures a < |Cut(s, c, m).conns| && ConnLinks(Cut(s, c, m), a)
  {
    CutIs(s, c, k, m);
    hide Cut;
    assert ConnLinks(s, a);
  }

  lemma CutOut(s: State, c: nat, k: nat, m: nat)
    requires OutOk(s) && Waiting(s, c, k, m)
    ensures OutOk(Cut(s, c, m))
  {
    CutIs(s, c, k, m);
    var r := Cut(s, c, m);
    hide Cut;
    assert OutQueue(r) && OutAll(r);
    assert OutSorted(r) && OutBefore(r);
    assert OutThread(r);
  }

  lemma CutServer(s: State, c: nat, k: nat, m: nat)
    requires ServerOk(s) && ReplyOrder(s) && Waiting(s, c, k, m)
    ensures ServerOk(Cut(s, c, m)) && ReplyOrder(Cut(s, c, m))
  {
    CutIs(s, c, k, m);
    var r := Cut(s, c, m);
    hide Cut;
    assert PendOk(r);
    assert RepliesOk(r);
    forall x: nat | x < |r.msgs| && r.msgs[x].stage == Replied ensures InReplies(r, x) {
      assert InReplies(s, x);
    }
  }

  lemma CutActive(s: State, c: nat, k: nat, m: nat)
    requires ActiveHeld(s) && Waiting(s, c, k, m) && s.conns[c].tag == map[]
    ensures ActiveHeld(Cut(s, c, m))
  {
    CutIs(s, c, k, m);
    var r := Cut(s, c, m);
    hide Cut;
    forall x: nat | x < |r.msgs| && Active(r.msgs[x].stage) ensures r.msgs[x].conn.Some? && Waits(r, x) {
      assert Waits(s, x);
    }
  }

  lemma CutStages(s: State, c: nat, k: nat, m: nat)
    requires Links(s) && Stages(s) && Waiting(s, c, k, m) && s.conns[c].tag == map[]
    ensures Stages(Cut(s, c, m))
  {
    CutOut(s, c, k, m);
    CutServer(s, c, k, m);
    CutActive(s, c, k, m);
    CutIs(s, c, k, m);
    var r := Cut(s, c, m);
    hide Cut, ServerOk, OutOk, ReplyOrder, ActiveHeld, ConnStages, FlushOk, Links;
    forall a: nat | a < |r.conns| ensures ConnStages(r, r.conns[a]) {
      CutConnStages(s, c, k, m, a);
    }
    forall f: nat | f < |r.msgs| ensures FlushOk(r, f) {
      CutFlush(s, c, k, m, f);
    }
  }

  lemma CutConnStages(s: State, c: nat, k: nat, m: nat, a: nat)
    requires Waiting(s, c, k, m) && a < |s.conns| && ConnStages(s, s.conns[a])
    ensures a < |Cut(s, c, m).conns| && ConnStages(Cut(s, c, m), Cut(s, c, m).conns[a])
  {
    CutIs(s, c, k, m);
    hide Cut;
  }

  lemma CutFlush(s: State, c: nat, k: nat, m: nat, f: nat)
    requires Waiting(s, c, k, m) && f < |s.msgs| && FlushOk(s, f)
    ensures f < |Cut(s, c, m).msgs| && FlushOk(Cut(s, c, m), f)
  {
    CutIs(s, c, k, m);
    hide Cut;
  }

  lemma CutPhases(s: State, c: nat, k: nat, m: nat)
    requires Phases(s) && Waiting(s, c, k, m)
    ensures Phases(Cut(s, c, m))
  {
    CutIs(s, c, k, m);
    var r := Cut(s, c, m);
    hide Cut;
    forall a: nat | a < |r.conns| ensures Phase(r, a) {
      assert Phase(s, a);
    }
  }

  lemma CutLogged(s: State, c: nat, k: nat, m: nat)
    requires Logged(s) && AnswersOk(s) && Waiting(s, c, k, m)
    ensures Logged(Cut(s, c, m)) && AnswersOk(Cut(s, c, m))
  {
    CutIs(s, c, k, m);
    var r := Cut(s, c, m);
    hide Cut;
    forall i | 0 <= i < |r.answers| ensures AnswerOk(r, r.answers[i]) {
      assert AnswerOk(s, s.answers[i]);
    }
  }

  lemma CutLife(s: State, c: nat, k: nat, m: nat)
    requires Life(s) && Waiting(s, c, k, m)
    ensures Life(Cut(s, c, m))
  {
    OnlyWaits(s, c, k, m);
    hide Links, Stages, Phases, Logged, AnswersOk, Cut;
    CutLinks(s, c, k, m);
    CutStages(s, c, k, m);
    CutPhases(s, c, k, m);
    CutLogged(s, c, k, m);
  }

  // ----- the clunk is done ---------------------------------------------------------------

  lemma ClearIs(s: State, c: nat, k: nat, m: nat)
    requires Waiting(s, c, k, m)
    ensures MsgClear(SetPc(s, c, Clunking), m) == FidPuts(Cut(s, c, m), s.msgs[m])
  {
    hide Unlink, FidPuts;
    assert M(SetPc(s, c, Clunking), m) == s.msgs[m];
  }

  lemma RelConn(s: State, r: State, c: nat)
    requires Rel(s, r) && c < |s.conns|
    ensures c < |r.conns| && r.conns[c].fid == s.conns[c].fid && r.conns[c].pc == s.conns[c].pc
  {
    assert ConnRel(s.conns[c], r.conns[c]);
  }

  /** Both references to the message go back, and the links with the last. */
  lemma ClearOk(s: State, c: nat, k: nat, m: nat, xafid: nat)
    requires Ok(s, multiset{m}, multiset{}, xafid) && Waiting(s, c, k, m)
    ensures var r := MsgPut(MsgPut(MsgClear(SetPc(s, c, Clunking), m), m), m);
      Ok(r, multiset{}, multiset{}, xafid) && Rel(Cut(s, c, m), r)
  {
    hide Cnt, Life, Rel, MsgPut, MsgClear, FidPuts, Cut, SetPc, FidRefs;
    CutCnt(s, c, k, m, xafid);
    CutLife(s, c, k, m);
    ClearIs(s, c, k, m);
    var s1 := Cut(s, c, m);
    var o := s.msgs[m];
    FidPutsCnt(s1, o, multiset{m} + multiset{m}, multiset{}, {}, xafid);
    var s2 := FidPuts(s1, o);
    PutMsg(s2, m, multiset{m} + multiset{m}, multiset{}, {}, xafid);
    assert multiset{m} + multiset{m} - multiset{m} == multiset{m};
    var s3 := MsgPut(s2, m);
    PutMsg(s3, m, multiset{m}, multiset{}, {}, xafid);
    assert multiset{m} - multiset{m} == multiset{};
    RelTrans(s1, s2, s3);
    RelTrans(s1, s3, MsgPut(s3, m));
  }

  lemma CutConn(s: State, c: nat, k: nat, m: nat)
    requires Waiting(s, c, k, m)
    ensures var r := Cut(s, c, m); c < |r.conns| && r.conns[c].fid == s.conns[c].fid && r.conns[c].pc == Clunking
  {
    CutIs(s, c, k, m);
  }

  lemma CutNoFresh(s: State, c: nat, k: nat, m: nat)
    requires Waiting(s, c, k, m) && NoFresh(s)
    ensures NoFresh(Cut(s, c, m))
  {
    CutIs(s, c, k, m);
  }

  lemma ClunkDoneIs(s: State, c: nat, k: nat, m: nat)
    requires Waiting(s, c, k, m)
    ensures ClunkDone(s, c, k, m) == (var s1 := MsgPut(MsgPut(MsgClear(SetPc(s, c, Clunking), m), m), m);
      FidPut(FidDel(s1, c, k), s.conns[c].fid[k]))
  {
    hide MsgPut, MsgClear, FidPut, FidDel, SetPc;
  }

  lemma ClunkDoneOk(s: State, c: nat, k: nat, m: nat, xafid: nat)
    requires Ok(s, multiset{m}, multiset{}, xafid) && NoFresh(s) && Waiting(s, c, k, m)
    ensures Ok(ClunkDone(s, c, k, m), multiset{}, multiset{}, xafid) && NoFresh(ClunkDone(s, c, k, m))
    ensures Calm(Cut(s, c, m), ClunkDone(s, c, k, m))
  {
    hide Ok, Rel, MsgPut, MsgClear, FidPut, Cut, ClunkDone, Calm, NoFresh;
    ClearOk(s, c, k, m, xafid);
    var s1 := MsgPut(MsgPut(MsgClear(SetPc(s, c, Clunking), m), m), m);
    CutConn(s, c, k, m);
    RelConn(Cut(s, c, m), s1, c);
    FidDelOk(s1, c, k, multiset{}, multiset{}, xafid);
    var f := s.conns[c].fid[k];
    FidPutOk(FidDel(s1, c, k), f, multiset{}, multiset{}, xafid);
    ClunkDoneIs(s, c, k, m);
    CutNoFresh(s, c, k, m);
    RelNoFresh(Cut(s, c, m), s1);
    FidDelCalm(s1, c, k);
    CalmNoFresh(s1, FidDel(s1, c, k));
    CalmNoFresh(FidDel(s1, c, k), ClunkDone(s, c, k, m));
    RelCalm(Cut(s, c, m), s1);
    CalmTrans(Cut(s, c, m), s1, FidDel(s1, c, k));
    CalmTrans(Cut(s, c, m), FidDel(s1, c, k), ClunkDone(s, c, k, m));
  }
}
