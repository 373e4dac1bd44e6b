/** Opens and creates that are refused here: which they are, and what becomes of their replies. */
module NinePOpens {
  import opened NinePState
  import opened NinePStep
  import opened NinePInv
  import opened NinePMove
  import opened NinePTurn
  import opened NinePSettle
  import opened NinePWake
  import opened NinePCut
  import opened NinePRun
  import opened NinePJoin
  import NinePOut
  import NinePOwn
  import NinePRecv
  import NinePClose
  import NinePCnt
  import NinePHold

  // ----- what no step does ------------------------------------------------------------------

  /** Not yet past the server. */
  predicate Bound(g: Stage) { g in {Queued, Writing, Sent} }

  /** The reply has been read, or given here. */
  predicate Past(g: Stage) { g in {Fetched, Delivered, Handling, Done} }

  /** The same request, perhaps further on its way; the reply to it may just have been read. */
  predicate NearMsg(o: Msg, v: Msg, read: bool)
  {
    v == o.(ref := v.ref, err := v.err, short := v.short, stage := v.stage) && (Bound(v.stage) ==> Bound(o.stage)) &&
    (Past(o.stage) ==> Past(v.stage) && v.err == o.err && v.short == o.short) &&
    (Past(v.stage) ==> Past(o.stage) || (read && o.stage == Replied))
  }

  /** All messages in use are the same requests as before, but for those put to use, which were not in use. */
  ghost predicate Stays(s: State, r: State, used: set<nat>, read: bool)
  {
    |s.msgs| <= |r.msgs| && s.log <= r.log && (used == {} ==> r.log == s.log) &&
    (forall x: nat :: x < |r.msgs| && x !in used && r.msgs[x].conn.Some? ==>
      x < |s.msgs| && NearMsg(s.msgs[x], r.msgs[x], read)) &&
    (forall x :: x in used && x < |s.msgs| ==> s.msgs[x].conn.None?)
  }

  /** And queues only get longer. */
  ghost predicate NearBut(s: State, r: State, used: set<nat>, read: bool)
  {
    Stays(s, r, used, read) && |s.conns| <= |r.conns| && (s.refused ==> r.refused) &&
    (forall c: nat :: c < |s.conns| ==> s.conns[c].outq <= r.conns[c].outq)
  }

  ghost predicate Near(s: State, r: State) { NearBut(s, r, {}, false) }

  lemma CalmNear(s: State, r: State)
    requires Calm(s, r)
    ensures Near(s, r) && r.refused == s.refused
  {
    forall x: nat | x < |r.msgs| && r.msgs[x].conn.Some? ensures NearMsg(s.msgs[x], r.msgs[x], false) {
      assert CalmMsg(s.msgs[x], r.msgs[x]);
    }
  }

  lemma NearCalm(s: State, r: State, t: State)
    requires Near(s, r) && Calm(r, t) && |r.msgs| == |s.msgs|
    ensures Near(s, t) && t.refused == r.refused
  {
    forall x: nat | x < |t.msgs| && t.msgs[x].conn.Some? ensures NearMsg(s.msgs[x], t.msgs[x], false) {
      assert CalmMsg(r.msgs[x], t.msgs[x]);
      assert NearMsg(s.msgs[x], r.msgs[x], false);
    }
  }

  lemma JoinNear(s: State, r: State, c: nat, m: nat)
    requires Join(s, r, c, m)
    ensures NearBut(s, r, {m}, false)
  {
  }

  /** The messages that a step puts to use. */
  function Newly(s: State, step: Step): set<nat>
  {
    match step
    case SRecv(c, tx) => {Enter(s, c, Hdr(false, tx)).1}
    case SFlush(c, k) => if k in C(s, c).tag then {NinePOwn.FlushMsg(s, c, k)} else {}
    case SClunk(c, k) => {NinePOwn.ClunkMsg(s, c, k)}
    case _ => {}
  }

  // ----- the steps ------------------------------------------------------------------------

  lemma TakeUpNear(s: State, c: nat, xafid: nat)
    requires Inv(s, xafid) && Enabled(s, STakeUp(c))
    ensures Near(s, TakeUp(s, c)) && TakeUp(s, c).refused == s.refused
  {
    hide Cnt, Life, NoFresh, NinePCnt.ConnDelta, FlushDone, ClunkDone, Near;
    Handed(s, c);
    var m := s.conns[c].internal.value;
    var s1 := WithInternal(s, c, None);
    assert s == WithInternal(s1, c, Some(m));
    InternalDelta(s1, c, m);
    InternalOk(s, c, None, multiset{}, multiset{m}, xafid);
    InternalNoFresh(s, c, None);
    hide Inv, Ok;
    match s.conns[c].pc {
      case FlushWait(om, x) => FlushNear(s, s1, c, om, m, xafid);
      case ClunkWait(k, x) => ClunkNear(s, s1, c, k, m, xafid);
    }
  }

  lemma FlushNear(s: State, s1: State, c: nat, om: nat, m: nat, xafid: nat)
    requires c < |s.conns| && s1 == WithInternal(s, c, None) && Ok(s1, multiset{m}, multiset{}, xafid) &&
             s1.conns[c].pc == FlushWait(om, m)
    requires m < |s.msgs| && s.msgs[m].stage == Done
    ensures Near(s, FlushDone(s1, c, om, m)) && FlushDone(s1, c, om, m).refused == s.refused
  {
    hide Ok, FlushDone, Calm;
    FlushDoneOk(s1, c, om, m, xafid);
    assert Near(s, SetPc(s1, c, Flushing));
    hide Near;
    NearCalm(s, SetPc(s1, c, Flushing), FlushDone(s1, c, om, m));
  }

  lemma ClunkNear(s: State, s1: State, c: nat, k: nat, m: nat, xafid: nat)
    requires c < |s.conns| && s1 == WithInternal(s, c, None) && Ok(s1, multiset{m}, multiset{}, xafid) &&
             s1.conns[c].pc == ClunkWait(k, m)
    requires m < |s.msgs| && s.msgs[m].stage == Done && NoFresh(s1)
    ensures Near(s, ClunkDone(s1, c, k, m)) && ClunkDone(s1, c, k, m).refused == s.refused
  {
    hide Ok, Life, ClunkDone, Calm, NoFresh, Cut;
    OkLife(s1, multiset{m}, multiset{}, xafid);
    ClunkWaiting(s1, c, m);
    ClunkDoneOk(s1, c, k, m, xafid);
    CutIs(s1, c, k, m);
    assert Near(s, Cut(s1, c, m));
    hide Near;
    NearCalm(s, Cut(s1, c, m), ClunkDone(s1, c, k, m));
  }

  lemma ConnTakeNear(s: State, c: nat, m: nat, xafid: nat)
    requires Inv(s, xafid) && c < |s.conns| && s.conns[c].outpc.CIdle? && s.conns[c].outq != [] &&
             s.conns[c].outq[0] == Some(m)
    requires !NilHead(s, c)
    ensures m < |s.msgs| && Near(TakeReply(s, c, m), ConnTake(s, c)) && ConnTake(s, c).refused == s.refused
    ensures c < |ConnTake(s, c).conns| && ConnTake(s, c).conns[c].outq == s.conns[c].outq[1..] &&
            ConnTake(s, c).conns[c].outpc == CWriting(m)
  {
    hide Ok, NoFresh, NilHead, Calm, Near, TagRelease, Settle, TakeReply, ConnTake;
    HeadIs(s, c, xafid);
    hide Inv;
    TakenQueue(s, c, m);
    TakeSettle(s, c, m, xafid);
    var s1 := TakeReply(s, c, m);
    var r := TagRelease(Settle(s1, m), m);
    CalmNear(s1, r);
    ConnTakeIs(s, c, m);
    CalmQueue(s1, r, c);
    AnswerNear(s1, r, ConnTake(s, c));
  }

  lemma AnswerNear(s: State, r: State, t: State)
    requires Near(s, r) && t == r.(answers := t.answers)
    ensures Near(s, t)
  {
  }

  lemma CalmQueue(s: State, r: State, c: nat)
    requires Calm(s, r) && c < |s.conns|
    ensures c < |r.conns| && r.conns[c].outq == s.conns[c].outq && r.conns[c].outpc == s.conns[c].outpc &&
            r.refused == s.refused
  {
  }

  lemma TakenQueue(s: State, c: nat, m: nat)
    requires c < |s.conns| && s.conns[c].outq != [] && m < |s.msgs|
    ensures var r := TakeReply(s, c, m);
      c < |r.conns| && r.conns[c].outq == s.conns[c].outq[1..] && r.conns[c].outpc == CWriting(m) &&
      r.refused == s.refused
  {
  }

  lemma ConnWrittenNear(s: State, c: nat, xafid: nat)
    requires Inv(s, xafid) && Enabled(s, SConnWritten(c))
    ensures var r := ConnWritten(s, c); Near(s, r) && r.refused == s.refused
    ensures var r := ConnWritten(s, c); c < |r.conns| && r.conns[c].outq == s.conns[c].outq && r.conns[c].outpc.CIdle?
  {
    hide Cnt, Life, NoFresh, MsgPut, Calm, LetReply;
    var m := s.conns[c].outpc.m;
    LetReplyOk(s, c, m, xafid);
    var s1 := LetReply(s, c, m);
    assert multiset{} + multiset{m} == multiset{m};
    PutOk(s1, m, multiset{}, multiset{}, xafid);
    WriterPart(s, c, m);
    LetNear(s, c, m);
    NearCalm(s, s1, MsgPut(s1, m));
    CalmQueue(s1, MsgPut(s1, m), c);
  }

  lemma LetNear(s: State, c: nat, m: nat)
    requires c < |s.conns| && Past(M(s, m).stage)
    ensures var r := LetReply(s, c, m); Near(s, r) && |r.msgs| == |s.msgs| && r.refused == s.refused
    ensures var r := LetReply(s, c, m); c < |r.conns| && r.conns[c].outq == s.conns[c].outq && r.conns[c].outpc.CIdle?
  {
  }

  lemma OutPutNear(s: State, xafid: nat)
    requires Inv(s, xafid) && Enabled(s, SOutPut)
    ensures Near(s, OutPut(s)) && OutPut(s).refused == s.refused
  {
    hide Cnt, NoFresh, Life, Outer, OuterDone, MsgPut, Calm;
    NinePOut.IdleDone(s);
    NinePOut.IdleCnt(s, xafid);
    var r := s.(out := OIdle);
    NinePOut.OuterInv(s, r, multiset{s.out.m}, xafid);
    assert multiset{} + multiset{s.out.m} == multiset{s.out.m};
    PutOk(r, s.out.m, multiset{}, multiset{}, xafid);
    CalmNear(r, OutPut(s));
    NearFrom(s, r, OutPut(s));
  }

  lemma NearFrom(s: State, r: State, t: State)
    requires r == s.(out := r.out) && Near(r, t)
    ensures Near(s, t)
  {
  }

  lemma InputNear(s: State, xafid: nat)
    requires Inv(s, xafid) && Enabled(s, SInput)
    ensures NearBut(s, Input(s), {}, true) && Input(s).refused == s.refused
  {
    hide Cnt, Life, NoFresh, Wake;
    NinePOut.FetchOk(s, xafid);
    FetchKeeps(s, s.replies[0]);
    var r := Fetch(s, s.replies[0]);
    var m := s.replies[0].tag;
    if r.msgs[m].internal {
      WakeNear(SetStage(r, m, Done), r.msgs[m].conn.value, m);
    } else {
      TaggedOpen(r, m);
    }
  }

  lemma WakeNear(s: State, c: nat, m: nat)
    ensures var r := Wake(s, c, m);
            r.msgs == s.msgs && |r.conns| == |s.conns| && r.refused == s.refused && r.log == s.log
    ensures forall a: nat :: a < |s.conns| ==> Wake(s, c, m).conns[a].outq == s.conns[a].outq
  {
  }

  /** No step but the taking of a reply shortens a queue, apart from its nil. */
  lemma StepNear(s: State, step: Step, xafid: nat)
    requires Inv(s, xafid) && Enabled(s, step) && !step.SConnTake? && !step.SConnNil?
    ensures NearBut(s, Apply(s, step, xafid), Newly(s, step), step.SInput?)
    ensures !step.SRecv? ==> Apply(s, step, xafid).refused == s.refused
  {
    hide Inv, Recv, Flush, TakeUp, Clunk, ConnWritten, OutPut, Input, Join, Serve, NearBut, OutTake, OutWrite, OutSync,
      CloseQueue, Dead, Close, Flushed, Enter;
    match step {
      case SRecv(c, tx) =>
        NinePRecv.RecvInv(s, c, tx, xafid);
        JoinNear(s, Recv(s, c, tx, xafid), c, Enter(s, c, Hdr(false, tx)).1);
      case SFlush(c, k) =>
        NinePOwn.FlushInv(s, c, k, xafid);
        JoinNear(s, Flush(s, c, k), c, NinePOwn.FlushMsg(s, c, k));
        FlushRefused(s, c, k);
      case SClunk(c, k) =>
        NinePOwn.ClunkInv(s, c, k, xafid);
        JoinNear(s, Clunk(s, c, k), c, NinePOwn.ClunkMsg(s, c, k));
        ClunkRefused(s, c, k);
      case STakeUp(c) => TakeUpNear(s, c, xafid);
      case SConnWritten(c) => ConnWrittenNear(s, c, xafid);
      case SOutPut => OutPutNear(s, xafid);
      case SServe(t, err, short) => ServeNear(s, t, err, short, xafid);
      case SInput => InputNear(s, xafid);
      case SOutTake => OuterNear(s, xafid);
      case SOutWrite => OuterNear(s, xafid);
      case SOutSync => OuterNear(s, xafid);
      case SAccept => AcceptNear(s);
      case SEof(c) => PcNear(s, c);
      case SFlushed(c) => PcNear(s, c);
      case SCloseQueue(c) => PcNear(s, c);
      case SDead(c) => PcNear(s, c);
      case SClose(c) => PcNear(s, c);
    }
  }

  lemma AcceptNear(s: State)
    ensures Near(s, s.(conns := s.conns + [NEW_CONN]))
  {
  }

  lemma SetConnNear(s: State, c: nat, v: Conn)
    requires C(s, c).outq <= v.outq
    ensures Near(s, SetConn(s, c, v)) && SetConn(s, c, v).refused == s.refused
  {
  }

  lemma SetStageNear(s: State, m: nat, g: Stage)
    requires Bound(g) ==> Bound(M(s, m).stage)
    requires Past(g) <==> Past(M(s, m).stage)
    ensures Near(s, SetStage(s, m, g)) && SetStage(s, m, g).refused == s.refused
  {
  }

  lemma NearSame(s: State, r: State, t: State)
    requires Near(s, r) && t.msgs == r.msgs && t.conns == r.conns && t.refused == r.refused && t.log == r.log
    ensures Near(s, t)
  {
  }

  lemma NearRefl(s: State)
    ensures Near(s, s)
  {
  }

  lemma OuterNear(s: State, xafid: nat)
    requires Inv(s, xafid)
    ensures Near(s, OutTake(s)) && OutTake(s).refused == s.refused
    ensures Near(s, OutWrite(s)) && OutWrite(s).refused == s.refused
    ensures Near(s, OutSync(s)) && OutSync(s).refused == s.refused
  {
    hide Near, SetMsg, Life, Cnt, NoFresh, M;
    OutBound(s);
    NearRefl(s);
    NearSame(s, s, Faulty(s));
    if s.outq != [] && s.outq[0].Out? {
      SetStageNear(s, s.outq[0].m, Writing);
      NearSame(s, SetStage(s, s.outq[0].m, Writing), OutTake(s));
    }
    if s.out.OWriting? {
      SetStageNear(s, s.out.m, Sent);
      NearSame(s, SetStage(s, s.out.m, Sent), OutWrite(s));
    }
    SyncNear(s);
  }

  lemma SyncNear(s: State)
    ensures Near(s, OutSync(s)) && OutSync(s).refused == s.refused
  {
    hide Near, SetConn;
    NearRefl(s);
    NearSame(s, s, Faulty(s));
    if s.outq != [] && s.outq[0].Sync? {
      var c := s.outq[0].c;
      SetConnNear(s, c, C(s, c).(pc := Synced));
      NearSame(s, SetPc(s, c, Synced), if C(s, c).pc.SyncWait? then OutSync(s) else SetPc(s, c, Synced));
    }
  }

  lemma OutBound(s: State)
    requires Life(s)
    ensures s.outq != [] && s.outq[0].Out? ==> M(s, s.outq[0].m).stage == Queued
    ensures s.out.OWriting? ==> M(s, s.out.m).stage == Writing
  {
    assert OutQueue(s) && OutThread(s);
  }

  lemma PcNear(s: State, c: nat)
    ensures Near(s, SetPc(s, c, Flushing)) && SetPc(s, c, Flushing).refused == s.refused
    ensures Near(s, Flushed(s, c)) && Flushed(s, c).refused == s.refused
    ensures Near(s, CloseQueue(s, c)) && CloseQueue(s, c).refused == s.refused
    ensures Near(s, Dead(s, c)) && Dead(s, c).refused == s.refused
    ensures Near(s, Close(s, c)) && Close(s, c).refused == s.refused
  {
    hide Near, SetConn;
    SetConnNear(s, c, C(s, c).(pc := Flushing));
    SetConnNear(s, c, C(s, c).(pc := SyncWait));
    NearSame(s, SetPc(s, c, SyncWait), Flushed(s, c));
    SetConnNear(s, c, C(s, c).(pc := DeadWait, outq := C(s, c).outq + [None]));
    SetConnNear(s, c, C(s, c).(pc := Clunking));
    NearSame(s, SetPc(s, c, Clunking), Dead(s, c));
    SetConnNear(s, c, C(s, c).(pc := Closed));
    NearSame(s, SetPc(s, c, Closed), Close(s, c));
  }

  lemma EnterRefused(s: State, c: nat, h: Hdr)
    ensures Enter(s, c, h).0.refused == s.refused
  {
  }

  lemma FlushRefused(s: State, c: nat, k: nat)
    ensures Flush(s, c, k).refused == s.refused
  {
    hide Enter;
    if k in C(s, c).tag {
      EnterRefused(IncRef(s, C(s, c).tag[k]), c, Hdr(true, FlushTx(k)));
    }
  }

  lemma ClunkRefused(s: State, c: nat, k: nat)
    ensures Clunk(s, c, k).refused == s.refused
  {
    hide Enter;
    EnterRefused(s, c, Hdr(true, ClunkTx(k)));
  }

  lemma ServeNear(s: State, t: nat, err: bool, short: bool, xafid: nat)
    requires Inv(s, xafid) && t in s.pend
    ensures var r := Serve(s, t, err, short); Near(s, r) && r.refused == s.refused
  {
    hide Near, Life, Cnt, NoFresh, SetStage, Serve, M;
    PendSent(s);
    var q := s.pend[t];
    var s1 := SetStage(s, t, Replied);
    SetStageNear(s, t, Replied);
    var r := Serve(s, t, err, short);
    ServeIs(s, t, err, short);
    if q.flushes.Some? && q.flushes.value in s.pend - {t} {
      var n := q.flushes.value;
      StageOther(s, t, Replied, n);
      SetStageNear(s1, n, Cancelled);
      NearTrans(s, s1, SetStage(s1, n, Cancelled));
      NearSame(s, SetStage(s1, n, Cancelled), r);
    } else {
      NearSame(s, s1, r);
    }
  }

  lemma StageOther(s: State, m: nat, g: Stage, n: nat)
    requires n != m
    ensures M(SetStage(s, m, g), n) == M(s, n) && SetStage(s, m, g).refused == s.refused
  {
  }

  lemma ServeIs(s: State, t: nat, err: bool, short: bool)
    requires t in s.pend
    ensures var r, q, s1 := Serve(s, t, err, short), s.pend[t], SetStage(s, t, Replied);
      var s2 := if q.flushes.Some? && q.flushes.value in s.pend - {t} then SetStage(s1, q.flushes.value, Cancelled)
                else s1;
      r.msgs == s2.msgs && r.conns == s2.conns && r.refused == s2.refused && r.log == s2.log
  {
  }

  lemma NearTrans(s: State, r: State, t: State)
    requires Near(s, r) && Near(r, t)
    ensures Near(s, t)
  {
    forall x: nat | x < |t.msgs| && t.msgs[x].conn.Some? ensures x < |s.msgs| && NearMsg(s.msgs[x], t.msgs[x], false) {
      assert NearMsg(r.msgs[x], t.msgs[x], false) && NearMsg(s.msgs[x], r.msgs[x], false);
    }
  }

  lemma PendSent(s: State)
    requires Life(s)
    ensures forall t :: t in s.pend ==> M(s, t).stage == Sent
  {
    assert PendOk(s);
  }

  // ----- a refused open stays in its queue --------------------------------------------------------

  /** A reply to message g, an open or create without a fid, waits in the queue of connection c. */
  ghost predicate Stuck(s: State, c: nat, g: nat)
  {
    c < |s.conns| && g < |s.msgs| && Some(g) in s.conns[c].outq && IsOpen(s.msgs[g].kind) && s.msgs[g].fid.None?
  }

  lemma NearStuck(s: State, r: State, used: set<nat>, read: bool, c: nat, g: nat)
    requires Stuck(s, c, g) && NearBut(s, r, used, read) && ClientMsg(s, c, g) && Life(r)
    ensures Stuck(r, c, g)
  {
    hide Life;
    assert s.conns[c].outq <= r.conns[c].outq;
    QueuedClient(r, c, g);
    assert NearMsg(s.msgs[g], r.msgs[g], read);
  }

  /** Every step keeps it there, but the one that takes it, which faults. */
  lemma StepStuck(s: State, step: Step, c: nat, g: nat, xafid: nat)
    requires Inv(s, xafid) && Enabled(s, step) && !Faulting(s, step) && Stuck(s, c, g)
    ensures Inv(Apply(s, step, xafid), xafid) && Stuck(Apply(s, step, xafid), c, g)
  {
    hide Cnt, Life, NoFresh, Near, ConnTake, ConnNil, Recv, Flush, TakeUp, Clunk, ConnWritten, OutPut, Input, Serve;
    StepInv(s, step, xafid);
    QueuedClient(s, c, g);
    var r := Apply(s, step, xafid);
    if step.SConnTake? {
      TakeStuck(s, step.c, c, g, xafid);
    } else if step.SConnNil? {
      NilStuck(s, step.c, c, g, xafid);
    } else {
      StepNear(s, step, xafid);
      NearStuck(s, r, Newly(s, step), step.SInput?, c, g);
    }
  }

  lemma TakeStuck(s: State, a: nat, c: nat, g: nat, xafid: nat)
    requires Inv(s, xafid) && Enabled(s, SConnTake(a)) && !NilHead(s, a) && Stuck(s, c, g) && Inv(ConnTake(s, a), xafid)
    ensures Stuck(ConnTake(s, a), c, g)
  {
    hide Cnt, Life, NoFresh, NearBut, ConnTake;
    var m := s.conns[a].outq[0].value;
    ConnTakeNear(s, a, m, xafid);
    QueuedClient(s, c, g);
    var s1 := TakeReply(s, a, m);
    if a == c {
      assert s.conns[c].outq == [Some(m)] + s.conns[c].outq[1..];
    }
    NearStuck(s1, ConnTake(s, a), {}, false, c, g);
  }

  lemma NilStuck(s: State, a: nat, c: nat, g: nat, xafid: nat)
    requires Inv(s, xafid) && Enabled(s, SConnNil(a)) && Stuck(s, c, g)
    ensures Stuck(ConnNil(s, a), c, g)
  {
    hide Cnt, Life, NoFresh;
    NinePClose.NilQueue(s, a);
    assert a != c;
  }

  // ----- which are refused ---------------------------------------------------------------------

  /** An answer given here without a fid. */
  lemma LocalShape(r: State, c: nat, m: nat)
    requires c < |r.conns| && m < |r.msgs| && r.msgs[m].conn == Some(c)
    ensures var t := Local(r, m, true); c < |t.conns| && m < |t.msgs| && t.conns[c].outq == r.conns[c].outq + [Some(m)]
    ensures var t := Local(r, m, true);
            m < |t.msgs| && t.msgs[m].kind == r.msgs[m].kind && t.msgs[m].fid == r.msgs[m].fid
  {
  }

  lemma TagShape(r: State, c: nat, k: nat, m: nat)
    requires c < |r.conns| && m < |r.msgs|
    ensures var t := TagAdd(IncRef(r, m), c, k, m);
            c < |t.conns| && m < |t.msgs| && t.conns[c].outq == r.conns[c].outq && t.conns[c].fid == r.conns[c].fid
    ensures var t := TagAdd(IncRef(r, m), c, k, m);
            m < |t.msgs| && t.msgs[m] == r.msgs[m].(ref := r.msgs[m].ref + 1) && t.refused == r.refused
  {
  }

  lemma FidShape(t: State, c: nat, m: nat, tx: Tx)
    requires c < |t.conns| && tx.fid in t.conns[c].fid
    ensures RecvFid(t, c, m, tx).refused == t.refused
  {
  }

  lemma RefusedShape(r: State, c: nat, m: nat, tx: Tx, xafid: nat)
    requires c < |r.conns| && m < |r.msgs| && r.msgs[m].conn == Some(c) && r.msgs[m].kind == tx.kind && IsOpen(tx.kind)
    ensures var t := if tx.tag in C(r, c).tag then Local(r, m, true)
            else Dispatch(TagAdd(IncRef(r, m), c, tx.tag, m), c, m, tx, xafid);
      if Passes(r, c, tx) then t.refused == r.refused
      else c < |t.conns| && m < |t.msgs| && t.conns[c].outq == r.conns[c].outq + [Some(m)] &&
           t.msgs[m].kind == tx.kind && t.msgs[m].fid == r.msgs[m].fid
  {
    hide Local, Send, TagAdd, IncRef, FidInc, SetFid, FidNew;
    LocalShape(r, c, m);
    if tx.tag !in r.conns[c].tag {
      var t := TagAdd(IncRef(r, m), c, tx.tag, m);
      TagShape(r, c, tx.tag, m);
      LocalShape(t, c, m);
      if Passes(r, c, tx) {
        FidShape(t, c, m, tx);
      }
    }
  }

  lemma DraftConn(s: State, r: State, c: nat, m: nat)
    requires NinePRecv.Draft(s, r, c, m, false)
    ensures c < |s.conns| && c < |r.conns| && m < |r.msgs| && r.msgs[m].conn == Some(c) && r.refused == s.refused
    ensures r.conns[c] == s.conns[c].(fid := r.conns[c].fid, nmsg := r.conns[c].nmsg)
  {
  }

  /** An open or create that passes the tests is not answered here; the reply to any other waits in the
      queue without a fid. Either way the invariant holds. */
  lemma OpensMustPass(s: State, c: nat, tx: Tx, xafid: nat) returns (g: nat)
    requires Inv(s, xafid) && c < |s.conns| && s.conns[c].pc.Reading? && IsOpen(tx.kind)
    ensures var r := Recv(s, c, tx, xafid);
            Inv(r, xafid) && if Passes(s, c, tx) then r.refused == s.refused else Stuck(r, c, g)
  {
    hide Inv, NinePHold.K, Enter, Local, Dispatch, TagAdd, IncRef, NinePRecv.Draft, Join;
    NinePRecv.RecvInv(s, c, tx, xafid);
    var h := Hdr(false, tx);
    NinePRecv.EnterDraft(s, c, h, xafid);
    var (r, m) := Enter(s, c, h);
    DraftConn(s, r, c, m);
    RefusedShape(r, c, m, tx, xafid);
    g := m;
  }

  /** Steps from s, each of them possible, of which the last follows a nil fid. */
  ghost predicate Faults(s: State, run: seq<Step>, xafid: nat)
    decreases |run|
  {
    run != [] && Enabled(s, run[0]) && (Faulting(s, run[0]) || Faults(Apply(s, run[0], xafid), run[1..], xafid))
  }

  lemma FaultsAfter(s: State, step: Step, run: seq<Step>, xafid: nat)
    requires Enabled(s, step) && Faults(Apply(s, step, xafid), run, xafid)
    ensures Faults(s, [step] + run, xafid)
  {
    assert ([step] + run)[1..] == run;
  }

  lemma WriterThere(s: State, c: nat, g: nat)
    requires Life(s) && Stuck(s, c, g)
    ensures s.conns[c].outq[0].Some? && !s.conns[c].outpc.CGone?
  {
    assert Phase(s, c);
    if s.conns[c].outq[0].None? {
      NinePClose.NilQueue(s, c);
    }
  }

  function Before(d: Conn): nat { 2 * |d.outq| + if d.outpc.CWriting? then 1 else 0 }

  /** Once there is such a reply, the writing thread alone, answering what is queued before it, comes to
      the nil fid. */
  lemma {:induction false} StuckFaults(s: State, c: nat, g: nat, xafid: nat) returns (run: seq<Step>)
    requires Inv(s, xafid) && Stuck(s, c, g)
    ensures Faults(s, run, xafid) && forall i :: 0 <= i < |run| ==> run[i] in {SConnTake(c), SConnWritten(c)}
    decreases Before(C(s, c))
  {
    hide Cnt, Life, NoFresh, Near, ConnTake, ConnWritten;
    WriterThere(s, c, g);
    var step := if s.conns[c].outpc.CWriting? then SConnWritten(c) else SConnTake(c);
    if Faulting(s, step) {
      return [step];
    }
    StepStuck(s, step, c, g, xafid);
    if step.SConnTake? {
      ConnTakeNear(s, c, s.conns[c].outq[0].value, xafid);
    } else {
      ConnWrittenNear(s, c, xafid);
    }
    var rest := StuckFaults(Apply(s, step, xafid), c, g, xafid);
    FaultsAfter(s, step, rest, xafid);
    run := [step] + rest;
  }

  // ----- runs in which every open passes ------------------------------------------------------------

  /** Every step could be taken when it was, and every open and create passed the tests. */
  predicate Passing(run: seq<Step>, xafid: nat)
  {
    run == [] || (Passing(run[..|run| - 1], xafid) && PassingStep(After(run[..|run| - 1], xafid), run[|run| - 1]))
  }

  predicate PassingStep(s: State, step: Step) { Enabled(s, step) && (step.SRecv? ==> Passes(s, step.c, step.tx)) }

  lemma RecvRefused(s: State, c: nat, tx: Tx, xafid: nat)
    requires Inv(s, xafid) && Enabled(s, SRecv(c, tx)) && Passes(s, c, tx)
    ensures Recv(s, c, tx, xafid).refused == s.refused
  {
    hide Inv, NinePHold.K, Enter, Dispatch, TagAdd, IncRef, NinePRecv.Draft, Join;
    if IsOpen(tx.kind) {
      var _ := OpensMustPass(s, c, tx, xafid);
    } else {
      var h := Hdr(false, tx);
      NinePRecv.EnterDraft(s, c, h, xafid);
      var (r, m) := Enter(s, c, h);
      DraftConn(s, r, c, m);
      DispatchRefused(r, c, m, tx, xafid);
    }
  }

  lemma DispatchRefused(r: State, c: nat, m: nat, tx: Tx, xafid: nat)
    requires c < |r.conns| && m < |r.msgs| && r.msgs[m].conn == Some(c) && r.msgs[m].kind == tx.kind && !IsOpen(tx.kind)
    ensures Local(r, m, true).refused == r.refused &&
            Dispatch(TagAdd(IncRef(r, m), c, tx.tag, m), c, m, tx, xafid).refused == r.refused
  {
    var t := TagAdd(IncRef(r, m), c, tx.tag, m);
    assert t.refused == r.refused && m < |t.msgs| && t.msgs[m].kind == tx.kind;
    hide TagAdd, IncRef;
    KindRefused(t, c, m, tx, xafid);
  }

  /** What changes neither the flag nor the kind of message m. */
  ghost predicate Steady(s: State, r: State, m: nat)
  {
    r.refused == s.refused && m < |s.msgs| && m < |r.msgs| && r.msgs[m].kind == s.msgs[m].kind
  }

  lemma SteadyFids(s: State, c: nat, k: nat, f: nat, m: nat, xafid: nat)
    requires m < |s.msgs|
    ensures Steady(s, FidInc(s, f), m) && Steady(s, FidNew(s, k, xafid).0, m) && Steady(s, FidAdd(s, c, k, f), m)
    ensures Steady(s, SetFid(s, m, f), m) && Steady(s, SetNewfid(s, m, f), m) && Steady(s, SetAfid(s, m, f), m)
  {
  }

  lemma SteadyEnds(s: State, m: nat, err: bool)
    requires m < |s.msgs| && !IsOpen(s.msgs[m].kind)
    ensures Local(s, m, err).refused == s.refused && Send(s, m).refused == s.refused
  {
  }

  lemma KindRefused(t: State, c: nat, m: nat, tx: Tx, xafid: nat)
    requires m < |t.msgs| && t.msgs[m].kind == tx.kind && !IsOpen(tx.kind)
    ensures Dispatch(t, c, m, tx, xafid).refused == t.refused
  {
    hide RecvAttach, RecvWalk, RecvAuth, RecvFid, RecvFlush, Local;
    SteadyEnds(t, m, true);
    SteadyEnds(t, m, false);
    match tx.kind {
      case Tattach => AttachRefused(t, c, m, tx, xafid);
      case Twalk => WalkRefused(t, c, m, tx, xafid);
      case Tauth => AuthRefused(t, c, m, tx, xafid);
      case Tversion =>
      case _ => FidRefused(t, c, m, tx, xafid);
    }
  }

  lemma FidRefused(t: State, c: nat, m: nat, tx: Tx, xafid: nat)
    requires m < |t.msgs| && !IsOpen(t.msgs[m].kind)
    ensures RecvFid(t, c, m, tx).refused == t.refused && RecvFlush(t, c, m, tx).refused == t.refused
  {
    hide Local;
    SteadyEnds(t, m, true);
    SteadyEnds(t, m, false);
  }

  lemma NewRefused(s: State, c: nat, k: nat, m: nat, which: int, xafid: nat)
    requires m < |s.msgs| && !IsOpen(s.msgs[m].kind)
    ensures var (s1, f) := FidNew(s, k, xafid);
            var s2 := if which == 0 then SetFid(s1, m, f) else if which == 1 then SetNewfid(s1, m, f)
            else SetAfid(s1, m, f);
      Local(s2, m, true).refused == s.refused && Send(FidAdd(FidInc(s2, f), c, k, f), m).refused == s.refused &&
      Local(FidAdd(FidInc(s2, f), c, k, f), m, true).refused == s.refused
  {
    hide Local, Send, FidNew, FidInc, FidAdd, SetFid, SetNewfid, SetAfid;
    var (s1, f) := FidNew(s, k, xafid);
    SteadyFids(s, c, k, f, m, xafid);
    SteadyFids(s1, c, k, f, m, xafid);
    var s2 := if which == 0 then SetFid(s1, m, f) else if which == 1 then SetNewfid(s1, m, f) else SetAfid(s1, m, f);
    SteadyEnds(s2, m, true);
    SteadyFids(s2, c, k, f, m, xafid);
    SteadyFids(FidInc(s2, f), c, k, f, m, xafid);
    SteadyEnds(FidAdd(FidInc(s2, f), c, k, f), m, true);
  }

  lemma AuthRefused(t: State, c: nat, m: nat, tx: Tx, xafid: nat)
    requires m < |t.msgs| && !IsOpen(t.msgs[m].kind)
    ensures RecvAuth(t, c, m, tx, xafid).refused == t.refused
  {
    hide Local, Send, FidNew, FidInc, FidAdd, SetAfid;
    SteadyEnds(t, m, true);
    NewRefused(t, c, tx.afid, m, 2, xafid);
  }

  lemma WalkRefused(t: State, c: nat, m: nat, tx: Tx, xafid: nat)
    requires m < |t.msgs| && !IsOpen(t.msgs[m].kind)
    ensures RecvWalk(t, c, m, tx, xafid).refused == t.refused
  {
    hide Local, Send, FidNew, FidInc, FidAdd, SetFid, SetNewfid;
    SteadyEnds(t, m, true);
    if tx.fid in C(t, c).fid {
      var f := C(t, c).fid[tx.fid];
      SteadyFids(t, c, 0, f, m, xafid);
      SteadyFids(FidInc(t, f), c, 0, f, m, xafid);
      var s1 := SetFid(FidInc(t, f), m, f);
      SteadyFids(s1, c, 0, f, m, xafid);
      SteadyFids(FidInc(s1, f), c, 0, f, m, xafid);
      SteadyEnds(SetNewfid(FidInc(s1, f), m, f), m, true);
      NewRefused(s1, c, tx.newfid, m, 1, xafid);
    }
  }

  lemma AttachRefused(t: State, c: nat, m: nat, tx: Tx, xafid: nat)
    requires m < |t.msgs| && !IsOpen(t.msgs[m].kind)
    ensures RecvAttach(t, c, m, tx, xafid).refused == t.refused
  {
    hide Attach;
    AttachesRefused(t, c, m, tx, xafid);
    AttachesRefused(SetTxAfid(t, m, xafid), c, m, tx, xafid);
  }

  lemma AttachesRefused(t: State, c: nat, m: nat, tx: Tx, xafid: nat)
    requires m < |t.msgs| && !IsOpen(t.msgs[m].kind)
    ensures Attach(t, c, m, tx, xafid).refused == t.refused
  {
    hide Local, Send, FidNew, FidInc, FidAdd, SetFid, SetAfid;
    SteadyEnds(t, m, true);
    NewRefused(t, c, tx.fid, m, 0, xafid);
    if tx.afid in C(t, c).fid {
      var f := C(t, c).fid[tx.afid];
      SteadyFids(t, c, 0, f, m, xafid);
      SteadyFids(FidInc(t, f), c, 0, f, m, xafid);
      NewRefused(SetAfid(FidInc(t, f), m, f), c, tx.fid, m, 0, xafid);
    }
  }

  lemma NoNilHead(s: State, c: nat)
    requires Life(s) && c < |s.conns| && !s.refused
    ensures !NilHead(s, c)
  {
    var q := s.conns[c].outq;
    if q != [] && q[0].Some? {
      assert ConnLinks(s, c) && ConnStages(s, s.conns[c]);
      assert MsgLinks(s, s.msgs[q[0].value]);
    }
  }

  /** Such a run is possible, and no step of it follows a nil fid. */
  lemma {:induction false} PassingRuns(run: seq<Step>, xafid: nat)
    requires Passing(run, xafid)
    ensures Possible(run, xafid) && !After(run, xafid).refused
  {
    hide Inv, Apply, Enabled, Near;
    if run != [] {
      var before, step := run[..|run| - 1], run[|run| - 1];
      PassingRuns(before, xafid);
      RunInv(before, xafid);
      PassingNext(After(before, xafid), step, xafid);
    }
  }

  lemma PassingNext(s: State, step: Step, xafid: nat)
    requires Inv(s, xafid) && !s.refused && PassingStep(s, step)
    ensures !Faulting(s, step) && !Apply(s, step, xafid).refused
  {
    hide Cnt, Life, NoFresh, Near, Recv, ConnTake;
    if step.SConnTake? {
      NoNilHead(s, step.c);
      ConnTakeNear(s, step.c, s.conns[step.c].outq[0].value, xafid);
    } else if step.SRecv? {
      RecvRefused(s, step.c, step.tx, xafid);
    } else if !step.SConnNil? {
      StepNear(s, step, xafid);
    }
  }
}
