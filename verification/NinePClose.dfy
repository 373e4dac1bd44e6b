/** The stations of a connection's life, from being accepted to being freed. */
module NinePClose {
  import opened NinePState
  import opened NinePStep
  import opened NinePInv
  import opened NinePRel
  import opened NinePCnt
  import opened NinePMove
  import opened NinePTurn

  /** A change of connection c that moves no reference. */
  lemma ConnCnt(s: State, c: nat, d: Conn, xafid: nat)
    requires Cnt(s, multiset{}, multiset{}, {}, xafid) && c < |s.conns| && d.nmsg == s.conns[c].nmsg &&
             d.fid == s.conns[c].fid
    requires forall k: nat, x: nat :: ConnHolds(d, k, x) == ConnHolds(s.conns[c], k, x)
    ensures Cnt(SetConn(s, c, d), multiset{}, multiset{}, {}, xafid)
  {
    assert ConnDelta(s, c, d, multiset{}, multiset{}) by {
      hide Cnt, ConnHolds;
    }
    hide Cnt, ConnDelta;
    SameFids(s, c, d, multiset{});
    hide TableDelta;
    ConnChange(s, c, d, multiset{}, multiset{}, multiset{}, multiset{}, {}, xafid);
  }

  /** A step that changes only connection c, shown to keep its own part. */
  lemma ConnInv(s: State, r: State, c: nat, xafid: nat)
    requires Inv(s, xafid) && Quiet(s, r, c) && r.msgs == s.msgs && ConnDone(s, r, c) &&
             Cnt(r, multiset{}, multiset{}, {}, xafid)
    ensures Inv(r, xafid)
  {
    hide Cnt, ConnDone, Quiet, Life;
    QuietLife(s, r, c);
  }

  // ----- end of file ---------------------------------------------------------------------

  lemma EofDone(s: State, c: nat)
    requires Life(s) && c < |s.conns| && s.conns[c].pc.Reading?
    ensures ConnDone(s, SetPc(s, c, Flushing), c)
  {
    hide Life;
    OwnPart(s, c);
    var r := SetPc(s, c, Flushing);
    forall x: nat | x < |r.msgs| && Active(r.msgs[x].stage) && r.msgs[x].conn == Some(c) ensures Waits(r, x) {
      assert Waits(s, x);
    }
  }

  lemma EofInv(s: State, c: nat, xafid: nat)
    requires Inv(s, xafid) && Enabled(s, SEof(c))
    ensures Inv(SetPc(s, c, Flushing), xafid)
  {
    hide Cnt, Life, ConnDone, Quiet, NoFresh;
    EofDone(s, c);
    QuietRefl(s, c);
    ConnCnt(s, c, s.conns[c].(pc := Flushing), xafid);
    ConnInv(s, SetPc(s, c, Flushing), c, xafid);
  }

  /** A connection with no tags that waits for nothing has no request under way. */
  lemma NoneActive(s: State, c: nat)
    requires ActiveHeld(s) && c < |s.conns| && s.conns[c].tag == map[] && !s.conns[c].pc.FlushWait? &&
             !s.conns[c].pc.ClunkWait?
    ensures forall x: nat :: x < |s.msgs| && Active(s.msgs[x].stage) ==> s.msgs[x].conn != Some(c)
  {
    forall x: nat | x < |s.msgs| && Active(s.msgs[x].stage) ensures s.msgs[x].conn != Some(c) {
      assert Waits(s, x);
    }
  }

  lemma NoneActiveLife(s: State, c: nat)
    requires Life(s) && c < |s.conns| && s.conns[c].tag == map[] && !s.conns[c].pc.FlushWait? &&
             !s.conns[c].pc.ClunkWait?
    ensures forall x: nat :: x < |s.msgs| && Active(s.msgs[x].stage) ==> s.msgs[x].conn != Some(c)
  {
    NoneActive(s, c);
  }

  // ----- all requests flushed ------------------------------------------------------------

  lemma FlushedSyncs(s: State, c: nat)
    requires SyncsOk(s) && c < |s.conns| && s.conns[c].pc.Flushing?
    ensures SyncsOk(Flushed(s, c))
  {
  }

  lemma FlushedDone(s: State, c: nat)
    requires Life(s) && c < |s.conns| && s.conns[c].pc.Flushing? && s.conns[c].tag == map[]
    ensures ConnDone(s, Flushed(s, c), c)
  {
    hide Life;
    OwnPart(s, c);
    FlushedSyncs(s, c);
    hide SyncsOk;
    NoneActiveLife(s, c);
  }

  lemma FlushedInv(s: State, c: nat, xafid: nat)
    requires Inv(s, xafid) && Enabled(s, SFlushed(c))
    ensures Inv(Flushed(s, c), xafid)
  {
    hide Cnt, Life, ConnDone, NoFresh;
    FlushedDone(s, c);
    assert Quiet(s, Flushed(s, c), c);
    hide Quiet;
    ConnCnt(s, c, s.conns[c].(pc := SyncWait), xafid);
    assert OutDelta(SetPc(s, c, SyncWait), Flushed(s, c), multiset{}, multiset{});
    hide OutDelta;
    OutChange(SetPc(s, c, SyncWait), Flushed(s, c), multiset{}, multiset{}, multiset{}, {}, xafid);
    ConnInv(s, Flushed(s, c), c, xafid);
  }

  // ----- the mark has come through the queue to the server ---------------------------------

  lemma SyncSyncs(s: State, c: nat)
    requires SyncsOk(s) && s.outq != [] && s.outq[0] == Sync(c) && c < |s.conns|
    ensures SyncsOk(OutSync(s)) && s.conns[c].pc.SyncWait?
  {
    var r := OutSync(s);
    assert forall i :: 0 <= i < |r.outq| ==> r.outq[i] == s.outq[i + 1];
  }

  lemma SyncPhase(s: State, c: nat)
    requires c < |s.conns| && Phase(s, c) && s.outq != [] && s.outq[0] == Sync(c) && s.conns[c].pc.SyncWait? &&
             s.out.OIdle?
    ensures Phase(OutSync(s), c)
  {
  }

  lemma SyncDone(s: State, c: nat)
    requires Life(s) && s.outq != [] && s.outq[0] == Sync(c) && c < |s.conns| && s.out.OIdle?
    ensures ConnDone(s, OutSync(s), c) && s.conns[c].pc.SyncWait?
  {
    hide Life;
    OwnPart(s, c);
    SyncSyncs(s, c);
    SyncPhase(s, c);
    assert s.conns[c].tag == map[];
    hide SyncsOk, Phase;
    NoneActiveLife(s, c);
  }

  lemma SyncRange(s: State)
    requires Life(s) && s.outq != [] && s.outq[0].Sync?
    ensures s.outq[0].c < |s.conns|
  {
  }

  lemma SyncCnt(s: State, c: nat, xafid: nat)
    requires Cnt(s, multiset{}, multiset{}, {}, xafid) && s.outq != [] && s.outq[0] == Sync(c) && c < |s.conns| &&
             s.conns[c].pc.SyncWait?
    ensures Cnt(OutSync(s), multiset{}, multiset{}, {}, xafid)
  {
    hide Cnt;
    var d := s.conns[c].(pc := Synced);
    ConnCnt(s, c, d, xafid);
    assert s.outq == [s.outq[0]] + s.outq[1..];
    assert OutDelta(SetConn(s, c, d), OutSync(s), multiset{}, multiset{});
    hide OutDelta;
    OutChange(SetConn(s, c, d), OutSync(s), multiset{}, multiset{}, multiset{}, {}, xafid);
  }

  lemma OutSyncInv(s: State, xafid: nat)
    requires Inv(s, xafid) && Enabled(s, SOutSync)
    ensures Inv(OutSync(s), xafid)
  {
    hide Cnt, Life, ConnDone, NoFresh;
    SyncRange(s);
    var c := s.outq[0].c;
    SyncDone(s, c);
    SyncCnt(s, c, xafid);
    assert s.outq == [Sync(c)] + OutSync(s).outq;
    assert Quiet(s, OutSync(s), c);
    hide Quiet;
    ConnInv(s, OutSync(s), c, xafid);
  }

  lemma CloseQueueDone(s: State, c: nat)
    requires Life(s) && c < |s.conns| && s.conns[c].pc.Synced?
    ensures ConnDone(s, CloseQueue(s, c), c)
  {
    hide Life;
    OwnPart(s, c);
    assert s.conns[c].tag == map[];
    NoneActiveLife(s, c);
    var r := CloseQueue(s, c);
    assert ConnMoved(s, r, c) && ConnStages(r, r.conns[c]) && SyncsOk(r);
    hide ConnMoved, ConnStages, SyncsOk, ConnLinks;
    assert Phase(r, c);
  }

  /** The nil goes into the connection's own queue. */
  lemma CloseQueueInv(s: State, c: nat, xafid: nat)
    requires Inv(s, xafid) && Enabled(s, SCloseQueue(c))
    ensures Inv(CloseQueue(s, c), xafid)
  {
    hide Cnt, Life, ConnDone, NoFresh;
    CloseQueueDone(s, c);
    var d := s.conns[c].(pc := DeadWait, outq := s.conns[c].outq + [None]);
    ConnCnt(s, c, d, xafid);
    QuietRefl(s, c);
    hide Quiet;
    ConnInv(s, CloseQueue(s, c), c, xafid);
  }

  // ----- the writing thread has gone -----------------------------------------------------

  /** Everything that could hold a message of connection c, but links from other messages. */
  lemma NotRooted(s: State, c: nat, m: nat)
    requires Life(s) && c < |s.conns| && s.conns[c].pc.DeadWait? && s.conns[c].outq == [None] && s.conns[c].outpc.CIdle?
    requires m < |s.msgs| && s.msgs[m].conn == Some(c)
    ensures Rooted(s, m) == 0
  {
    assert Phase(s, c) && ConnLinks(s, c);
    NoneActiveLife(s, c);
    assert !(exists i :: 0 <= i < |s.outq| && s.outq[i] == Out(m));
    assert Out(m) !in s.outq;
  }

  /** The latest message of a connection is not named by a flush. */
  lemma NotLatest(s: State, c: nat, m: nat, n: nat)
    requires Links(s) && m < |s.msgs| && s.msgs[m].conn == Some(c) && s.msgs[m].serial == n
    requires forall x: nat :: x < |s.msgs| && s.msgs[x].conn == Some(c) ==> s.msgs[x].serial <= n
    ensures Count(s.msgs, OldmIs(m)) == 0
  {
    forall y: nat | y < |s.msgs| ensures !OldmIs(m)(s.msgs[y]) {
      assert MsgLinks(s, s.msgs[y]);
    }
    CountZero(s.msgs, OldmIs(m));
  }

  lemma CleanOf(s: State, m: nat, xm: multiset<nat>, xf: multiset<nat>, xafid: nat)
    requires Cnt(s, xm, xf, {}, xafid) && m < |s.msgs| && Held(s, m) == 0 && xm[m] == 0
    ensures s.msgs[m].conn.None?
  {
    assert s.msgs[m].ref == Held(s, m) + xm[m];
    assert Clean(s.msgs[m]);
  }

  /** No message of the connection is left, by descent through serial numbers. */
  lemma {:induction false} NoneLeft(s: State, c: nat, n: nat, xafid: nat)
    requires Ok(s, multiset{}, multiset{}, xafid)
    requires c < |s.conns| && s.conns[c].pc.DeadWait? && s.conns[c].outq == [None] && s.conns[c].outpc.CIdle?
    requires forall m: nat :: m < |s.msgs| && s.msgs[m].conn == Some(c) ==> s.msgs[m].serial < n
    ensures forall m: nat :: m < |s.msgs| ==> s.msgs[m].conn != Some(c)
  {
    if n > 0 {
      forall m: nat | m < |s.msgs| && s.msgs[m].conn == Some(c) ensures s.msgs[m].serial < n - 1 {
        Unheld(s, c, m, n, xafid);
      }
      hide Ok;
      NoneLeft(s, c, n - 1, xafid);
    }
  }

  lemma Unheld(s: State, c: nat, m: nat, n: nat, xafid: nat)
    requires Ok(s, multiset{}, multiset{}, xafid)
    requires c < |s.conns| && s.conns[c].pc.DeadWait? && s.conns[c].outq == [None] && s.conns[c].outpc.CIdle?
    requires forall m: nat :: m < |s.msgs| && s.msgs[m].conn == Some(c) ==> s.msgs[m].serial < n
    requires m < |s.msgs|
    ensures !(s.msgs[m].conn == Some(c) && s.msgs[m].serial == n - 1)
  {
    if s.msgs[m].conn == Some(c) && s.msgs[m].serial == n - 1 {
      hide Cnt, Links, Stages, Phases, Logged, AnswersOk;
      NotRooted(s, c, m);
      NotLatest(s, c, m, n - 1);
      CleanOf(s, m, multiset{}, multiset{}, xafid);
      assert false;
    }
  }

  lemma SerialsBounded(s: State, c: nat)
    requires Life(s)
    ensures forall m: nat :: m < |s.msgs| && s.msgs[m].conn == Some(c) ==> s.msgs[m].serial < |s.log|
  {
  }

  lemma NoMsgsCount(s: State, c: nat, xafid: nat)
    requires Cnt(s, multiset{}, multiset{}, {}, xafid) && c < |s.conns|
    requires forall m: nat :: m < |s.msgs| ==> s.msgs[m].conn != Some(c)
    ensures s.conns[c].nmsg == 0
  {
    CountZero(s.msgs, ConnIs(c));
  }

  lemma NilQueue(s: State, c: nat)
    requires Life(s) && c < |s.conns| && s.conns[c].outq != [] && s.conns[c].outq[0].None?
    ensures s.conns[c].outq == [None] && s.conns[c].pc.DeadWait?
  {
    assert Phase(s, c);
  }

  lemma ConnNilDone(s: State, c: nat)
    requires Life(s) && c < |s.conns| && s.conns[c].outq == [None] && s.conns[c].pc.DeadWait? && s.conns[c].outpc.CIdle?
    requires forall m: nat :: m < |s.msgs| ==> s.msgs[m].conn != Some(c)
    ensures ConnDone(s, ConnNil(s, c), c)
  {
    hide Life;
    OwnPart(s, c);
    assert s.out.OWritten? ==> M(s, s.out.m).conn != Some(c);
    assert SyncsOk(ConnNil(s, c));
  }

  lemma ConnNilInv(s: State, c: nat, xafid: nat)
    requires Inv(s, xafid) && Enabled(s, SConnNil(c))
    ensures Inv(ConnNil(s, c), xafid)
  {
    hide Cnt, Life, ConnDone, NoFresh;
    NilQueue(s, c);
    SerialsBounded(s, c);
    NoneLeft(s, c, |s.log|, xafid);
    var d := s.conns[c].(outq := s.conns[c].outq[1..], outpc := CGone, pc := DeadSeen);
    assert ConnNil(s, c) == SetConn(s, c, d);
    ConnNilDone(s, c);
    ConnCnt(s, c, d, xafid);
    QuietRefl(s, c);
    hide Quiet;
    ConnInv(s, ConnNil(s, c), c, xafid);
  }

  lemma NoFault(s: State, xafid: nat)
    requires Cnt(s, multiset{}, multiset{}, {}, xafid)
    ensures !s.fault
  {
  }

  // ----- the connection is freed ---------------------------------------------------------

  lemma Emptiness(s: State, c: nat)
    requires Life(s) && NoFresh(s) && c < |s.conns| && (s.conns[c].pc.Clunking? || s.conns[c].pc.DeadSeen?)
    ensures forall m: nat :: m < |s.msgs| ==> s.msgs[m].conn != Some(c)
  {
    assert Phase(s, c);
  }

  lemma CloseDone(s: State, c: nat)
    requires Life(s) && c < |s.conns| && s.conns[c].pc.Clunking? && s.conns[c].nmsg == 0
    requires (forall m: nat :: m < |s.msgs| ==> s.msgs[m].conn != Some(c)) && !s.fault
    ensures ConnDone(s, Close(s, c), c)
  {
    hide Life;
    OwnPart(s, c);
    assert s.out.OWritten? ==> M(s, s.out.m).conn != Some(c);
    assert SyncsOk(Close(s, c));
  }

  lemma DeadDone(s: State, c: nat)
    requires Life(s) && c < |s.conns| && s.conns[c].pc.DeadSeen? && s.conns[c].nmsg == 0
    requires (forall m: nat :: m < |s.msgs| ==> s.msgs[m].conn != Some(c)) && !s.fault
    ensures ConnDone(s, Dead(s, c), c)
  {
    hide Life;
    OwnPart(s, c);
    assert s.out.OWritten? ==> M(s, s.out.m).conn != Some(c);
    assert SyncsOk(Dead(s, c));
  }

  /** When the reading thread runs again after the writing thread has gone, no message is left. */
  lemma DeadInv(s: State, c: nat, xafid: nat)
    requires Inv(s, xafid) && Enabled(s, SDead(c))
    ensures Inv(Dead(s, c), xafid)
  {
    hide Cnt, Life, ConnDone, NoFresh;
    Emptiness(s, c);
    NoMsgsCount(s, c, xafid);
    NoFault(s, xafid);
    assert Dead(s, c) == SetPc(s, c, Clunking);
    DeadDone(s, c);
    ConnCnt(s, c, s.conns[c].(pc := Clunking), xafid);
    QuietRefl(s, c);
    hide Quiet;
    ConnInv(s, Dead(s, c), c, xafid);
  }

  /** When a connection is freed no message of it is left. */
  lemma CloseInv(s: State, c: nat, xafid: nat)
    requires Inv(s, xafid) && Enabled(s, SClose(c))
    ensures Inv(Close(s, c), xafid)
  {
    hide Cnt, Life, ConnDone, NoFresh;
    Emptiness(s, c);
    NoMsgsCount(s, c, xafid);
    NoFault(s, xafid);
    assert Close(s, c) == SetPc(s, c, Closed);
    CloseDone(s, c);
    ConnCnt(s, c, s.conns[c].(pc := Closed), xafid);
    QuietRefl(s, c);
    hide Quiet;
    ConnInv(s, Close(s, c), c, xafid);
  }

  // ----- a new connection ----------------------------------------------------------------

  function Accepted(s: State): State { s.(conns := s.conns + [NEW_CONN]) }

  lemma AcceptHeld(s: State, x: nat)
    requires Links(s) && x < |s.msgs|
    ensures Held(Accepted(s), x) == Held(s, x)
  {
    assert MsgLinks(s, s.msgs[x]);
  }

  lemma AcceptFidHeld(s: State, f: nat)
    ensures FidHeld(Accepted(s), f) == FidHeld(s, f)
  {
    if IsFid(s, f) {
      CountAppend(s.conns, NEW_CONN, TableHas(s.fids[f].cfid, f));
    }
  }

  lemma AcceptCounts(s: State)
    requires Links(s) && Counts(s)
    ensures Counts(Accepted(s))
  {
    forall i: nat | i < |s.msgs| ensures !ConnIs(|s.conns|)(s.msgs[i]) {
      assert MsgLinks(s, s.msgs[i]);
    }
    CountZero(s.msgs, ConnIs(|s.conns|));
  }

  lemma AcceptRefs(s: State)
    requires Links(s) && RefM(s, multiset{}) && RefF(s, multiset{})
    ensures RefM(Accepted(s), multiset{}) && RefF(Accepted(s), multiset{})
  {
    var r := Accepted(s);
    forall x: nat | x < |s.msgs| ensures Held(r, x) == Held(s, x) {
      AcceptHeld(s, x);
    }
    forall f: nat ensures FidHeld(r, f) == FidHeld(s, f) {
      AcceptFidHeld(s, f);
    }
    hide Held, FidHeld, Links;
  }

  lemma AcceptCnt(s: State, xafid: nat)
    requires Links(s) && Cnt(s, multiset{}, multiset{}, {}, xafid)
    ensures Cnt(Accepted(s), multiset{}, multiset{}, {}, xafid)
  {
    AcceptCounts(s);
    AcceptRefs(s);
    hide Counts, RefM, RefF, Links;
    var r := Accepted(s);
    assert FreeM(r, {}) by { hide FreeF; }
    assert FreeF(r, xafid);
  }

  lemma AcceptLinks(s: State)
    requires Links(s)
    ensures Links(Accepted(s))
  {
    var r := Accepted(s);
    forall m: nat | m < |r.msgs| ensures MsgLinks(r, r.msgs[m]) {
      assert MsgLinks(s, s.msgs[m]);
    }
    forall c: nat | c < |r.conns| ensures ConnLinks(r, c) {
      assert c < |s.conns| ==> ConnLinks(s, c);
    }
  }

  lemma AcceptActive(s: State)
    requires Links(s) && ActiveHeld(s)
    ensures ActiveHeld(Accepted(s))
  {
    var r := Accepted(s);
    forall m: nat | m < |r.msgs| && Active(r.msgs[m].stage) ensures r.msgs[m].conn.Some? && Waits(r, m) {
      assert Waits(s, m) && MsgLinks(s, s.msgs[m]);
    }
  }

  lemma AcceptOuter(s: State)
    requires OutOk(s) && ServerOk(s) && ReplyOrder(s)
    ensures var r := Accepted(s); OutOk(r) && ServerOk(r) && ReplyOrder(r)
  {
    var r := Accepted(s);
    forall m: nat | m < |r.msgs| && r.msgs[m].stage == Replied ensures InReplies(r, m) {
      assert InReplies(s, m);
    }
    assert ServerOk(r) && ReplyOrder(r) by { hide OutOk; }
    hide ServerOk, ReplyOrder;
    assert OutQueue(r) && OutAll(r) && OutThread(r);
    assert OutSorted(r) by { hide OutBefore, OutThread, OutAll; }
    assert OutBefore(r) by { hide OutSorted, OutThread, OutAll; }
  }

  lemma AcceptStages(s: State)
    requires Links(s) && Stages(s)
    ensures Stages(Accepted(s))
  {
    AcceptActive(s);
    AcceptOuter(s);
    hide OutOk, ServerOk, ReplyOrder, ActiveHeld, Links;
    var r := Accepted(s);
    forall c: nat | c < |r.conns| ensures ConnStages(r, r.conns[c]) {
      assert c < |s.conns| ==> ConnStages(s, s.conns[c]);
    }
    forall f: nat | f < |r.msgs| ensures FlushOk(r, f) {
      assert FlushOk(s, f);
    }
  }

  lemma AcceptPhases(s: State)
    requires Links(s) && Phases(s)
    ensures Phases(Accepted(s))
  {
    var r := Accepted(s);
    forall c: nat | c < |r.conns| ensures Phase(r, c) {
      assert c < |s.conns| ==> Phase(s, c);
    }
  }

  lemma AcceptLogged(s: State)
    requires Logged(s) && AnswersOk(s)
    ensures Logged(Accepted(s)) && AnswersOk(Accepted(s))
  {
    var r := Accepted(s);
    forall i | 0 <= i < |r.answers| ensures AnswerOk(r, r.answers[i]) {
      assert AnswerOk(s, s.answers[i]);
    }
  }

  lemma AcceptInv(s: State, xafid: nat)
    requires Inv(s, xafid)
    ensures Inv(Accepted(s), xafid)
  {
    assert NoFresh(Accepted(s));
    hide Cnt, Links, Stages, Phases, Logged, AnswersOk, NoFresh, Accepted;
    AcceptCnt(s, xafid);
    AcceptLinks(s);
    AcceptStages(s);
    AcceptPhases(s);
    AcceptLogged(s);
  }
}
