/** Who owns a fid: in every run each live fid is one client's, under one number. */
module NinePFids {
  import opened NinePState
  import opened NinePStep
  import opened NinePInv
  import NinePCnt
  import NinePClose
  import opened NinePRun

  // ----- steps that add no entry to a fid table ------------------------------------------

  /** Connection e has no entry that d has not, and is closed only if d is. */
  ghost predicate Less(d: Conn, e: Conn)
  {
    (forall k :: k in e.fid ==> k in d.fid && e.fid[k] == d.fid[k]) && (e.pc.Closed? ==> d.pc.Closed?)
  }

  ghost predicate Within(s: State, r: State)
  {
    |r.conns| == |s.conns| && forall c: nat :: c < |r.conns| ==> Less(s.conns[c], r.conns[c])
  }

  lemma WithinTrans(s: State, r: State, t: State)
    requires Within(s, r) && Within(r, t)
    ensures Within(s, t)
  {
    forall c: nat | c < |t.conns| ensures Less(s.conns[c], t.conns[c]) {
      assert Less(s.conns[c], r.conns[c]) && Less(r.conns[c], t.conns[c]);
    }
  }

  lemma SetConnWithin(s: State, c: nat, v: Conn)
    requires Less(C(s, c), v)
    ensures Within(s, SetConn(s, c, v))
  {
  }

  lemma FidPutConns(s: State, f: Option<nat>)
    ensures FidPutOpt(s, f).conns == s.conns
  {
  }

  lemma FidPutsConns(s: State, o: Msg)
    ensures FidPuts(s, o).conns == s.conns
  {
    hide FidPutOpt;
    FidPutConns(s, o.fid);
    FidPutConns(FidPutOpt(s, o.fid), o.afid);
    FidPutConns(FidPutOpt(FidPutOpt(s, o.fid), o.afid), o.newfid);
  }

  lemma UnlinkWithin(s: State, m: nat)
    ensures Within(s, Unlink(s, m))
  {
    var o := M(s, m);
    if IsMsg(s, m) && o.conn.Some? {
      var s1 := SetMsg(s, m, Unlinked(o));
      SetConnWithin(s1, o.conn.value, C(s1, o.conn.value).(nmsg := C(s1, o.conn.value).nmsg - 1));
    }
  }

  lemma ClearWithin(s: State, m: nat)
    ensures Within(s, MsgClear(s, m))
    decreases Count(s.msgs, HasOldm()), 0
  {
    hide MsgPut, FidPuts, Unlink, Within;
    var o := M(s, m);
    var s1 := Unlink(s, m);
    UnlinkWithin(s, m);
    if o.oldm.Some? {
      PutWithin(s1, o.oldm.value);
      WithinTrans(s, s1, MsgPut(s1, o.oldm.value));
      FidPutsConns(MsgPut(s1, o.oldm.value), o);
      SameConns(s, MsgPut(s1, o.oldm.value), FidPuts(MsgPut(s1, o.oldm.value), o));
    } else {
      FidPutsConns(s1, o);
      SameConns(s, s1, FidPuts(s1, o));
    }
  }

  lemma SameConns(s: State, r: State, t: State)
    requires Within(s, r) && t.conns == r.conns
    ensures Within(s, t)
  {
  }

  lemma Same(s: State, r: State)
    requires r.conns == s.conns
    ensures Within(s, r)
  {
  }

  lemma PutWithin(s: State, m: nat)
    ensures Within(s, MsgPut(s, m))
    decreases Count(s.msgs, HasOldm()), 1
  {
    hide MsgClear, Within;
    if M(s, m).ref > 0 && M(Drop(s, m), m).ref <= 0 {
      var s1 := Fade(Drop(s, m), m);
      Same(s, s1);
      ClearWithin(s1, m);
      WithinTrans(s, s1, MsgClear(s1, m));
      SameConns(s, MsgClear(s1, m), MsgPut(s, m));
    } else {
      Same(s, MsgPut(s, m));
    }
  }

  lemma PutAfter(s: State, r: State, m: nat)
    requires Within(s, r)
    ensures Within(s, MsgPut(r, m))
  {
    hide MsgPut, Within;
    PutWithin(r, m);
    WithinTrans(s, r, MsgPut(r, m));
  }

  lemma TagReleaseAfter(s: State, r: State, m: nat)
    requires Within(s, r)
    ensures Within(s, TagRelease(r, m))
  {
    hide MsgPut, Within;
    var o := M(r, m);
    if o.conn.Some? && o.ctag in C(r, o.conn.value).tag && C(r, o.conn.value).tag[o.ctag] == m {
      var c := o.conn.value;
      SetConnAfter(s, r, c, C(r, c).(tag := C(r, c).tag - {o.ctag}));
      PutAfter(s, TagDel(r, c, o.ctag), m);
    } else {
      SameConns(s, r, TagRelease(r, m));
    }
  }

  lemma SetConnAfter(s: State, r: State, c: nat, v: Conn)
    requires Within(s, r) && Less(C(r, c), v)
    ensures Within(s, SetConn(r, c, v))
  {
    hide Within;
    SetConnWithin(r, c, v);
    WithinTrans(s, r, SetConn(r, c, v));
  }

  lemma FidReleaseAfter(s: State, r: State, c: nat, f: Option<nat>)
    requires Within(s, r)
    ensures Within(s, FidReleaseOpt(r, c, f))
  {
    hide Within;
    if f.Some? && IsFid(r, f.value) {
      var k := r.fids[f.value].cfid;
      if k >= 0 && k in C(r, c).fid && C(r, c).fid[k] == f.value {
        SetConnAfter(s, r, c, C(r, c).(fid := C(r, c).fid - {k}));
        SameConns(s, FidDel(r, c, k), FidReleaseOpt(r, c, f));
      } else {
        SameConns(s, r, FidReleaseOpt(r, c, f));
      }
    } else {
      SameConns(s, r, FidReleaseOpt(r, c, f));
    }
  }

  lemma SettleAfter(s: State, r: State, m: nat)
    requires Within(s, r)
    ensures Within(s, Settle(r, m))
  {
    hide Within, TagRelease, FidReleaseOpt;
    var o := M(r, m);
    if o.conn.Some? {
      var c := o.conn.value;
      FidReleaseAfter(s, r, c, o.fid);
      FidReleaseAfter(s, r, c, o.afid);
      FidReleaseAfter(s, r, c, o.newfid);
      if o.oldm.Some? {
        TagReleaseAfter(s, r, o.oldm.value);
      }
    }
    SameConns(s, r, Faulty(r));
  }

  // ----- the steps ------------------------------------------------------------------------

  lemma EnterWithin(s: State, c: nat, h: Hdr)
    ensures Within(s, Enter(s, c, h).0)
  {
    var (s1, m) := MsgNew(s);
    var s2 := SetMsg(s1, m, Filled(M(s1, m), c, h, |s1.log|));
    Same(s, s2);
    SetConnAfter(s, s2, c, C(s2, c).(nmsg := C(s2, c).nmsg + 1));
  }

  lemma PcAfter(s: State, r: State, c: nat, pc: ConnPc)
    requires Within(s, r) && !pc.Closed?
    ensures Within(s, SetPc(r, c, pc))
  {
    hide Within;
    SetConnAfter(s, r, c, C(r, c).(pc := pc));
  }

  lemma FlushWithin(s: State, c: nat, k: nat)
    ensures Within(s, Flush(s, c, k))
  {
    hide Within, Enter;
    Same(s, Faulty(s));
    if k in C(s, c).tag {
      var om := C(s, c).tag[k];
      var (s1, m) := Enter(IncRef(s, om), c, Hdr(true, FlushTx(k)));
      EnterWithin(IncRef(s, om), c, Hdr(true, FlushTx(k)));
      Same(s, IncRef(s, om));
      WithinTrans(s, IncRef(s, om), s1);
      var s2 := IncRef(SetOldm(s1, m, om), m);
      SameConns(s, s1, s2);
      PcAfter(s, s2, c, FlushWait(om, m));
      SameConns(s, SetPc(s2, c, FlushWait(om, m)), Flush(s, c, k));
    }
  }

  lemma ClunkWithin(s: State, c: nat, k: nat)
    ensures Within(s, Clunk(s, c, k))
  {
    hide Within, Enter;
    Same(s, Faulty(s));
    if k in C(s, c).fid {
      var f := C(s, c).fid[k];
      var (s1, m) := Enter(s, c, Hdr(true, ClunkTx(k)));
      EnterWithin(s, c, Hdr(true, ClunkTx(k)));
      var s2 := IncRef(SetFid(FidInc(s1, f), m, f), m);
      SameConns(s, s1, s2);
      PcAfter(s, s2, c, ClunkWait(k, m));
      SameConns(s, SetPc(s2, c, ClunkWait(k, m)), Clunk(s, c, k));
    }
  }

  lemma ConnTakeWithin(s: State, c: nat)
    ensures Within(s, ConnTake(s, c))
  {
    hide Within, Settle, TagRelease;
    Same(s, Faulty(s));
    var q := C(s, c).outq;
    if q != [] && q[0].Some? {
      var m := q[0].value;
      Same(s, s);
      SetConnAfter(s, s, c, C(s, c).(outq := q[1..], outpc := CWriting(m)));
      SameConns(s, SetConn(s, c, C(s, c).(outq := q[1..], outpc := CWriting(m))), TakeReply(s, c, m));
      SettleAfter(s, TakeReply(s, c, m), m);
      TagReleaseAfter(s, Settle(TakeReply(s, c, m), m), m);
      SameConns(s, TagRelease(Settle(TakeReply(s, c, m), m), m), ConnTake(s, c));
    }
  }

  lemma ConnWrittenWithin(s: State, c: nat)
    ensures Within(s, ConnWritten(s, c))
  {
    hide Within, MsgPut;
    Same(s, Faulty(s));
    var pc := C(s, c).outpc;
    if pc.CWriting? {
      Same(s, s);
      SetConnAfter(s, s, c, C(s, c).(outpc := CIdle));
      SameConns(s, SetConn(s, c, C(s, c).(outpc := CIdle)), LetReply(s, c, pc.m));
      PutAfter(s, LetReply(s, c, pc.m), pc.m);
    }
  }

  lemma ConnNilWithin(s: State, c: nat)
    ensures Within(s, ConnNil(s, c))
  {
    hide Within;
    Same(s, Faulty(s));
    if C(s, c).outq != [] && C(s, c).pc.DeadWait? {
      Same(s, s);
      var v := C(s, c).(outq := C(s, c).outq[1..], outpc := CGone, pc := DeadSeen);
      SetConnAfter(s, s, c, v);
      SameConns(s, SetConn(s, c, v), ConnNil(s, c));
    }
  }

  lemma OutSyncWithin(s: State)
    ensures Within(s, OutSync(s))
  {
    hide Within;
    Same(s, Faulty(s));
    if s.outq != [] && s.outq[0].Sync? && C(s, s.outq[0].c).pc.SyncWait? {
      var c := s.outq[0].c;
      Same(s, s);
      PcAfter(s, s, c, Synced);
      SameConns(s, SetPc(s, c, Synced), OutSync(s));
    }
  }

  lemma OutPutWithin(s: State)
    ensures Within(s, OutPut(s))
  {
    hide Within, MsgPut;
    Same(s, Faulty(s));
    if s.out.OWritten? {
      Same(s, s.(out := OIdle));
      PutAfter(s, s.(out := OIdle), s.out.m);
    }
  }

  lemma FlushDoneWithin(s: State, r: State, c: nat, om: nat, m: nat)
    requires Within(s, r)
    ensures Within(s, FlushDone(r, c, om, m))
  {
    hide Within, MsgPut, TagRelease, SetPc;
    var s1 := SetPc(r, c, Flushing);
    PcAfter(s, r, c, Flushing);
    PutAfter(s, s1, m);
    PutAfter(s, MsgPut(s1, m), m);
    TagReleaseAfter(s, MsgPut(MsgPut(s1, m), m), om);
    PutAfter(s, TagRelease(MsgPut(MsgPut(s1, m), m), om), om);
  }

  lemma ClunkDoneWithin(s: State, r: State, c: nat, k: nat, m: nat)
    requires Within(s, r)
    ensures Within(s, ClunkDone(r, c, k, m))
  {
    hide Within, MsgPut, MsgClear, SetPc;
    SameConns(s, r, Faulty(r));
    if k in C(r, c).fid {
      var s1 := SetPc(r, c, Clunking);
      PcAfter(s, r, c, Clunking);
      ClearWithin(s1, m);
      WithinTrans(s, s1, MsgClear(s1, m));
      PutAfter(s, MsgClear(s1, m), m);
      PutAfter(s, MsgPut(MsgClear(s1, m), m), m);
      var s2 := MsgPut(MsgPut(MsgClear(s1, m), m), m);
      SetConnAfter(s, s2, c, C(s2, c).(fid := C(s2, c).fid - {k}));
      SameConns(s, FidDel(s2, c, k), ClunkDone(r, c, k, m));
    }
  }

  lemma InputWithin(s: State)
    ensures Within(s, Input(s))
  {
    hide Within, MsgPut, FlushDone, ClunkDone, SetConn;
    Same(s, Faulty(s));
    if s.replies != [] {
      Same(s, s.(replies := s.replies[1..]));
      var m := s.replies[0].tag;
      if M(s, m).ref != 0 {
        DeliverWithin(s, Fetch(s, s.replies[0]), m);
      }
    }
  }

  lemma DeliverWithin(s: State, r: State, m: nat)
    requires r.conns == s.conns
    ensures Within(s, Deliver(r, m))
  {
    hide Within, MsgPut, FlushDone, ClunkDone;
    var o := M(r, m);
    Same(s, Faulty(r));
    if o.conn.Some? {
      var c := o.conn.value;
      var d, e := SetStage(r, m, Done), SetStage(r, m, Delivered);
      Same(s, d);
      Same(s, e);
      Same(s, Faulty(d));
      if o.internal {
        SetConnAfter(s, d, c, C(d, c).(internal := Some(m)));
      } else {
        SetConnAfter(s, e, c, C(e, c).(outq := C(e, c).outq + [Some(m)]));
        PutAfter(s, d, m);
      }
    }
  }

  lemma TakeUpWithin(s: State, c: nat)
    ensures Within(s, TakeUp(s, c))
  {
    hide Within, FlushDone, ClunkDone;
    Same(s, Faulty(s));
    if C(s, c).internal.Some? {
      var m := C(s, c).internal.value;
      var r := SetConn(s, c, C(s, c).(internal := None));
      Same(s, s);
      SetConnAfter(s, s, c, C(s, c).(internal := None));
      match C(s, c).pc {
        case FlushWait(om, x) => FlushDoneWithin(s, r, c, om, m);
        case ClunkWait(k, x) => ClunkDoneWithin(s, r, c, k, m);
        case _ =>
      }
    }
  }

  lemma CloseQueueWithin(s: State, c: nat)
    ensures Within(s, CloseQueue(s, c))
  {
    hide Within;
    Same(s, s);
    SetConnAfter(s, s, c, C(s, c).(pc := DeadWait, outq := C(s, c).outq + [None]));
  }

  // ----- a new fid is in no table ----------------------------------------------------------

  /** Each fid is in at most one table, under one number; a closed connection has none. */
  ghost predicate Owned(s: State)
  {
    (forall c: nat, d: nat, k, l :: (c < |s.conns| && d < |s.conns| && k in s.conns[c].fid && l in s.conns[d].fid &&
      s.conns[c].fid[k] == s.conns[d].fid[l]) ==> c == d && k == l) &&
    (forall c: nat :: c < |s.conns| && s.conns[c].pc.Closed? ==> s.conns[c].fid == map[])
  }

  lemma OwnedWithin(s: State, r: State)
    requires Owned(s) && Within(s, r)
    ensures Owned(r)
  {
    forall c: nat, d: nat, k, l | c < |r.conns| && d < |r.conns| && k in r.conns[c].fid && l in r.conns[d].fid &&
    r.conns[c].fid[k] == r.conns[d].fid[l]
      ensures c == d && k == l
    {
      assert Less(s.conns[c], r.conns[c]) && Less(s.conns[d], r.conns[d]);
    }
    forall c: nat | c < |r.conns| && r.conns[c].pc.Closed? ensures r.conns[c].fid == map[] {
      assert Less(s.conns[c], r.conns[c]);
      assert forall k :: k !in r.conns[c].fid;
    }
  }

  ghost predicate InNoTable(s: State, f: nat)
  {
    forall c: nat, k :: c < |s.conns| && k in s.conns[c].fid ==> s.conns[c].fid[k] != f
  }

  lemma NoTableWithin(s: State, r: State, f: nat)
    requires InNoTable(s, f) && Within(s, r)
    ensures InNoTable(r, f)
  {
    forall c: nat, k | c < |r.conns| && k in r.conns[c].fid ensures r.conns[c].fid[k] != f {
      assert Less(s.conns[c], r.conns[c]);
    }
  }

  lemma UnnamedNoTable(s: State, f: nat)
    requires NinePCnt.Unnamed(s, f)
    ensures InNoTable(s, f)
  {
    forall c: nat, k | c < |s.conns| && k in s.conns[c].fid ensures s.conns[c].fid[k] != f {
      if s.conns[c].fid[k] == f {
        CountHas(s.conns, c, TableHas(k, f));
        assert false;
      }
    }
  }

  /** What fidnew can return: a fid of the free list, or one past the table. */
  ghost predicate Unused(s: State, f: nat) { f in s.freef || !IsFid(s, f) }

  lemma UnusedUnnamed(s: State, f: nat, xafid: nat)
    requires Inv(s, xafid) && Unused(s, f)
    ensures NinePCnt.Unnamed(s, f)
  {
    hide FidHeld, NinePCnt.Unnamed, Stages, Phases, Logged, AnswersOk, FreeM, RefM, Counts, MsgLinks, ConnLinks;
    NinePCnt.FidsOkOf(s);
    if IsFid(s, f) {
      NinePCnt.UnnamedFree(s, f);
    } else {
      NinePCnt.UnnamedNew(s, f);
    }
  }

  lemma FidNewUnused(s: State, r: State, cfid: nat, xafid: nat)
    requires r.freef == s.freef && |r.fids| == |s.fids|
    ensures Unused(s, FidNew(r, cfid, xafid).1) && FidNew(r, cfid, xafid).0.conns == r.conns
  {
  }

  /** State r has s's tables and free fids. */
  ghost predicate Early(s: State, r: State) { Within(s, r) && r.freef == s.freef && |r.fids| == |s.fids| }

  lemma AddOwned(s: State, r: State, c: nat, k: nat, f: nat)
    requires Owned(s) && Within(s, r) && InNoTable(s, f) && c < |s.conns| && !s.conns[c].pc.Closed?
    ensures Owned(FidAdd(r, c, k, f))
  {
    OwnedWithin(s, r);
    NoTableWithin(s, r, f);
    assert Less(s.conns[c], r.conns[c]);
  }

  /** The end of a branch: the answer is sent here or the request goes on, and the tables stay. */
  lemma Ends(r: State, m: nat, err: bool)
    ensures Within(r, Local(r, m, err)) && Within(r, Send(r, m))
  {
    Same(r, Send(r, m));
    Same(r, Faulty(r));
    var o := M(r, m);
    if o.conn.Some? {
      var s1 := SetMsg(r, m, o.(err := err, stage := Delivered));
      Same(r, s1);
      SetConnAfter(r, s1, o.conn.value, C(s1, o.conn.value).(outq := C(s1, o.conn.value).outq + [Some(m)]));
    }
  }

  lemma EndsOwned(r: State, m: nat, err: bool)
    requires Owned(r)
    ensures Owned(Local(r, m, err)) && Owned(Send(r, m))
  {
    hide Owned, Within, Local, Send;
    Ends(r, m, err);
    OwnedWithin(r, Local(r, m, err));
    OwnedWithin(r, Send(r, m));
  }

  /** A new fid, remembered in the message and entered in the table unless the number is taken. */
  lemma NewOwned(s: State, r: State, c: nat, cfid: nat, t: State, xafid: nat)
    requires Inv(s, xafid) && Owned(s) && Early(s, r) && c < |s.conns| && !s.conns[c].pc.Closed?
    requires t.conns == r.conns
    ensures var f := FidNew(r, cfid, xafid).1; Owned(t) && Owned(FidAdd(FidInc(t, f), c, cfid, f))
  {
    hide Owned, Within, InNoTable, Unused, Inv, FidNew, FidAdd;
    var f := FidNew(r, cfid, xafid).1;
    FidNewUnused(s, r, cfid, xafid);
    UnusedUnnamed(s, f, xafid);
    UnnamedNoTable(s, f);
    SameConns(s, r, t);
    SameConns(s, r, FidInc(t, f));
    OwnedWithin(s, t);
    AddOwned(s, FidInc(t, f), c, cfid, f);
  }

  lemma RecvFidOwned(r: State, c: nat, m: nat, tx: Tx)
    requires Owned(r)
    ensures Owned(RecvFid(r, c, m, tx)) && Owned(RecvFlush(r, c, m, tx))
  {
    hide Owned, Local, Send;
    EndsOwned(r, m, true);
    EndsOwned(r, m, false);
    if tx.fid in C(r, c).fid {
      var t := SetFid(FidInc(r, C(r, c).fid[tx.fid]), m, C(r, c).fid[tx.fid]);
      OwnedSame(r, t);
      EndsOwned(t, m, true);
    }
    if tx.oldtag in C(r, c).tag {
      var t := SetOldm(r, m, C(r, c).tag[tx.oldtag]);
      OwnedSame(r, t);
      EndsOwned(t, m, true);
    }
  }

  lemma OwnedSame(s: State, r: State)
    requires Owned(s) && r.conns == s.conns
    ensures Owned(r)
  {
  }

  lemma RecvAttachOwned(s: State, r: State, c: nat, m: nat, tx: Tx, xafid: nat)
    requires Inv(s, xafid) && Owned(s) && Early(s, r) && Owned(r) && c < |s.conns| && !s.conns[c].pc.Closed?
    ensures Owned(RecvAttach(r, c, m, tx, xafid))
  {
    hide Owned, Attach, Inv, Within;
    var t := SetTxAfid(r, m, xafid);
    SameConns(s, r, t);
    OwnedSame(r, t);
    AttachOwned(s, r, c, m, tx, xafid);
    AttachOwned(s, t, c, m, tx, xafid);
  }

  lemma AttachOwned(s: State, r: State, c: nat, m: nat, tx: Tx, xafid: nat)
    requires Inv(s, xafid) && Owned(s) && Early(s, r) && Owned(r) && c < |s.conns| && !s.conns[c].pc.Closed?
    ensures Owned(Attach(r, c, m, tx, xafid))
  {
    hide Owned, Local, Send, FidNew, Inv, Within, FidAdd;
    EndsOwned(r, m, true);
    if tx.afid == NOFID || tx.afid in C(r, c).fid {
      var s1 := if tx.afid == NOFID then r else SetAfid(FidInc(r, C(r, c).fid[tx.afid]), m, C(r, c).fid[tx.afid]);
      SameConns(s, r, s1);
      var (s2, f) := FidNew(s1, tx.fid, xafid);
      FidNewUnused(s, s1, tx.fid, xafid);
      var s3 := SetFid(s2, m, f);
      NewOwned(s, s1, c, tx.fid, s3, xafid);
      EndsOwned(s3, m, true);
      EndsOwned(FidAdd(FidInc(s3, f), c, tx.fid, f), m, true);
    }
  }

  lemma RecvWalkOwned(s: State, r: State, c: nat, m: nat, tx: Tx, xafid: nat)
    requires Inv(s, xafid) && Owned(s) && Early(s, r) && Owned(r) && c < |s.conns| && !s.conns[c].pc.Closed?
    ensures Owned(RecvWalk(r, c, m, tx, xafid))
  {
    hide Owned, Local, Send, FidNew, Inv, Within, FidAdd;
    EndsOwned(r, m, true);
    if tx.fid in C(r, c).fid {
      var f := C(r, c).fid[tx.fid];
      var s1 := SetFid(FidInc(r, f), m, f);
      SameConns(s, r, s1);
      var t := SetNewfid(FidInc(s1, f), m, f);
      OwnedSame(r, t);
      EndsOwned(t, m, true);
      var (s2, g) := FidNew(s1, tx.newfid, xafid);
      FidNewUnused(s, s1, tx.newfid, xafid);
      var s3 := SetNewfid(s2, m, g);
      NewOwned(s, s1, c, tx.newfid, s3, xafid);
      EndsOwned(s3, m, true);
      EndsOwned(FidAdd(FidInc(s3, g), c, tx.newfid, g), m, true);
    }
  }

  lemma RecvAuthOwned(s: State, r: State, c: nat, m: nat, tx: Tx, xafid: nat)
    requires Inv(s, xafid) && Owned(s) && Early(s, r) && Owned(r) && c < |s.conns| && !s.conns[c].pc.Closed?
    ensures Owned(RecvAuth(r, c, m, tx, xafid))
  {
    hide Owned, Local, Send, FidNew, Inv, Within, FidAdd;
    EndsOwned(r, m, true);
    var (s1, f) := FidNew(r, tx.afid, xafid);
    FidNewUnused(s, r, tx.afid, xafid);
    var s2 := SetAfid(s1, m, f);
    NewOwned(s, r, c, tx.afid, s2, xafid);
    EndsOwned(s2, m, true);
    EndsOwned(FidAdd(FidInc(s2, f), c, tx.afid, f), m, true);
  }

  lemma RecvOwned(s: State, c: nat, tx: Tx, xafid: nat)
    requires Inv(s, xafid) && Owned(s) && c < |s.conns| && s.conns[c].pc.Reading?
    ensures Owned(Recv(s, c, tx, xafid))
  {
    hide Owned, Local, Send, FidNew, Inv, Within, FidAdd, RecvFid, RecvFlush, RecvAttach, RecvWalk, RecvAuth, Enter;
    var h := Hdr(false, tx);
    var (s1, m) := Enter(s, c, h);
    EnterWithin(s, c, h);
    EnterFids(s, c, h);
    OwnedWithin(s, s1);
    EndsOwned(s1, m, true);
    if tx.tag !in C(s1, c).tag {
      var r := TagAdd(IncRef(s1, m), c, tx.tag, m);
      TagAddEarly(s, s1, c, tx.tag, m);
      OwnedWithin(s, r);
      EndsOwned(r, m, true);
      EndsOwned(r, m, false);
      RecvFidOwned(r, c, m, tx);
      RecvAttachOwned(s, r, c, m, tx, xafid);
      RecvWalkOwned(s, r, c, m, tx, xafid);
      RecvAuthOwned(s, r, c, m, tx, xafid);
    }
    OwnedSame(TakeIn(s, c, tx, xafid), Recv(s, c, tx, xafid));
  }

  lemma MsgNewFids(s: State)
    ensures MsgNew(s).0.freef == s.freef && MsgNew(s).0.fids == s.fids
  {
  }

  lemma EnterFids(s: State, c: nat, h: Hdr)
    ensures Enter(s, c, h).0.freef == s.freef && Enter(s, c, h).0.fids == s.fids
  {
    hide MsgNew, Filled;
    MsgNewFids(s);
  }

  lemma TagAddEarly(s: State, r: State, c: nat, k: nat, m: nat)
    requires Within(s, r) && r.freef == s.freef && r.fids == s.fids
    ensures Early(s, TagAdd(IncRef(r, m), c, k, m))
  {
    hide Within;
    var t := IncRef(r, m);
    SameConns(s, r, t);
    SetConnAfter(s, t, c, C(t, c).(tag := C(t, c).tag[k := m]));
  }

  // ----- every run -------------------------------------------------------------------------

  lemma StepOwned(s: State, step: Step, xafid: nat)
    requires Inv(s, xafid) && Owned(s) && Enabled(s, step)
    ensures Owned(Apply(s, step, xafid))
  {
    hide Owned, Inv, Within, Recv, Flush, Clunk, TakeUp, CloseQueue, ConnTake, ConnWritten, ConnNil, OutPut, OutSync,
      Serve, Input;
    var r := Apply(s, step, xafid);
    match step {
      case SAccept => AcceptOwned(s);
      case SRecv(c, tx) => RecvOwned(s, c, tx, xafid);
      case SEof(c) => Same(s, s); PcAfter(s, s, c, Flushing); OwnedWithin(s, r);
      case SFlush(c, k) => FlushWithin(s, c, k); OwnedWithin(s, r);
      case SFlushed(c) =>
        Same(s, s);
        PcAfter(s, s, c, SyncWait);
        SameConns(s, SetPc(s, c, SyncWait), r);
        OwnedWithin(s, r);
      case STakeUp(c) => TakeUpWithin(s, c); OwnedWithin(s, r);
      case SCloseQueue(c) => CloseQueueWithin(s, c); OwnedWithin(s, r);
      case SDead(c) =>
        Same(s, s);
        PcAfter(s, s, c, Clunking);
        SameConns(s, SetPc(s, c, Clunking), r);
        OwnedWithin(s, r);
      case SClunk(c, k) => ClunkWithin(s, c, k); OwnedWithin(s, r);
      case SClose(c) => CloseOwned(s, c);
      case SConnTake(c) => ConnTakeWithin(s, c); OwnedWithin(s, r);
      case SConnWritten(c) => ConnWrittenWithin(s, c); OwnedWithin(s, r);
      case SConnNil(c) => ConnNilWithin(s, c); OwnedWithin(s, r);
      case SOutTake => OwnedSame(s, r);
      case SOutWrite => OwnedSame(s, r);
      case SOutPut => OutPutWithin(s); OwnedWithin(s, r);
      case SOutSync => OutSyncWithin(s); OwnedWithin(s, r);
      case SServe(t, err, short) => ServeConns(s, t, err, short); OwnedSame(s, r);
      case SInput => InputWithin(s); OwnedWithin(s, r);
    }
  }

  lemma ServeConns(s: State, t: nat, err: bool, short: bool)
    ensures Serve(s, t, err, short).conns == s.conns
  {
  }

  lemma AcceptOwned(s: State)
    requires Owned(s)
    ensures Owned(s.(conns := s.conns + [NEW_CONN]))
  {
  }

  lemma CloseOwned(s: State, c: nat)
    requires Owned(s) && IsConn(s, c) && C(s, c).fid == map[]
    ensures Owned(Close(s, c))
  {
  }

  lemma {:induction false} RunOwned(run: seq<Step>, xafid: nat)
    requires Possible(run, xafid)
    ensures Owned(After(run, xafid))
  {
    hide Inv, Owned, Apply, Enabled;
    if run == [] {
      StartOwned();
    } else {
      var before := run[..|run| - 1];
      RunOwned(before, xafid);
      RunInv(before, xafid);
      StepOwned(After(before, xafid), run[|run| - 1], xafid);
    }
  }

  lemma StartOwned()
    ensures Owned(START)
  {
  }

  /** The fids in clients' tables are all different, across connections too, and none is the
      multiplexer's own. */
  lemma FidsApart(run: seq<Step>, c: nat, k: nat, d: nat, l: nat, xafid: nat)
    requires Possible(run, xafid)
    requires var s := After(run, xafid); c < |s.conns| && d < |s.conns| && k in s.conns[c].fid && l in s.conns[d].fid
    ensures var s := After(run, xafid);
            s.conns[c].fid[k] != xafid && (s.conns[c].fid[k] == s.conns[d].fid[l] <==> c == d && k == l)
  {
    hide After, Possible, Stages, Phases, Logged, AnswersOk, RefM, RefF, FreeM, Counts;
    RunInv(run, xafid);
    RunOwned(run, xafid);
    var s := After(run, xafid);
    assert ConnLinks(s, c);
  }

  /** A fid is on the free list exactly when its count is zero, and then no table and no message has it;
      so its number is given out again only after its last holder has gone. */
  lemma FidsFree(run: seq<Step>, f: nat, xafid: nat)
    requires Possible(run, xafid) && IsFid(After(run, xafid), f)
    ensures var s := After(run, xafid);
            (f in s.freef <==> s.fids[f].ref == 0) && (f in s.freef <==> NinePCnt.Unnamed(s, f))
  {
    hide After, Possible, Stages, Phases, Logged, AnswersOk, RefM, FreeM, Counts, Links;
    RunInv(run, xafid);
    var s := After(run, xafid);
    if f in s.freef {
      UnusedUnnamed(s, f, xafid);
    }
  }

  /** A closed connection has no message and no fid left. */
  lemma ClosedEmpty(run: seq<Step>, c: nat, xafid: nat)
    requires Possible(run, xafid) && c < |After(run, xafid).conns| && After(run, xafid).conns[c].pc.Closed?
    ensures var d := After(run, xafid).conns[c]; d.nmsg == 0 && d.tag == map[] && d.fid == map[] && d.outq == []
    ensures forall m: nat :: m < |After(run, xafid).msgs| ==> After(run, xafid).msgs[m].conn != Some(c)
  {
    hide After, Possible, Cnt, Links, Stages, Logged, AnswersOk;
    RunInv(run, xafid);
    RunOwned(run, xafid);
    var s := After(run, xafid);
    assert Phase(s, c);
    NinePClose.NoMsgsCount(s, c, xafid);
  }
}
