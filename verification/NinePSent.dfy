/** Every run: what the server is asked is what clients asked, in its own fids. */
module NinePSent {
  import opened NinePState
  import opened NinePStep
  import opened NinePInv
  import opened NinePRun
  import opened NinePJoin
  import opened NinePFids
  import opened NinePOpens
  import opened NinePWire
  import NinePHold
  import NinePOwn
  import NinePRecv
  import NinePSettle

  // ----- the multiplexer's own requests --------------------------------------------------

  lemma ViewPc(r: State, t: State, c: nat, m: nat, now: map<nat, nat>, o: Msg, pc: ConnPc)
    requires View(r, t, c, m, now, o)
    ensures View(r, SetPc(t, c, pc), c, m, now, o)
  {
  }

  lemma ViewRef(r: State, t: State, c: nat, m: nat, now: map<nat, nat>, o: Msg)
    requires View(r, t, c, m, now, o)
    ensures View(r, IncRef(t, m), c, m, now, o.(ref := o.ref + 1))
  {
  }

  /** Message m has been made the multiplexer's own request tx. */
  ghost predicate OwnMade(s: State, r: State, c: nat, m: nat, tx: Tx)
  {
    c < |s.conns| && c < |r.conns| && r.conns[c].fid == s.conns[c].fid && m < |r.msgs| && |r.log| == |s.log| + 1 &&
    r.log[|s.log|] == Asked(c, tx, s.conns[c].tag, s.conns[c].fid) && r.msgs[m].kind == tx.kind &&
    r.msgs[m].newfid.None? && r.msgs[m].afid.None?
  }

  lemma FlushMade(s: State, c: nat, k: nat, om: nat, xafid: nat)
    requires Inv(s, xafid) && c < |s.conns| && s.conns[c].pc.Flushing? && Gives(C(s, c).tag, k, om)
    ensures var m, r := NinePOwn.FlushMsg(s, c, k), Flush(s, c, k);
            OwnMade(s, r, c, m, FlushTx(k)) && r.msgs[m].fid.None? && r.msgs[m].oldm == Some(om)
  {
    hide Inv, Ok, NinePHold.K, NinePOwn.Own, Enter, View, IncRef, SetOldm, Send, SetPc;
    NinePOwn.HoldTag(s, c, k, xafid);
    var h, b := Hdr(true, FlushTx(k)), IncRef(s, om);
    IncShape(s, om);
    NinePOwn.OwnEnters(s, b, c, h, multiset{om}, xafid);
    var (r, m) := Enter(b, c, h);
    OwnIn(s, r, c, m);
    EnterShape(b, c, h, m);
    var was, o := r.conns[c].fid, r.msgs[m];
    ViewSelf(r, c, m);
    ViewOldm(r, r, c, m, was, o, om);
    var v := M(IncRef(r, om), m).(oldm := Some(om));
    var t := SetOldm(r, m, om);
    ViewRef(r, t, c, m, was, v);
    ViewPc(r, IncRef(t, m), c, m, was, v.(ref := v.ref + 1), FlushWait(om, m));
    ViewEnds(r, SetPc(IncRef(t, m), c, FlushWait(om, m)), c, m, was, v.(ref := v.ref + 1), true);
    ViewIs(r, Flush(s, c, k), c, m, was, SentMsg(v.(ref := v.ref + 1)));
  }

  lemma ViewIs(r: State, t: State, c: nat, m: nat, now: map<nat, nat>, o: Msg)
    requires View(r, t, c, m, now, o)
    ensures m < |t.msgs| && t.msgs[m] == o && t.log == r.log && c < |t.conns| && t.conns[c].fid == now
  {
  }

  lemma OwnIn(s: State, r: State, c: nat, m: nat)
    requires NinePOwn.Own(s, r, c, m, C(s, c).pc)
    ensures m < |r.msgs| && c < |r.conns| && r.msgs[m].conn == Some(c)
  {
  }

  lemma IncShape(s: State, m: nat)
    requires m < |s.msgs|
    ensures var b := IncRef(s, m); b == s.(msgs := b.msgs) && |b.msgs| == |s.msgs|
    ensures var b := IncRef(s, m); forall x: nat :: x < |s.msgs| ==> b.msgs[x] == s.msgs[x].(ref := b.msgs[x].ref)
  {
  }

  lemma ClunkMade(s: State, c: nat, k: nat, f: nat, xafid: nat)
    requires Inv(s, xafid) && Enabled(s, SClunk(c, k)) && Gives(C(s, c).fid, k, f)
    ensures var m, r := NinePOwn.ClunkMsg(s, c, k), Clunk(s, c, k);
            OwnMade(s, r, c, m, ClunkTx(k)) && r.msgs[m].fid == Some(f) && r.msgs[m].txfid == f
  {
    hide Inv, Ok, NinePHold.K, NinePOwn.Own, Enter, View, IncRef, FidInc, SetFid, Send, SetPc;
    NinePOwn.InvOk(s, xafid);
    var h := Hdr(true, ClunkTx(k));
    NinePOwn.OwnEnters(s, s, c, h, multiset{}, xafid);
    var (r, m) := Enter(s, c, h);
    OwnIn(s, r, c, m);
    EnterShape(s, c, h, m);
    ClunkSteps(r, c, k, m, f);
    var o := r.msgs[m];
    ViewIs(r, Clunk(s, c, k), c, m, r.conns[c].fid, SentMsg(o.(fid := Some(f), ref := o.ref + 1)));
  }

  lemma ClunkSteps(r: State, c: nat, k: nat, m: nat, f: nat)
    requires c < |r.conns| && m < |r.msgs| && r.msgs[m].conn == Some(c)
    ensures var t := Send(SetPc(IncRef(SetFid(FidInc(r, f), m, f), m), c, ClunkWait(k, m)), m);
            View(r, t, c, m, r.conns[c].fid, SentMsg(r.msgs[m].(fid := Some(f), ref := r.msgs[m].ref + 1)))
  {
    hide View, IncRef, FidInc, SetMsg, Send, SetPc;
    var was, o := r.conns[c].fid, r.msgs[m];
    ViewSelf(r, c, m);
    ViewInc(r, r, c, m, was, o, f);
    var v := o.(fid := Some(f));
    ViewSet(r, FidInc(r, f), c, m, was, o, v);
    var t := SetFid(FidInc(r, f), m, f);
    ViewRef(r, t, c, m, was, v);
    ViewPc(r, IncRef(t, m), c, m, was, v.(ref := v.ref + 1), ClunkWait(k, m));
    ViewEnds(r, SetPc(IncRef(t, m), c, ClunkWait(k, m)), c, m, was, v.(ref := v.ref + 1), true);
  }

  lemma OwnNew(s: State, r: State, c: nat, m: nat, tx: Tx, xafid: nat)
    requires Join(s, r, c, m) && OwnMade(s, r, c, m, tx) && Owned(r) && Within(s, r)
    requires tx.kind == Tflush ==>
               r.msgs[m].fid.None? && r.msgs[m].oldm.Some? && Gives(s.conns[c].tag, tx.oldtag, r.msgs[m].oldm.value)
    requires tx.kind != Tflush ==>
               tx.kind == Tclunk && Gives(s.conns[c].fid, tx.fid, r.msgs[m].txfid) &&
               r.msgs[m].fid == Some(r.msgs[m].txfid)
    ensures NewOk(s, r, m, xafid)
  {
    var o, e := r.msgs[m], r.log[|s.log|];
    assert o.conn == Some(c) && o.serial == |s.log|;
    hide Join, Within;
    assert Under(r, e, o) by { assert tx.kind == Tclunk ==> Gives(r.conns[c].fid, tx.fid, o.txfid); }
    hide Owned, Under;
    forall f: nat | Has(o, f) ensures FidFrom(s, c, f) {
      assert Gives(s.conns[c].fid, tx.fid, f);
    }
  }

  lemma WithinTables(s: State, r: State)
    requires Within(s, r)
    ensures TablesNew(s, r)
  {
    hide NotHeld;
    forall c: nat, k | c < |r.conns| && k in r.conns[c].fid ensures Gives(s.conns[c].fid, k, r.conns[c].fid[k]) {
      assert Less(s.conns[c], r.conns[c]);
    }
  }

  lemma FlushWire(s: State, c: nat, k: nat, xafid: nat)
    requires Inv(s, xafid) && Owned(s) && Wire(s, xafid) && Enabled(s, SFlush(c, k))
    ensures Wire(Flush(s, c, k), xafid)
  {
    hide Inv, Owned, Wire, Flush, Enter, Join, NewOk, TablesNew, Within;
    var m, r := NinePOwn.FlushMsg(s, c, k), Flush(s, c, k);
    NinePOwn.FlushInv(s, c, k, xafid);
    FlushMade(s, c, k, s.conns[c].tag[k], xafid);
    FlushWithin(s, c, k);
    OwnedWithin(s, r);
    OwnNew(s, r, c, m, FlushTx(k), xafid);
    WithinTables(s, r);
    StaysJoin(s, r, c, m);
    WireKept(s, r, {m}, false, xafid);
  }

  lemma ClunkWire(s: State, c: nat, k: nat, xafid: nat)
    requires Inv(s, xafid) && Owned(s) && Wire(s, xafid) && Enabled(s, SClunk(c, k))
    ensures Wire(Clunk(s, c, k), xafid)
  {
    hide Inv, Owned, Wire, Clunk, Enter, Join, NewOk, TablesNew, Within;
    var m, r := NinePOwn.ClunkMsg(s, c, k), Clunk(s, c, k);
    NinePOwn.ClunkInv(s, c, k, xafid);
    ClunkMade(s, c, k, s.conns[c].fid[k], xafid);
    ClunkWithin(s, c, k);
    OwnedWithin(s, r);
    OwnNew(s, r, c, m, ClunkTx(k), xafid);
    WithinTables(s, r);
    StaysJoin(s, r, c, m);
    WireKept(s, r, {m}, false, xafid);
  }

  // ----- all other steps -----------------------------------------------------------------

  lemma StaysTrans(s: State, r: State, t: State)
    requires Stays(s, r, {}, false) && Stays(r, t, {}, false)
    ensures Stays(s, t, {}, false)
  {
    forall x: nat | x < |t.msgs| && t.msgs[x].conn.Some? ensures x < |s.msgs| && NearMsg(s.msgs[x], t.msgs[x], false) {
      assert NearMsg(r.msgs[x], t.msgs[x], false) && NearMsg(s.msgs[x], r.msgs[x], false);
    }
  }

  lemma TakeStays(s: State, c: nat, xafid: nat)
    requires Inv(s, xafid) && Enabled(s, SConnTake(c)) && !NilHead(s, c)
    ensures Stays(s, ConnTake(s, c), {}, false)
  {
    hide Inv, ConnTake, NilHead, TakeReply, Stays;
    var m := s.conns[c].outq[0].value;
    ConnTakeNear(s, c, m, xafid);
    HeadPast(s, c, xafid);
    TakeReplyStays(s, c, m);
    StaysTrans(s, TakeReply(s, c, m), ConnTake(s, c));
  }

  lemma HeadPast(s: State, c: nat, xafid: nat)
    requires Inv(s, xafid) && c < |s.conns| && s.conns[c].outq != [] && s.conns[c].outq[0].Some?
    ensures M(s, s.conns[c].outq[0].value).stage == Delivered
  {
    assert ConnStages(s, s.conns[c]);
  }

  lemma TakeReplyStays(s: State, c: nat, m: nat)
    requires Past(M(s, m).stage)
    ensures Stays(s, TakeReply(s, c, m), {}, false)
  {
    hide SetMsg, Stays;
    var v := C(s, c).(outq := if C(s, c).outq == [] then [] else C(s, c).outq[1..], outpc := CWriting(m));
    var s1 := SetConn(s, c, v);
    assert s1.msgs == s.msgs && s1.log == s.log;
    SetStageNear(s1, m, Handling);
    StaysFrom(s, s1, TakeReply(s, c, m));
  }

  lemma StaysFrom(s: State, r: State, t: State)
    requires r.msgs == s.msgs && r.log == s.log && Stays(r, t, {}, false)
    ensures Stays(s, t, {}, false)
  {
  }

  lemma NilStays(s: State, c: nat)
    ensures Stays(s, ConnNil(s, c), {}, false)
  {
  }

  /** Steps that take in nothing leave all messages the requests they were. */
  lemma StepStays(s: State, step: Step, xafid: nat)
    requires Inv(s, xafid) && Enabled(s, step) && !Faulting(s, step) && Newly(s, step) == {}
    ensures Stays(s, Apply(s, step, xafid), {}, step.SInput?)
  {
    hide Inv, ConnTake, ConnNil, Stays, Newly, Apply, NilHead;
    if step.SConnTake? {
      TakeStays(s, step.c, xafid);
      TakeApply(s, step.c, xafid);
    } else if step.SConnNil? {
      NilStays(s, step.c);
      TakeApply(s, step.c, xafid);
    } else {
      StepNear(s, step, xafid);
    }
  }

  lemma TakeApply(s: State, c: nat, xafid: nat)
    ensures Apply(s, SConnTake(c), xafid) == ConnTake(s, c) && Apply(s, SConnNil(c), xafid) == ConnNil(s, c)
  {
    hide ConnTake, ConnNil;
  }

  /** No entry is added to a table but by taking in a request. */
  ghost predicate Fewer(s: State, r: State)
  {
    forall c: nat, k :: c < |r.conns| && k in r.conns[c].fid ==>
      c < |s.conns| && Gives(s.conns[c].fid, k, r.conns[c].fid[k])
  }

  lemma WithinFewer(s: State, r: State)
    requires Within(s, r)
    ensures Fewer(s, r)
  {
    forall c: nat, k | c < |r.conns| && k in r.conns[c].fid ensures Gives(s.conns[c].fid, k, r.conns[c].fid[k]) {
      assert Less(s.conns[c], r.conns[c]);
    }
  }

  lemma SameFewer(s: State, r: State)
    requires r.conns == s.conns
    ensures Fewer(s, r)
  {
  }

  lemma PcFewer(s: State, c: nat, pc: ConnPc, r: State)
    requires r.conns == SetPc(s, c, pc).conns
    ensures Fewer(s, r)
  {
  }

  lemma AcceptFewer(s: State)
    ensures Fewer(s, s.(conns := s.conns + [NEW_CONN]))
  {
  }

  lemma StepFewer(s: State, step: Step, xafid: nat)
    requires Enabled(s, step) && !step.SRecv?
    ensures Fewer(s, Apply(s, step, xafid))
  {
    hide Within, Recv, Flush, Clunk, TakeUp, CloseQueue, ConnTake, ConnWritten, ConnNil, OutPut, OutSync, Serve, Input,
      Fewer;
    var r := Apply(s, step, xafid);
    match step {
      case SAccept => AcceptFewer(s);
      case SEof(c) => PcFewer(s, c, Flushing, r);
      case SFlush(c, k) => FlushWithin(s, c, k); WithinFewer(s, r);
      case SFlushed(c) => PcFewer(s, c, SyncWait, r);
      case STakeUp(c) => TakeUpWithin(s, c); WithinFewer(s, r);
      case SCloseQueue(c) => CloseQueueWithin(s, c); WithinFewer(s, r);
      case SDead(c) => PcFewer(s, c, Clunking, r);
      case SClunk(c, k) => ClunkWithin(s, c, k); WithinFewer(s, r);
      case SClose(c) => PcFewer(s, c, Closed, r);
      case SConnTake(c) => ConnTakeWithin(s, c); WithinFewer(s, r);
      case SConnWritten(c) => ConnWrittenWithin(s, c); WithinFewer(s, r);
      case SConnNil(c) => ConnNilWithin(s, c); WithinFewer(s, r);
      case SOutTake => SameFewer(s, r);
      case SOutWrite => SameFewer(s, r);
      case SOutPut => OutPutWithin(s); WithinFewer(s, r);
      case SOutSync => OutSyncWithin(s); WithinFewer(s, r);
      case SServe(t, err, short) => ServeConns(s, t, err, short); SameFewer(s, r);
      case SInput => InputWithin(s); WithinFewer(s, r);
    }
  }

  lemma FewerTables(s: State, r: State)
    requires Fewer(s, r)
    ensures TablesNew(s, r)
  {
    hide NotHeld, Gives;
  }

  lemma StepWire(s: State, step: Step, xafid: nat)
    requires Inv(s, xafid) && Owned(s) && Wire(s, xafid) && Enabled(s, step) && !Faulting(s, step)
    ensures Wire(Apply(s, step, xafid), xafid)
  {
    hide Inv, Owned, Wire, Recv, Flush, Clunk, TakeUp, CloseQueue, ConnTake, ConnWritten, ConnNil, OutPut, OutSync,
      Serve, Input, Stays, TablesNew, Faulting;
    match step
    case SRecv(c, tx) => RecvWire(s, c, tx, xafid);
    case SFlush(c, k) => FlushWire(s, c, k, xafid);
    case SClunk(c, k) => ClunkWire(s, c, k, xafid);
    case _ =>
      StepStays(s, step, xafid);
      StepFewer(s, step, xafid);
      FewerTables(s, Apply(s, step, xafid));
      WireKept(s, Apply(s, step, xafid), {}, step.SInput?, xafid);
  }

  lemma {:induction false} RunWire(run: seq<Step>, xafid: nat)
    requires Possible(run, xafid)
    ensures Wire(After(run, xafid), xafid)
  {
    hide Inv, Owned, Apply, Enabled, Wire, Faulting;
    if run == [] {
      StartWire(xafid);
    } else {
      var before := run[..|run| - 1];
      RunWire(before, xafid);
      RunInv(before, xafid);
      RunOwned(before, xafid);
      StepWire(After(before, xafid), run[|run| - 1], xafid);
    }
  }

  lemma StartWire(xafid: nat)
    ensures Wire(START, xafid)
  {
  }
}
