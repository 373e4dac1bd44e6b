/** Every run of the multiplexer: what holds after every step, from the start. */
module NinePRun {
  import opened NinePState
  import opened NinePStep
  import opened NinePInv
  import opened NinePMove
  import opened NinePTurn
  import opened NinePSettle
  import opened NinePWake
  import opened NinePCut
  import opened NinePEnter
  import NinePOut
  import NinePOwn
  import NinePRecv
  import NinePClose
  import NinePHold
  import NinePCnt

  // ----- a reply from the server ---------------------------------------------------------

  lemma FetchKeeps(s: State, q: Reply)
    requires q.tag < |s.msgs| && s.msgs[q.tag].conn.Some? && Waits(s, q.tag)
    ensures var r := Fetch(s, q); var m := q.tag; var c := s.msgs[m].conn.value;
      m < |r.msgs| && r.msgs[m].conn == Some(c) && r.msgs[m].internal == s.msgs[m].internal &&
      r.msgs[m].stage == Fetched && Waits(r, m)
  {
  }

  /** A client whose request is in the tag table still reads or is being flushed. */
  lemma TaggedOpen(s: State, m: nat)
    requires Life(s) && m < |s.msgs| && s.msgs[m].conn.Some? && !s.msgs[m].internal && Waits(s, m)
    ensures var c := s.msgs[m].conn.value; c < |s.conns| && !Flushed?(s.conns[c].pc) && !s.conns[c].outpc.CGone?
  {
    assert MsgLinks(s, s.msgs[m]);
    assert Phase(s, s.msgs[m].conn.value);
  }

  lemma ClientInput(s: State, m: nat, xafid: nat)
    requires Ok(s, multiset{m}, multiset{}, xafid) && NoFresh(s) && m < |s.msgs| && s.msgs[m].conn.Some? &&
             !s.msgs[m].internal
    requires s.msgs[m].stage == Fetched && Waits(s, m)
    ensures Inv(Deliver(s, m), xafid)
  {
    hide Cnt, Life;
    TaggedOpen(s, m);
    var c := s.msgs[m].conn.value;
    PushOk(s, c, m, xafid);
    assert Deliver(s, m) == Push(s, c, m);
    assert NoFresh(Push(s, c, m));
  }

  lemma StageNoFresh(s: State, m: nat, g: Stage)
    requires NoFresh(s) && !g.Fresh?
    ensures NoFresh(SetStage(s, m, g))
  {
  }

  lemma PcNoFresh(s: State, c: nat, pc: ConnPc)
    requires NoFresh(s)
    ensures NoFresh(SetPc(s, c, pc))
  {
  }

  lemma ClunkWaiting(s: State, c: nat, m: nat)
    requires Life(s) && c < |s.conns| && m < |s.msgs| && s.conns[c].pc.ClunkWait? && s.conns[c].pc.m == m
    requires s.msgs[m].stage == Done && s.conns[c].internal.None?
    ensures Waiting(s, c, s.conns[c].pc.k, m)
  {
    assert ConnLinks(s, c);
  }

  lemma FlushAnswered(s: State, c: nat, om: nat, m: nat, xafid: nat)
    requires Ok(s, multiset{m}, multiset{}, xafid) && NoFresh(s) && c < |s.conns| && m < |s.msgs|
    requires s.conns[c].pc == FlushWait(om, m) && s.msgs[m].stage == Done && s.conns[c].internal.None?
    ensures Inv(FlushDone(s, c, om, m), xafid)
  {
    hide Ok, NoFresh, FlushDone, Calm, SetPc;
    FlushDoneOk(s, c, om, m, xafid);
    PcNoFresh(s, c, Flushing);
    CalmNoFresh(SetPc(s, c, Flushing), FlushDone(s, c, om, m));
  }

  lemma ClunkAnswered(s: State, c: nat, k: nat, m: nat, xafid: nat)
    requires Ok(s, multiset{m}, multiset{}, xafid) && NoFresh(s) && c < |s.conns| && m < |s.msgs|
    requires s.conns[c].pc == ClunkWait(k, m) && s.msgs[m].stage == Done && s.conns[c].internal.None?
    ensures Inv(ClunkDone(s, c, k, m), xafid)
  {
    hide Ok, Life, NoFresh, ClunkDone, Waiting;
    OkLife(s, multiset{m}, multiset{}, xafid);
    ClunkWaiting(s, c, m);
    ClunkDoneOk(s, c, k, m, xafid);
  }

  // ----- a reply on its way from thread to thread --------------------------------------------

  function WithInternal(s: State, c: nat, v: Option<nat>): State { SetConn(s, c, C(s, c).(internal := v)) }

  lemma InternalDone(s: State, c: nat, v: Option<nat>)
    requires Life(s) && c < |s.conns|
    requires v.Some? ==>
               (s.conns[c].pc.FlushWait? || s.conns[c].pc.ClunkWait?) && s.conns[c].pc.m == v.value &&
               M(s, v.value).stage == Done
    ensures ConnDone(s, WithInternal(s, c, v), c)
  {
    hide Life;
    OwnPart(s, c);
    var r := WithInternal(s, c, v);
    assert ConnMoved(s, r, c) && ConnStages(r, r.conns[c]) && SyncsOk(r) && Phase(r, c);
    hide ConnMoved, ConnStages, ConnLinks, SyncsOk, Phase;
    forall x: nat | x < |r.msgs| && Active(r.msgs[x].stage) && r.msgs[x].conn == Some(c) ensures Waits(r, x) {
      assert Waits(s, x);
    }
  }

  lemma InternalDelta(s: State, c: nat, m: nat)
    requires c < |s.conns| && m < |s.msgs| && s.msgs[m].conn == Some(c) && s.conns[c].internal.None?
    ensures NinePCnt.ConnDelta(s, c, s.conns[c].(internal := Some(m)), multiset{m}, multiset{})
    ensures var r := WithInternal(s, c, Some(m));
            NinePCnt.ConnDelta(r, c, r.conns[c].(internal := None), multiset{}, multiset{m})
  {
  }

  lemma InternalOk(s: State, c: nat, v: Option<nat>, xm: multiset<nat>, xm': multiset<nat>, xafid: nat)
    requires Ok(s, xm, multiset{}, xafid) && c < |s.conns| && (forall x :: x in xm' ==> x < |s.msgs|)
    requires v.Some? ==>
               (s.conns[c].pc.FlushWait? || s.conns[c].pc.ClunkWait?) && s.conns[c].pc.m == v.value &&
               M(s, v.value).stage == Done
    requires NinePCnt.ConnDelta(s, c, s.conns[c].(internal := v), xm, xm')
    ensures Ok(WithInternal(s, c, v), xm', multiset{}, xafid)
  {
    hide Cnt, Life, ConnDone, Quiet, NinePCnt.ConnDelta, NinePCnt.TableDelta;
    InternalDone(s, c, v);
    QuietRefl(s, c);
    var d := s.conns[c].(internal := v);
    SameFids(s, c, d, multiset{});
    CntRange(s, xm, multiset{}, {}, xafid);
    NinePCnt.ConnChange(s, c, d, xm, xm', multiset{}, multiset{}, {}, xafid);
    QuietOk(s, WithInternal(s, c, v), c, xm, xm', multiset{}, xafid);
  }

  lemma InternalNoFresh(s: State, c: nat, v: Option<nat>)
    requires NoFresh(s)
    ensures NoFresh(WithInternal(s, c, v))
  {
  }

  /** A thread that waits for a reply has not been handed one yet. */
  lemma NoneHanded(s: State, c: nat, m: nat)
    requires Life(s) && c < |s.conns| && m < |s.msgs| && s.msgs[m].stage == Fetched
    requires (s.conns[c].pc.FlushWait? || s.conns[c].pc.ClunkWait?) && s.conns[c].pc.m == m
    ensures s.conns[c].internal.None? && s.msgs[m].conn == Some(c)
  {
    assert ConnLinks(s, c) && ConnStages(s, s.conns[c]);
  }

  /** The reply is handed over, with the reference to it; the thread that waits runs later. */
  lemma WakeInv(s: State, c: nat, m: nat, xafid: nat)
    requires Ok(s, multiset{m}, multiset{}, xafid) && NoFresh(s) && c < |s.conns| && m < |s.msgs| &&
             s.msgs[m].conn == Some(c)
    requires (s.conns[c].pc.FlushWait? || s.conns[c].pc.ClunkWait?) && s.conns[c].pc.m == m && s.msgs[m].stage == Done
    requires s.conns[c].internal.None?
    ensures Inv(Wake(s, c, m), xafid)
  {
    hide Ok, NoFresh, NinePCnt.ConnDelta;
    InternalDelta(s, c, m);
    InternalOk(s, c, Some(m), multiset{m}, multiset{}, xafid);
    InternalNoFresh(s, c, Some(m));
    assert Wake(s, c, m) == WithInternal(s, c, Some(m));
  }

  lemma Handed(s: State, c: nat)
    requires Life(s) && c < |s.conns| && s.conns[c].internal.Some?
    ensures (s.conns[c].pc.FlushWait? || s.conns[c].pc.ClunkWait?) && s.conns[c].pc.m == s.conns[c].internal.value
    ensures var m := s.conns[c].internal.value; m < |s.msgs| && s.msgs[m].conn == Some(c) && s.msgs[m].stage == Done
  {
    assert ConnLinks(s, c) && ConnStages(s, s.conns[c]);
  }

  /** The thread runs with the reply it was handed, which is the one it waits for. */
  lemma TakeUpInv(s: State, c: nat, xafid: nat)
    requires Inv(s, xafid) && Enabled(s, STakeUp(c))
    ensures Inv(TakeUp(s, c), xafid)
  {
    hide Cnt, Life, NoFresh, NinePCnt.ConnDelta, FlushDone, ClunkDone;
    Handed(s, c);
    var m := s.conns[c].internal.value;
    var s1 := WithInternal(s, c, None);
    assert s == WithInternal(s1, c, Some(m));
    InternalDelta(s1, c, m);
    InternalOk(s, c, None, multiset{}, multiset{m}, xafid);
    InternalNoFresh(s, c, None);
    hide Ok, Inv;
    match s.conns[c].pc {
      case FlushWait(om, x) => FlushAnswered(s1, c, om, m, xafid);
      case ClunkWait(k, x) => ClunkAnswered(s1, c, k, m, xafid);
    }
  }

  lemma OwnInput(s: State, m: nat, xafid: nat)
    requires Ok(s, multiset{m}, multiset{}, xafid) && NoFresh(s) && m < |s.msgs| && s.msgs[m].conn.Some? &&
             s.msgs[m].internal
    requires s.msgs[m].stage == Fetched && Waits(s, m)
    ensures Inv(Deliver(s, m), xafid)
  {
    OkLife(s, multiset{m}, multiset{}, xafid);
    hide Ok, Life, NoFresh, Wake;
    MsgConn(s, m);
    var c := s.msgs[m].conn.value;
    NoneHanded(s, c, m);
    DoneOk(s, c, m, xafid);
    StageNoFresh(s, m, Done);
    WakeInv(SetStage(s, m, Done), c, m, xafid);
  }

  /** The message a reply is for is there, and whoever asked gets it. */
  lemma InputInv(s: State, xafid: nat)
    requires Inv(s, xafid) && Enabled(s, SInput)
    ensures Inv(Input(s), xafid)
  {
    hide Inv, Ok, NoFresh, Deliver;
    NinePOut.FetchOk(s, xafid);
    FetchKeeps(s, s.replies[0]);
    var r := Fetch(s, s.replies[0]);
    var m := s.replies[0].tag;
    if r.msgs[m].internal {
      OwnInput(r, m, xafid);
    } else {
      ClientInput(r, m, xafid);
    }
  }

  // ----- runs ----------------------------------------------------------------------------

  lemma StartInv(xafid: nat)
    ensures Inv(START, xafid)
  {
  }

  /** The step that follows a nil pointer: a reply to an open or create without a fid is taken. */
  predicate Faulting(s: State, step: Step) { step.SConnTake? && NilHead(s, step.c) }

  /** Every step of every thread keeps the invariant, but for the one that faults. */
  lemma StepInv(s: State, step: Step, xafid: nat)
    requires Inv(s, xafid) && Enabled(s, step) && !Faulting(s, step)
    ensures Inv(Apply(s, step, xafid), xafid)
  {
    hide Inv, Recv, Flush, Flushed, TakeUp, CloseQueue, Dead, Clunk, Close, ConnTake, ConnWritten, ConnNil, OutTake,
      OutWrite, OutPut, OutSync, Serve, Input;
    match step
    case SAccept => NinePClose.AcceptInv(s, xafid);
    case SRecv(c, tx) => NinePRecv.RecvInv(s, c, tx, xafid);
    case SEof(c) => NinePClose.EofInv(s, c, xafid);
    case SFlush(c, k) => NinePOwn.FlushInv(s, c, k, xafid);
    case SFlushed(c) => NinePClose.FlushedInv(s, c, xafid);
    case STakeUp(c) => TakeUpInv(s, c, xafid);
    case SCloseQueue(c) => NinePClose.CloseQueueInv(s, c, xafid);
    case SDead(c) => NinePClose.DeadInv(s, c, xafid);
    case SClunk(c, k) => NinePOwn.ClunkInv(s, c, k, xafid);
    case SClose(c) => NinePClose.CloseInv(s, c, xafid);
    case SConnTake(c) => ConnTakeInv(s, c, xafid);
    case SConnWritten(c) => ConnWrittenInv(s, c, xafid);
    case SConnNil(c) => NinePClose.ConnNilInv(s, c, xafid);
    case SOutTake => NinePOut.OutTakeInv(s, xafid);
    case SOutWrite => NinePOut.OutWriteInv(s, xafid);
    case SOutPut => NinePOut.OutPutInv(s, xafid);
    case SOutSync => NinePClose.OutSyncInv(s, xafid);
    case SServe(t, err, short) => NinePOut.ServeInv(s, t, err, short, xafid);
    case SInput => InputInv(s, xafid);
  }

  /** The state after the steps of a run. */
  function After(run: seq<Step>, xafid: nat): State
  {
    if run == [] then START else Apply(After(run[..|run| - 1], xafid), run[|run| - 1], xafid)
  }

  /** Every step of the run could be taken when it was, and none took a reply without a fid. */
  predicate Possible(run: seq<Step>, xafid: nat)
  {
    run == [] ||
    (var s, step := After(run[..|run| - 1], xafid), run[|run| - 1];
     Possible(run[..|run| - 1], xafid) && Enabled(s, step) && !Faulting(s, step))
  }

  lemma {:induction false} RunInv(run: seq<Step>, xafid: nat)
    requires Possible(run, xafid)
    ensures Inv(After(run, xafid), xafid)
  {
    hide Inv, Apply;
    if run == [] {
      StartInv(xafid);
    } else {
      RunInv(run[..|run| - 1], xafid);
      StepInv(After(run[..|run| - 1], xafid), run[|run| - 1], xafid);
    }
  }

  // ----- what it comes to ----------------------------------------------------------------

  /** No assertion of the program fails and no nil pointer is followed. */
  lemma NeverFaults(run: seq<Step>, xafid: nat)
    requires Possible(run, xafid)
    ensures !After(run, xafid).fault
  {
    hide After, Possible;
    RunInv(run, xafid);
  }

  /** Counts are exact: of a message, the table entry, queue places, threads and flushes that hold it;
      of a fid, the table entries and messages that hold it. */
  lemma CountsExact(run: seq<Step>, xafid: nat)
    requires Possible(run, xafid)
    ensures var s := After(run, xafid);
      (forall m: nat :: m < |s.msgs| ==> s.msgs[m].ref == Held(s, m)) &&
      (forall f: nat :: IsFid(s, f) ==> s.fids[f].ref == FidHeld(s, f))
  {
    hide After, Possible, Held, FidHeld;
    RunInv(run, xafid);
  }

  /** What is on the free list nobody can reach, and what nobody can reach is on it. */
  lemma FreeUnreachable(run: seq<Step>, m: nat, xafid: nat)
    requires Possible(run, xafid) && m < |After(run, xafid).msgs|
    ensures var s := After(run, xafid); (m in s.freem <==> Unreferenced(s, m)) && (m in s.freem <==> s.msgs[m].ref == 0)
  {
    hide After, Possible, Unreferenced, Life;
    RunInv(run, xafid);
    var s := After(run, xafid);
    FreeParts(s, m, xafid);
    NinePOut.LifeParts(s);
    hide Cnt, Links, OutOk, RefM, Clean;
    if s.msgs[m].ref == 0 {
      UnreferencedFree(s, m, multiset{});
    }
    if Unreferenced(s, m) {
      RefIs(s, m);
    }
  }

  lemma FreeParts(s: State, m: nat, xafid: nat)
    requires Cnt(s, multiset{}, multiset{}, {}, xafid) && m < |s.msgs|
    ensures RefM(s, multiset{}) && (s.msgs[m].ref == 0 ==> Clean(s.msgs[m])) && (m in s.freem <==> s.msgs[m].ref == 0)
  {
  }

  lemma RefIs(s: State, m: nat)
    requires RefM(s, multiset{}) && m < |s.msgs| && Unreferenced(s, m) && Links(s)
    ensures s.msgs[m].ref == 0
  {
    assert MsgLinks(s, s.msgs[m]);
    assert s.msgs[m].ref == Held(s, m) + multiset{}[m];
    if s.msgs[m].conn.Some? {
      assert ConnHolds(s.conns[s.msgs[m].conn.value], s.msgs[m].ctag, m) == 0;
    }
  }

  /** A tag the server may still answer under has not been given to another request. */
  lemma TagsNotReused(run: seq<Step>, xafid: nat)
    requires Possible(run, xafid)
    ensures var s := After(run, xafid);
      (forall t :: t in s.pend ==> t < |s.msgs| && s.msgs[t].ref > 0 && s.msgs[t].serial == s.pend[t].serial) &&
      (forall i ::
        0 <= i < |s.replies| ==> var q := s.replies[i];
        q.tag < |s.msgs| && s.msgs[q.tag].ref > 0 && s.msgs[q.tag].serial == q.serial)
  {
    hide After, Possible, Life;
    RunInv(run, xafid);
    var s := After(run, xafid);
    NinePOut.LifeParts(s);
    hide Cnt, Links, OutOk, ActiveHeld, ReplyOrder, SyncsOk, Logged, FlushOk;
    forall t | t in s.pend ensures s.msgs[t].ref > 0 {
      NinePOut.ActiveLive(s, t, multiset{}, multiset{}, xafid);
    }
    forall i | 0 <= i < |s.replies| ensures s.msgs[s.replies[i].tag].ref > 0 {
      NinePOut.ActiveLive(s, s.replies[i].tag, multiset{}, multiset{}, xafid);
    }
  }

  /** Every reply a client gets answers one of its own requests, under the tag it gave it, and no
      request is answered twice. */
  lemma AnswersRight(run: seq<Step>, xafid: nat)
    requires Possible(run, xafid)
    ensures var s := After(run, xafid);
      (forall i ::
        0 <= i < |s.answers| ==> var a := s.answers[i];
        a.serial < |s.log| && s.log[a.serial].c == a.c && s.log[a.serial].tx.tag == a.tag) &&
      (forall i, j :: 0 <= i < j < |s.answers| ==> s.answers[i].serial != s.answers[j].serial)
  {
    hide After, Possible, Cnt, Links, Stages, Phases, Logged;
    RunInv(run, xafid);
    var s := After(run, xafid);
    forall i | 0 <= i < |s.answers|
      ensures AnswerOk(s, s.answers[i])
    {
      assert AnswerOk(s, s.answers[i]);
    }
  }

  /** Once the reply to a flush has been read, the request it names is not with the server any more,
      nor on the way to it or from it. */
  lemma FlushEnds(run: seq<Step>, f: nat, om: nat, xafid: nat)
    requires Possible(run, xafid) && f < |After(run, xafid).msgs|
    requires After(run, xafid).msgs[f].oldm == Some(om) && Answered(After(run, xafid).msgs[f].stage)
    ensures var s := After(run, xafid); om < |s.msgs| && !Active(s.msgs[om].stage) && om !in s.pend
  {
    hide After, Possible, Life, Cnt;
    RunInv(run, xafid);
    var s := After(run, xafid);
    NinePOut.LifeParts(s);
    assert MsgLinks(s, s.msgs[f]) && FlushOk(s, f);
  }

  // ----- why opens must pass the checks --------------------------------------------------

  lemma FidPutsFault(s: State, o: Msg)
    requires s.fault
    ensures FidPuts(s, o).fault
  {
  }

  lemma {:induction false} PutFault(s: State, m: nat)
    requires s.fault
    ensures MsgPut(s, m).fault
    decreases Count(s.msgs, HasOldm())
  {
    if M(s, m).ref > 0 && M(Drop(s, m), m).ref <= 0 {
      var s1 := Fade(Drop(s, m), m);
      var o := M(s1, m);
      var s2 := Unlink(s1, m);
      assert s2.fault;
      if o.oldm.Some? {
        PutFault(s2, o.oldm.value);
        FidPutsFault(MsgPut(s2, o.oldm.value), o);
      } else {
        FidPutsFault(s2, o);
      }
    }
  }

  lemma TagReleaseFault(s: State, m: nat)
    requires s.fault
    ensures TagRelease(s, m).fault
  {
    hide MsgPut;
    var o := M(s, m);
    if o.conn.Some? && o.ctag in C(s, o.conn.value).tag && C(s, o.conn.value).tag[o.ctag] == m {
      PutFault(TagDel(s, o.conn.value, o.ctag), m);
    }
  }

  /** A reply to an open or create without a fid is taken: the nil fid is followed. */
  lemma NilTake(s: State, c: nat, xafid: nat)
    requires Inv(s, xafid) && Enabled(s, SConnTake(c)) && NilHead(s, c)
    ensures ConnTake(s, c).fault
  {
    hide Inv, TagRelease;
    HeadIs(s, c, xafid);
    var m := s.conns[c].outq[0].value;
    var s1 := TakeReply(s, c, m);
    assert Settle(s1, m).fault;
    TagReleaseFault(Settle(s1, m), m);
  }

  /** From any state that a run without fault reaches, a step faults if and only if it takes such a reply. */
  lemma FaultExact(run: seq<Step>, step: Step, xafid: nat)
    requires Possible(run, xafid) && Enabled(After(run, xafid), step)
    ensures Apply(After(run, xafid), step, xafid).fault <==> Faulting(After(run, xafid), step)
  {
    hide After, Possible, Inv, ConnTake;
    RunInv(run, xafid);
    var s := After(run, xafid);
    if Faulting(s, step) {
      NilTake(s, step.c, xafid);
    } else {
      StepInv(s, step, xafid);
      InvFault(Apply(s, step, xafid), xafid);
    }
  }

  lemma InvFault(s: State, xafid: nat)
    requires Inv(s, xafid)
    ensures !s.fault
  {
    hide Life;
  }
}
