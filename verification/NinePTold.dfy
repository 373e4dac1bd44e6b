/** The log is what was asked, and the server is asked the same, in every run. */
module NinePTold {
  import opened NinePState
  import opened NinePStep
  import opened NinePInv
  import opened NinePRun
  import opened NinePJoin
  import opened NinePFids
  import opened NinePOpens
  import opened NinePWire
  import opened NinePSent
  import NinePOwn
  import NinePRecv

  // ----- the log -------------------------------------------------------------------------

  /** What a step from s to r asks: a client's request with the tables as they are when it has been taken in, or one
      of the multiplexer's own. */
  function Asks(s: State, step: Step, r: State): seq<Asked>
  {
    match step
    case SRecv(c, tx) => [Asked(c, tx, C(r, c).tag, C(r, c).fid)]
    case SFlush(c, k) => [Asked(c, FlushTx(k), C(s, c).tag, C(s, c).fid)]
    case SClunk(c, k) => [Asked(c, ClunkTx(k), C(s, c).tag, C(s, c).fid)]
    case _ => []
  }

  lemma JoinLog(s: State, r: State, c: nat, m: nat)
    requires Join(s, r, c, m)
    ensures |r.log| == |s.log| + 1 && s.log <= r.log
  {
  }

  lemma RecvLog(s: State, c: nat, tx: Tx, xafid: nat)
    requires Inv(s, xafid) && Enabled(s, SRecv(c, tx))
    ensures var r := Recv(s, c, tx, xafid); r.log == s.log + [Asked(c, tx, C(r, c).tag, C(r, c).fid)]
  {
    hide Inv, Recv, Enter, Shape, Grown;
    RecvTook(s, c, tx, xafid);
  }

  lemma FlushLog(s: State, c: nat, k: nat, xafid: nat)
    requires Inv(s, xafid) && Enabled(s, SFlush(c, k))
    ensures Flush(s, c, k).log == s.log + [Asked(c, FlushTx(k), C(s, c).tag, C(s, c).fid)]
  {
    hide Inv, Flush, Enter, Join;
    FlushMade(s, c, k, C(s, c).tag[k], xafid);
    NinePOwn.FlushInv(s, c, k, xafid);
    JoinLog(s, Flush(s, c, k), c, NinePOwn.FlushMsg(s, c, k));
  }

  lemma ClunkLog(s: State, c: nat, k: nat, xafid: nat)
    requires Inv(s, xafid) && Enabled(s, SClunk(c, k))
    ensures Clunk(s, c, k).log == s.log + [Asked(c, ClunkTx(k), C(s, c).tag, C(s, c).fid)]
  {
    hide Inv, Clunk, Enter, Join;
    ClunkMade(s, c, k, C(s, c).fid[k], xafid);
    NinePOwn.ClunkInv(s, c, k, xafid);
    JoinLog(s, Clunk(s, c, k), c, NinePOwn.ClunkMsg(s, c, k));
  }

  /** Every step logs what it asks, and nothing else. */
  lemma StepLog(s: State, step: Step, xafid: nat)
    requires Inv(s, xafid) && Enabled(s, step) && !Faulting(s, step)
    ensures var r := Apply(s, step, xafid); r.log == s.log + Asks(s, step, r)
  {
    hide Inv, Recv, Flush, Clunk, TakeUp, CloseQueue, ConnTake, ConnWritten, ConnNil, OutPut, OutSync, Serve, Input,
      Faulting;
    match step
    case SRecv(c, tx) => RecvLog(s, c, tx, xafid);
    case SFlush(c, k) => FlushLog(s, c, k, xafid);
    case SClunk(c, k) => ClunkLog(s, c, k, xafid);
    case _ => StepStays(s, step, xafid);
  }

  /** Entry e was logged by step i of the run. */
  ghost predicate Told(run: seq<Step>, i: nat, e: Asked, xafid: nat)
  {
    i < |run| && e in Asks(After(run[..i], xafid), run[i], After(run[..i + 1], xafid))
  }

  lemma {:induction false} LogTold(run: seq<Step>, n: nat, xafid: nat) returns (i: nat)
    requires Possible(run, xafid) && n < |After(run, xafid).log|
    ensures Told(run, i, After(run, xafid).log[n], xafid)
  {
    hide Inv, Apply, Enabled, Faulting, Asks;
    var k := |run| - 1;
    var before := run[..k];
    var s := After(before, xafid);
    RunInv(before, xafid);
    StepLog(s, run[k], xafid);
    if n < |s.log| {
      i := LogTold(before, n, xafid);
      assert before[..i] == run[..i] && before[..i + 1] == run[..i + 1];
    } else {
      i := k;
      assert run[..k + 1] == run;
    }
  }

  // ----- what goes on ----------------------------------------------------------------------

  lemma TagAddTags(s: State, c: nat, k: nat, m: nat)
    ensures var b := TagAdd(IncRef(s, m), c, k, m); C(b, c).fid == C(s, c).fid
    ensures var b := TagAdd(IncRef(s, m), c, k, m); forall l :: l != k ==> (l in C(b, c).tag <==> l in C(s, c).tag)
    ensures Noted(s, c).msgs == s.msgs
  {
  }

  lemma LocalStage(s: State, m: nat)
    requires m < |s.msgs| && s.msgs[m].conn.Some?
    ensures m < |Local(s, m, true).msgs| && Local(s, m, true).msgs[m].stage == Delivered
  {
  }

  /** A request goes on to the server exactly when its tag is new and the tables have what it names and lack what it
      makes; otherwise it is answered here, with an error unless it is a version, or a flush of nothing. */
  lemma PassedOn(s: State, c: nat, tx: Tx, xafid: nat) returns (m: nat)
    requires Inv(s, xafid) && Enabled(s, SRecv(c, tx))
    ensures var r := Recv(s, c, tx, xafid);
      m < |r.msgs| && r.msgs[m].conn == Some(c) && r.msgs[m].serial == |s.log| &&
      (r.msgs[m].stage == Queued <==> tx.tag !in C(s, c).tag && GoesOn(C(s, c).tag, C(s, c).fid, tx)) &&
      (r.msgs[m].stage != Queued ==>
        Some(m) in C(r, c).outq && (r.msgs[m].err || tx.kind in {Tflush, Tversion}))
  {
    hide Inv, Enter, Dispatch, TagAdd, IncRef, Base, Local, Shaped, Noted, Goes, Join, Shape, Grown, GoesOn;
    m := Enter(s, c, Hdr(false, tx)).1;
    RecvTook(s, c, tx, xafid);
    NinePRecv.RecvInv(s, c, tx, xafid);
    var r := Recv(s, c, tx, xafid);
    JoinQueue(s, r, c, m);
    ShapeErr(s, r, c, m, xafid);
    EnterBase(s, c, tx, xafid);
    var s1 := Enter(s, c, Hdr(false, tx)).0;
    EnterTags(s, c, Hdr(false, tx), m, s1, tx);
    TagAddTags(TakeIn(s, c, tx, xafid), c, 0, 0);
    if tx.tag in C(s1, c).tag {
      BaseEntered(s, s1, c, m, tx);
      LocalStage(s1, m);
    } else {
      var b := TagAdd(IncRef(s1, m), c, tx.tag, m);
      BaseEntered(s, b, c, m, tx);
      DispatchShaped(b, c, m, tx, xafid);
      TagAddTags(s1, c, tx.tag, m);
      GoesOld(s, s1, b, TakeIn(s, c, tx, xafid), c, m, tx);
    }
  }

  lemma GoesOld(s: State, s1: State, b: State, t: State, c: nat, m: nat, tx: Tx)
    requires Goes(b, t, c, m, tx) && C(s1, c).fid == C(s, c).fid == C(b, c).fid && C(s1, c).tag == C(s, c).tag
    requires forall l :: l != tx.tag ==> (l in C(b, c).tag <==> l in C(s1, c).tag)
    requires tx.kind == Tflush ==> tx.oldtag != tx.tag
    ensures m < |t.msgs| && (t.msgs[m].stage == Queued <==> GoesOn(C(s, c).tag, C(s, c).fid, tx))
  {
  }

  lemma EnterTags(s: State, c: nat, h: Hdr, m: nat, s1: State, tx: Tx)
    requires c < |s.conns| && m == Enter(s, c, h).1 && s1 == Enter(s, c, h).0 && Base(s, s1, c, m, tx)
    ensures C(s1, c).tag == C(s, c).tag && C(s1, c).fid == C(s, c).fid
  {
    hide Enter;
    EnterShape(s, c, h, m);
  }

  lemma JoinQueue(s: State, r: State, c: nat, m: nat)
    requires Join(s, r, c, m)
    ensures m < |r.msgs| && r.msgs[m].conn == Some(c) && r.msgs[m].serial == |s.log| &&
            r.msgs[m].stage in {Queued, Delivered} && (r.msgs[m].stage == Delivered ==> Some(m) in C(r, c).outq)
  {
  }

  lemma ShapeErr(s: State, r: State, c: nat, m: nat, xafid: nat)
    requires TookIn(s, r, c, m, xafid)
    ensures m < |r.msgs| && |r.log| == |s.log| + 1
    ensures r.msgs[m].stage == Delivered ==> r.msgs[m].err || r.log[|s.log|].tx.kind in {Tflush, Tversion}
  {
    hide Got, Grown, Translated, Carries;
  }

  // ----- what the server is asked --------------------------------------------------------

  lemma PendMsg(s: State, t: nat, xafid: nat)
    requires Inv(s, xafid) && t in s.pend
    ensures t < |s.msgs| && s.msgs[t].conn.Some? && s.msgs[t].stage == Sent && s.pend[t] == ReqOf(s.msgs[t])
  {
    assert PendOk(s) && ActiveHeld(s);
  }

  /** A request that the server has is one that was asked: it names, for every number, the fid that the table of
      its connection had under that number when it had been taken in. */
  lemma WireRight(run: seq<Step>, t: nat, xafid: nat) returns (i: nat)
    requires Possible(run, xafid) && t in After(run, xafid).pend
    ensures var s := After(run, xafid);
      s.pend[t].serial < |s.log| && Told(run, i, s.log[s.pend[t].serial], xafid) &&
      Translated(s.log[s.pend[t].serial], s.pend[t], xafid)
  {
    hide After, Possible, Inv, Told, Translated;
    RunInv(run, xafid);
    RunWire(run, xafid);
    var s := After(run, xafid);
    PendMsg(s, t, xafid);
    assert MsgWire(s, s.log[s.msgs[t].serial], s.msgs[t], xafid);
    i := LogTold(run, s.pend[t].serial, xafid);
  }

  /** The fids that a request names to the server, but for the multiplexer's own. */
  function Named(e: Asked, q: Req): set<nat>
  {
    (if HasFid(q.kind) then {q.fid} else {}) + (if q.kind == Twalk then {q.newfid} else {}) +
    (if q.kind == Tauth || (q.kind == Tattach && e.tx.afid != NOFID) then {q.afid} else {})
  }

  /** Requests of different connections never name the same fid to the server. */
  lemma PendApart(run: seq<Step>, t: nat, u: nat, xafid: nat)
    requires Possible(run, xafid) && t in After(run, xafid).pend && u in After(run, xafid).pend
    ensures var s := After(run, xafid); var n, l := s.pend[t].serial, s.pend[u].serial;
      n < |s.log| && l < |s.log| &&
      (s.log[n].c != s.log[l].c ==> Named(s.log[n], s.pend[t]) !! Named(s.log[l], s.pend[u]))
  {
    hide After, Possible, Inv, Under;
    RunInv(run, xafid);
    RunWire(run, xafid);
    var s := After(run, xafid);
    PendMsg(s, t, xafid);
    PendMsg(s, u, xafid);
    var o, v := s.msgs[t], s.msgs[u];
    assert MsgWire(s, s.log[o.serial], o, xafid) && MsgWire(s, s.log[v.serial], v, xafid);
    hide Translated;
    assert forall f :: f in Named(s.log[o.serial], s.pend[t]) ==> Has(o, f);
    assert forall f :: f in Named(s.log[v.serial], s.pend[u]) ==> Has(v, f);
  }

  /** In a table, a fid that a message holds stands under the number that the message's request gave. */
  lemma HeldUnder(run: seq<Step>, m: nat, c: nat, k: nat, xafid: nat)
    requires Possible(run, xafid) && m < |After(run, xafid).msgs| && c < |After(run, xafid).conns|
    requires After(run, xafid).msgs[m].conn.Some? && k in After(run, xafid).conns[c].fid
    ensures var s := After(run, xafid);
      s.msgs[m].serial < |s.log| && Placed(s.log[s.msgs[m].serial], s.msgs[m], c, k, s.conns[c].fid[k])
  {
    hide After, Possible, Placed, Translated, Carries;
    RunWire(run, xafid);
  }
}
