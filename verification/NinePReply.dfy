/** What a reply does to the fid tables, in every run. */
module NinePReply {
  import opened NinePState
  import opened NinePStep
  import opened NinePInv
  import opened NinePRun
  import opened NinePJoin
  import opened NinePFids
  import opened NinePOpens
  import opened NinePWire
  import opened NinePSent
  import opened NinePTold
  import NinePSettle
  import NinePOut
  import NinePTurn
  import NinePRecv
  import NinePOwn

  // ----- what leaves the fid tables as they are --------------------------------------------

  ghost predicate SameTables(s: State, r: State)
  {
    |r.conns| == |s.conns| && forall c: nat :: c < |s.conns| ==> r.conns[c].fid == s.conns[c].fid
  }

  lemma SetConnTables(s: State, c: nat, v: Conn)
    requires v.fid == C(s, c).fid
    ensures SameTables(s, SetConn(s, c, v))
  {
  }

  lemma TablesTrans(s: State, r: State, t: State)
    requires SameTables(s, r) && SameTables(r, t)
    ensures SameTables(s, t)
  {
  }

  lemma ConnsTables(s: State, r: State)
    requires r.conns == s.conns
    ensures SameTables(s, r)
  {
  }

  lemma UnlinkTables(s: State, m: nat)
    ensures SameTables(s, Unlink(s, m))
  {
    var o := M(s, m);
    if IsMsg(s, m) && o.conn.Some? {
      var s1 := SetMsg(s, m, Unlinked(o));
      SetConnTables(s1, o.conn.value, C(s1, o.conn.value).(nmsg := C(s1, o.conn.value).nmsg - 1));
    }
  }

  lemma ClearTables(s: State, m: nat)
    ensures SameTables(s, MsgClear(s, m))
    decreases Count(s.msgs, HasOldm()), 0
  {
    hide MsgPut, FidPuts, Unlink, SameTables;
    var o := M(s, m);
    var s1 := Unlink(s, m);
    UnlinkTables(s, m);
    if o.oldm.Some? {
      var s2 := MsgPut(s1, o.oldm.value);
      PutTables(s1, o.oldm.value);
      TablesTrans(s, s1, s2);
      FidPutsConns(s2, o);
      ConnsTables(s2, FidPuts(s2, o));
      TablesTrans(s, s2, FidPuts(s2, o));
    } else {
      FidPutsConns(s1, o);
      ConnsTables(s1, FidPuts(s1, o));
      TablesTrans(s, s1, FidPuts(s1, o));
    }
  }

  lemma PutTables(s: State, m: nat)
    ensures SameTables(s, MsgPut(s, m))
    decreases Count(s.msgs, HasOldm()), 1
  {
    hide MsgClear, SameTables;
    if M(s, m).ref > 0 && M(Drop(s, m), m).ref <= 0 {
      var s1 := Fade(Drop(s, m), m);
      ConnsTables(s, s1);
      ClearTables(s1, m);
      TablesTrans(s, s1, MsgClear(s1, m));
      ConnsTables(MsgClear(s1, m), MsgPut(s, m));
      TablesTrans(s, MsgClear(s1, m), MsgPut(s, m));
    } else {
      ConnsTables(s, MsgPut(s, m));
    }
  }

  lemma TagReleaseTables(s: State, m: nat)
    ensures SameTables(s, TagRelease(s, m))
  {
    hide MsgPut, SameTables;
    var o := M(s, m);
    if o.conn.Some? && o.ctag in C(s, o.conn.value).tag && C(s, o.conn.value).tag[o.ctag] == m {
      var c := o.conn.value;
      SetConnTables(s, c, C(s, c).(tag := C(s, c).tag - {o.ctag}));
      PutTables(TagDel(s, c, o.ctag), m);
      TablesTrans(s, TagDel(s, c, o.ctag), TagRelease(s, m));
    } else {
      ConnsTables(s, TagRelease(s, m));
    }
  }

  // ----- a fid is released -----------------------------------------------------------------

  function Without(t: map<nat, nat>, f: nat): map<nat, nat> { map k | k in t && t[k] != f :: t[k] }

  /** Connection c's table is t now, the others are as they were. */
  ghost predicate TableNow(s: State, r: State, c: nat, t: map<nat, nat>)
  {
    c < |s.conns| == |r.conns| && r.conns[c].fid == t &&
    forall x: nat :: x < |s.conns| && x != c ==> r.conns[x].fid == s.conns[x].fid
  }

  lemma ReleaseTables(s: State, c: nat, f: nat)
    requires c < |s.conns| && ConnLinks(s, c)
    ensures TableNow(s, FidRelease(s, c, f), c, Without(s.conns[c].fid, f))
  {
    var t := s.conns[c].fid;
    if IsFid(s, f) && s.fids[f].cfid >= 0 && Gives(t, s.fids[f].cfid, f) {
      assert Without(t, f) == t - {s.fids[f].cfid as nat};
    } else {
      assert Without(t, f) == t;
    }
  }

  lemma SameNow(s: State, r: State, c: nat)
    requires SameTables(s, r) && c < |s.conns|
    ensures TableNow(s, r, c, s.conns[c].fid)
  {
  }

  lemma NowTables(s: State, r: State, t: State, c: nat, now: map<nat, nat>)
    requires TableNow(s, r, c, now) && SameTables(r, t)
    ensures TableNow(s, t, c, now)
  {
  }

  lemma TablesNow(s: State, r: State, t: State, c: nat, now: map<nat, nat>)
    requires SameTables(s, r) && TableNow(r, t, c, now)
    ensures TableNow(s, t, c, now)
  {
  }

  // ----- a reply is taken ------------------------------------------------------------------

  /** The reply to o ends the use of fid f: a clunk or remove, whatever came of it, and whatever was to make the
      fid and did not. */
  predicate Ended(o: Msg, f: nat)
  {
    match o.kind
    case Tclunk => o.fid == Some(f)
    case Tremove => o.fid == Some(f)
    case Tauth => o.err && o.afid == Some(f)
    case Tattach => o.err && o.fid == Some(f)
    case Twalk => (o.err || o.short) && o.newfid == Some(f) && o.fid != Some(f)
    case _ => false
  }

  function Left(t: map<nat, nat>, o: Msg): map<nat, nat> { map k | k in t && !Ended(o, t[k]) :: t[k] }

  lemma NoneLeft(t: map<nat, nat>, o: Msg)
    requires forall f :: !Ended(o, f)
    ensures Left(t, o) == t
  {
  }

  lemma OneLeft(t: map<nat, nat>, o: Msg, f: nat)
    requires forall g :: Ended(o, g) <==> g == f
    ensures Left(t, o) == Without(t, f)
  {
  }

  lemma SettleTables(s: State, c: nat, m: nat)
    requires c < |s.conns| && ConnLinks(s, c) && m < |s.msgs| && s.msgs[m].conn == Some(c)
    requires var o := s.msgs[m];
             o.kind == Twalk && o.newfid.Some? ==> (o.txfid == o.txnewfid <==> o.fid == o.newfid)
    ensures TableNow(s, Settle(s, m), c, Left(s.conns[c].fid, s.msgs[m]))
  {
    hide ConnLinks, FidRelease, TagRelease, Left, Without, TableNow;
    var o, t := s.msgs[m], s.conns[c].fid;
    if o.fid.Some? {
      ReleaseTables(s, c, o.fid.value);
    }
    if o.newfid.Some? {
      ReleaseTables(s, c, o.newfid.value);
    }
    if o.afid.Some? {
      ReleaseTables(s, c, o.afid.value);
    }
    if o.oldm.Some? {
      TagReleaseTables(s, o.oldm.value);
      SameNow(s, TagRelease(s, o.oldm.value), c);
    }
    ConnsTables(s, Faulty(s));
    ConnsTables(s, s);
    SameNow(s, Faulty(s), c);
    SameNow(s, s, c);
    hide SameTables;
    var ends := Ends(o);
    EndsIs(o);
    hide Ended;
    if ends.Some? {
      OneLeft(t, o, ends.value);
    } else {
      NoneLeft(t, o);
    }
  }

  function Ends(o: Msg): Option<nat>
  {
    match o.kind
    case Tclunk => o.fid
    case Tremove => o.fid
    case Tauth => if o.err then o.afid else None
    case Tattach => if o.err then o.fid else None
    case Twalk => if (o.err || o.short) && o.newfid != o.fid then o.newfid else None
    case _ => None
  }

  lemma EndsIs(o: Msg)
    ensures forall f: nat :: Ended(o, f) <==> Ends(o) == Some(f)
  {
  }

  lemma TakenLinks(s: State, c: nat, m: nat, xafid: nat)
    requires Inv(s, xafid) && c < |s.conns| && s.conns[c].outpc.CIdle? && s.conns[c].outq != [] &&
             s.conns[c].outq[0] == Some(m)
    ensures ClientMsg(s, c, m) && c < |TakeReply(s, c, m).conns| && ConnLinks(TakeReply(s, c, m), c)
  {
    hide Cnt, Life, NoFresh;
    NinePTurn.TakeReplyOk(s, c, m, xafid);
    LinksOf(TakeReply(s, c, m), c);
    LinksOf(s, c);
  }

  lemma LinksOf(s: State, c: nat)
    requires Life(s)
    ensures c < |s.conns| ==> ConnLinks(s, c)
    ensures c < |s.conns| && s.conns[c].outq != [] && s.conns[c].outq[0].Some? ==>
              ClientMsg(s, c, s.conns[c].outq[0].value)
  {
    assert c < |s.conns| ==> ConnLinks(s, c);
  }

  /** Taking a reply leaves exactly the entries whose fid it does not end; other connections keep all. */
  lemma TakenTables(s: State, c: nat, m: nat, xafid: nat)
    requires Inv(s, xafid) && Wire(s, xafid) && c < |s.conns| && s.conns[c].outpc.CIdle? && s.conns[c].outq != [] &&
             s.conns[c].outq[0] == Some(m)
    ensures ClientMsg(s, c, m) && TableNow(s, ConnTake(s, c), c, Left(s.conns[c].fid, s.msgs[m]))
  {
    hide Inv, Wire, Settle, TagRelease, TakeReply, TableNow, SameTables, ConnLinks, Left;
    TakenLinks(s, c, m, xafid);
    var s1 := TakeReply(s, c, m);
    TakeReplySame(s, c, m);
    WalkFids(s, m, xafid);
    SettleTables(s1, c, m);
    LeftStage(s.conns[c].fid, s.msgs[m], Handling);
    var s2 := Settle(s1, m);
    var now := Left(s.conns[c].fid, s.msgs[m]);
    TablesNow(s, s1, s2, c, now);
    TagReleaseTables(s2, m);
    NowTables(s, s2, TagRelease(s2, m), c, now);
    ConnsTables(TagRelease(s2, m), ConnTake(s, c));
    NowTables(s, TagRelease(s2, m), ConnTake(s, c), c, now);
  }

  lemma WalkFids(s: State, m: nat, xafid: nat)
    requires Wire(s, xafid) && m < |s.msgs| && s.msgs[m].conn.Some?
    ensures var o := s.msgs[m];
            o.kind == Twalk && o.newfid.Some? ==> (o.txfid == o.txnewfid <==> o.fid == o.newfid)
  {
    hide Under, Translated, Carries, Alone;
  }

  lemma LeftStage(t: map<nat, nat>, o: Msg, g: Stage)
    ensures Left(t, o.(stage := g)) == Left(t, o)
  {
    assert forall f :: Ended(o.(stage := g), f) <==> Ended(o, f);
  }

  lemma TakeReplySame(s: State, c: nat, m: nat)
    requires c < |s.conns| && m < |s.msgs|
    ensures var r := TakeReply(s, c, m);
      SameTables(s, r) && c < |r.conns| && m < |r.msgs| && r.msgs[m] == s.msgs[m].(stage := Handling) &&
      r.conns[c].fid == s.conns[c].fid
  {
  }

  // ----- what the server answered ----------------------------------------------------------

  /** How the server has answered, by the serial of the request. */
  datatype Outcome = Outcome(err: bool, short: bool)

  function Outcomes(run: seq<Step>, xafid: nat): map<nat, Outcome>
  {
    if run == [] then map[] else
      var k := |run| - 1;
      Next(Outcomes(run[..k], xafid), After(run[..k], xafid), run[k])
  }

  function Next(h: map<nat, Outcome>, s: State, step: Step): map<nat, Outcome>
  {
    match step
    case SServe(t, err, short) => if t in s.pend then h[s.pend[t].serial := Outcome(err, short)] else h
    case _ => h
  }

  predicate Says(h: map<nat, Outcome>, n: nat, err: bool, short: bool) { n in h && h[n] == Outcome(err, short) }

  /** A message whose reply has been read has what the server answered; one that was answered here an error, or it
      is a flush or a version. */
  predicate MsgOutcome(h: map<nat, Outcome>, o: Msg)
  {
    if o.serial in h then Says(h, o.serial, o.err, o.short) else o.err || o.kind in {Tflush, Tversion}
  }

  ghost predicate OutcomesOk(h: map<nat, Outcome>, s: State)
  {
    (forall n :: n in h ==> n < |s.log|) &&
    (forall i :: 0 <= i < |s.replies| ==> var q := s.replies[i]; Says(h, q.serial, q.err, q.short)) &&
    (forall m: nat :: m < |s.msgs| && s.msgs[m].conn.Some? && Past(s.msgs[m].stage) ==> MsgOutcome(h, s.msgs[m]))
  }

  lemma SerialsApart(s: State, m: nat, n: nat)
    requires Logged(s) && m < |s.msgs| && n < |s.msgs| && m != n && s.msgs[m].conn.Some? && s.msgs[n].conn.Some?
    ensures s.msgs[m].serial != s.msgs[n].serial
  {
  }

  // ----- the replies on their way ----------------------------------------------------------

  lemma FidPutOptReplies(s: State, f: Option<nat>)
    ensures FidPutOpt(s, f).replies == s.replies
  {
  }

  lemma FidPutsReplies(s: State, o: Msg)
    ensures FidPuts(s, o).replies == s.replies
  {
    hide FidPutOpt;
    FidPutOptReplies(s, o.fid);
    FidPutOptReplies(FidPutOpt(s, o.fid), o.afid);
    FidPutOptReplies(FidPutOpt(FidPutOpt(s, o.fid), o.afid), o.newfid);
  }

  lemma ClearReplies(s: State, m: nat)
    ensures MsgClear(s, m).replies == s.replies
    decreases Count(s.msgs, HasOldm()), 0
  {
    hide MsgPut, FidPuts;
    var o, s1 := M(s, m), Unlink(s, m);
    assert s1.replies == s.replies;
    if o.oldm.Some? {
      PutReplies(s1, o.oldm.value);
      FidPutsReplies(MsgPut(s1, o.oldm.value), o);
    } else {
      FidPutsReplies(s1, o);
    }
  }

  lemma PutReplies(s: State, m: nat)
    ensures MsgPut(s, m).replies == s.replies
    decreases Count(s.msgs, HasOldm()), 1
  {
    hide MsgClear;
    if M(s, m).ref > 0 && M(Drop(s, m), m).ref <= 0 {
      ClearReplies(Fade(Drop(s, m), m), m);
    }
  }

  lemma TagReleaseReplies(s: State, m: nat)
    ensures TagRelease(s, m).replies == s.replies
  {
    hide MsgPut;
    var o := M(s, m);
    if o.conn.Some? {
      PutReplies(TagDel(s, o.conn.value, o.ctag), m);
    }
  }

  lemma SettleReplies(s: State, m: nat)
    ensures Settle(s, m).replies == s.replies
  {
    hide TagRelease;
    var o := M(s, m);
    if o.oldm.Some? {
      TagReleaseReplies(s, o.oldm.value);
    }
  }

  lemma TakeReplies(s: State, c: nat)
    ensures ConnTake(s, c).replies == s.replies
  {
    hide Settle, TagRelease;
    var q := C(s, c).outq;
    if q != [] && q[0].Some? {
      var s1 := TakeReply(s, c, q[0].value);
      SettleReplies(s1, q[0].value);
      TagReleaseReplies(Settle(s1, q[0].value), q[0].value);
    }
  }

  lemma DoneReplies(s: State, c: nat, om: nat, k: nat, m: nat)
    ensures FlushDone(s, c, om, m).replies == s.replies && ClunkDone(s, c, k, m).replies == s.replies
  {
    hide MsgPut, MsgClear, TagRelease, FidPut;
    var s1 := SetPc(s, c, Flushing);
    PutReplies(s1, m);
    PutReplies(MsgPut(s1, m), m);
    var s2 := MsgPut(MsgPut(s1, m), m);
    TagReleaseReplies(s2, om);
    PutReplies(TagRelease(s2, om), om);
    if k in C(s, c).fid {
      var t1 := SetPc(s, c, Clunking);
      ClearReplies(t1, m);
      PutReplies(MsgClear(t1, m), m);
      PutReplies(MsgPut(MsgClear(t1, m), m), m);
      FidPutReplies(FidDel(MsgPut(MsgPut(MsgClear(t1, m), m), m), c, k), C(s, c).fid[k]);
    }
  }

  lemma FidPutReplies(s: State, f: nat)
    ensures FidPut(s, f).replies == s.replies
  {
  }

  lemma TakeUpReplies(s: State, c: nat)
    ensures TakeUp(s, c).replies == s.replies
  {
    hide FlushDone, ClunkDone;
    if C(s, c).internal.Some? {
      var m, s1 := C(s, c).internal.value, SetConn(s, c, C(s, c).(internal := None));
      match C(s, c).pc {
        case FlushWait(om, x) => DoneReplies(s1, c, om, 0, m);
        case ClunkWait(k, x) => DoneReplies(s1, c, 0, k, m);
        case _ =>
      }
    }
  }

  lemma PutsReplies(s: State, c: nat)
    ensures ConnWritten(s, c).replies == s.replies && OutPut(s).replies == s.replies
  {
    hide MsgPut;
    if C(s, c).outpc.CWriting? {
      PutReplies(LetReply(s, c, C(s, c).outpc.m), C(s, c).outpc.m);
    }
    if s.out.OWritten? {
      PutReplies(s.(out := OIdle), s.out.m);
    }
  }

  lemma JoinReplies(s: State, r: State, c: nat, m: nat)
    requires Join(s, r, c, m)
    ensures r.replies == s.replies
  {
  }

  /** The reply read is for message m: only m changes. */
  lemma InputReplies(s: State, xafid: nat)
    requires Inv(s, xafid) && s.replies != []
    ensures var q, r := s.replies[0], Input(s);
      r.replies == s.replies[1..] && r.log == s.log && q.tag < |s.msgs| && |r.msgs| == |s.msgs| &&
      (forall x: nat :: x < |s.msgs| && x != q.tag ==> r.msgs[x] == s.msgs[x]) &&
      r.msgs[q.tag].err == q.err && r.msgs[q.tag].short == q.short && r.msgs[q.tag].serial == q.serial
  {
    hide Cnt, Life, NoFresh, Wake;
    NinePOut.FetchOk(s, xafid);
    FetchKeeps(s, s.replies[0]);
    var r := Fetch(s, s.replies[0]);
    var m := s.replies[0].tag;
    if r.msgs[m].internal {
      WakeNear(SetStage(r, m, Done), r.msgs[m].conn.value, m);
      WakeReplies(SetStage(r, m, Done), r.msgs[m].conn.value, m);
    } else {
      TaggedOpen(r, m);
    }
    ReplySerial(s);
  }

  lemma WakeReplies(s: State, c: nat, m: nat)
    ensures Wake(s, c, m).replies == s.replies
  {
  }

  lemma ReplySerial(s: State)
    requires Life(s) && s.replies != []
    ensures s.replies[0].tag < |s.msgs| && s.msgs[s.replies[0].tag].serial == s.replies[0].serial
  {
    assert RepliesOk(s);
  }

  lemma StepReplies(s: State, step: Step, xafid: nat)
    requires Inv(s, xafid) && Enabled(s, step) && !step.SServe? && !step.SInput?
    ensures Apply(s, step, xafid).replies == s.replies
  {
    hide Inv, Recv, Flush, Clunk, TakeUp, ConnTake, ConnWritten, OutPut, Enter, Join;
    match step
    case SRecv(c, tx) =>
      NinePRecv.RecvInv(s, c, tx, xafid);
      JoinReplies(s, Recv(s, c, tx, xafid), c, Enter(s, c, Hdr(false, tx)).1);
    case SFlush(c, k) =>
      NinePOwn.FlushInv(s, c, k, xafid);
      JoinReplies(s, Flush(s, c, k), c, NinePOwn.FlushMsg(s, c, k));
    case SClunk(c, k) =>
      NinePOwn.ClunkInv(s, c, k, xafid);
      JoinReplies(s, Clunk(s, c, k), c, NinePOwn.ClunkMsg(s, c, k));
    case STakeUp(c) => TakeUpReplies(s, c);
    case SConnTake(c) => TakeReplies(s, c);
    case SConnWritten(c) => PutsReplies(s, c);
    case SOutPut => PutsReplies(s, 0);
    case _ =>
  }

  // ----- outcomes, step by step ------------------------------------------------------------

  lemma OldOutcome(h: map<nat, Outcome>, s: State, r: State, used: set<nat>, m: nat)
    requires OutcomesOk(h, s) && Stays(s, r, used, false) && m < |r.msgs| && m !in used && r.msgs[m].conn.Some?
    requires Past(r.msgs[m].stage)
    ensures m < |s.msgs| && s.msgs[m].conn.Some? && Past(s.msgs[m].stage) && r.msgs[m].serial == s.msgs[m].serial
    ensures MsgOutcome(h, r.msgs[m])
  {
    assert NearMsg(s.msgs[m], r.msgs[m], false);
    assert MsgOutcome(h, s.msgs[m]);
  }

  /** A step that neither answers nor reads an answer. */
  lemma QuietOutcomes(h: map<nat, Outcome>, s: State, r: State, used: set<nat>)
    requires OutcomesOk(h, s) && Stays(s, r, used, false) && r.replies == s.replies
    requires forall m :: m in used && m < |r.msgs| && Past(r.msgs[m].stage) ==> MsgOutcome(h, r.msgs[m])
    ensures OutcomesOk(h, r)
  {
    hide MsgOutcome;
    forall m: nat | m < |r.msgs| && r.msgs[m].conn.Some? && Past(r.msgs[m].stage) ensures MsgOutcome(h, r.msgs[m]) {
      if m !in used {
        OldOutcome(h, s, r, used, m);
      }
    }
  }

  lemma ReplyMsgs(s: State, xafid: nat)
    requires Inv(s, xafid)
    ensures forall i :: 0 <= i < |s.replies| ==> var q := s.replies[i];
      q.tag < |s.msgs| && s.msgs[q.tag].stage == Replied && s.msgs[q.tag].serial == q.serial &&
      s.msgs[q.tag].conn.Some?
    ensures Logged(s)
  {
    assert RepliesOk(s) && ActiveHeld(s);
  }

  lemma ServeReplies(s: State, t: nat, err: bool, short: bool)
    requires t in s.pend
    ensures Serve(s, t, err, short).replies == s.replies + [Reply(t, s.pend[t].serial, err, short)]
  {
  }

  lemma ServeOutcomes(h: map<nat, Outcome>, s: State, t: nat, err: bool, short: bool, xafid: nat)
    requires OutcomesOk(h, s) && Inv(s, xafid) && t in s.pend
    ensures OutcomesOk(Next(h, s, SServe(t, err, short)), Serve(s, t, err, short))
  {
    hide Inv, Serve, MsgOutcome;
    var r, h', n := Serve(s, t, err, short), Next(h, s, SServe(t, err, short)), s.pend[t].serial;
    ServeReplies(s, t, err, short);
    ServeNear(s, t, err, short, xafid);
    PendMsg(s, t, xafid);
    ReplyMsgs(s, xafid);
    assert n < |s.log|;
    forall i | 0 <= i < |r.replies| ensures Says(h', r.replies[i].serial, r.replies[i].err, r.replies[i].short) {
      if i < |s.replies| {
        SerialsApart(s, t, s.replies[i].tag);
      }
    }
    forall m: nat | m < |r.msgs| && r.msgs[m].conn.Some? && Past(r.msgs[m].stage) ensures MsgOutcome(h', r.msgs[m]) {
      OldOutcome(h, s, r, {}, m);
      SerialsApart(s, t, m);
      OtherOutcome(h, n, Outcome(err, short), r.msgs[m]);
    }
  }

  lemma OtherOutcome(h: map<nat, Outcome>, n: nat, v: Outcome, o: Msg)
    requires MsgOutcome(h, o) && o.serial != n
    ensures MsgOutcome(h[n := v], o)
  {
  }

  lemma InputOutcomes(h: map<nat, Outcome>, s: State, xafid: nat)
    requires OutcomesOk(h, s) && Inv(s, xafid) && s.replies != []
    ensures OutcomesOk(h, Input(s))
  {
    hide Inv, Input;
    InputReplies(s, xafid);
    var r, q := Input(s), s.replies[0];
    forall m: nat | m < |r.msgs| && r.msgs[m].conn.Some? && Past(r.msgs[m].stage) ensures MsgOutcome(h, r.msgs[m]) {
      if m != q.tag {
        assert MsgOutcome(h, s.msgs[m]);
      }
    }
  }

  lemma RecvOutcomes(h: map<nat, Outcome>, s: State, c: nat, tx: Tx, xafid: nat)
    requires OutcomesOk(h, s) && Inv(s, xafid) && Enabled(s, SRecv(c, tx))
    ensures OutcomesOk(h, Recv(s, c, tx, xafid))
  {
    hide Inv, Recv, Enter, OutcomesOk, Join, Got, Grown, Translated, Carries, Stays;
    var m, r := Enter(s, c, Hdr(false, tx)).1, Recv(s, c, tx, xafid);
    NinePRecv.RecvInv(s, c, tx, xafid);
    RecvTook(s, c, tx, xafid);
    StaysJoin(s, r, c, m);
    JoinReplies(s, r, c, m);
    JoinStage(s, r, c, m);
    OutcomeRange(h, s, |s.log|);
    QuietOutcomes(h, s, r, {m});
  }

  lemma OutcomeRange(h: map<nat, Outcome>, s: State, n: nat)
    requires OutcomesOk(h, s) && n >= |s.log|
    ensures n !in h
  {
  }

  lemma JoinStage(s: State, r: State, c: nat, m: nat)
    requires Join(s, r, c, m)
    ensures m < |r.msgs| && r.msgs[m].serial == |s.log| && r.msgs[m].stage in {Queued, Delivered}
    ensures r.msgs[m].internal ==> r.msgs[m].stage == Queued
    ensures !s.conns[c].pc.Reading? ==> r.msgs[m].stage == Queued
  {
  }

  lemma OwnOutcomes(h: map<nat, Outcome>, s: State, r: State, c: nat, m: nat)
    requires OutcomesOk(h, s) && Join(s, r, c, m) && !s.conns[c].pc.Reading?
    ensures OutcomesOk(h, r)
  {
    hide OutcomesOk, Join, Stays;
    StaysJoin(s, r, c, m);
    JoinReplies(s, r, c, m);
    JoinStage(s, r, c, m);
    QuietOutcomes(h, s, r, {m});
  }

  lemma StepOutcomes(h: map<nat, Outcome>, s: State, step: Step, xafid: nat)
    requires OutcomesOk(h, s) && Inv(s, xafid) && Enabled(s, step) && !Faulting(s, step)
    ensures OutcomesOk(Next(h, s, step), Apply(s, step, xafid))
  {
    hide Inv, Recv, Flush, Clunk, TakeUp, CloseQueue, ConnTake, ConnWritten, ConnNil, OutPut, OutSync, Serve, Input,
      Stays, Faulting, OutcomesOk, Enter, Join;
    match step
    case SRecv(c, tx) => RecvOutcomes(h, s, c, tx, xafid);
    case SFlush(c, k) =>
      NinePOwn.FlushInv(s, c, k, xafid);
      OwnOutcomes(h, s, Flush(s, c, k), c, NinePOwn.FlushMsg(s, c, k));
    case SClunk(c, k) =>
      NinePOwn.ClunkInv(s, c, k, xafid);
      OwnOutcomes(h, s, Clunk(s, c, k), c, NinePOwn.ClunkMsg(s, c, k));
    case SServe(t, err, short) => ServeOutcomes(h, s, t, err, short, xafid);
    case SInput => InputOutcomes(h, s, xafid);
    case _ =>
      StepStays(s, step, xafid);
      StepReplies(s, step, xafid);
      QuietOutcomes(h, s, Apply(s, step, xafid), {});
  }

  lemma {:induction false} RunOutcomes(run: seq<Step>, xafid: nat)
    requires Possible(run, xafid)
    ensures OutcomesOk(Outcomes(run, xafid), After(run, xafid))
  {
    hide Inv, Apply, Enabled, Faulting, Next;
    if run != [] {
      var k := |run| - 1;
      RunOutcomes(run[..k], xafid);
      RunInv(run[..k], xafid);
      hide OutcomesOk;
      StepOutcomes(Outcomes(run[..k], xafid), After(run[..k], xafid), run[k], xafid);
    }
  }

  // ----- in the client's numbers -----------------------------------------------------------

  /** The number that a request is to make or to end. */
  function Subject(tx: Tx): set<nat>
  {
    match tx.kind
    case Tclunk => {tx.fid}
    case Tremove => {tx.fid}
    case Tattach => {tx.fid}
    case Tauth => {tx.afid}
    case Twalk => if tx.newfid == tx.fid then {} else {tx.newfid}
    case _ => {}
  }

  /** The fid that goes with it. */
  function Object(o: Msg): Option<nat>
  {
    match o.kind
    case Tauth => o.afid
    case Twalk => if o.newfid == o.fid then None else o.newfid
    case _ => o.fid
  }

  /** The server has made what was asked: a whole walk, an attach, an auth. */
  predicate Made(h: map<nat, Outcome>, o: Msg)
  {
    o.kind in {Twalk, Tattach, Tauth} && o.serial in h && !h[o.serial].err && (o.kind == Twalk ==> !h[o.serial].short)
  }

  /** What a reply leaves of the table was: now. All other numbers stay as they are; the number of the request
      stays if the server has made it, or if it stands for another fid by now. */
  ghost predicate Leaves(h: map<nat, Outcome>, e: Asked, o: Msg, was: map<nat, nat>, now: map<nat, nat>)
  {
    (forall k :: k !in Subject(e.tx) ==> (k in now <==> k in was) && (k in was ==> now[k] == was[k])) &&
    (forall k :: k in Subject(e.tx) ==>
      (k in now <==> k in was && (Made(h, o) || Object(o) != Some(was[k]))) && (k in now ==> now[k] == was[k]))
  }

  lemma EndedMade(h: map<nat, Outcome>, o: Msg, f: nat)
    requires MsgOutcome(h, o)
    ensures o.kind in {Tclunk, Tremove, Tattach, Tauth, Twalk} ==>
              (Ended(o, f) <==> Object(o) == Some(f) && !Made(h, o))
    ensures o.kind !in {Tclunk, Tremove, Tattach, Tauth, Twalk} ==> !Ended(o, f)
  {
  }

  /** An entry whose fid the reply ends is the one under the request's number. */
  lemma EndedSubject(e: Asked, o: Msg, c: nat, k: nat, f: nat)
    requires Placed(e, o, c, k, f) && Ended(o, f) && o.kind == e.tx.kind
    requires o.kind == Twalk && o.newfid.Some? ==> (e.tx.fid == e.tx.newfid <==> o.fid == o.newfid)
    ensures k in Subject(e.tx)
  {
  }

  lemma SubjectKind(tx: Tx)
    ensures Subject(tx) != {} ==> tx.kind in {Tclunk, Tremove, Tattach, Tauth, Twalk}
  {
  }

  lemma LeftLeaves(h: map<nat, Outcome>, e: Asked, o: Msg, c: nat, was: map<nat, nat>)
    requires MsgOutcome(h, o) && o.kind == e.tx.kind && forall k :: k in was ==> Placed(e, o, c, k, was[k])
    requires o.kind == Twalk && o.newfid.Some? ==> (e.tx.fid == e.tx.newfid <==> o.fid == o.newfid)
    ensures Leaves(h, e, o, was, Left(was, o))
  {
    hide MsgOutcome, Made, Object, Ended, Placed, Subject;
    SubjectKind(e.tx);
    forall k | k in was
      ensures (k !in Subject(e.tx) ==> !Ended(o, was[k])) &&
              (k in Subject(e.tx) ==> (Ended(o, was[k]) <==> Object(o) == Some(was[k]) && !Made(h, o)))
    {
      EndedMade(h, o, was[k]);
      if Ended(o, was[k]) {
        EndedSubject(e, o, c, k, was[k]);
      }
    }
  }

  lemma TakenFacts(s: State, c: nat, m: nat, xafid: nat)
    requires Inv(s, xafid) && Wire(s, xafid) && c < |s.conns| && ClientMsg(s, c, m)
    ensures var o := s.msgs[m]; o.serial < |s.log|
    ensures var o := s.msgs[m]; var e := s.log[o.serial];
      e.c == c && o.kind == e.tx.kind && e.tx.tag == o.ctag &&
      (forall k :: k in s.conns[c].fid ==> Placed(e, o, c, k, s.conns[c].fid[k])) &&
      (o.kind == Twalk && o.newfid.Some? ==> (e.tx.fid == e.tx.newfid <==> o.fid == o.newfid))
  {
    hide Placed, Translated, Carries, Alone, Cnt, Links, Stages, Phases, AnswersOk;
    assert MsgWire(s, s.log[s.msgs[m].serial], s.msgs[m], xafid);
  }

  /** In every run, a reply that is taken answers a request that its connection sent, and leaves of the connection's
      table all but the number of a request that is over or has failed; other connections' tables it leaves alone. */
  lemma RepliesRight(run: seq<Step>, c: nat, xafid: nat) returns (i: nat)
    requires Possible(run, xafid) && Enabled(After(run, xafid), SConnTake(c))
    ensures var s := After(run, xafid); var m, r := s.conns[c].outq[0].value, ConnTake(s, c);
      m < |s.msgs| && s.msgs[m].serial < |s.log| && |r.conns| == |s.conns| &&
      var o := s.msgs[m]; var e := s.log[o.serial];
      Told(run, i, e, xafid) && e.c == c && e.tx.tag == o.ctag && e.tx.kind == o.kind &&
      (forall x: nat :: x < |s.conns| && x != c ==> r.conns[x].fid == s.conns[x].fid) &&
      Leaves(Outcomes(run, xafid), e, o, s.conns[c].fid, r.conns[c].fid)
  {
    hide After, Possible, Inv, Wire, Told, ConnTake, Leaves, MsgOutcome, Outcomes, Placed;
    RunInv(run, xafid);
    RunWire(run, xafid);
    RunOutcomes(run, xafid);
    var s := After(run, xafid);
    var m := s.conns[c].outq[0].value;
    TakenTables(s, c, m, xafid);
    TakenFacts(s, c, m, xafid);
    HeadPast(s, c, xafid);
    LeftLeaves(Outcomes(run, xafid), s.log[s.msgs[m].serial], s.msgs[m], c, s.conns[c].fid);
    i := LogTold(run, s.msgs[m].serial, xafid);
  }
}
