/** What a request names to the server: the fids that its connection's table gave for the client's numbers. */
module NinePWire {
  import opened NinePState
  import opened NinePStep
  import opened NinePInv
  import opened NinePRun
  import opened NinePJoin
  import opened NinePFids
  import opened NinePOpens
  import NinePCnt
  import NinePOwn
  import NinePRecv
  import NinePHold

  /** Requests that name a fid. */
  predicate HasFid(k: Kind) { k in {Tattach, Twalk, Topen, Tcreate, Tclunk, Tremove, Tother} }

  predicate Gives(t: map<nat, nat>, k: nat, f: nat) { k in t && t[k] == f }

  /** The request that leaves is the one asked, with every number replaced by what the tables gave for it. */
  predicate Translated(e: Asked, q: Req, xafid: nat)
  {
    q.kind == e.tx.kind &&
    (HasFid(q.kind) ==> Gives(e.fids, e.tx.fid, q.fid)) &&
    (q.kind == Twalk ==> Gives(e.fids, e.tx.newfid, q.newfid)) &&
    (q.kind == Tauth || (q.kind == Tattach && e.tx.afid != NOFID) ==> Gives(e.fids, e.tx.afid, q.afid)) &&
    (q.kind == Tattach && e.tx.afid == NOFID ==> q.afid == if e.tx.attached then xafid else NOFID) &&
    (q.kind == Tflush ==> q.flushes.Some? && Gives(e.tags, e.tx.oldtag, q.flushes.value))
  }

  /** The message holds the fids that it names. */
  predicate Carries(e: Asked, o: Msg)
  {
    (HasFid(o.kind) ==> o.fid == Some(o.txfid)) && (o.kind == Twalk ==> o.newfid == Some(o.txnewfid)) &&
    (o.kind == Tauth || (o.kind == Tattach && e.tx.afid != NOFID) ==> o.afid == Some(o.txafid))
  }

  predicate Has(o: Msg, f: nat) { o.fid == Some(f) || o.newfid == Some(f) || o.afid == Some(f) }

  /** Fid f of connection c's table, under number k, is there as the message knows it. */
  predicate Placed(e: Asked, o: Msg, c: nat, k: nat, f: nat)
  {
    (Has(o, f) ==> o.conn == Some(c)) && (o.fid == Some(f) ==> k == e.tx.fid) &&
    (o.newfid == Some(f) ==> k == e.tx.newfid) && (o.afid == Some(f) ==> k == e.tx.afid)
  }

  ghost predicate Under(s: State, e: Asked, o: Msg)
  {
    forall c: nat, k :: c < |s.conns| && k in s.conns[c].fid ==> Placed(e, o, c, k, s.conns[c].fid[k])
  }

  /** What is known of a message in use, asked as e. */
  ghost predicate MsgWire(s: State, e: Asked, o: Msg, xafid: nat)
  {
    (Bound(o.stage) ==> Translated(e, ReqOf(o), xafid) && Carries(e, o)) && Under(s, e, o) && o.kind == e.tx.kind &&
    o.conn == Some(e.c) &&
    (o.kind == Twalk && o.newfid.Some? ==>
      (o.txfid == o.txnewfid <==> o.fid == o.newfid) && (e.tx.fid == e.tx.newfid <==> o.fid == o.newfid))
  }

  /** Messages of different connections share no fid. */
  ghost predicate Alone(s: State)
  {
    forall m: nat, n: nat, f :: (m < |s.msgs| && n < |s.msgs| && s.msgs[m].conn.Some? && s.msgs[n].conn.Some? &&
      Has(s.msgs[m], f) && Has(s.msgs[n], f)) ==> s.msgs[m].conn == s.msgs[n].conn
  }

  ghost predicate Wire(s: State, xafid: nat)
  {
    (forall m: nat :: m < |s.msgs| && s.msgs[m].conn.Some? ==>
      s.msgs[m].serial < |s.log| && MsgWire(s, s.log[s.msgs[m].serial], s.msgs[m], xafid)) && Alone(s)
  }

  // ----- what a step keeps ---------------------------------------------------------------

  ghost predicate NotHeld(s: State, f: nat) { forall m: nat :: m < |s.msgs| ==> !Has(s.msgs[m], f) }

  /** Tables get no entry but for fids that nobody held. */
  ghost predicate TablesNew(s: State, r: State)
  {
    forall c: nat, k :: c < |r.conns| && k in r.conns[c].fid ==>
      (c < |s.conns| && Gives(s.conns[c].fid, k, r.conns[c].fid[k])) || NotHeld(s, r.conns[c].fid[k])
  }

  /** A fid that connection c may hold. */
  ghost predicate FidFrom(s: State, c: nat, f: nat)
  {
    (c < |s.conns| && exists k :: Gives(s.conns[c].fid, k, f)) || NotHeld(s, f)
  }

  /** A message put to use. */
  ghost predicate NewOk(s: State, r: State, m: nat, xafid: nat)
  {
    m < |r.msgs| && r.msgs[m].conn.Some? && r.msgs[m].serial < |r.log| &&
    MsgWire(r, r.log[r.msgs[m].serial], r.msgs[m], xafid) &&
    forall f :: Has(r.msgs[m], f) ==> FidFrom(s, r.msgs[m].conn.value, f)
  }

  lemma OldWire(s: State, r: State, used: set<nat>, read: bool, m: nat, xafid: nat)
    requires Wire(s, xafid) && Stays(s, r, used, read) && TablesNew(s, r) && m < |r.msgs| && m !in used
    requires r.msgs[m].conn.Some?
    ensures r.msgs[m].serial < |r.log| && MsgWire(r, r.log[r.msgs[m].serial], r.msgs[m], xafid)
  {
    var o, v := s.msgs[m], r.msgs[m];
    assert NearMsg(o, v, read);
    assert s.log[o.serial] == r.log[o.serial];
    var e := s.log[o.serial];
    assert MsgWire(s, e, o, xafid);
    forall c: nat, k | c < |r.conns| && k in r.conns[c].fid ensures Placed(e, v, c, k, r.conns[c].fid[k]) {
      if c < |s.conns| && Gives(s.conns[c].fid, k, r.conns[c].fid[k]) {
        assert Placed(e, o, c, k, s.conns[c].fid[k]);
      }
    }
  }

  /** A message in use before, and one that may be new. */
  lemma AloneNew(s: State, r: State, used: set<nat>, read: bool, m: nat, n: nat, f: nat, xafid: nat)
    requires Wire(s, xafid) && Stays(s, r, used, read) && m < |r.msgs| && n < |r.msgs| && m !in used
    requires n in used ==> NewOk(s, r, n, xafid)
    requires r.msgs[m].conn.Some? && r.msgs[n].conn.Some? && Has(r.msgs[m], f) && Has(r.msgs[n], f)
    ensures r.msgs[m].conn == r.msgs[n].conn
  {
    assert NearMsg(s.msgs[m], r.msgs[m], read) && Has(s.msgs[m], f);
    if n in used {
      var c := r.msgs[n].conn.value;
      assert FidFrom(s, c, f) && !NotHeld(s, f);
      var k :| Gives(s.conns[c].fid, k, f);
      assert MsgWire(s, s.log[s.msgs[m].serial], s.msgs[m], xafid);
      assert Placed(s.log[s.msgs[m].serial], s.msgs[m], c, k, s.conns[c].fid[k]);
    } else {
      assert NearMsg(s.msgs[n], r.msgs[n], read) && Has(s.msgs[n], f);
    }
  }

  lemma WireKept(s: State, r: State, used: set<nat>, read: bool, xafid: nat)
    requires Wire(s, xafid) && Stays(s, r, used, read) && TablesNew(s, r)
    requires forall m :: m in used ==> NewOk(s, r, m, xafid)
    requires forall m, n :: m in used && n in used ==> m == n
    ensures Wire(r, xafid)
  {
    hide Wire, Stays, TablesNew, MsgWire, FidFrom, Has;
    forall m: nat | m < |r.msgs| && r.msgs[m].conn.Some?
      ensures r.msgs[m].serial < |r.log| && MsgWire(r, r.log[r.msgs[m].serial], r.msgs[m], xafid)
    {
      if m !in used {
        OldWire(s, r, used, read, m, xafid);
      }
    }
    forall m: nat, n: nat, f | m < |r.msgs| && n < |r.msgs| && r.msgs[m].conn.Some? && r.msgs[n].conn.Some? &&
      Has(r.msgs[m], f) && Has(r.msgs[n], f)
      ensures r.msgs[m].conn == r.msgs[n].conn
    {
      if m !in used {
        AloneNew(s, r, used, read, m, n, f, xafid);
      } else if n !in used {
        AloneNew(s, r, used, read, n, m, f, xafid);
      }
    }
    WireOf(r, xafid);
  }

  lemma WireOf(s: State, xafid: nat)
    requires forall m: nat :: m < |s.msgs| && s.msgs[m].conn.Some? ==>
      s.msgs[m].serial < |s.log| && MsgWire(s, s.log[s.msgs[m].serial], s.msgs[m], xafid)
    requires Alone(s)
    ensures Wire(s, xafid)
  {
  }

  // ----- taking in a request -------------------------------------------------------------

  /** A fid that the request got: the table has it under the client's number, or it is new and the table as before. */
  ghost predicate Got(r: State, was: map<nat, nat>, now: map<nat, nat>, k: nat, f: nat)
  {
    (Gives(was, k, f) || Unused(r, f)) && (Gives(now, k, f) || now == was)
  }

  /** The table has grown at most by a fid that was not used. */
  ghost predicate Grown(r: State, was: map<nat, nat>, now: map<nat, nat>)
  {
    (forall k :: k in was ==> Gives(now, k, was[k])) &&
    (forall k :: k in now ==> Gives(was, k, now[k]) || Unused(r, now[k]))
  }

  /** The message when the request has been taken in. */
  ghost predicate Shape(r: State, o: Msg, was: map<nat, nat>, e: Asked, xafid: nat)
  {
    o.kind == e.tx.kind && (o.fid.Some? ==> Got(r, was, e.fids, e.tx.fid, o.fid.value)) &&
    (o.newfid.Some? ==> Got(r, was, e.fids, e.tx.newfid, o.newfid.value)) &&
    (o.afid.Some? ==> Got(r, was, e.fids, e.tx.afid, o.afid.value)) &&
    (o.stage == Queued ==> Translated(e, ReqOf(o), xafid) && Carries(e, o)) &&
    (o.stage == Delivered ==> o.err || o.kind in {Tflush, Tversion}) &&
    (o.kind == Twalk && o.newfid.Some? ==>
      o.fid.Some? && Gives(was, e.tx.fid, o.fid.value) &&
      if e.tx.fid == e.tx.newfid then o.txfid == o.txnewfid && o.newfid == o.fid
      else Unused(r, o.newfid.value) && (o.txfid == o.txnewfid ==> o.newfid == o.fid))
  }

  /** State t comes from r by taking in request tx with message m. */
  ghost predicate Shaped(r: State, t: State, c: nat, m: nat, tx: Tx, xafid: nat)
    requires c < |r.conns|
  {
    |t.conns| == |r.conns| && m < |t.msgs| && t.log == r.log &&
    (forall x: nat :: x < |r.conns| && x != c ==> t.conns[x].fid == r.conns[x].fid) &&
    t.conns[c].tag == r.conns[c].tag && Grown(r, r.conns[c].fid, t.conns[c].fid) &&
    Shape(r, t.msgs[m], r.conns[c].fid, Asked(c, tx, t.conns[c].tag, t.conns[c].fid), xafid)
  }

  /** The message as it was entered. */
  predicate Entered(r: State, c: nat, m: nat, tx: Tx)
  {
    c < |r.conns| && m < |r.msgs| && r.msgs[m].conn == Some(c) && r.msgs[m].fid.None? && r.msgs[m].newfid.None? &&
    r.msgs[m].afid.None? && r.msgs[m].kind == tx.kind && r.msgs[m].txfid == tx.fid && r.msgs[m].txnewfid == tx.newfid &&
    r.msgs[m].oldm.None?
  }

  /** The request goes on to the server; otherwise it is answered here. */
  predicate GoesOn(tags: map<nat, nat>, fids: map<nat, nat>, tx: Tx)
  {
    match tx.kind
    case Tversion => false
    case Tflush => tx.oldtag in tags
    case Tattach => (tx.afid == NOFID || tx.afid in fids) && tx.fid !in fids && !Misnamed(tx)
    case Twalk => tx.fid in fids && (tx.newfid == tx.fid || tx.newfid !in fids)
    case Tauth => !tx.refuse && tx.afid !in fids
    case Tcreate => !tx.refuse && tx.fid in fids
    case _ => tx.fid in fids
  }

  /** It is so in t, for the request as it was in r. */
  predicate Goes(r: State, t: State, c: nat, m: nat, tx: Tx)
  {
    m < |t.msgs| && t.msgs[m].stage in {Queued, Delivered} &&
    (t.msgs[m].stage == Queued <==> GoesOn(C(r, c).tag, C(r, c).fid, tx))
  }

  // ----- step by step --------------------------------------------------------------------

  /** State t as seen from r: connection c has fid table now, message m is o, and the rest of interest is as in r. */
  ghost predicate View(r: State, t: State, c: nat, m: nat, now: map<nat, nat>, o: Msg)
  {
    c < |r.conns| == |t.conns| && m < |t.msgs| && t.log == r.log &&
    (forall x: nat :: x < |r.conns| && x != c ==> t.conns[x].fid == r.conns[x].fid) &&
    t.conns[c].tag == r.conns[c].tag && t.conns[c].fid == now && t.msgs[m] == o
  }

  ghost predicate FidsAs(r: State, t: State) { t.freef == r.freef && |t.fids| == |r.fids| }

  lemma ViewSet(r: State, t: State, c: nat, m: nat, now: map<nat, nat>, o: Msg, v: Msg)
    requires View(r, t, c, m, now, o)
    ensures View(r, SetMsg(t, m, v), c, m, now, v) && M(t, m) == o && (FidsAs(r, t) ==> FidsAs(r, SetMsg(t, m, v)))
  {
  }

  lemma ViewInc(r: State, t: State, c: nat, m: nat, now: map<nat, nat>, o: Msg, f: nat)
    requires View(r, t, c, m, now, o)
    ensures View(r, FidInc(t, f), c, m, now, o) && (FidsAs(r, t) ==> FidsAs(r, FidInc(t, f)))
  {
  }

  lemma ViewNew(r: State, t: State, c: nat, m: nat, now: map<nat, nat>, o: Msg, k: nat, xafid: nat)
    requires View(r, t, c, m, now, o)
    ensures View(r, FidNew(t, k, xafid).0, c, m, now, o) && (FidsAs(r, t) ==> Unused(r, FidNew(t, k, xafid).1))
  {
  }

  lemma ViewAdd(r: State, t: State, c: nat, m: nat, now: map<nat, nat>, o: Msg, k: nat, f: nat)
    requires View(r, t, c, m, now, o)
    ensures View(r, FidAdd(t, c, k, f), c, m, now[k := f], o) && C(t, c).fid == now
  {
  }

  function SentMsg(o: Msg): Msg
  {
    o.(txfid := if o.fid.Some? then o.fid.value else o.txfid,
       txnewfid := if o.newfid.Some? then o.newfid.value else o.txnewfid,
       txafid := if o.afid.Some? then o.afid.value else o.txafid, stage := Queued)
  }

  function LocalMsg(o: Msg, err: bool): Msg { o.(err := err, stage := Delivered) }

  /** The ends of all branches. */
  lemma ViewEnds(r: State, t: State, c: nat, m: nat, now: map<nat, nat>, o: Msg, err: bool)
    requires View(r, t, c, m, now, o) && o.conn == Some(c)
    ensures View(r, Send(t, m), c, m, now, SentMsg(o)) && View(r, Local(t, m, err), c, m, now, LocalMsg(o, err))
  {
  }

  lemma ViewShaped(r: State, t: State, c: nat, m: nat, now: map<nat, nat>, o: Msg, tx: Tx, xafid: nat)
    requires View(r, t, c, m, now, o) && Grown(r, r.conns[c].fid, now)
    requires Shape(r, o, r.conns[c].fid, Asked(c, tx, r.conns[c].tag, now), xafid)
    ensures Shaped(r, t, c, m, tx, xafid) && m < |t.msgs| && t.msgs[m].stage == o.stage
    ensures C(r, c).fid == r.conns[c].fid && C(r, c).tag == r.conns[c].tag
  {
  }

  lemma FidShaped(r: State, c: nat, m: nat, tx: Tx, xafid: nat)
    requires Entered(r, c, m, tx) && HasFid(tx.kind) && tx.kind != Tattach && tx.kind != Twalk
    ensures Shaped(r, RecvFid(r, c, m, tx), c, m, tx, xafid) && Shaped(r, Local(r, m, true), c, m, tx, xafid)
    ensures !(tx.kind == Tcreate && tx.refuse) ==> Goes(r, RecvFid(r, c, m, tx), c, m, tx)
    ensures tx.kind == Tcreate && tx.refuse ==> Goes(r, Local(r, m, true), c, m, tx)
  {
    hide View, FidInc, SetMsg, Send, Local, Shaped, M;
    var was, o := r.conns[c].fid, r.msgs[m];
    assert View(r, r, c, m, was, o) by { ViewSelf(r, c, m); }
    ViewEnds(r, r, c, m, was, o, true);
    ViewShaped(r, Local(r, m, true), c, m, was, LocalMsg(o, true), tx, xafid);
    if tx.fid in was {
      var f := was[tx.fid];
      ViewInc(r, r, c, m, was, o, f);
      var v := o.(fid := Some(f));
      ViewSet(r, FidInc(r, f), c, m, was, o, v);
      ViewEnds(r, SetMsg(FidInc(r, f), m, v), c, m, was, v, true);
      ViewShaped(r, RecvFid(r, c, m, tx), c, m, was, SentMsg(v), tx, xafid);
    }
  }

  lemma ViewSelf(r: State, c: nat, m: nat)
    requires c < |r.conns| && m < |r.msgs|
    ensures View(r, r, c, m, r.conns[c].fid, r.msgs[m]) && FidsAs(r, r)
  {
  }

  lemma ViewOldm(r: State, t: State, c: nat, m: nat, now: map<nat, nat>, o: Msg, om: nat)
    requires View(r, t, c, m, now, o)
    ensures var v := M(IncRef(t, om), m).(oldm := Some(om));
            View(r, SetOldm(t, m, om), c, m, now, v) && v == o.(ref := v.ref, oldm := Some(om))
  {
  }

  lemma FlushShaped(r: State, c: nat, m: nat, tx: Tx, xafid: nat)
    requires Entered(r, c, m, tx) && (tx.kind == Tflush || tx.kind == Tversion)
    ensures Shaped(r, Local(r, m, false), c, m, tx, xafid) && Shaped(r, Local(r, m, true), c, m, tx, xafid)
    ensures tx.kind == Tflush ==>
              Shaped(r, RecvFlush(r, c, m, tx), c, m, tx, xafid) && Goes(r, RecvFlush(r, c, m, tx), c, m, tx)
    ensures tx.kind == Tversion ==> Goes(r, Local(r, m, false), c, m, tx)
  {
    hide View, IncRef, SetOldm, Send, Local, Shaped, M, Grown;
    var was, o := r.conns[c].fid, r.msgs[m];
    ViewSelf(r, c, m);
    GrownSelf(r, was);
    ViewEnds(r, r, c, m, was, o, true);
    ViewEnds(r, r, c, m, was, o, false);
    ViewShaped(r, Local(r, m, true), c, m, was, LocalMsg(o, true), tx, xafid);
    ViewShaped(r, Local(r, m, false), c, m, was, LocalMsg(o, false), tx, xafid);
    if tx.kind == Tflush && tx.oldtag in r.conns[c].tag {
      var om := r.conns[c].tag[tx.oldtag];
      var v := M(IncRef(r, om), m).(oldm := Some(om));
      ViewOldm(r, r, c, m, was, o, om);
      ViewEnds(r, SetOldm(r, m, om), c, m, was, v, true);
      ViewShaped(r, RecvFlush(r, c, m, tx), c, m, was, SentMsg(v), tx, xafid);
    }
  }

  /** A new fid goes into the table, unless the number is taken. */
  lemma NewShaped(r: State, t: State, c: nat, m: nat, o: Msg, v: Msg, k: nat, xafid: nat)
    requires c < |r.conns| && View(r, t, c, m, r.conns[c].fid, o) && FidsAs(r, t)
    ensures var (s2, f) := FidNew(t, k, xafid);
      Unused(r, f) && View(r, SetMsg(s2, m, v), c, m, r.conns[c].fid, v) && M(s2, m) == o &&
      C(SetMsg(s2, m, v), c).fid == r.conns[c].fid &&
      View(r, FidAdd(FidInc(SetMsg(s2, m, v), f), c, k, f), c, m, r.conns[c].fid[k := f], v)
  {
    hide View, FidInc, FidNew, FidAdd, SetMsg, M, C;
    var was := r.conns[c].fid;
    ViewNew(r, t, c, m, was, o, k, xafid);
    var (s2, f) := FidNew(t, k, xafid);
    ViewSet(r, s2, c, m, was, o, v);
    ViewInc(r, SetMsg(s2, m, v), c, m, was, v, f);
    ViewAdd(r, SetMsg(s2, m, v), c, m, was, v, k, f);
    ViewAdd(r, FidInc(SetMsg(s2, m, v), f), c, m, was, v, k, f);
  }

  lemma GrownAdd(r: State, was: map<nat, nat>, k: nat, f: nat)
    requires k !in was && Unused(r, f)
    ensures Grown(r, was, was[k := f])
  {
  }

  lemma AuthShape(r: State, c: nat, o: Msg, f: nat, was: map<nat, nat>, tags: map<nat, nat>, tx: Tx, xafid: nat)
    requires tx.kind == o.kind == Tauth && o.fid.None? && o.newfid.None? && Unused(r, f)
    ensures var v := o.(afid := Some(f));
      Shape(r, LocalMsg(v, true), was, Asked(c, tx, tags, was), xafid) &&
      Shape(r, SentMsg(v), was, Asked(c, tx, tags, was[tx.afid := f]), xafid)
  {
  }

  lemma AuthShaped(r: State, c: nat, m: nat, tx: Tx, xafid: nat)
    requires Entered(r, c, m, tx) && tx.kind == Tauth
    ensures Shaped(r, RecvAuth(r, c, m, tx, xafid), c, m, tx, xafid) && Shaped(r, Local(r, m, true), c, m, tx, xafid)
    ensures Goes(r, RecvAuth(r, c, m, tx, xafid), c, m, tx)
  {
    var was, o := r.conns[c].fid, r.msgs[m];
    hide View, FidInc, FidNew, FidAdd, SetMsg, Send, Local, Shaped, M, C, FidsAs, Grown, Unused;
    ViewSelf(r, c, m);
    assert Grown(r, was, was) by { GrownSelf(r, was); }
    ViewEnds(r, r, c, m, was, o, true);
    ViewShaped(r, Local(r, m, true), c, m, was, LocalMsg(o, true), tx, xafid);
    if !tx.refuse {
      var (s1, f) := FidNew(r, tx.afid, xafid);
      var v := o.(afid := Some(f));
      NewShaped(r, r, c, m, o, v, tx.afid, xafid);
      AuthShape(r, c, o, f, was, r.conns[c].tag, tx, xafid);
      hide Shape;
      var s2 := SetAfid(s1, m, f);
      if tx.afid in was {
        ViewEnds(r, s2, c, m, was, v, true);
        ViewShaped(r, RecvAuth(r, c, m, tx, xafid), c, m, was, LocalMsg(v, true), tx, xafid);
      } else {
        var now := was[tx.afid := f];
        GrownAdd(r, was, tx.afid, f);
        ViewEnds(r, FidAdd(FidInc(s2, f), c, tx.afid, f), c, m, now, v, true);
        ViewShaped(r, RecvAuth(r, c, m, tx, xafid), c, m, now, SentMsg(v), tx, xafid);
      }
    }
  }

  lemma GrownSelf(r: State, was: map<nat, nat>)
    ensures Grown(r, was, was)
  {
  }

  lemma WalkShape(r: State, c: nat, o: Msg, was: map<nat, nat>, tags: map<nat, nat>, tx: Tx, xafid: nat)
    requires tx.kind == o.kind == Twalk && o.afid.None? && tx.fid == tx.newfid && tx.fid in was
    ensures var f := was[tx.fid];
            Shape(r, SentMsg(o.(fid := Some(f), newfid := Some(f))), was, Asked(c, tx, tags, was), xafid)
  {
  }

  lemma WalkShaped(r: State, c: nat, m: nat, tx: Tx, xafid: nat)
    requires Entered(r, c, m, tx) && tx.kind == Twalk
    ensures Shaped(r, RecvWalk(r, c, m, tx, xafid), c, m, tx, xafid) && Shaped(r, Local(r, m, true), c, m, tx, xafid)
    ensures Goes(r, RecvWalk(r, c, m, tx, xafid), c, m, tx)
  {
    var was, o := r.conns[c].fid, r.msgs[m];
    hide View, FidInc, FidNew, FidAdd, SetMsg, Send, Local, Shaped, M, FidsAs, Grown;
    ViewSelf(r, c, m);
    GrownSelf(r, was);
    ViewEnds(r, r, c, m, was, o, true);
    ViewShaped(r, Local(r, m, true), c, m, was, LocalMsg(o, true), tx, xafid);
    if tx.fid in was {
      var f := was[tx.fid];
      ViewInc(r, r, c, m, was, o, f);
      var v := o.(fid := Some(f));
      ViewSet(r, FidInc(r, f), c, m, was, o, v);
      var s1 := SetFid(FidInc(r, f), m, f);
      assert View(r, s1, c, m, was, v) && FidsAs(r, s1);
      hide SetFid;
      if tx.newfid == tx.fid {
        WalkShape(r, c, o, was, r.conns[c].tag, tx, xafid);
        hide Shape;
        ViewInc(r, s1, c, m, was, v, f);
        var u := v.(newfid := Some(f));
        ViewSet(r, FidInc(s1, f), c, m, was, v, u);
        ViewEnds(r, SetNewfid(FidInc(s1, f), m, f), c, m, was, u, true);
        ViewShaped(r, RecvWalk(r, c, m, tx, xafid), c, m, was, SentMsg(u), tx, xafid);
      } else {
        WalkNew(r, s1, c, m, v, tx, xafid);
      }
    }
  }

  lemma WalkNewShape(r: State, c: nat, v: Msg, g: nat, was: map<nat, nat>, tags: map<nat, nat>, tx: Tx, xafid: nat)
    requires tx.kind == v.kind == Twalk && v.afid.None? && tx.fid != tx.newfid && tx.fid in was && Unused(r, g)
    requires v.fid == Some(was[tx.fid]) && v.txfid == tx.fid && v.txnewfid == tx.newfid
    ensures var u := v.(newfid := Some(g)); Shape(r, LocalMsg(u, true), was, Asked(c, tx, tags, was), xafid)
    ensures var u := v.(newfid := Some(g)); tx.newfid !in was ==>
              Shape(r, SentMsg(u), was, Asked(c, tx, tags, was[tx.newfid := g]), xafid)
  {
  }

  lemma WalkNew(r: State, s1: State, c: nat, m: nat, v: Msg, tx: Tx, xafid: nat)
    requires c < |r.conns| && m < |r.msgs| && tx.kind == Twalk && tx.fid != tx.newfid && tx.fid in r.conns[c].fid
    requires var f := r.conns[c].fid[tx.fid]; s1 == SetFid(FidInc(r, f), m, f)
    requires View(r, s1, c, m, r.conns[c].fid, v) && FidsAs(r, s1)
    requires v == r.msgs[m].(fid := Some(r.conns[c].fid[tx.fid])) && v.conn == Some(c) && v.newfid.None? && v.afid.None?
    requires v.kind == Twalk && v.txfid == tx.fid && v.txnewfid == tx.newfid
    ensures Shaped(r, RecvWalk(r, c, m, tx, xafid), c, m, tx, xafid) && Goes(r, RecvWalk(r, c, m, tx, xafid), c, m, tx)
  {
    var was := r.conns[c].fid;
    hide View, FidInc, FidNew, FidAdd, SetMsg, Send, Local, Shaped, M, FidsAs, Grown, SetFid;
    var (s2, g) := FidNew(s1, tx.newfid, xafid);
    var u := v.(newfid := Some(g));
    NewShaped(r, s1, c, m, v, u, tx.newfid, xafid);
    WalkNewShape(r, c, v, g, was, r.conns[c].tag, tx, xafid);
    hide Shape, Unused;
    var s3 := SetNewfid(s2, m, g);
    GrownSelf(r, was);
    if tx.newfid in was {
      ViewEnds(r, s3, c, m, was, u, true);
      ViewShaped(r, RecvWalk(r, c, m, tx, xafid), c, m, was, LocalMsg(u, true), tx, xafid);
    } else {
      var now := was[tx.newfid := g];
      GrownAdd(r, was, tx.newfid, g);
      ViewEnds(r, FidAdd(FidInc(s3, g), c, tx.newfid, g), c, m, now, u, true);
      ViewShaped(r, RecvWalk(r, c, m, tx, xafid), c, m, now, SentMsg(u), tx, xafid);
    }
  }

  lemma AttachShaped(r: State, c: nat, m: nat, tx: Tx, xafid: nat)
    requires Entered(r, c, m, tx) && tx.kind == Tattach && r.msgs[m].txafid == tx.afid
    ensures Shaped(r, RecvAttach(r, c, m, tx, xafid), c, m, tx, xafid) && Shaped(r, Local(r, m, true), c, m, tx, xafid)
    ensures Goes(r, RecvAttach(r, c, m, tx, xafid), c, m, tx)
  {
    var was, o := r.conns[c].fid, r.msgs[m];
    hide View, FidInc, FidNew, FidAdd, SetMsg, Send, Local, Shaped, M, FidsAs, Grown, Attach;
    ViewSelf(r, c, m);
    GrownSelf(r, was);
    ViewEnds(r, r, c, m, was, o, true);
    ViewShaped(r, Local(r, m, true), c, m, was, LocalMsg(o, true), tx, xafid);
    var own := tx.attached && tx.afid == NOFID;
    var v := if own then o.(txafid := xafid) else o;
    ViewSet(r, r, c, m, was, o, v);
    AttachFid(r, if own then SetTxAfid(r, m, xafid) else r, c, m, v, tx, xafid);
  }

  /** The afid, if one is named, and then the fid. */
  lemma AttachFid(r: State, t: State, c: nat, m: nat, v: Msg, tx: Tx, xafid: nat)
    requires c < |r.conns| && View(r, t, c, m, r.conns[c].fid, v) && FidsAs(r, t) && tx.kind == Tattach
    requires v.conn == Some(c) && v.fid.None? && v.newfid.None? && v.afid.None? && v.kind == Tattach && v.oldm.None?
    requires v.txafid == if tx.attached && tx.afid == NOFID then xafid else tx.afid
    ensures Shaped(r, Attach(t, c, m, tx, xafid), c, m, tx, xafid) && Goes(r, Attach(t, c, m, tx, xafid), c, m, tx)
  {
    var was := r.conns[c].fid;
    assert C(t, c).fid == was;
    hide View, FidInc, FidNew, FidAdd, SetMsg, Send, Local, Shaped, M, FidsAs, Grown;
    GrownSelf(r, was);
    if tx.afid == NOFID {
      AttachNew(r, t, t, c, m, v, tx, xafid);
    } else if tx.afid !in was {
      ViewEnds(r, t, c, m, was, v, true);
      ViewShaped(r, Local(t, m, true), c, m, was, LocalMsg(v, true), tx, xafid);
    } else {
      var f := was[tx.afid];
      ViewInc(r, t, c, m, was, v, f);
      var u := v.(afid := Some(f));
      ViewSet(r, FidInc(t, f), c, m, was, v, u);
      AttachNew(r, t, SetAfid(FidInc(t, f), m, f), c, m, u, tx, xafid);
    }
  }

  lemma AttachShape(r: State, c: nat, v: Msg, f: nat, was: map<nat, nat>, tags: map<nat, nat>, tx: Tx, xafid: nat)
    requires tx.kind == v.kind == Tattach && v.newfid.None? && Unused(r, f) && (tx.afid != NOFID ==> tx.afid in was)
    requires v.afid == if tx.afid == NOFID then None else Some(was[tx.afid])
    requires v.txafid == if tx.attached && tx.afid == NOFID then xafid else tx.afid
    ensures var u := v.(fid := Some(f)); Shape(r, LocalMsg(u, true), was, Asked(c, tx, tags, was), xafid)
    ensures var u := v.(fid := Some(f)); tx.fid !in was ==>
              Shape(r, LocalMsg(u, true), was, Asked(c, tx, tags, was[tx.fid := f]), xafid) &&
              Shape(r, SentMsg(u), was, Asked(c, tx, tags, was[tx.fid := f]), xafid)
  {
  }

  lemma AttachNew(r: State, t: State, s1: State, c: nat, m: nat, v: Msg, tx: Tx, xafid: nat)
    requires c < |r.conns| && View(r, s1, c, m, r.conns[c].fid, v) && FidsAs(r, s1) && tx.kind == Tattach
    requires C(t, c).fid == r.conns[c].fid && (tx.afid != NOFID ==> tx.afid in r.conns[c].fid)
    requires s1 == if tx.afid == NOFID then t
                   else SetAfid(FidInc(t, r.conns[c].fid[tx.afid]), m, r.conns[c].fid[tx.afid])
    requires v.conn == Some(c) && v.fid.None? && v.newfid.None? && v.kind == Tattach
    requires v.afid == if tx.afid == NOFID then None else Some(r.conns[c].fid[tx.afid])
    requires v.txafid == if tx.attached && tx.afid == NOFID then xafid else tx.afid
    ensures Shaped(r, Attach(t, c, m, tx, xafid), c, m, tx, xafid) && Goes(r, Attach(t, c, m, tx, xafid), c, m, tx)
  {
    var was := r.conns[c].fid;
    hide View, FidInc, FidNew, FidAdd, SetMsg, Send, Local, Shaped, M, FidsAs, Grown, SetAfid, Unused;
    var (s2, f) := FidNew(s1, tx.fid, xafid);
    var u := v.(fid := Some(f));
    NewShaped(r, s1, c, m, v, u, tx.fid, xafid);
    AttachShape(r, c, v, f, was, r.conns[c].tag, tx, xafid);
    hide Shape;
    var s3 := SetFid(s2, m, f);
    GrownSelf(r, was);
    if tx.fid in was {
      ViewEnds(r, s3, c, m, was, u, true);
      ViewShaped(r, Attach(t, c, m, tx, xafid), c, m, was, LocalMsg(u, true), tx, xafid);
    } else {
      var now := was[tx.fid := f];
      GrownAdd(r, was, tx.fid, f);
      ViewEnds(r, FidAdd(FidInc(s3, f), c, tx.fid, f), c, m, now, u, true);
      if Misnamed(tx) {
        ViewShaped(r, Attach(t, c, m, tx, xafid), c, m, now, LocalMsg(u, true), tx, xafid);
      } else {
        ViewShaped(r, Attach(t, c, m, tx, xafid), c, m, now, SentMsg(u), tx, xafid);
      }
    }
  }

  /** The request as it is entered: the message, the log and what stays. */
  lemma EnterShape(s: State, c: nat, h: Hdr, m: nat)
    requires c < |s.conns| && m == Enter(s, c, h).1 && m < |Enter(s, c, h).0.msgs|
    ensures var r := Enter(s, c, h).0;
      |r.conns| == |s.conns| && r.freef == s.freef && r.fids == s.fids &&
      r.log == s.log + [Asked(c, h.tx, s.conns[c].tag, s.conns[c].fid)] &&
      (forall x: nat :: x < |s.conns| ==> r.conns[x].fid == s.conns[x].fid && r.conns[x].tag == s.conns[x].tag) &&
      r.msgs[m].txfid == h.tx.fid && r.msgs[m].txnewfid == h.tx.newfid && r.msgs[m].txafid == h.tx.afid
  {
    hide MsgNew;
    MsgNewShape(s);
  }

  lemma MsgNewShape(s: State)
    ensures var r := MsgNew(s).0; r.conns == s.conns && r.freef == s.freef && r.fids == s.fids && r.log == s.log
  {
  }

  /** State b has the tables and fids of s, the request tx logged, and the message entered. */
  ghost predicate Base(s: State, b: State, c: nat, m: nat, tx: Tx)
  {
    Entered(b, c, m, tx) && b.msgs[m].txafid == tx.afid && |b.conns| == |s.conns| && b.freef == s.freef &&
    b.fids == s.fids && |b.log| == |s.log| + 1 && s.log <= b.log && b.log[|s.log|].c == c && b.log[|s.log|].tx == tx &&
    (forall x: nat :: x < |s.conns| ==> b.conns[x].fid == s.conns[x].fid)
  }

  lemma EnterBase(s: State, c: nat, tx: Tx, xafid: nat)
    requires Inv(s, xafid) && c < |s.conns| && s.conns[c].pc.Reading?
    ensures var (s1, m) := Enter(s, c, Hdr(false, tx));
      Base(s, s1, c, m, tx) && Base(s, TagAdd(IncRef(s1, m), c, tx.tag, m), c, m, tx)
  {
    hide Inv, Enter, NinePHold.K;
    var h := Hdr(false, tx);
    NinePRecv.EnterDraft(s, c, h, xafid);
    var (s1, m) := Enter(s, c, h);
    EnterShape(s, c, h, m);
    DraftConn(s, s1, c, m);
    assert Base(s, s1, c, m, tx) by { hide NinePRecv.Draft; }
    hide NinePRecv.Draft;
    BaseTag(s, s1, c, m, tx);
  }

  lemma BaseTag(s: State, b: State, c: nat, m: nat, tx: Tx)
    requires Base(s, b, c, m, tx)
    ensures Base(s, TagAdd(IncRef(b, m), c, tx.tag, m), c, m, tx)
  {
  }

  lemma DispatchShaped(b: State, c: nat, m: nat, tx: Tx, xafid: nat)
    requires Entered(b, c, m, tx) && b.msgs[m].txafid == tx.afid
    ensures Shaped(b, Dispatch(b, c, m, tx, xafid), c, m, tx, xafid) && Shaped(b, Local(b, m, true), c, m, tx, xafid)
    ensures Goes(b, Dispatch(b, c, m, tx, xafid), c, m, tx)
  {
    hide Entered, Shaped, Local, RecvFid, RecvFlush, RecvAttach, RecvWalk, RecvAuth, Goes;
    match tx.kind
    case Tversion => FlushShaped(b, c, m, tx, xafid);
    case Tflush => FlushShaped(b, c, m, tx, xafid);
    case Tattach => AttachShaped(b, c, m, tx, xafid);
    case Twalk => WalkShaped(b, c, m, tx, xafid);
    case Tauth => AuthShaped(b, c, m, tx, xafid);
    case _ => FidShaped(b, c, m, tx, xafid);
  }

  lemma UnusedNotHeld(s: State, f: nat, xafid: nat)
    requires Inv(s, xafid) && Unused(s, f)
    ensures NotHeld(s, f) && InNoTable(s, f)
  {
    hide Inv, Unused;
    UnusedUnnamed(s, f, xafid);
    UnnamedNoTable(s, f);
    forall m: nat | m < |s.msgs| ensures !Has(s.msgs[m], f) {
      if s.msgs[m].fid == Some(f) {
        CountHas(s.msgs, m, FidIs(f));
      }
      if s.msgs[m].newfid == Some(f) {
        CountHas(s.msgs, m, NewfidIs(f));
      }
      if s.msgs[m].afid == Some(f) {
        CountHas(s.msgs, m, AfidIs(f));
      }
    }
  }

  /** What the shape of the base says of the state before. */
  ghost predicate TookIn(s: State, r: State, c: nat, m: nat, xafid: nat)
  {
    c < |s.conns| == |r.conns| && m < |r.msgs| && |r.log| == |s.log| + 1 &&
    (forall x: nat :: x < |s.conns| && x != c ==> r.conns[x].fid == s.conns[x].fid) &&
    Grown(s, s.conns[c].fid, r.conns[c].fid) && r.log[|s.log|].fids == r.conns[c].fid &&
    r.log[|s.log|].tags == r.conns[c].tag && r.log[|s.log|].c == c &&
    Shape(s, r.msgs[m], s.conns[c].fid, r.log[|s.log|], xafid)
  }

  lemma RecvTook(s: State, c: nat, tx: Tx, xafid: nat)
    requires Inv(s, xafid) && c < |s.conns| && s.conns[c].pc.Reading?
    ensures var r := Recv(s, c, tx, xafid);
            TookIn(s, r, c, Enter(s, c, Hdr(false, tx)).1, xafid) && r.log[|s.log|].tx == tx && s.log <= r.log
  {
    hide Inv, Enter, Dispatch, TagAdd, IncRef, Base, Local, Shaped, Noted;
    EnterBase(s, c, tx, xafid);
    var (s1, m) := Enter(s, c, Hdr(false, tx));
    var b := if tx.tag in C(s1, c).tag then s1 else TagAdd(IncRef(s1, m), c, tx.tag, m);
    assert Base(s, b, c, m, tx);
    BaseEntered(s, b, c, m, tx);
    DispatchShaped(b, c, m, tx, xafid);
    ShapedTook(s, b, TakeIn(s, c, tx, xafid), c, m, tx, xafid);
  }

  lemma BaseEntered(s: State, b: State, c: nat, m: nat, tx: Tx)
    requires Base(s, b, c, m, tx)
    ensures Entered(b, c, m, tx) && b.msgs[m].txafid == tx.afid && c < |b.conns|
  {
  }

  lemma SameUnused(s: State, b: State, o: Msg, was: map<nat, nat>, now: map<nat, nat>, e: Asked, xafid: nat)
    requires b.freef == s.freef && b.fids == s.fids
    ensures Grown(b, was, now) ==> Grown(s, was, now)
    ensures Shape(b, o, was, e, xafid) ==> Shape(s, o, was, e, xafid)
  {
    assert forall f :: Unused(b, f) <==> Unused(s, f);
    hide Unused, Translated, Carries, Gives;
  }

  lemma ShapedTook(s: State, b: State, t: State, c: nat, m: nat, tx: Tx, xafid: nat)
    requires c < |s.conns| && Base(s, b, c, m, tx) && c < |b.conns| && Shaped(b, t, c, m, tx, xafid)
    ensures var r := Noted(t, c); TookIn(s, r, c, m, xafid) && r.log[|s.log|].tx == tx && s.log <= r.log
  {
    hide Shape, Grown, Entered;
    var r := Noted(t, c);
    assert r == t.(log := r.log) && r.log[|s.log|] == Asked(c, tx, t.conns[c].tag, t.conns[c].fid);
    SameUnused(s, b, t.msgs[m], s.conns[c].fid, t.conns[c].fid, r.log[|s.log|], xafid);
  }

  // ----- the new message is right --------------------------------------------------------

  lemma GotFrom(s: State, c: nat, now: map<nat, nat>, k: nat, f: nat, xafid: nat)
    requires Inv(s, xafid) && c < |s.conns| && Got(s, s.conns[c].fid, now, k, f)
    ensures FidFrom(s, c, f)
  {
    hide Inv, Unused, NotHeld;
    if Gives(s.conns[c].fid, k, f) {
    } else {
      UnusedNotHeld(s, f, xafid);
    }
  }

  /** Where the tables have a fid that the request got, it is under the request's number. */
  lemma GotPlaced(s: State, r: State, c: nat, m: nat, k: nat, f: nat, x: nat, l: nat, xafid: nat)
    requires Inv(s, xafid) && TookIn(s, r, c, m, xafid) && Owned(r)
    requires Got(s, s.conns[c].fid, r.conns[c].fid, k, f)
    requires x < |r.conns| && l in r.conns[x].fid && r.conns[x].fid[l] == f
    ensures x == c && l == k
  {
    hide Inv, Unused, Shape, Grown;
    if !Gives(r.conns[c].fid, k, f) {
      UnusedNotHeld(s, f, xafid);
    }
  }

  lemma TookUnder(s: State, r: State, c: nat, m: nat, xafid: nat)
    requires Inv(s, xafid) && TookIn(s, r, c, m, xafid) && Owned(r) && r.msgs[m].conn == Some(c)
    ensures Under(r, r.log[|s.log|], r.msgs[m])
  {
    hide Inv, Owned, Got, TookIn;
    TookGot(s, r, c, m, xafid);
    var e, o := r.log[|s.log|], r.msgs[m];
    forall x: nat, l | x < |r.conns| && l in r.conns[x].fid ensures Placed(e, o, x, l, r.conns[x].fid[l]) {
      var f := r.conns[x].fid[l];
      if o.fid == Some(f) {
        GotPlaced(s, r, c, m, e.tx.fid, f, x, l, xafid);
      }
      if o.newfid == Some(f) {
        GotPlaced(s, r, c, m, e.tx.newfid, f, x, l, xafid);
      }
      if o.afid == Some(f) {
        GotPlaced(s, r, c, m, e.tx.afid, f, x, l, xafid);
      }
    }
  }

  lemma TookGot(s: State, r: State, c: nat, m: nat, xafid: nat)
    requires TookIn(s, r, c, m, xafid)
    ensures c < |s.conns| == |r.conns| && m < |r.msgs| && |r.log| == |s.log| + 1
    ensures var e, o, was, now := r.log[|s.log|], r.msgs[m], s.conns[c].fid, r.conns[c].fid;
      (o.fid.Some? ==> Got(s, was, now, e.tx.fid, o.fid.value)) &&
      (o.newfid.Some? ==> Got(s, was, now, e.tx.newfid, o.newfid.value)) &&
      (o.afid.Some? ==> Got(s, was, now, e.tx.afid, o.afid.value))
  {
    hide Got, Grown, Translated, Carries;
  }

  /** A walk to another number has two fids. */
  lemma TookWalk(s: State, r: State, c: nat, m: nat, xafid: nat)
    requires Inv(s, xafid) && TookIn(s, r, c, m, xafid)
    ensures var o, e := r.msgs[m], r.log[|s.log|]; o.kind == Twalk && o.newfid.Some? ==>
              (o.txfid == o.txnewfid <==> o.fid == o.newfid) && (e.tx.fid == e.tx.newfid <==> o.fid == o.newfid)
  {
    hide Inv, Unused, Got, Grown, Translated, Carries;
    var o, e := r.msgs[m], r.log[|s.log|];
    if o.kind == Twalk && o.newfid.Some? && e.tx.fid != e.tx.newfid {
      UnusedNotHeld(s, o.newfid.value, xafid);
    }
  }

  lemma TookNew(s: State, r: State, c: nat, m: nat, xafid: nat)
    requires Inv(s, xafid) && TookIn(s, r, c, m, xafid) && Owned(r) && Join(s, r, c, m)
    ensures NewOk(s, r, m, xafid)
  {
    hide Inv, Owned, Under, Got, FidFrom, Grown;
    var o := r.msgs[m];
    assert o.conn == Some(c) && o.serial == |s.log| && o.stage in {Queued, Delivered};
    hide Join;
    TookUnder(s, r, c, m, xafid);
    TookWalk(s, r, c, m, xafid);
    TookGot(s, r, c, m, xafid);
    forall f: nat | Has(o, f) ensures FidFrom(s, c, f) {
      var e, now := r.log[|s.log|], r.conns[c].fid;
      if o.fid == Some(f) {
        GotFrom(s, c, now, e.tx.fid, f, xafid);
      } else if o.newfid == Some(f) {
        GotFrom(s, c, now, e.tx.newfid, f, xafid);
      } else {
        GotFrom(s, c, now, e.tx.afid, f, xafid);
      }
    }
  }

  lemma TookTables(s: State, r: State, c: nat, m: nat, xafid: nat)
    requires Inv(s, xafid) && TookIn(s, r, c, m, xafid)
    ensures TablesNew(s, r)
  {
    hide Inv, Unused, Shape, NotHeld;
    forall x: nat, k | x < |r.conns| && k in r.conns[x].fid
      ensures (x < |s.conns| && Gives(s.conns[x].fid, k, r.conns[x].fid[k])) || NotHeld(s, r.conns[x].fid[k])
    {
      if x == c && !Gives(s.conns[c].fid, k, r.conns[c].fid[k]) {
        UnusedNotHeld(s, r.conns[c].fid[k], xafid);
      }
    }
  }

  lemma RecvWire(s: State, c: nat, tx: Tx, xafid: nat)
    requires Inv(s, xafid) && Owned(s) && Wire(s, xafid) && Enabled(s, SRecv(c, tx))
    ensures Wire(Recv(s, c, tx, xafid), xafid)
  {
    hide Inv, Owned, Wire, Recv, Enter, Join, TookIn, NewOk, TablesNew, NearBut;
    var m, r := Enter(s, c, Hdr(false, tx)).1, Recv(s, c, tx, xafid);
    NinePRecv.RecvInv(s, c, tx, xafid);
    RecvOwned(s, c, tx, xafid);
    RecvTook(s, c, tx, xafid);
    TookNew(s, r, c, m, xafid);
    TookTables(s, r, c, m, xafid);
    StaysJoin(s, r, c, m);
    WireKept(s, r, {m}, false, xafid);
  }

  lemma StaysJoin(s: State, r: State, c: nat, m: nat)
    requires Join(s, r, c, m)
    ensures Stays(s, r, {m}, false)
  {
    JoinNear(s, r, c, m);
  }
}
