/** Taking in a client's request keeps the invariant. */
module NinePRecv {
  import opened NinePState
  import opened NinePStep
  import opened NinePInv
  import opened NinePPut
  import opened NinePCnt
  import opened NinePEnter
  import opened NinePHold
  import opened NinePJoin

  /** In the middle of taking in a request: the message is new, and in the tag table if tagged. */
  ghost predicate Draft(s: State, r: State, c: nat, m: nat, tagged: bool)
  {
    JoinMsgs(s, r, m) && c < |s.conns| && |r.conns| == |s.conns| && s.conns[c].pc.Reading? &&
    (m < |s.msgs| ==> Clean(s.msgs[m])) &&
    var o := r.msgs[m];
    o.conn == Some(c) && o.serial == |s.log| && o.stage == Fresh && !o.internal && o.ref > 0 &&
    (tagged ==> o.ctag !in s.conns[c].tag) &&
    (forall x: nat :: x < |s.conns| && x != c ==> r.conns[x] == s.conns[x]) &&
    r.conns[c] == s.conns[c].(tag := if tagged then s.conns[c].tag[o.ctag := m] else s.conns[c].tag,
                              fid := r.conns[c].fid, nmsg := r.conns[c].nmsg) &&
    r.outq == s.outq && r.out == s.out && r.pend == s.pend && r.replies == s.replies && r.answers == s.answers &&
    LogNext(s, r, c) && r.log[|s.log|].tx.tag == o.ctag && r.refused == s.refused
  }

  /** The request without links yet. */
  ghost predicate Blank(o: Msg) { o.oldm.None? && o.fid.None? && o.newfid.None? && o.afid.None? }

  /** The request is taken in: its reference has been passed on. */
  ghost predicate Done(s: State, r: State, c: nat, m: nat, xafid: nat)
  {
    Join(s, r, c, m) && K(r, multiset{}, multiset{}, xafid)
  }

  lemma DraftMsg(s: State, r: State, c: nat, m: nat, tagged: bool, v: Msg)
    requires Draft(s, r, c, m, tagged) &&
             v == r.msgs[m].(fid := v.fid, newfid := v.newfid, afid := v.afid, oldm := v.oldm, ref := v.ref) &&
             v.ref > 0
    ensures Draft(s, SetMsg(r, m, v), c, m, tagged)
  {
  }

  lemma DraftFids(s: State, r: State, t: State, c: nat, m: nat, tagged: bool)
    requires Draft(s, r, c, m, tagged) && t == r.(fids := t.fids, freef := t.freef)
    ensures Draft(s, t, c, m, tagged)
  {
  }

  lemma DraftFidAdd(s: State, r: State, c: nat, m: nat, tagged: bool, k: nat, f: nat)
    requires Draft(s, r, c, m, tagged)
    ensures Draft(s, FidAdd(r, c, k, f), c, m, tagged)
  {
  }

  lemma DraftLocal(s: State, r: State, c: nat, m: nat, tagged: bool, err: bool, xafid: nat)
    requires Draft(s, r, c, m, tagged) && K(r, multiset{m}, multiset{}, xafid)
    requires r.msgs[m].oldm.None?
    ensures Done(s, Local(r, m, err), c, m, xafid)
  {
    hide Cnt, FidsOk;
    LocalK(r, m, err, multiset{m}, multiset{}, xafid);
    assert multiset{m} - multiset{m} == multiset{};
    var t := Local(r, m, err);
  }

  lemma DraftSent(s: State, r: State, c: nat, m: nat)
    requires Draft(s, r, c, m, true) && FidsOk(Send(r, m))
    requires r.msgs[m].oldm.Some? ==>
               r.msgs[m].kind == Tflush && r.msgs[m].oldm.value != m && ClientMsg(s, c, r.msgs[m].oldm.value)
    requires r.msgs[m].kind in {Topen, Tcreate} ==> r.msgs[m].fid.Some?
    ensures Join(s, Send(r, m), c, m)
  {
    hide FidsOk;
    var t := Send(r, m);
    assert JoinMsgs(s, t, m) && JoinMsg(s, c, m, t.msgs[m]);
    hide JoinMsgs, JoinMsg;
    assert JoinConn(s, t, c, m);
    assert Waits(t, m);
  }

  lemma DraftSend(s: State, r: State, c: nat, m: nat, xafid: nat)
    requires Draft(s, r, c, m, true) && K(r, multiset{m}, multiset{}, xafid)
    requires r.msgs[m].oldm.Some? ==>
               r.msgs[m].kind == Tflush && r.msgs[m].oldm.value != m && ClientMsg(s, c, r.msgs[m].oldm.value)
    requires r.msgs[m].kind in {Topen, Tcreate} ==> r.msgs[m].fid.Some?
    ensures Done(s, Send(r, m), c, m, xafid)
  {
    hide Cnt, FidsOk, Join, Send;
    SendK(r, m, multiset{m}, multiset{}, xafid);
    assert multiset{m} - multiset{m} == multiset{};
    DraftSent(s, r, c, m);
  }

  // ----- the kinds of request ------------------------------------------------------------

  /** A fid in a connection's table is held. */
  lemma TableLive(s: State, c: nat, k: nat, xm: multiset<nat>, xf: multiset<nat>, xafid: nat)
    requires K(s, xm, xf, xafid) && c < |s.conns| && k in s.conns[c].fid
    ensures IsFid(s, s.conns[c].fid[k]) && s.fids[s.conns[c].fid[k]].ref > 0
  {
    var f := s.conns[c].fid[k];
    CountHas(s.conns, c, TableHas(s.fids[f].cfid, f));
    assert s.fids[f].ref == FidHeld(s, f) + xf[f];
  }

  /** A message in a connection's tag table is held. */
  lemma TagLive(s: State, m: nat, xm: multiset<nat>, xf: multiset<nat>, xafid: nat)
    requires Cnt(s, xm, xf, {}, xafid) && m < |s.msgs| && s.msgs[m].conn.Some? && s.msgs[m].conn.value < |s.conns|
    requires InTags(s.conns[s.msgs[m].conn.value], s.msgs[m].ctag, m)
    ensures s.msgs[m].ref > 0
  {
    assert s.msgs[m].ref == Held(s, m) + xm[m];
  }

  lemma RecvFidDone(s: State, r: State, c: nat, m: nat, tx: Tx, xafid: nat)
    requires Draft(s, r, c, m, true) && K(r, multiset{m}, multiset{}, xafid) && Blank(r.msgs[m]) &&
             r.msgs[m].kind == tx.kind
    ensures Done(s, RecvFid(r, c, m, tx), c, m, xafid)
  {
    hide K, Join;
    if tx.fid !in r.conns[c].fid {
      DraftLocal(s, r, c, m, true, true, xafid);
    } else {
      var f := r.conns[c].fid[tx.fid];
      TableLive(r, c, tx.fid, multiset{m}, multiset{}, xafid);
      FidIncK(r, f, multiset{m}, multiset{}, xafid);
      var r1 := FidInc(r, f);
      DraftFids(s, r, r1, c, m, true);
      var v := r1.msgs[m].(fid := Some(f));
      LinkFidK(r1, m, v, f, multiset{m}, multiset{} + multiset{f}, xafid);
      assert multiset{} + multiset{f} - multiset{f} == multiset{};
      DraftMsg(s, r1, c, m, true, v);
      DraftSend(s, SetMsg(r1, m, v), c, m, xafid);
    }
  }

  lemma RecvFlushDone(s: State, r: State, c: nat, m: nat, tx: Tx, xafid: nat)
    requires Links(s) && Draft(s, r, c, m, true) && K(r, multiset{m}, multiset{}, xafid) && Blank(r.msgs[m]) &&
             r.msgs[m].kind == Tflush
    requires r.msgs[m].ctag == tx.tag && tx.oldtag != tx.tag
    ensures Done(s, RecvFlush(r, c, m, tx), c, m, xafid)
  {
    assert ConnLinks(s, c);
    hide K, Join;
    if tx.oldtag !in r.conns[c].tag {
      DraftLocal(s, r, c, m, true, false, xafid);
    } else {
      var om := s.conns[c].tag[tx.oldtag];
      assert ClientMsg(s, c, om) && om != m && s.msgs[om].ctag == tx.oldtag;
      assert InTags(r.conns[c], r.msgs[om].ctag, om);
      KCnt(r, multiset{m}, multiset{}, xafid);
      TagLive(r, om, multiset{m}, multiset{}, xafid);
      SetOldmK(r, m, om, multiset{m}, multiset{}, xafid);
      DraftOldm(s, r, c, m, om);
      DraftSend(s, SetOldm(r, m, om), c, m, xafid);
    }
  }

  lemma KCnt(s: State, xm: multiset<nat>, xf: multiset<nat>, xafid: nat)
    requires K(s, xm, xf, xafid)
    ensures Cnt(s, xm, xf, {}, xafid) && FidsOk(s)
  {
  }

  lemma DraftOldm(s: State, r: State, c: nat, m: nat, om: nat)
    requires Draft(s, r, c, m, true) && om != m && om < |s.msgs|
    ensures Draft(s, SetOldm(r, m, om), c, m, true) && SetOldm(r, m, om).msgs[m] == r.msgs[m].(oldm := Some(om))
  {
  }

  /** A new fid, linked to the request and, when its number is free, entered in the table. */
  /** Fid f linked to the request in one of three places. */
  function Linked(r: State, m: nat, f: nat, which: int): State
  {
    if which == 0 then SetFid(r, m, f) else if which == 1 then SetNewfid(r, m, f) else SetAfid(r, m, f)
  }

  lemma LinkedDraft(s: State, r: State, c: nat, m: nat, f: nat, which: int, xafid: nat)
    requires Draft(s, r, c, m, true) && K(r, multiset{m}, multiset{} + multiset{f}, xafid) && 0 <= which <= 2
    requires (which == 0 ==> r.msgs[m].fid.None?) && (which == 1 ==> r.msgs[m].newfid.None?) &&
             (which == 2 ==> r.msgs[m].afid.None?)
    ensures var t := Linked(r, m, f, which);
      t == r.(msgs := t.msgs) && Draft(s, t, c, m, true) && K(t, multiset{m}, multiset{}, xafid) &&
      t.msgs[m].oldm == r.msgs[m].oldm && t.msgs[m].kind == r.msgs[m].kind
  {
    hide K;
    var o := r.msgs[m];
    var v := if which == 0 then o.(fid := Some(f)) else if which == 1 then o.(newfid := Some(f))
    else o.(afid := Some(f));
    LinkFidK(r, m, v, f, multiset{m}, multiset{} + multiset{f}, xafid);
    assert multiset{} + multiset{f} - multiset{f} == multiset{};
    DraftMsg(s, r, c, m, true, v);
  }

  /** A fid the request holds, entered in the connection's table. */
  lemma EnteredDraft(s: State, r: State, c: nat, m: nat, cfid: nat, f: nat, xafid: nat)
    requires Draft(s, r, c, m, true) && K(r, multiset{m}, multiset{}, xafid) && IsFid(r, f) &&
             r.fids[f] == Fid(1, cfid) && cfid !in r.conns[c].fid
    ensures var t := FidAdd(FidInc(r, f), c, cfid, f);
      t.msgs == r.msgs && Draft(s, t, c, m, true) && K(t, multiset{m}, multiset{}, xafid)
  {
    hide K;
    FidIncK(r, f, multiset{m}, multiset{}, xafid);
    var t := FidInc(r, f);
    FidAddK(t, c, cfid, f, multiset{m}, multiset{} + multiset{f}, xafid);
    assert multiset{} + multiset{f} - multiset{f} == multiset{};
    DraftFids(s, r, t, c, m, true);
    DraftFidAdd(s, t, c, m, true, cfid, f);
  }

  lemma NewDraft(s: State, r: State, c: nat, m: nat, cfid: nat, xafid: nat)
    requires Draft(s, r, c, m, true) && K(r, multiset{m}, multiset{}, xafid)
    ensures var (t, f) := FidNew(r, cfid, xafid);
      t == r.(fids := t.fids, freef := t.freef) && IsFid(t, f) && t.fids[f] == Fid(1, cfid) &&
      Draft(s, t, c, m, true) &&
      K(t, multiset{m}, multiset{} + multiset{f}, xafid)
  {
    KCnt(r, multiset{m}, multiset{}, xafid);
    hide Cnt, FidsOk, FidNew;
    FidNewCnt(r, cfid, multiset{m}, multiset{}, {}, xafid);
    DraftFids(s, r, FidNew(r, cfid, xafid).0, c, m, true);
  }

  lemma NewFidDone(s: State, r: State, c: nat, m: nat, cfid: nat, which: int, refuse: bool, xafid: nat)
    requires Draft(s, r, c, m, true) && K(r, multiset{m}, multiset{}, xafid) && r.msgs[m].oldm.None? &&
             r.msgs[m].kind !in {Topen, Tcreate}
    requires (which == 0 ==> r.msgs[m].fid.None?) && (which == 1 ==> r.msgs[m].newfid.None?) &&
             (which == 2 ==> r.msgs[m].afid.None?) && 0 <= which <= 2
    ensures var (r1, f) := FidNew(r, cfid, xafid); var r2 := Linked(r1, m, f, which);
      Done(s, if cfid in C(r2, c).fid then Local(r2, m, true)
              else var r3 := FidAdd(FidInc(r2, f), c, cfid, f);
              if refuse then Local(r3, m, true) else Send(r3, m), c, m, xafid)
  {
    assert c < |r.conns|;
    hide K, Done, FidNew, Linked, FidAdd, FidInc, Local, Send;
    NewDraft(s, r, c, m, cfid, xafid);
    var (r1, f) := FidNew(r, cfid, xafid);
    LinkedDraft(s, r1, c, m, f, which, xafid);
    var r2 := Linked(r1, m, f, which);
    hide Draft;
    if cfid in r2.conns[c].fid {
      DraftLocal(s, r2, c, m, true, true, xafid);
    } else {
      EnteredDraft(s, r2, c, m, cfid, f, xafid);
      var r3 := FidAdd(FidInc(r2, f), c, cfid, f);
      if refuse {
        DraftLocal(s, r3, c, m, true, true, xafid);
      } else {
        DraftSend(s, r3, c, m, xafid);
      }
    }
  }

  lemma RecvAuthDone(s: State, r: State, c: nat, m: nat, tx: Tx, xafid: nat)
    requires Draft(s, r, c, m, true) && K(r, multiset{m}, multiset{}, xafid) && Blank(r.msgs[m]) &&
             r.msgs[m].kind == Tauth
    ensures Done(s, RecvAuth(r, c, m, tx, xafid), c, m, xafid)
  {
    hide K, Join;
    if tx.refuse {
      DraftLocal(s, r, c, m, true, true, xafid);
    } else {
      NewFidDone(s, r, c, m, tx.afid, 2, false, xafid);
    }
  }

  /** A fid of the connection's table, linked to the request. */
  lemma TableFid(s: State, r: State, c: nat, m: nat, k: nat, which: int, xafid: nat)
    requires Draft(s, r, c, m, true) && K(r, multiset{m}, multiset{}, xafid) && k in r.conns[c].fid && 0 <= which <= 2
    requires (which == 0 ==> r.msgs[m].fid.None?) && (which == 1 ==> r.msgs[m].newfid.None?) &&
             (which == 2 ==> r.msgs[m].afid.None?)
    ensures var f := r.conns[c].fid[k]; var r1 := FidInc(r, f); var o := r.msgs[m];
      var v := if which == 0 then o.(fid := Some(f)) else if which == 1 then o.(newfid := Some(f))
      else o.(afid := Some(f));
      r1.msgs == r.msgs && r1.conns == r.conns && Draft(s, SetMsg(r1, m, v), c, m, true) &&
      K(SetMsg(r1, m, v), multiset{m}, multiset{}, xafid)
  {
    var f := r.conns[c].fid[k];
    TableLive(r, c, k, multiset{m}, multiset{}, xafid);
    FidIncK(r, f, multiset{m}, multiset{}, xafid);
    hide K;
    var r1 := FidInc(r, f);
    DraftFids(s, r, r1, c, m, true);
    var o := r.msgs[m];
    var v := if which == 0 then o.(fid := Some(f)) else if which == 1 then o.(newfid := Some(f))
    else o.(afid := Some(f));
    LinkFidK(r1, m, v, f, multiset{m}, multiset{} + multiset{f}, xafid);
    assert multiset{} + multiset{f} - multiset{f} == multiset{};
    DraftMsg(s, r1, c, m, true, v);
  }

  lemma RecvWalkDone(s: State, r: State, c: nat, m: nat, tx: Tx, xafid: nat)
    requires Draft(s, r, c, m, true) && K(r, multiset{m}, multiset{}, xafid) && Blank(r.msgs[m]) &&
             r.msgs[m].kind == Twalk
    ensures Done(s, RecvWalk(r, c, m, tx, xafid), c, m, xafid)
  {
    hide K, Join;
    if tx.fid !in r.conns[c].fid {
      DraftLocal(s, r, c, m, true, true, xafid);
    } else {
      var f := r.conns[c].fid[tx.fid];
      TableFid(s, r, c, m, tx.fid, 0, xafid);
      var r1 := SetFid(FidInc(r, f), m, f);
      if tx.newfid == tx.fid {
        TableFid(s, r1, c, m, tx.fid, 1, xafid);
        DraftSend(s, SetNewfid(FidInc(r1, f), m, f), c, m, xafid);
      } else {
        NewFidDone(s, r1, c, m, tx.newfid, 1, false, xafid);
      }
    }
  }

  lemma RecvAttachDone(s: State, r: State, c: nat, m: nat, tx: Tx, xafid: nat)
    requires Draft(s, r, c, m, true) && K(r, multiset{m}, multiset{}, xafid) && Blank(r.msgs[m]) &&
             r.msgs[m].kind == Tattach
    ensures Done(s, RecvAttach(r, c, m, tx, xafid), c, m, xafid)
  {
    hide K, Join, Attach;
    var t := SetTxAfid(r, m, xafid);
    FieldsK(r, m, t.msgs[m], multiset{m}, multiset{}, xafid);
    assert Draft(s, t, c, m, true);
    hide Draft;
    AttachDone(s, r, c, m, tx, xafid);
    AttachDone(s, t, c, m, tx, xafid);
  }

  lemma AttachDone(s: State, r: State, c: nat, m: nat, tx: Tx, xafid: nat)
    requires Draft(s, r, c, m, true) && K(r, multiset{m}, multiset{}, xafid) && Blank(r.msgs[m]) &&
             r.msgs[m].kind == Tattach
    ensures Done(s, Attach(r, c, m, tx, xafid), c, m, xafid)
  {
    hide K, Join;
    var refuse := Misnamed(tx);
    if tx.afid == NOFID {
      NewFidDone(s, r, c, m, tx.fid, 0, refuse, xafid);
    } else if tx.afid !in r.conns[c].fid {
      DraftLocal(s, r, c, m, true, true, xafid);
    } else {
      var f := r.conns[c].fid[tx.afid];
      TableFid(s, r, c, m, tx.afid, 2, xafid);
      NewFidDone(s, SetAfid(FidInc(r, f), m, f), c, m, tx.fid, 0, refuse, xafid);
    }
  }

  lemma DispatchDone(s: State, r: State, c: nat, m: nat, tx: Tx, xafid: nat)
    requires Links(s) && Draft(s, r, c, m, true) && K(r, multiset{m}, multiset{}, xafid) && Blank(r.msgs[m])
    requires r.msgs[m].kind == tx.kind && r.msgs[m].ctag == tx.tag && (tx.kind == Tflush ==> tx.oldtag != tx.tag)
    ensures Done(s, Dispatch(r, c, m, tx, xafid), c, m, xafid)
  {
    hide K, Join, Draft, Links, RecvFid, RecvFlush, RecvAttach, RecvWalk, RecvAuth;
    match tx.kind
    case Tversion => DraftLocal(s, r, c, m, true, false, xafid);
    case Tflush => RecvFlushDone(s, r, c, m, tx, xafid);
    case Tattach => RecvAttachDone(s, r, c, m, tx, xafid);
    case Twalk => RecvWalkDone(s, r, c, m, tx, xafid);
    case Tauth => RecvAuthDone(s, r, c, m, tx, xafid);
    case Tcreate =>
      if tx.refuse {
        DraftLocal(s, r, c, m, true, true, xafid);
      } else {
        RecvFidDone(s, r, c, m, tx, xafid);
      }
    case _ => RecvFidDone(s, r, c, m, tx, xafid);
  }

  // ----- the request as a whole ----------------------------------------------------------

  lemma TakenDraft(s: State, c: nat, h: Hdr)
    requires c < |s.conns| && s.conns[c].pc.Reading? && !h.internal && Roomy(s).freem != [] &&
             Roomy(s).freem[0] < |Roomy(s).msgs|
    requires Clean(Roomy(s).msgs[Roomy(s).freem[0]])
    ensures var r := Taken(Roomy(s), c, h); var m := Roomy(s).freem[0];
      Draft(s, r, c, m, false) && Blank(r.msgs[m]) && r.msgs[m].kind == h.tx.kind && r.msgs[m].ctag == h.tx.tag &&
      r.conns[c].fid == s.conns[c].fid && r.fids == s.fids
  {
  }

  lemma TakenFidsOk(s: State, c: nat, h: Hdr)
    requires FidsOk(s) && c < |s.conns| && Roomy(s).freem != [] && Roomy(s).freem[0] < |Roomy(s).msgs|
    requires Clean(Roomy(s).msgs[Roomy(s).freem[0]])
    ensures FidsOk(Taken(Roomy(s), c, h))
  {
  }

  lemma OutNotFree(s: State, m: nat)
    requires Unreferenced(Roomy(s), m)
    ensures s.out.OWritten? ==> s.out.m != m
  {
  }

  lemma EnterDraft(s: State, c: nat, h: Hdr, xafid: nat)
    requires Inv(s, xafid) && c < |s.conns| && s.conns[c].pc.Reading? && !h.internal
    ensures var (r, m) := Enter(s, c, h);
      Draft(s, r, c, m, false) && K(r, multiset{m}, multiset{}, xafid) && Blank(r.msgs[m]) &&
      r.msgs[m].kind == h.tx.kind &&
      r.msgs[m].ctag == h.tx.tag && r.conns[c].fid == s.conns[c].fid && (s.out.OWritten? ==> s.out.m != m)
  {
    hide Cnt, Links, Stages, Phases, Logged, AnswersOk, FidsOk, Clean, Unreferenced, Roomy, Taken, Enter, NoFresh;
    EnterCnt(s, c, h, multiset{}, multiset{}, xafid);
    FidsOkOf(s);
    TakenDraft(s, c, h);
    TakenFidsOk(s, c, h);
    OutNotFree(s, Roomy(s).freem[0]);
    hide Draft;
    assert multiset{} + multiset{Roomy(s).freem[0]} == multiset{Roomy(s).freem[0]};
  }

  lemma DraftTag(s: State, r: State, c: nat, m: nat)
    requires Draft(s, r, c, m, false) && r.msgs[m].ctag !in s.conns[c].tag
    ensures var t := TagAdd(IncRef(r, m), c, r.msgs[m].ctag, m);
      Draft(s, t, c, m, true) && t.msgs[m] == r.msgs[m].(ref := r.msgs[m].ref + 1) && t.conns[c].fid == r.conns[c].fid
  {
  }

  lemma TagDraft(s: State, r: State, c: nat, m: nat, xafid: nat)
    requires Draft(s, r, c, m, false) && K(r, multiset{m}, multiset{}, xafid) && r.msgs[m].ctag !in s.conns[c].tag
    ensures var t := TagAdd(IncRef(r, m), c, r.msgs[m].ctag, m);
      Draft(s, t, c, m, true) && K(t, multiset{m}, multiset{}, xafid) &&
      t.msgs[m] == r.msgs[m].(ref := r.msgs[m].ref + 1) &&
      t.conns[c].fid == r.conns[c].fid
  {
    hide K;
    DraftTag(s, r, c, m);
    IncRefK(r, m, multiset{m}, multiset{}, xafid);
    TagAddK(IncRef(r, m), c, r.msgs[m].ctag, m, multiset{m} + multiset{m}, multiset{}, xafid);
    assert multiset{m} + multiset{m} - multiset{m} == multiset{m};
  }

  lemma DoneInv(s: State, r: State, c: nat, m: nat, xafid: nat)
    requires Inv(s, xafid) && Done(s, r, c, m, xafid) && (s.out.OWritten? ==> s.out.m != m)
    ensures Inv(r, xafid) && Join(s, r, c, m)
  {
    hide Cnt, Join, Life, NoFresh;
    JoinLife(s, r, c, m);
  }

  /** A request taken in keeps the invariant, whatever it is and whatever it names. */
  lemma RecvInv(s: State, c: nat, tx: Tx, xafid: nat)
    requires Inv(s, xafid) && Enabled(s, SRecv(c, tx))
    ensures Inv(Recv(s, c, tx, xafid), xafid) && Join(s, Recv(s, c, tx, xafid), c, Enter(s, c, Hdr(false, tx)).1)
  {
    var h := Hdr(false, tx);
    EnterDraft(s, c, h, xafid);
    assert Links(s);
    hide Inv, Links, K, Join, Dispatch;
    var (r, m) := Enter(s, c, h);
    if tx.tag in r.conns[c].tag {
      DraftLocal(s, r, c, m, false, true, xafid);
    } else {
      TagDraft(s, r, c, m, xafid);
      DispatchDone(s, TagAdd(IncRef(r, m), c, tx.tag, m), c, m, tx, xafid);
    }
    DoneNoted(s, TakeIn(s, c, tx, xafid), c, m, xafid);
    DoneInv(s, Recv(s, c, tx, xafid), c, m, xafid);
  }

  lemma JoinNoted(s: State, r: State, c: nat, m: nat)
    requires Join(s, r, c, m)
    ensures Join(s, Noted(r, c), c, m)
  {
    var t := Noted(r, c);
    assert t == r.(log := t.log) && LogNext(s, t, c) && t.log[|s.log|].tx == r.log[|s.log|].tx;
    assert JoinMsgs(s, t, m);
    assert FidsOk(t);
  }

  /** Logging the tables keeps that. */
  lemma DoneNoted(s: State, r: State, c: nat, m: nat, xafid: nat)
    requires Done(s, r, c, m, xafid)
    ensures Done(s, Noted(r, c), c, m, xafid)
  {
    var t := Noted(r, c);
    assert t == r.(log := t.log);
    hide Cnt, Join, Noted;
    JoinNoted(s, r, c, m);
    CntFrame(r, t, multiset{}, multiset{}, {}, xafid);
    FidsOkNoted(r, t);
  }

  lemma FidsOkNoted(r: State, t: State)
    requires FidsOk(r) && t == r.(log := t.log)
    ensures FidsOk(t)
  {
  }
}
