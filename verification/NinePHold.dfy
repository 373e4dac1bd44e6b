/** Who holds a reference after each operation a thread makes on a message or a fid. */
module NinePHold {
  import opened NinePState
  import opened NinePStep
  import opened NinePInv
  import opened NinePPut
  import opened NinePCnt

  /** Counts are exact, and every fid named exists. */
  ghost predicate K(s: State, xm: multiset<nat>, xf: multiset<nat>, xafid: nat)
  {
    Cnt(s, xm, xf, {}, xafid) && FidsOk(s)
  }

  lemma XmRange(s: State, xm: multiset<nat>, xf: multiset<nat>, xafid: nat)
    requires Cnt(s, xm, xf, {}, xafid)
    ensures forall x :: x in xm ==> x < |s.msgs| && s.msgs[x].ref > 0
    ensures forall f :: f in xf ==> IsFid(s, f) && s.fids[f].ref > 0
  {
    forall x | x in xm ensures x < |s.msgs| && s.msgs[x].ref > 0 {
      assert s.msgs[x].ref == Held(s, x) + xm[x];
    }
    forall f | f in xf ensures IsFid(s, f) && s.fids[f].ref > 0 {
      assert s.fids[f].ref == FidHeld(s, f) + xf[f];
    }
  }

  lemma FidsOkMsg(s: State, m: nat, v: Msg)
    requires FidsOk(s) && m < |s.msgs| && OptFid(s, v.fid) && OptFid(s, v.newfid) && OptFid(s, v.afid)
    ensures FidsOk(SetMsg(s, m, v))
  {
  }

  lemma FidsOkConn(s: State, c: nat, d: Conn)
    requires FidsOk(s) && c < |s.conns| && d.fid == s.conns[c].fid
    ensures FidsOk(SetConn(s, c, d))
  {
  }

  lemma IncRefK(s: State, m: nat, xm: multiset<nat>, xf: multiset<nat>, xafid: nat)
    requires K(s, xm, xf, xafid) && m < |s.msgs| && s.msgs[m].ref > 0
    ensures K(IncRef(s, m), xm + multiset{m}, xf, xafid)
  {
    hide Cnt, FidsOk;
    XmRange(s, xm, xf, xafid);
    var v := s.msgs[m].(ref := s.msgs[m].ref + 1);
    FidsOkOpt(s, m);
    FidsOkMsg(s, m, v);
    MsgChange(s, m, v, xm, xm + multiset{m}, xf, xf, {}, xafid);
  }

  lemma FidsOkOpt(s: State, m: nat)
    requires FidsOk(s) && m < |s.msgs|
    ensures OptFid(s, s.msgs[m].fid) && OptFid(s, s.msgs[m].newfid) && OptFid(s, s.msgs[m].afid)
  {
  }

  /** A change of fields that hold no reference. */
  lemma FieldsK(s: State, m: nat, v: Msg, xm: multiset<nat>, xf: multiset<nat>, xafid: nat)
    requires K(s, xm, xf, xafid) && m < |s.msgs| && s.msgs[m].ref > 0 && v.ref == s.msgs[m].ref &&
             SameLinksMsg(s.msgs[m], v)
    ensures K(SetMsg(s, m, v), xm, xf, xafid)
  {
    hide Cnt, FidsOk;
    XmRange(s, xm, xf, xafid);
    FidsOkOpt(s, m);
    FidsOkMsg(s, m, v);
    MsgChange(s, m, v, xm, xm, xf, xf, {}, xafid);
  }

  lemma TagAddK(s: State, c: nat, k: nat, m: nat, xm: multiset<nat>, xf: multiset<nat>, xafid: nat)
    requires K(s, xm, xf, xafid) && xm[m] > 0 && c < |s.conns| && k !in s.conns[c].tag
    requires m < |s.msgs| && s.msgs[m].conn == Some(c) && s.msgs[m].ctag == k
    ensures K(TagAdd(s, c, k, m), xm - multiset{m}, xf, xafid)
  {
    XmRange(s, xm, xf, xafid);
    hide Cnt, FidsOk;
    var d := s.conns[c].(tag := s.conns[c].tag[k := m]);
    FidsOkConn(s, c, d);
    ConnChange(s, c, d, xm, xm - multiset{m}, xf, xf, {}, xafid);
  }

  lemma SetOldmK(s: State, m: nat, om: nat, xm: multiset<nat>, xf: multiset<nat>, xafid: nat)
    requires K(s, xm, xf, xafid) && m < |s.msgs| && om < |s.msgs| && m != om
    requires s.msgs[m].ref > 0 && s.msgs[om].ref > 0 && s.msgs[m].oldm.None?
    ensures K(SetOldm(s, m, om), xm, xf, xafid)
  {
    hide Cnt, FidsOk;
    IncRefK(s, om, xm, xf, xafid);
    var s1 := IncRef(s, om);
    var v := s1.msgs[m].(oldm := Some(om));
    XmRange(s1, xm + multiset{om}, xf, xafid);
    FidsOkOpt(s1, m);
    FidsOkMsg(s1, m, v);
    MsgChange(s1, m, v, xm + multiset{om}, xm, xf, xf, {}, xafid);
  }

  /** A message takes over the thread's reference to fid f. */
  lemma LinkFidK(s: State, m: nat, v: Msg, f: nat, xm: multiset<nat>, xf: multiset<nat>, xafid: nat)
    requires K(s, xm, xf, xafid) && m < |s.msgs| && s.msgs[m].ref > 0 && xf[f] > 0
    requires var o := s.msgs[m];
      (v == o.(fid := Some(f)) && o.fid.None?) || (v == o.(newfid := Some(f)) && o.newfid.None?) ||
      (v == o.(afid := Some(f)) && o.afid.None?)
    ensures K(SetMsg(s, m, v), xm, xf - multiset{f}, xafid)
  {
    hide Cnt, FidsOk, MsgDelta, FidDelta;
    XmRange(s, xm, xf, xafid);
    assert f in xf;
    FidsOkOpt(s, m);
    FidsOkMsg(s, m, v);
    LinkDelta(s.msgs[m], v, f, xf);
    SameDelta(s.msgs[m], v, m, xm);
    MsgChange(s, m, v, xm, xm, xf, xf - multiset{f}, {}, xafid);
  }

  lemma SameDelta(o: Msg, v: Msg, m: nat, xm: multiset<nat>)
    requires v.oldm == o.oldm && v.ref == o.ref
    ensures MsgDelta(o, v, m, xm, xm)
  {
  }

  lemma LinkDelta(o: Msg, v: Msg, f: nat, xf: multiset<nat>)
    requires xf[f] > 0
    requires (v == o.(fid := Some(f)) && o.fid.None?) || (v == o.(newfid := Some(f)) && o.newfid.None?) ||
             (v == o.(afid := Some(f)) && o.afid.None?)
    ensures FidDelta(o, v, xf, xf - multiset{f})
  {
    forall g: nat ensures (xf - multiset{f})[g] + FidRefs(v)[g] == xf[g] + FidRefs(o)[g] {
      FidRefsIs(o, g);
      FidRefsIs(v, g);
    }
  }

  lemma FidIncK(s: State, f: nat, xm: multiset<nat>, xf: multiset<nat>, xafid: nat)
    requires K(s, xm, xf, xafid) && IsFid(s, f) && s.fids[f].ref > 0
    ensures K(FidInc(s, f), xm, xf + multiset{f}, xafid)
  {
    hide Cnt;
    FidIncCnt(s, f, xm, xf, {}, xafid);
  }

  lemma FidAddK(s: State, c: nat, k: nat, f: nat, xm: multiset<nat>, xf: multiset<nat>, xafid: nat)
    requires K(s, xm, xf, xafid) && xf[f] > 0 && c < |s.conns| && k !in s.conns[c].fid && IsFid(s, f) &&
             s.fids[f].cfid == k
    ensures K(FidAdd(s, c, k, f), xm, xf - multiset{f}, xafid)
  {
    XmRange(s, xm, xf, xafid);
    FidsOkAdd(s, c, k, f);
    hide Cnt, ConnHolds, FidsOk;
    var d := s.conns[c].(fid := s.conns[c].fid[k := f]);
    forall x: nat ensures HoldsIf(M(s, x), c, d, x) == HoldsIf(M(s, x), c, s.conns[c], x) {
      SameHolds(s.conns[c], d, M(s, x).ctag, x);
    }
    AddDelta(s, c, k, f, xf);
    ConnChange(s, c, d, xm, xm, xf, xf - multiset{f}, {}, xafid);
  }

  lemma FidsOkAdd(s: State, c: nat, k: nat, f: nat)
    requires FidsOk(s) && c < |s.conns| && IsFid(s, f) && s.fids[f].cfid == k
    ensures FidsOk(FidAdd(s, c, k, f))
  {
  }

  lemma AddDelta(s: State, c: nat, k: nat, f: nat, xf: multiset<nat>)
    requires xf[f] > 0 && c < |s.conns| && k !in s.conns[c].fid && IsFid(s, f) && s.fids[f].cfid == k
    ensures TableDelta(s, c, s.conns[c].(fid := s.conns[c].fid[k := f]), xf, xf - multiset{f})
  {
  }

  lemma SameHolds(a: Conn, b: Conn, k: nat, x: nat)
    requires b == a.(fid := b.fid, nmsg := b.nmsg)
    ensures ConnHolds(b, k, x) == ConnHolds(a, k, x)
  {
  }

  /** The connection's queue takes over the thread's reference. */
  lemma PushReplyK(s: State, c: nat, m: nat, xm: multiset<nat>, xf: multiset<nat>, xafid: nat)
    requires K(s, xm, xf, xafid) && xm[m] > 0 && c < |s.conns| && m < |s.msgs| && s.msgs[m].conn == Some(c)
    ensures K(SetConn(s, c, s.conns[c].(outq := s.conns[c].outq + [Some(m)])), xm - multiset{m}, xf, xafid)
  {
    XmRange(s, xm, xf, xafid);
    hide Cnt, FidsOk;
    var d := s.conns[c].(outq := s.conns[c].outq + [Some(m)]);
    FidsOkConn(s, c, d);
    ConnChange(s, c, d, xm, xm - multiset{m}, xf, xf, {}, xafid);
  }

  lemma LocalK(s: State, m: nat, err: bool, xm: multiset<nat>, xf: multiset<nat>, xafid: nat)
    requires K(s, xm, xf, xafid) && xm[m] > 0 && m < |s.msgs| && s.msgs[m].conn.Some? &&
             s.msgs[m].conn.value < |s.conns|
    ensures K(Local(s, m, err), xm - multiset{m}, xf, xafid)
  {
    XmRange(s, xm, xf, xafid);
    hide K;
    var v := s.msgs[m].(err := err, stage := Delivered);
    FieldsK(s, m, v, xm, xf, xafid);
    var s1, c := SetMsg(s, m, v), v.conn.value;
    PushReplyK(s1, c, m, xm, xf, xafid);
    RefusedK(SetConn(s1, c, s1.conns[c].(outq := s1.conns[c].outq + [Some(m)])), Local(s, m, err), xm - multiset{m}, xf,
      xafid);
  }

  lemma RefusedK(s: State, r: State, xm: multiset<nat>, xf: multiset<nat>, xafid: nat)
    requires K(s, xm, xf, xafid) && r == s.(refused := r.refused)
    ensures K(r, xm, xf, xafid)
  {
    hide Cnt;
    CntFrame(s, r, xm, xf, {}, xafid);
  }

  /** The queue to the server takes over the thread's reference. */
  lemma SendK(s: State, m: nat, xm: multiset<nat>, xf: multiset<nat>, xafid: nat)
    requires K(s, xm, xf, xafid) && xm[m] > 0 && m < |s.msgs|
    ensures K(Send(s, m), xm - multiset{m}, xf, xafid)
  {
    XmRange(s, xm, xf, xafid);
    hide K;
    var o := s.msgs[m];
    var v := o.(txfid := if o.fid.Some? then o.fid.value else o.txfid,
                txnewfid := if o.newfid.Some? then o.newfid.value else o.txnewfid,
                txafid := if o.afid.Some? then o.afid.value else o.txafid, stage := Queued);
    FieldsK(s, m, v, xm, xf, xafid);
    var s1 := SetMsg(s, m, v);
    PushOutK(s1, m, xm, xf, xafid);
    assert s1.(outq := s1.outq + [Out(m)]) == Send(s, m);
  }

  lemma PushOutK(s: State, m: nat, xm: multiset<nat>, xf: multiset<nat>, xafid: nat)
    requires K(s, xm, xf, xafid) && xm[m] > 0
    ensures K(s.(outq := s.outq + [Out(m)]), xm - multiset{m}, xf, xafid)
  {
    XmRange(s, xm, xf, xafid);
    hide Cnt, FidsOk;
    var r := s.(outq := s.outq + [Out(m)]);
    OutChange(s, r, xm, xm - multiset{m}, xf, {}, xafid);
    FidsOkOut(s, r);
  }

  lemma FidsOkOut(s: State, r: State)
    requires FidsOk(s) && r == s.(outq := r.outq, out := r.out)
    ensures FidsOk(r)
  {
  }

  /** Moving to a place where the thread's variables hold what they hold by being there. */
  lemma SetPcK(s: State, c: nat, pc: ConnPc, xm: multiset<nat>, xm': multiset<nat>, xf: multiset<nat>, xafid: nat)
    requires K(s, xm, xf, xafid) && c < |s.conns| && (forall x :: x in xm' ==> x < |s.msgs|)
    requires forall x: nat :: x < |s.msgs| ==>
      xm'[x] + (if s.msgs[x].conn == Some(c) then PcHolds(pc, x) else 0) == xm[x] + if s.msgs[x].conn == Some(c)
        then PcHolds(s.conns[c].pc, x) else 0
    ensures K(SetPc(s, c, pc), xm', xf, xafid)
  {
    XmRange(s, xm, xf, xafid);
    hide Cnt, FidsOk;
    var d := s.conns[c].(pc := pc);
    FidsOkConn(s, c, d);
    ConnChange(s, c, d, xm, xm', xf, xf, {}, xafid);
  }
}
