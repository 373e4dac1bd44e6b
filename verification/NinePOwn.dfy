/** The flushes and clunks a closing connection asks for itself keep the invariant. */
module NinePOwn {
  import opened NinePState
  import opened NinePStep
  import opened NinePInv
  import opened NinePRel
  import opened NinePPut
  import opened NinePCnt
  import opened NinePEnter
  import opened NinePHold
  import opened NinePJoin
  import NinePRecv

  /** In the middle of making a request of the multiplexer's own. */
  ghost predicate Own(s: State, r: State, c: nat, m: nat, pc: ConnPc)
  {
    JoinMsgs(s, r, m) && c < |s.conns| && |r.conns| == |s.conns| &&
    (m < |s.msgs| ==> Clean(s.msgs[m])) &&
    var o := r.msgs[m];
    o.conn == Some(c) && o.serial == |s.log| && o.stage == Fresh && o.internal && o.ref > 0 &&
    (forall x: nat :: x < |s.conns| && x != c ==> r.conns[x] == s.conns[x]) &&
    r.conns[c] == s.conns[c].(pc := pc, nmsg := r.conns[c].nmsg) &&
    r.outq == s.outq && r.out == s.out && r.pend == s.pend && r.replies == s.replies && r.answers == s.answers &&
    LogNext(s, r, c) && r.refused == s.refused
  }

  lemma OwnEnter(s: State, b: State, c: nat, h: Hdr)
    requires c < |s.conns| && h.internal && h.tx.tag == 0 && Roomy(b).freem != [] && Roomy(b).freem[0] < |Roomy(b).msgs|
    requires Clean(Roomy(b).msgs[Roomy(b).freem[0]]) && b == s.(msgs := b.msgs) && |b.msgs| == |s.msgs|
    requires forall x: nat :: x < |s.msgs| ==> b.msgs[x] == s.msgs[x].(ref := b.msgs[x].ref)
    ensures var r := Taken(Roomy(b), c, h); var m := Roomy(b).freem[0];
      Own(s, r, c, m, s.conns[c].pc) && r.msgs[m].ref == 1 && NinePRecv.Blank(r.msgs[m]) &&
      r.msgs[m].kind == h.tx.kind &&
      r.fids == s.fids && (forall x: nat :: x < |s.msgs| && x != m ==> r.msgs[x] == b.msgs[x])
  {
  }

  lemma OwnMsg(s: State, r: State, c: nat, m: nat, pc: ConnPc, v: Msg)
    requires Own(s, r, c, m, pc) && v == r.msgs[m].(fid := v.fid, oldm := v.oldm, ref := v.ref) && v.ref > 0
    ensures Own(s, SetMsg(r, m, v), c, m, pc)
  {
  }

  lemma OwnPc(s: State, r: State, c: nat, m: nat, pc: ConnPc, pc': ConnPc)
    requires Own(s, r, c, m, pc)
    ensures Own(s, SetPc(r, c, pc'), c, m, pc')
  {
  }

  lemma OwnSend(s: State, r: State, c: nat, m: nat, pc: ConnPc, xafid: nat)
    requires Own(s, r, c, m, pc) && K(r, multiset{m}, multiset{}, xafid)
    requires (pc.FlushWait? || pc.ClunkWait?) && pc.m == m
    requires pc.FlushWait? ==>
               s.conns[c].pc.Flushing? && r.msgs[m].kind == Tflush && r.msgs[m].oldm == Some(pc.om) && pc.om != m &&
               ClientMsg(s, c, pc.om)
    requires pc.ClunkWait? ==> s.conns[c].pc.Clunking? && r.msgs[m].kind == Tclunk && r.msgs[m].oldm.None?
    requires pc.ClunkWait? ==> pc.k in r.conns[c].fid && r.msgs[m].fid == Some(r.conns[c].fid[pc.k])
    ensures NinePRecv.Done(s, Send(r, m), c, m, xafid)
  {
    hide Cnt, FidsOk;
    SendK(r, m, multiset{m}, multiset{}, xafid);
    assert multiset{m} - multiset{m} == multiset{};
    var t := Send(r, m);
  }

  // ----- flush ---------------------------------------------------------------------------

  lemma TagClient(s: State, c: nat, k: nat, xm: multiset<nat>, xf: multiset<nat>, xafid: nat)
    requires Links(s) && Cnt(s, xm, xf, {}, xafid) && c < |s.conns| && k in s.conns[c].tag
    ensures ClientMsg(s, c, s.conns[c].tag[k]) && s.msgs[s.conns[c].tag[k]].ref > 0
  {
    hide Cnt;
    var om := s.conns[c].tag[k];
    assert ClientMsg(s, c, om) && InTags(s.conns[c], s.msgs[om].ctag, om) by { assert ConnLinks(s, c); }
    NinePRecv.TagLive(s, om, xm, xf, xafid);
  }

  lemma LifeLinks(s: State)
    requires Life(s)
    ensures Links(s)
  {
  }

  /** A thread takes one more reference to a live message. */
  lemma HoldMsg(s: State, m: nat, xm: multiset<nat>, xf: multiset<nat>, xafid: nat)
    requires Ok(s, xm, xf, xafid) && m < |s.msgs| && s.msgs[m].ref > 0
    ensures Ok(IncRef(s, m), xm + multiset{m}, xf, xafid)
  {
    hide Cnt, Life, Links, Rel;
    LifeLinks(s);
    RefRel(s, m, s.msgs[m].ref + 1);
    LifeRel(s, IncRef(s, m));
    RefChange(s, m, s.msgs[m].(ref := s.msgs[m].ref + 1), xm, xm + multiset{m}, xf, {}, xafid);
  }

  /** The thread takes a reference to a message of the tag table. */
  lemma HoldTag(s: State, c: nat, k: nat, xafid: nat)
    requires Inv(s, xafid) && c < |s.conns| && k in s.conns[c].tag
    ensures var om := s.conns[c].tag[k];
      ClientMsg(s, c, om) && s.msgs[om].ref > 0 && Ok(IncRef(s, om), multiset{om}, multiset{}, xafid) && Links(s)
  {
    hide Cnt, Life, Links, NoFresh;
    LifeLinks(s);
    TagClient(s, c, k, multiset{}, multiset{}, xafid);
    HoldMsg(s, s.conns[c].tag[k], multiset{}, multiset{}, xafid);
    assert multiset{} + multiset{s.conns[c].tag[k]} == multiset{s.conns[c].tag[k]};
  }

  lemma InvOk(s: State, xafid: nat)
    requires Inv(s, xafid)
    ensures Ok(s, multiset{}, multiset{}, xafid)
  {
  }

  lemma OkLinks(s: State, xm: multiset<nat>, xf: multiset<nat>, xafid: nat)
    requires Ok(s, xm, xf, xafid)
    ensures Links(s) && FidsOk(s)
  {
    FidsOkOf(s);
  }

  /** A message of the multiplexer's own, held by the thread that makes it. */
  lemma OwnEnters(s: State, b: State, c: nat, h: Hdr, xm: multiset<nat>, xafid: nat)
    requires c < |s.conns| && h.internal && h.tx.tag == 0 && b == s.(msgs := b.msgs) && |b.msgs| == |s.msgs|
    requires forall x: nat :: x < |s.msgs| ==> b.msgs[x] == s.msgs[x].(ref := b.msgs[x].ref)
    requires Ok(b, xm, multiset{}, xafid)
    ensures var (r, m) := Enter(b, c, h);
      Own(s, r, c, m, s.conns[c].pc) && K(r, xm + multiset{m}, multiset{}, xafid) && NinePRecv.Blank(r.msgs[m]) &&
      r.msgs[m].kind == h.tx.kind && (s.out.OWritten? ==> s.out.m != m) && r.fids == s.fids &&
      (forall x: nat :: x < |b.msgs| && b.msgs[x].ref > 0 ==> x != m && r.msgs[x] == b.msgs[x])
  {
    hide Cnt, Life, Links, FidsOk, Clean, Unreferenced, Taken, Enter, Roomy;
    EnterCnt(b, c, h, xm, multiset{}, xafid);
    OkLinks(b, xm, multiset{}, xafid);
    NinePRecv.TakenFidsOk(b, c, h);
    NinePRecv.OutNotFree(b, Roomy(b).freem[0]);
    OwnEnter(s, b, c, h);
    RoomyLive(b);
    hide Own;
  }

  lemma RoomyLive(b: State)
    requires Roomy(b).freem != [] && Roomy(b).freem[0] < |Roomy(b).msgs| && Roomy(b).msgs[Roomy(b).freem[0]].ref == 0
    ensures forall x: nat :: x < |b.msgs| && b.msgs[x].ref > 0 ==> x != Roomy(b).freem[0]
  {
  }

  lemma FlushLink(s: State, r: State, c: nat, om: nat, m: nat, xafid: nat)
    requires Own(s, r, c, m, Flushing) && s.conns[c].pc.Flushing? && K(r, multiset{om} + multiset{m}, multiset{}, xafid)
    requires NinePRecv.Blank(r.msgs[m]) && r.msgs[m].kind == Tflush && om != m && ClientMsg(s, c, om) &&
             r.msgs[om].ref > 0
    ensures var t := SetPc(IncRef(SetOldm(r, m, om), m), c, FlushWait(om, m));
      Own(s, t, c, m, FlushWait(om, m)) && K(t, multiset{m}, multiset{}, xafid) && t.msgs[m].oldm == Some(om) &&
      t.msgs[m].kind == Tflush
  {
    hide K;
    var r1 := SetOldm(r, m, om);
    SetOldmK(r, m, om, multiset{om} + multiset{m}, multiset{}, xafid);
    assert Own(s, r1, c, m, Flushing) && r1.msgs[om].conn == Some(c);
    var r2 := IncRef(r1, m);
    IncRefK(r1, m, multiset{om} + multiset{m}, multiset{}, xafid);
    OwnMsg(s, r1, c, m, Flushing, r2.msgs[m]);
    OwnPc(s, r2, c, m, Flushing, FlushWait(om, m));
    assert r2.msgs[om].conn == Some(c) && r2.msgs[m].conn == Some(c);
    SetPcK(r2, c, FlushWait(om, m), multiset{om} + multiset{m} + multiset{m}, multiset{m}, multiset{}, xafid);
  }

  /** The message that is used. */
  function FlushMsg(s: State, c: nat, k: nat): nat
    requires k in C(s, c).tag
  {
    Enter(IncRef(s, C(s, c).tag[k]), c, Hdr(true, FlushTx(k))).1
  }

  function ClunkMsg(s: State, c: nat, k: nat): nat { Enter(s, c, Hdr(true, ClunkTx(k))).1 }

  lemma FlushInv(s: State, c: nat, k: nat, xafid: nat)
    requires Inv(s, xafid) && Enabled(s, SFlush(c, k))
    ensures Inv(Flush(s, c, k), xafid) && Join(s, Flush(s, c, k), c, FlushMsg(s, c, k))
  {
    hide Inv, Ok, K, Own, Links, Enter, NinePRecv.Done, Join;
    HoldTag(s, c, k, xafid);
    var om := s.conns[c].tag[k];
    var h := Hdr(true, FlushTx(k));
    var b := IncRef(s, om);
    OwnEnters(s, b, c, h, multiset{om}, xafid);
    var (r, m) := Enter(b, c, h);
    FlushLink(s, r, c, om, m, xafid);
    OwnSend(s, SetPc(IncRef(SetOldm(r, m, om), m), c, FlushWait(om, m)), c, m, FlushWait(om, m), xafid);
    NinePRecv.DoneInv(s, Flush(s, c, k), c, m, xafid);
  }

  // ----- clunk ---------------------------------------------------------------------------

  lemma OwnFids(s: State, r: State, t: State, c: nat, m: nat, pc: ConnPc)
    requires Own(s, r, c, m, pc) && t == r.(fids := t.fids, freef := t.freef)
    ensures Own(s, t, c, m, pc)
  {
  }

  lemma ClunkLink(s: State, r: State, c: nat, k: nat, m: nat, xafid: nat)
    requires Own(s, r, c, m, Clunking) && s.conns[c].pc.Clunking? && K(r, multiset{m}, multiset{}, xafid)
    requires NinePRecv.Blank(r.msgs[m]) && r.msgs[m].kind == Tclunk && k in s.conns[c].fid
    ensures var f := s.conns[c].fid[k]; var t := SetPc(IncRef(SetFid(FidInc(r, f), m, f), m), c, ClunkWait(k, m));
      Own(s, t, c, m, ClunkWait(k, m)) && K(t, multiset{m}, multiset{}, xafid) && t.msgs[m].oldm.None? &&
      t.msgs[m].kind == Tclunk &&
      k in t.conns[c].fid && t.msgs[m].fid == Some(t.conns[c].fid[k])
  {
    hide K;
    var f := s.conns[c].fid[k];
    NinePRecv.TableLive(r, c, k, multiset{m}, multiset{}, xafid);
    FidIncK(r, f, multiset{m}, multiset{}, xafid);
    var r0 := FidInc(r, f);
    OwnFids(s, r, r0, c, m, Clunking);
    var r1 := SetFid(r0, m, f);
    LinkFidK(r0, m, r1.msgs[m], f, multiset{m}, multiset{} + multiset{f}, xafid);
    assert multiset{} + multiset{f} - multiset{f} == multiset{};
    OwnMsg(s, r0, c, m, Clunking, r1.msgs[m]);
    var r2 := IncRef(r1, m);
    IncRefK(r1, m, multiset{m}, multiset{}, xafid);
    OwnMsg(s, r1, c, m, Clunking, r2.msgs[m]);
    OwnPc(s, r2, c, m, Clunking, ClunkWait(k, m));
    SetPcK(r2, c, ClunkWait(k, m), multiset{m} + multiset{m}, multiset{m}, multiset{}, xafid);
  }

  lemma ClunkInv(s: State, c: nat, k: nat, xafid: nat)
    requires Inv(s, xafid) && Enabled(s, SClunk(c, k))
    ensures Inv(Clunk(s, c, k), xafid) && Join(s, Clunk(s, c, k), c, ClunkMsg(s, c, k))
  {
    hide Inv, Ok, K, Own, Links, Enter, NinePRecv.Done, Join;
    InvOk(s, xafid);
    var h := Hdr(true, ClunkTx(k));
    OwnEnters(s, s, c, h, multiset{}, xafid);
    var (r, m) := Enter(s, c, h);
    assert multiset{} + multiset{m} == multiset{m};
    var f := s.conns[c].fid[k];
    ClunkLink(s, r, c, k, m, xafid);
    OwnSend(s, SetPc(IncRef(SetFid(FidInc(r, f), m, f), m), c, ClunkWait(k, m)), c, m, ClunkWait(k, m), xafid);
    NinePRecv.DoneInv(s, Clunk(s, c, k), c, m, xafid);
  }
}
