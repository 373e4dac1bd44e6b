/** Releasing references: messages and fids nobody holds go, everything else stays. */
module NinePRel {
  import opened NinePState
  import opened NinePInv

  /** Message m is the same up to its count, or had no holder outside the message table and is gone. */
  ghost predicate Kept(s: State, r: State, m: nat)
    requires m < |s.msgs| && m < |r.msgs|
  {
    r.msgs[m] == s.msgs[m].(ref := r.msgs[m].ref) && (s.msgs[m].ref == 0 ==> r.msgs[m].ref == 0)
  }

  ghost predicate MsgRel(s: State, r: State, m: nat)
    requires m < |s.msgs| && m < |r.msgs|
  {
    Kept(s, r, m) || (Rooted(s, m) == 0 && Clean(r.msgs[m]) && r.msgs[m].ref == 0)
  }

  ghost predicate ConnRel(a: Conn, b: Conn)
  {
    b == a.(nmsg := b.nmsg)
  }

  ghost predicate FidRel(s: State, r: State, f: nat)
  {
    (IsFid(s, f) <==> IsFid(r, f)) &&
    (IsFid(s, f) ==> forall c, k :: 0 <= c < |s.conns| && k in s.conns[c].fid && s.conns[c].fid[k] == f ==>
      r.fids[f].cfid == s.fids[f].cfid)
  }

  ghost predicate Rel(s: State, r: State)
  {
    |r.msgs| == |s.msgs| && |r.conns| == |s.conns| && |r.fids| == |s.fids| &&
    r.outq == s.outq && r.out == s.out && r.pend == s.pend && r.replies == s.replies &&
    r.log == s.log && r.answers == s.answers && r.refused == s.refused &&
    (forall m: nat :: m < |s.msgs| ==> MsgRel(s, r, m)) &&
    (forall m: nat :: m < |s.msgs| && r.msgs[m].oldm.Some? && r.msgs[m].oldm.value < |s.msgs| ==>
      Kept(s, r, r.msgs[m].oldm.value)) &&
    (forall c: nat :: c < |s.conns| ==> ConnRel(s.conns[c], r.conns[c])) &&
    (forall f: nat :: FidRel(s, r, f))
  }

  lemma RootedByTag(s: State, c: nat, k: nat)
    requires Links(s) && c < |s.conns| && k in s.conns[c].tag
    ensures Rooted(s, s.conns[c].tag[k]) >= 1
  {
    assert ConnLinks(s, c);
  }

  lemma RootedByQueue(s: State, c: nat, i: nat)
    requires Links(s) && c < |s.conns| && i < |s.conns[c].outq| && s.conns[c].outq[i].Some?
    ensures Rooted(s, s.conns[c].outq[i].value) >= 1
  {
    assert ConnLinks(s, c);
    assert s.conns[c].outq[i] in multiset(s.conns[c].outq);
  }

  lemma RootedByThreads(s: State, c: nat)
    requires Links(s) && c < |s.conns|
    ensures s.conns[c].outpc.CWriting? ==> Rooted(s, s.conns[c].outpc.m) >= 1
    ensures s.conns[c].pc.FlushWait? ==> Rooted(s, s.conns[c].pc.m) >= 1 && Rooted(s, s.conns[c].pc.om) >= 1
    ensures s.conns[c].pc.ClunkWait? ==> Rooted(s, s.conns[c].pc.m) >= 1
  {
    assert ConnLinks(s, c);
  }

  lemma RootedActive(s: State, m: nat)
    requires Links(s) && ActiveHeld(s) && m < |s.msgs| && Active(s.msgs[m].stage)
    ensures Rooted(s, m) >= 1
  {
    assert MsgLinks(s, s.msgs[m]);
  }

  // ----- what is kept --------------------------------------------------------------------

  lemma WaitOkRel(s: State, r: State, c: nat)
    requires Links(s) && Rel(s, r) && c < |s.conns|
    ensures WaitOk(r, c)
  {
    assert ConnLinks(s, c) && ConnRel(s.conns[c], r.conns[c]);
    RootedByThreads(s, c);
    match s.conns[c].pc
    case FlushWait(om, m) => assert MsgRel(s, r, m) && MsgRel(s, r, om);
    case ClunkWait(k, m) => assert MsgRel(s, r, m);
    case _ =>
  }

  lemma ConnLinksRel(s: State, r: State, c: nat)
    requires Links(s) && Rel(s, r) && c < |s.conns|
    ensures ConnLinks(r, c)
  {
    var d, e := s.conns[c], r.conns[c];
    assert ConnLinks(s, c) && ConnRel(d, e);
    forall k | k in e.tag ensures ClientMsg(r, c, e.tag[k]) && r.msgs[e.tag[k]].ctag == k {
      RootedByTag(s, c, k);
      assert MsgRel(s, r, d.tag[k]);
    }
    forall i | 0 <= i < |e.outq| && e.outq[i].Some? ensures ClientMsg(r, c, e.outq[i].value) {
      RootedByQueue(s, c, i);
      assert MsgRel(s, r, d.outq[i].value);
    }
    forall k | k in e.fid ensures IsFid(r, e.fid[k]) && r.fids[e.fid[k]].cfid == k {
      assert FidRel(s, r, d.fid[k]);
    }
    RootedByThreads(s, c);
    assert d.outpc.CWriting? ==> MsgRel(s, r, d.outpc.m);
    WaitOkRel(s, r, c);
  }

  lemma MsgLinksRel(s: State, r: State, m: nat)
    requires Links(s) && Rel(s, r) && m < |s.msgs|
    ensures MsgLinks(r, r.msgs[m])
  {
    assert MsgLinks(s, s.msgs[m]) && MsgRel(s, r, m);
    if Kept(s, r, m) {
      var o := s.msgs[m];
      assert o.fid.Some? ==> FidRel(s, r, o.fid.value);
      assert o.newfid.Some? ==> FidRel(s, r, o.newfid.value);
      assert o.afid.Some? ==> FidRel(s, r, o.afid.value);
    }
  }

  lemma LinksRel(s: State, r: State)
    requires Links(s) && Rel(s, r)
    ensures Links(r)
  {
    forall m: nat | m < |r.msgs| ensures MsgLinks(r, r.msgs[m]) {
      MsgLinksRel(s, r, m);
    }
    forall c: nat | c < |r.conns| ensures ConnLinks(r, c) {
      ConnLinksRel(s, r, c);
    }
  }

  /** A message with a stage other than Free after releases was not gone. */
  lemma StageKept(s: State, r: State, m: nat)
    requires Rel(s, r) && m < |s.msgs| && !r.msgs[m].stage.Free?
    ensures Kept(s, r, m)
  {
    assert MsgRel(s, r, m);
  }

  lemma ActiveKept(s: State, r: State, m: nat)
    requires Links(s) && ActiveHeld(s) && Rel(s, r) && m < |s.msgs| && Active(s.msgs[m].stage)
    ensures Kept(s, r, m)
  {
    RootedActive(s, m);
    assert MsgRel(s, r, m);
  }

  lemma ActiveHeldRel(s: State, r: State)
    requires Links(s) && ActiveHeld(s) && Rel(s, r)
    ensures ActiveHeld(r)
  {
    forall m: nat | m < |r.msgs| && Active(r.msgs[m].stage) ensures r.msgs[m].conn.Some? && Waits(r, m) {
      StageKept(s, r, m);
      assert MsgLinks(s, s.msgs[m]);
      assert ConnRel(s.conns[s.msgs[m].conn.value], r.conns[s.msgs[m].conn.value]);
    }
  }

  lemma OutOkRel(s: State, r: State)
    requires Links(s) && ActiveHeld(s) && OutOk(s) && Rel(s, r)
    ensures OutOk(r)
  {
    forall i | 0 <= i < |r.outq| && r.outq[i].Out? ensures r.outq[i].m < |r.msgs| && Kept(s, r, r.outq[i].m) {
      ActiveKept(s, r, r.outq[i].m);
    }
    forall m: nat | m < |r.msgs| && !r.msgs[m].stage.Free? ensures Kept(s, r, m) {
      StageKept(s, r, m);
    }
    if s.out.OWriting? {
      ActiveKept(s, r, s.out.m);
    }
  }

  lemma ServerOkRel(s: State, r: State)
    requires Links(s) && ActiveHeld(s) && ServerOk(s) && ReplyOrder(s) && Rel(s, r)
    ensures ServerOk(r) && ReplyOrder(r)
  {
    forall t | t in r.pend ensures Kept(s, r, t) {
      ActiveKept(s, r, t);
    }
    forall m: nat | m < |r.msgs| && !r.msgs[m].stage.Free? ensures Kept(s, r, m) {
      StageKept(s, r, m);
    }
    forall i | 0 <= i < |r.replies| ensures Kept(s, r, r.replies[i].tag) {
      ActiveKept(s, r, r.replies[i].tag);
    }
  }

  lemma ConnStagesRel(s: State, r: State, c: nat)
    requires Links(s) && Rel(s, r) && c < |s.conns| && ConnStages(s, s.conns[c])
    ensures ConnStages(r, r.conns[c])
  {
    var d, e := s.conns[c], r.conns[c];
    assert ConnLinks(s, c) && ConnRel(d, e);
    forall i | 0 <= i < |e.outq| && e.outq[i].Some? ensures M(r, e.outq[i].value).stage == Delivered {
      RootedByQueue(s, c, i);
      assert MsgRel(s, r, d.outq[i].value);
    }
    RootedByThreads(s, c);
    assert d.outpc.CWriting? ==> MsgRel(s, r, d.outpc.m);
    assert d.internal.Some? ==> MsgRel(s, r, d.pc.m);
  }

  lemma FlushOkRel(s: State, r: State, f: nat)
    requires Links(s) && ActiveHeld(s) && Rel(s, r) && f < |s.msgs| && FlushOk(s, f)
    ensures FlushOk(r, f)
  {
    assert MsgRel(s, r, f) && MsgLinks(s, s.msgs[f]);
  }

  lemma StagesRel(s: State, r: State)
    requires Links(s) && Stages(s) && Rel(s, r)
    ensures Stages(r)
  {
    ActiveHeldRel(s, r);
    OutOkRel(s, r);
    ServerOkRel(s, r);
    forall c: nat | c < |r.conns| ensures ConnStages(r, r.conns[c]) {
      ConnStagesRel(s, r, c);
    }
    forall f: nat | f < |r.msgs| ensures FlushOk(r, f) {
      FlushOkRel(s, r, f);
    }
  }

  lemma PhasesRel(s: State, r: State)
    requires Phases(s) && Rel(s, r)
    ensures Phases(r)
  {
    forall c: nat | c < |r.conns| ensures Phase(r, c) {
      assert Phase(s, c) && ConnRel(s.conns[c], r.conns[c]);
      forall m: nat | m < |r.msgs| && r.msgs[m].conn == Some(c) ensures Kept(s, r, m) {
        assert MsgRel(s, r, m);
      }
    }
    forall i | 0 <= i < |r.outq| && r.outq[i].Sync? ensures r.conns[r.outq[i].c].pc.SyncWait? {
      assert ConnRel(s.conns[s.outq[i].c], r.conns[s.outq[i].c]);
    }
  }

  lemma LoggedRel(s: State, r: State)
    requires Logged(s) && AnswersOk(s) && Rel(s, r)
    ensures Logged(r) && AnswersOk(r)
  {
    forall m: nat | m < |r.msgs| && r.msgs[m].conn.Some? ensures Kept(s, r, m) {
      assert MsgRel(s, r, m);
    }
    forall i | 0 <= i < |r.answers| ensures AnswerOk(r, r.answers[i]) {
      assert AnswerOk(s, s.answers[i]);
    }
  }

  /** Releases keep everything that is not a count. */
  lemma LifeRel(s: State, r: State)
    requires Life(s) && Rel(s, r)
    ensures Life(r)
  {
    LinksRel(s, r);
    StagesRel(s, r);
    PhasesRel(s, r);
    LoggedRel(s, r);
  }

  lemma RootedRel(s: State, r: State, m: nat)
    requires Rel(s, r) && m < |s.msgs| && Kept(s, r, m)
    ensures Rooted(r, m) == Rooted(s, m)
  {
    var o := s.msgs[m];
    if o.conn.Some? && o.conn.value < |s.conns| {
      assert ConnRel(s.conns[o.conn.value], r.conns[o.conn.value]);
    }
  }

  lemma RelTrans(s: State, r: State, t: State)
    requires Rel(s, r) && Rel(r, t)
    ensures Rel(s, t)
  {
    forall m: nat | m < |s.msgs| ensures MsgRel(s, t, m) {
      assert MsgRel(s, r, m) && MsgRel(r, t, m);
      if Kept(s, r, m) {
        RootedRel(s, r, m);
      }
    }
    forall m: nat | m < |s.msgs| && t.msgs[m].oldm.Some? && t.msgs[m].oldm.value < |s.msgs|
      ensures Kept(s, t, t.msgs[m].oldm.value)
    {
      assert MsgRel(r, t, m);
    }
    forall c: nat | c < |s.conns| ensures ConnRel(s.conns[c], t.conns[c]) {
      assert ConnRel(s.conns[c], r.conns[c]) && ConnRel(r.conns[c], t.conns[c]);
    }
    forall f: nat ensures FidRel(s, t, f) {
      assert FidRel(s, r, f) && FidRel(r, t, f);
      forall c, k | 0 <= c < |s.conns| && k in s.conns[c].fid && s.conns[c].fid[k] == f && IsFid(s, f)
        ensures t.fids[f].cfid == s.fids[f].cfid
      {
        assert ConnRel(s.conns[c], r.conns[c]);
      }
    }
  }
}
