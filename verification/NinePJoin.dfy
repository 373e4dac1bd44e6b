/** A message that has just been put to use joins the others: what holds between steps still holds. */
module NinePJoin {
  import opened NinePState
  import opened NinePStep
  import opened NinePInv
  import opened NinePCnt

  /** The message as it is when the step that creates it ends. */
  ghost predicate JoinMsg(s: State, c: nat, m: nat, o: Msg)
  {
    o.conn == Some(c) && o.serial == |s.log| && o.stage in {Queued, Delivered} &&
    (m < |s.msgs| ==> Clean(s.msgs[m])) &&
    (o.oldm.Some? ==> o.stage == Queued && o.kind == Tflush && o.oldm.value != m && ClientMsg(s, c, o.oldm.value))
  }

  ghost predicate JoinMsgs(s: State, r: State, m: nat)
  {
    m < |r.msgs| && |s.msgs| <= |r.msgs| && (|r.msgs| > |s.msgs| ==> m == |s.msgs| && |r.msgs| == m + 1) &&
    forall x: nat :: x < |s.msgs| && x != m ==> r.msgs[x] == s.msgs[x].(ref := r.msgs[x].ref)
  }

  /** The connection: a client's request while it reads, a flush or a clunk of its own when it closes. */
  ghost predicate JoinConn(s: State, r: State, c: nat, m: nat)
    requires c < |s.conns| && c < |r.conns| && m < |r.msgs|
  {
    var d, e, o := s.conns[c], r.conns[c], r.msgs[m];
    e.outpc == d.outpc && e.internal == d.internal &&
    (e.tag == d.tag || (e.tag == d.tag[o.ctag := m] && o.ctag !in d.tag && d.pc.Reading?)) &&
    e.outq == (if o.stage == Delivered then d.outq + [Some(m)] else d.outq) &&
    (o.internal ==> o.stage == Queued && e.tag == d.tag) &&
    if !o.internal then d.pc.Reading? && e.pc.Reading?
    else (d.pc.Flushing? && o.oldm.Some? && e.pc == FlushWait(o.oldm.value, m)) ||
         (d.pc.Clunking? && o.oldm.None? && e.pc.ClunkWait? && e.pc.m == m && e.pc.k in e.fid &&
         o.fid == Some(e.fid[e.pc.k]))
  }

  /** One request more has been logged. */
  ghost predicate LogNext(s: State, r: State, c: nat)
  {
    |r.log| == |s.log| + 1 && s.log <= r.log && r.log[|s.log|].c == c
  }

  ghost predicate Join(s: State, r: State, c: nat, m: nat)
  {
    JoinMsgs(s, r, m) && JoinMsg(s, c, m, r.msgs[m]) && (s.refused ==> r.refused) &&
    (!r.refused && IsOpen(r.msgs[m].kind) ==> r.msgs[m].fid.Some?) && c < |s.conns| && |r.conns| == |s.conns| &&
    (forall x: nat :: x < |s.conns| && x != c ==> r.conns[x] == s.conns[x]) && JoinConn(s, r, c, m) &&
    r.outq == (if r.msgs[m].stage == Queued then s.outq + [Out(m)] else s.outq) && r.out == s.out &&
    r.pend == s.pend && r.replies == s.replies && r.answers == s.answers &&
    LogNext(s, r, c) && (!r.msgs[m].internal ==> r.log[|s.log|].tx.tag == r.msgs[m].ctag) &&
    (r.msgs[m].stage == Queued ==> Waits(r, m)) && FidsOk(r)
  }

  lemma OutsideConn(s: State, r: State, c: nat, m: nat, a: nat)
    requires Join(s, r, c, m) && a < |s.conns| && ConnLinks(s, a)
    ensures forall k :: k in s.conns[a].tag ==> s.conns[a].tag[k] != m
    ensures forall i :: 0 <= i < |s.conns[a].outq| ==> s.conns[a].outq[i] != Some(m)
    ensures s.conns[a].outpc.CWriting? ==> s.conns[a].outpc.m != m
    ensures s.conns[a].pc.FlushWait? ==> s.conns[a].pc.m != m && s.conns[a].pc.om != m
    ensures s.conns[a].pc.ClunkWait? ==> s.conns[a].pc.m != m
    ensures s.conns[a].internal.Some? ==> s.conns[a].internal.value != m && s.conns[a].internal.value < |s.msgs|
    ensures forall i :: 0 <= i < |s.conns[a].outq| && s.conns[a].outq[i].Some? ==> s.conns[a].outq[i].value < |s.msgs|
    ensures s.conns[a].outpc.CWriting? ==> s.conns[a].outpc.m < |s.msgs|
  {
  }

  lemma OutsideMsg(s: State, r: State, c: nat, m: nat, x: nat)
    requires Join(s, r, c, m) && x < |s.msgs| && MsgLinks(s, s.msgs[x])
    ensures s.msgs[x].oldm != Some(m)
  {
  }

  lemma JoinClient(s: State, r: State, c: nat, m: nat, a: nat, x: nat)
    requires Join(s, r, c, m) && ClientMsg(s, a, x) && x != m
    ensures ClientMsg(r, a, x) && r.msgs[x].ctag == s.msgs[x].ctag
  {
  }

  lemma JoinMsgLinks(s: State, r: State, c: nat, m: nat, x: nat)
    requires Join(s, r, c, m) && Links(s) && Logged(s) && x < |r.msgs|
    ensures MsgLinks(r, r.msgs[x])
  {
    if x == m {
      var o := r.msgs[m];
      if o.oldm.Some? {
        JoinClient(s, r, c, m, c, o.oldm.value);
      }
    } else {
      var o := s.msgs[x];
      assert MsgLinks(s, o);
      OutsideMsg(s, r, c, m, x);
      if o.oldm.Some? {
        JoinClient(s, r, c, m, o.conn.value, o.oldm.value);
      }
    }
  }

  lemma JoinWait(s: State, r: State, c: nat, m: nat, a: nat)
    requires Join(s, r, c, m) && Links(s) && a < |s.conns|
    ensures WaitOk(r, a)
  {
    assert ConnLinks(s, a);
    OutsideConn(s, r, c, m, a);
  }

  lemma JoinConnLinks(s: State, r: State, c: nat, m: nat, a: nat)
    requires Join(s, r, c, m) && Links(s) && a < |s.conns|
    ensures ConnLinks(r, a)
  {
    assert ConnLinks(s, a);
    OutsideConn(s, r, c, m, a);
    JoinWait(s, r, c, m, a);
    hide WaitOk;
    var d, e := s.conns[a], r.conns[a];
    forall k | k in e.tag ensures ClientMsg(r, a, e.tag[k]) && r.msgs[e.tag[k]].ctag == k {
      if k in d.tag && e.tag[k] == d.tag[k] {
        JoinClient(s, r, c, m, a, d.tag[k]);
      }
    }
    forall i | 0 <= i < |e.outq| && e.outq[i].Some? ensures ClientMsg(r, a, e.outq[i].value) {
      if i < |d.outq| {
        JoinClient(s, r, c, m, a, d.outq[i].value);
      }
    }
    if d.outpc.CWriting? {
      JoinClient(s, r, c, m, a, d.outpc.m);
    }
  }

  lemma JoinLinks(s: State, r: State, c: nat, m: nat)
    requires Join(s, r, c, m) && Links(s) && Logged(s)
    ensures Links(r)
  {
    hide Join, Logged;
    forall x: nat | x < |r.msgs| ensures MsgLinks(r, r.msgs[x]) {
      JoinMsgLinks(s, r, c, m, x);
    }
    forall a: nat | a < |r.conns| ensures ConnLinks(r, a) {
      JoinExtent(s, r, c, m);
      JoinConnLinks(s, r, c, m, a);
    }
  }

  lemma JoinExtent(s: State, r: State, c: nat, m: nat)
    requires Join(s, r, c, m)
    ensures |r.conns| == |s.conns|
  {
  }

  // ----- stages --------------------------------------------------------------------------

  lemma JoinActive(s: State, r: State, c: nat, m: nat)
    requires Join(s, r, c, m) && Links(s) && ActiveHeld(s)
    ensures ActiveHeld(r)
  {
    forall x: nat | x < |r.msgs| && Active(r.msgs[x].stage) ensures r.msgs[x].conn.Some? && Waits(r, x) {
      if x != m {
        assert Waits(s, x) && MsgLinks(s, s.msgs[x]);
        OutsideConn(s, r, c, m, s.msgs[x].conn.value);
      }
    }
  }

  /** The new message has the largest serial number. */
  lemma Latest(s: State, r: State, c: nat, m: nat, x: nat)
    requires Join(s, r, c, m) && Logged(s) && x < |s.msgs| && x != m && s.msgs[x].conn.Some?
    ensures r.msgs[x].serial == s.msgs[x].serial < r.msgs[m].serial
  {
  }

  lemma LatestActive(s: State, r: State, c: nat, m: nat, x: nat)
    requires Join(s, r, c, m) && Logged(s) && ActiveHeld(s) && x < |s.msgs| && Active(s.msgs[x].stage)
    ensures x != m && r.msgs[x].serial == s.msgs[x].serial < r.msgs[m].serial && r.msgs[x].stage == s.msgs[x].stage
  {
    Latest(s, r, c, m, x);
  }

  lemma JoinOut(s: State, r: State, c: nat, m: nat)
    requires Join(s, r, c, m) && ActiveHeld(s) && OutOk(s) && Logged(s)
    ensures OutOk(r)
  {
    JoinOutQueue(s, r, c, m);
    JoinOutBefore(s, r, c, m);
    JoinOutThread(s, r, c, m);
  }

  lemma JoinQueue(s: State, r: State, c: nat, m: nat)
    requires Join(s, r, c, m)
    ensures m < |r.msgs| && r.outq == if r.msgs[m].stage == Queued then s.outq + [Out(m)] else s.outq
  {
  }

  lemma JoinOutQueue(s: State, r: State, c: nat, m: nat)
    requires Join(s, r, c, m) && ActiveHeld(s) && OutQueue(s) && OutSorted(s) && Logged(s)
    ensures OutQueue(r) && OutSorted(r)
  {
    hide Join, ActiveHeld, Logged;
    JoinQueue(s, r, c, m);
    forall i | 0 <= i < |s.outq| && s.outq[i].Out?
      ensures s.outq[i].m < |s.msgs| && s.outq[i].m < |r.msgs|
      ensures r.msgs[s.outq[i].m].serial == s.msgs[s.outq[i].m].serial < r.msgs[m].serial
      ensures r.msgs[s.outq[i].m].stage == Queued
    {
      JoinSize(s, r, c, m);
      LatestActive(s, r, c, m, s.outq[i].m);
    }
  }

  lemma JoinSize(s: State, r: State, c: nat, m: nat)
    requires Join(s, r, c, m)
    ensures |s.msgs| <= |r.msgs| && m < |r.msgs|
  {
  }

  lemma JoinOutBefore(s: State, r: State, c: nat, m: nat)
    requires Join(s, r, c, m) && ActiveHeld(s) && OutQueue(s) && OutBefore(s) && Logged(s)
    ensures OutBefore(r)
  {
    forall i, x: nat | 0 <= i < |r.outq| && r.outq[i].Out? && x < |r.msgs| && Departed(r.msgs[x].stage)
      ensures r.msgs[x].serial < M(r, r.outq[i].m).serial
    {
      LatestActive(s, r, c, m, x);
      if i < |s.outq| {
        LatestActive(s, r, c, m, s.outq[i].m);
      }
    }
  }

  lemma JoinOutThread(s: State, r: State, c: nat, m: nat)
    requires Join(s, r, c, m) && ActiveHeld(s) && OutThread(s) && Logged(s)
    ensures OutThread(r)
  {
    if s.out.OWriting? {
      LatestActive(s, r, c, m, s.out.m);
    }
  }

  lemma JoinServer(s: State, r: State, c: nat, m: nat)
    requires Join(s, r, c, m) && ServerOk(s)
    ensures ServerOk(r)
  {
    forall x: nat | x < |r.msgs| && r.msgs[x].stage == Replied ensures InReplies(r, x) {
      assert InReplies(s, x);
    }
  }

  lemma JoinReplyOrder(s: State, r: State, c: nat, m: nat)
    requires Join(s, r, c, m) && RepliesOk(s) && ReplyOrder(s)
    ensures ReplyOrder(r)
  {
    forall i | 0 <= i < |r.replies| ensures M(r, r.replies[i].tag).oldm == M(s, s.replies[i].tag).oldm {
      assert s.replies[i].tag != m;
    }
  }

  lemma JoinConnStages(s: State, r: State, c: nat, m: nat, a: nat)
    requires Join(s, r, c, m) && Links(s) && a < |s.conns| && ConnStages(s, s.conns[a])
    ensures ConnStages(r, r.conns[a])
  {
    hide Join, Links, ConnLinks;
    LinksConn(s, a);
    OutsideConn(s, r, c, m, a);
    JoinParts(s, r, c, m, a);
  }

  lemma LinksConn(s: State, a: nat)
    requires Links(s) && a < |s.conns|
    ensures ConnLinks(s, a)
  {
  }

  /** The parts of a connection that have stages, and their messages. */
  lemma JoinParts(s: State, r: State, c: nat, m: nat, a: nat)
    requires Join(s, r, c, m) && a < |s.conns|
    ensures |r.conns| == |s.conns| && |s.msgs| <= |r.msgs| && m < |r.msgs|
    ensures var d, e := s.conns[a], r.conns[a];
      e.outpc == d.outpc && e.internal == d.internal &&
      (e.outq == d.outq || (e.outq == d.outq + [Some(m)] && r.msgs[m].stage == Delivered))
    ensures forall x: nat :: x < |s.msgs| && x != m ==> r.msgs[x].stage == s.msgs[x].stage
  {
  }

  lemma JoinFlush(s: State, r: State, c: nat, m: nat, f: nat)
    requires Join(s, r, c, m) && Links(s) && f < |r.msgs| && (f < |s.msgs| ==> FlushOk(s, f))
    ensures FlushOk(r, f)
  {
    if f != m {
      assert MsgLinks(s, s.msgs[f]);
      OutsideMsg(s, r, c, m, f);
    }
  }

  lemma JoinStages(s: State, r: State, c: nat, m: nat)
    requires Join(s, r, c, m) && Links(s) && Logged(s) && Stages(s)
    ensures Stages(r)
  {
    hide Join, Links, Logged, ActiveHeld, OutOk, ReplyOrder, ConnStages, FlushOk;
    JoinActive(s, r, c, m);
    JoinOut(s, r, c, m);
    JoinServer(s, r, c, m);
    JoinReplyOrder(s, r, c, m);
    JoinExtent(s, r, c, m);
    forall a: nat | a < |r.conns| ensures ConnStages(r, r.conns[a]) {
      JoinConnStages(s, r, c, m, a);
    }
    forall f: nat | f < |r.msgs| ensures FlushOk(r, f) {
      JoinFlush(s, r, c, m, f);
    }
  }

  // ----- closing and records -------------------------------------------------------------

  lemma JoinPhase(s: State, r: State, c: nat, m: nat, a: nat)
    requires Join(s, r, c, m) && OutThread(s) && a < |s.conns| && Phase(s, a) && NoFresh(s)
    requires s.out.OWritten? ==> s.out.m != m
    ensures Phase(r, a)
  {
    hide FidsOk, Waits, IsOpen, ClientMsg, Clean;
    forall x: nat | x < |r.msgs| && r.msgs[x].conn == Some(a) && x != m
      ensures x < |s.msgs| && s.msgs[x].conn == Some(a) && !s.msgs[x].stage.Fresh? {
    }
  }

  lemma JoinPhases(s: State, r: State, c: nat, m: nat)
    requires Join(s, r, c, m) && OutThread(s) && Phases(s) && NoFresh(s) && (s.out.OWritten? ==> s.out.m != m)
    ensures Phases(r)
  {
    forall a: nat | a < |r.conns| ensures Phase(r, a) {
      JoinPhase(s, r, c, m, a);
    }
  }

  lemma JoinLogged(s: State, r: State, c: nat, m: nat)
    requires Join(s, r, c, m) && Logged(s)
    ensures Logged(r)
  {
    forall x: nat | x < |r.msgs| && r.msgs[x].conn.Some? && x != m
      ensures r.msgs[x].serial == s.msgs[x].serial < r.msgs[m].serial {
      Latest(s, r, c, m, x);
    }
  }

  lemma JoinAnswers(s: State, r: State, c: nat, m: nat)
    requires Join(s, r, c, m) && Logged(s) && AnswersOk(s)
    ensures AnswersOk(r)
  {
    forall i | 0 <= i < |r.answers| ensures AnswerOk(r, r.answers[i]) && r.answers[i].serial < |s.log| {
      assert AnswerOk(s, s.answers[i]);
    }
  }

  /** Everything that is not a count holds with the message added. */
  lemma JoinLife(s: State, r: State, c: nat, m: nat)
    requires Join(s, r, c, m) && Life(s) && NoFresh(s) && (s.out.OWritten? ==> s.out.m != m)
    ensures Life(r) && NoFresh(r)
  {
    JoinNoFresh(s, r, c, m);
    hide Join, Links, Logged, Phases, AnswersOk, NoFresh;
    JoinLinks(s, r, c, m);
    JoinStages(s, r, c, m);
    JoinPhases(s, r, c, m);
    JoinLogged(s, r, c, m);
    JoinAnswers(s, r, c, m);
  }

  lemma JoinNoFresh(s: State, r: State, c: nat, m: nat)
    requires Join(s, r, c, m) && NoFresh(s)
    ensures NoFresh(r)
  {
  }
}
