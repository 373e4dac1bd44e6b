/** Steps that only move messages on: from stage to stage, and through a connection's queue. */
module NinePMove {
  import opened NinePState
  import opened NinePInv

  /** The message is the same but for its count, its stage and the result it carries. */
  ghost predicate MoveMsg(o: Msg, v: Msg)
  {
    v == o.(ref := v.ref, stage := v.stage, err := v.err, short := v.short) &&
    (v.stage.Free? <==> o.stage.Free?) && (v.stage.Fresh? <==> o.stage.Fresh?) &&
    (Unanswered(v.stage) ==> Unanswered(o.stage))
  }

  ghost predicate Moved(s: State, r: State)
  {
    |r.msgs| == |s.msgs| && r.fids == s.fids && |r.conns| == |s.conns| && r.log == s.log && r.answers == s.answers &&
    r.refused == s.refused &&
    forall x: nat :: x < |s.msgs| ==> MoveMsg(s.msgs[x], r.msgs[x])
  }

  lemma MovedLogged(s: State, r: State)
    requires Moved(s, r) && Logged(s) && AnswersOk(s)
    ensures Logged(r) && AnswersOk(r)
  {
    forall i | 0 <= i < |r.answers| ensures AnswerOk(r, r.answers[i]) {
      assert AnswerOk(s, s.answers[i]);
    }
  }

  lemma MovedMsgLinks(s: State, r: State, x: nat)
    requires Moved(s, r) && Links(s) && x < |s.msgs|
    ensures MsgLinks(r, r.msgs[x])
  {
    assert MsgLinks(s, s.msgs[x]) && MoveMsg(s.msgs[x], r.msgs[x]);
    if s.msgs[x].oldm.Some? {
      assert MoveMsg(s.msgs[s.msgs[x].oldm.value], r.msgs[s.msgs[x].oldm.value]);
    }
  }

  /** Connection c in r names nothing that it could not name in s. */
  ghost predicate ConnMoved(s: State, r: State, c: nat)
    requires c < |s.conns| && c < |r.conns|
  {
    var d, e := s.conns[c], r.conns[c];
    (forall k :: k in e.tag ==> k in d.tag && e.tag[k] == d.tag[k]) &&
    (forall k :: k in e.fid ==> k in d.fid && e.fid[k] == d.fid[k]) &&
    (forall i :: 0 <= i < |e.outq| && e.outq[i].Some? ==> ClientMsg(s, c, e.outq[i].value)) &&
    (e.outpc.CWriting? ==> ClientMsg(s, c, e.outpc.m)) &&
    (e.pc.FlushWait? || e.pc.ClunkWait? ==> e.pc == d.pc) && (e.pc.ClunkWait? ==> e.pc.k in e.fid) &&
    (e.internal.Some? ==> (e.pc.FlushWait? || e.pc.ClunkWait?) && e.pc.m == e.internal.value)
  }

  lemma ConnMovedSame(s: State, r: State, c: nat)
    requires Links(s) && c < |s.conns| && c < |r.conns| && r.conns[c] == s.conns[c]
    ensures ConnMoved(s, r, c)
  {
    assert ConnLinks(s, c);
  }

  lemma MovedClient(s: State, r: State, c: nat, x: nat)
    requires Moved(s, r) && ClientMsg(s, c, x)
    ensures ClientMsg(r, c, x) && r.msgs[x].ctag == s.msgs[x].ctag
  {
    assert MoveMsg(s.msgs[x], r.msgs[x]);
  }

  lemma MovedWait(s: State, r: State, c: nat)
    requires Moved(s, r) && Links(s) && c < |s.conns| && ConnMoved(s, r, c)
    ensures WaitOk(r, c)
  {
    assert ConnLinks(s, c);
    match r.conns[c].pc
    case FlushWait(om, m) => assert MoveMsg(s.msgs[m], r.msgs[m]); MovedClient(s, r, c, om);
    case ClunkWait(k, m) => assert MoveMsg(s.msgs[m], r.msgs[m]);
    case _ =>
  }

  lemma MovedConnLinks(s: State, r: State, c: nat)
    requires Moved(s, r) && Links(s) && c < |s.conns| && ConnMoved(s, r, c)
    ensures ConnLinks(r, c)
  {
    assert ConnLinks(s, c);
    var e := r.conns[c];
    forall k | k in e.tag ensures ClientMsg(r, c, e.tag[k]) && r.msgs[e.tag[k]].ctag == k {
      MovedClient(s, r, c, e.tag[k]);
    }
    forall i | 0 <= i < |e.outq| && e.outq[i].Some? ensures ClientMsg(r, c, e.outq[i].value) {
      MovedClient(s, r, c, e.outq[i].value);
    }
    if e.outpc.CWriting? {
      MovedClient(s, r, c, e.outpc.m);
    }
    MovedWait(s, r, c);
  }

  lemma MovedLinks(s: State, r: State)
    requires Moved(s, r) && Links(s) && forall c: nat :: c < |s.conns| ==> ConnMoved(s, r, c)
    ensures Links(r)
  {
    forall x: nat | x < |r.msgs| ensures MsgLinks(r, r.msgs[x]) {
      MovedMsgLinks(s, r, x);
    }
    forall c: nat | c < |r.conns| ensures ConnLinks(r, c) {
      MovedConnLinks(s, r, c);
    }
  }

  // ----- steps of a connection's threads -------------------------------------------------

  /** A message that moves on behind the server's back. */
  ghost predicate QuietMsg(o: Msg, v: Msg)
  {
    (Active(o.stage) || Active(v.stage) ==> v.stage == o.stage) && (Answered(v.stage) ==> Answered(o.stage))
  }

  /** The queue to the server is the same up to the marks in it. */
  ghost predicate SameOuts(s: State, r: State)
  {
    r.outq == s.outq || (exists c :: r.outq == s.outq + [Sync(c)]) || (exists c :: s.outq == [Sync(c)] + r.outq)
  }

  /** Only connection c and its messages change, none of which is on its way to the server and back. */
  ghost predicate Quiet(s: State, r: State, c: nat)
  {
    Moved(s, r) && c < |s.conns| && r.pend == s.pend && r.replies == s.replies && r.out == s.out && SameOuts(s, r) &&
    (forall a: nat :: a < |s.conns| && a != c ==> r.conns[a] == s.conns[a]) &&
    (forall x: nat :: x < |s.msgs| ==> QuietMsg(s.msgs[x], r.msgs[x])) &&
    (forall x: nat :: x < |s.msgs| && s.msgs[x].conn != Some(c) ==> r.msgs[x].stage == s.msgs[x].stage)
  }

  lemma QuietStage(s: State, r: State, c: nat, x: nat)
    requires Quiet(s, r, c) && x < |s.msgs|
    ensures Active(s.msgs[x].stage) || Active(r.msgs[x].stage) ==> r.msgs[x].stage == s.msgs[x].stage
    ensures r.msgs[x].serial == s.msgs[x].serial && r.msgs[x].oldm == s.msgs[x].oldm
    ensures r.msgs[x].conn == s.msgs[x].conn && r.msgs[x].internal == s.msgs[x].internal &&
            r.msgs[x].ctag == s.msgs[x].ctag
  {
    assert QuietMsg(s.msgs[x], r.msgs[x]) && MoveMsg(s.msgs[x], r.msgs[x]);
  }

  /** The parts of OutOk look only at active messages and at the requests in the queue. */
  ghost predicate SameActive(s: State, r: State)
  {
    |r.msgs| == |s.msgs| && r.out == s.out &&
    forall x: nat :: x < |s.msgs| ==> (r.msgs[x].serial == s.msgs[x].serial &&
      (Active(s.msgs[x].stage) || Active(r.msgs[x].stage) ==> r.msgs[x].stage == s.msgs[x].stage))
  }

  lemma QuietSame(s: State, r: State, c: nat)
    requires Quiet(s, r, c)
    ensures SameActive(s, r) && SameOuts(s, r)
  {
    forall x: nat | x < |s.msgs|
      ensures r.msgs[x].serial == s.msgs[x].serial
      ensures Active(s.msgs[x].stage) || Active(r.msgs[x].stage) ==> r.msgs[x].stage == s.msgs[x].stage
    {
      QuietStage(s, r, c, x);
    }
  }

  lemma SameQueue(s: State, r: State)
    requires SameActive(s, r) && SameOuts(s, r) && OutQueue(s) && OutAll(s)
    ensures OutQueue(r) && OutAll(r)
  {
    forall m: nat | m < |r.msgs| && r.msgs[m].stage == Queued ensures Out(m) in r.outq {
      assert Out(m) in s.outq;
    }
    forall i | 0 <= i < |r.outq| && r.outq[i].Out?
      ensures r.outq[i].m < |r.msgs| && r.msgs[r.outq[i].m].stage == Queued {
      assert r.outq[i] in s.outq;
    }
  }

  /** Each request of r's queue stands in s's, d places on. */
  ghost predicate Along(s: State, r: State, d: nat)
  {
    forall i :: 0 <= i < |r.outq| && r.outq[i].Out? ==> i + d < |s.outq| && s.outq[i + d] == r.outq[i]
  }

  lemma AlongSorted(s: State, r: State, d: nat)
    requires SameActive(s, r) && Along(s, r, d) && OutQueue(s) && OutSorted(s)
    ensures OutSorted(r)
  {
    forall i, j | 0 <= i < j < |r.outq| && r.outq[i].Out? && r.outq[j].Out?
      ensures M(r, r.outq[i].m).serial < M(r, r.outq[j].m).serial
    {
      assert s.outq[i + d] == r.outq[i] && s.outq[j + d] == r.outq[j];
    }
  }

  lemma AlongBefore(s: State, r: State, d: nat)
    requires SameActive(s, r) && Along(s, r, d) && OutQueue(s) && OutBefore(s)
    ensures OutBefore(r)
  {
    forall i, m: nat | 0 <= i < |r.outq| && r.outq[i].Out? && m < |r.msgs| && Departed(r.msgs[m].stage)
      ensures r.msgs[m].serial < M(r, r.outq[i].m).serial
    {
      assert s.outq[i + d] == r.outq[i];
    }
  }

  lemma SameSorted(s: State, r: State)
    requires SameActive(s, r) && SameOuts(s, r) && OutQueue(s) && OutSorted(s) && OutBefore(s)
    ensures OutSorted(r) && OutBefore(r)
  {
    var d := if exists c :: s.outq == [Sync(c)] + r.outq then 1 else 0;
    assert Along(s, r, d);
    hide SameActive, SameOuts, Along, OutQueue, OutSorted, OutBefore;
    AlongSorted(s, r, d);
    AlongBefore(s, r, d);
  }

  lemma QuietOutOk(s: State, r: State, c: nat)
    requires Quiet(s, r, c) && OutOk(s)
    ensures OutOk(r)
  {
    QuietSame(s, r, c);
    hide Quiet, SameOuts;
    SameQueue(s, r);
    SameSorted(s, r);
    hide OutQueue, OutAll, OutSorted, OutBefore;
    assert OutThread(r);
  }

  lemma QuietBasics(s: State, r: State, c: nat)
    requires Quiet(s, r, c)
    ensures |r.msgs| == |s.msgs| && r.out == s.out && r.pend == s.pend && r.replies == s.replies
  {
  }

  lemma QuietServer(s: State, r: State, c: nat)
    requires Quiet(s, r, c) && ServerOk(s) && ReplyOrder(s)
    ensures ServerOk(r) && ReplyOrder(r)
  {
    forall x: nat | x < |s.msgs|
      ensures Active(s.msgs[x].stage) || Active(r.msgs[x].stage) ==> r.msgs[x].stage == s.msgs[x].stage
      ensures r.msgs[x].serial == s.msgs[x].serial && r.msgs[x].oldm == s.msgs[x].oldm
    {
      QuietStage(s, r, c, x);
    }
    hide Quiet;
    QuietBasics(s, r, c);
    forall m: nat | m < |r.msgs| && r.msgs[m].stage == Replied ensures InReplies(r, m) {
      assert InReplies(s, m);
    }
  }

  lemma QuietFlush(s: State, r: State, c: nat, f: nat)
    requires Quiet(s, r, c) && f < |s.msgs| && FlushOk(s, f)
    ensures FlushOk(r, f)
  {
    assert QuietMsg(s.msgs[f], r.msgs[f]) && MoveMsg(s.msgs[f], r.msgs[f]);
    if s.msgs[f].oldm.Some? && s.msgs[f].oldm.value < |s.msgs| {
      assert QuietMsg(s.msgs[s.msgs[f].oldm.value], r.msgs[s.msgs[f].oldm.value]);
    }
  }

  lemma QuietConnStages(s: State, r: State, c: nat, a: nat)
    requires Quiet(s, r, c) && Links(s) && a < |s.conns| && a != c && ConnStages(s, s.conns[a])
    ensures ConnStages(r, r.conns[a])
  {
    assert ConnLinks(s, a);
  }

  lemma QuietPhase(s: State, r: State, c: nat, a: nat)
    requires Quiet(s, r, c) && OutThread(s) && a < |s.conns| && a != c && Phase(s, a)
    ensures Phase(r, a)
  {
    if s.out.OWritten? {
      assert MoveMsg(s.msgs[s.out.m], r.msgs[s.out.m]);
    }
    forall m: nat | m < |r.msgs|
      ensures r.msgs[m].conn == s.msgs[m].conn && (r.msgs[m].stage.Fresh? <==> s.msgs[m].stage.Fresh?) {
      assert MoveMsg(s.msgs[m], r.msgs[m]);
    }
  }

  lemma QuietActive(s: State, r: State, c: nat)
    requires Quiet(s, r, c) && ActiveHeld(s)
    requires forall x: nat :: x < |r.msgs| && Active(r.msgs[x].stage) && r.msgs[x].conn == Some(c) ==> Waits(r, x)
    ensures ActiveHeld(r)
  {
    forall x: nat | x < |r.msgs| && Active(r.msgs[x].stage) ensures r.msgs[x].conn.Some? && Waits(r, x) {
      QuietStage(s, r, c, x);
      assert Waits(s, x);
    }
  }

  /** The marks in the queue to the server, each for a connection that waits for it. */
  ghost predicate SyncsOk(s: State)
  {
    (forall i ::
      0 <= i < |s.outq| && s.outq[i].Sync? ==> s.outq[i].c < |s.conns| && s.conns[s.outq[i].c].pc.SyncWait?) &&
    (forall i, j :: 0 <= i < j < |s.outq| && s.outq[i].Sync? ==> s.outq[i] != s.outq[j])
  }

  /** What a step of connection c itself must show. */
  ghost predicate ConnDone(s: State, r: State, c: nat)
    requires c < |s.conns| && c < |r.conns|
  {
    ConnMoved(s, r, c) && ConnStages(r, r.conns[c]) && Phase(r, c) && SyncsOk(r) &&
    forall x: nat :: x < |r.msgs| && Active(r.msgs[x].stage) && r.msgs[x].conn == Some(c) ==> Waits(r, x)
  }

  lemma QuietStages(s: State, r: State, c: nat)
    requires Quiet(s, r, c) && Links(s) && Stages(s) && ConnDone(s, r, c)
    ensures Stages(r)
  {
    QuietActive(s, r, c);
    QuietOutOk(s, r, c);
    QuietServer(s, r, c);
    forall a: nat | a < |r.conns| ensures ConnStages(r, r.conns[a]) {
      if a != c {
        QuietConnStages(s, r, c, a);
      }
    }
    forall f: nat | f < |r.msgs| ensures FlushOk(r, f) {
      QuietFlush(s, r, c, f);
    }
  }

  lemma QuietLinks(s: State, r: State, c: nat)
    requires Quiet(s, r, c) && Links(s) && ConnMoved(s, r, c)
    ensures Links(r)
  {
    forall a: nat | a < |s.conns| ensures ConnMoved(s, r, a) {
      if a != c {
        ConnMovedSame(s, r, a);
      }
    }
    MovedLinks(s, r);
  }

  lemma QuietPhases(s: State, r: State, c: nat)
    requires Quiet(s, r, c) && OutThread(s) && Phases(s) && Phase(r, c) && SyncsOk(r)
    ensures Phases(r)
  {
    forall a: nat | a < |r.conns| ensures Phase(r, a) {
      if a != c {
        QuietPhase(s, r, c, a);
      }
    }
  }

  /** A step of connection c that shows its own part keeps all that is not a count. */
  lemma QuietLife(s: State, r: State, c: nat)
    requires Quiet(s, r, c) && Life(s) && ConnDone(s, r, c)
    ensures Life(r)
  {
    QuietLinks(s, r, c);
    QuietStages(s, r, c);
    QuietPhases(s, r, c);
    MovedLogged(s, r);
  }

  // ----- steps of the threads that talk to the server -------------------------------------

  /** No connection changes, and no message in a connection's queue. */
  ghost predicate Outer(s: State, r: State)
  {
    Moved(s, r) && r.conns == s.conns &&
    (forall x: nat ::
      x < |s.msgs| && s.msgs[x].stage in {Delivered, Handling, Done} ==> r.msgs[x].stage == s.msgs[x].stage) &&
    (forall x: nat :: x < |s.msgs| && Active(r.msgs[x].stage) ==> Active(s.msgs[x].stage))
  }

  lemma OuterLinks(s: State, r: State)
    requires Outer(s, r) && Links(s)
    ensures Links(r)
  {
    forall c: nat | c < |s.conns| ensures ConnMoved(s, r, c) {
      ConnMovedSame(s, r, c);
    }
    MovedLinks(s, r);
  }

  lemma OuterActive(s: State, r: State)
    requires Outer(s, r) && ActiveHeld(s)
    ensures ActiveHeld(r)
  {
    forall x: nat | x < |r.msgs| && Active(r.msgs[x].stage) ensures r.msgs[x].conn.Some? && Waits(r, x) {
      assert MoveMsg(s.msgs[x], r.msgs[x]) && Waits(s, x);
    }
  }

  lemma OuterConnStages(s: State, r: State, c: nat)
    requires Outer(s, r) && Links(s) && c < |s.conns| && ConnStages(s, s.conns[c])
    ensures ConnStages(r, r.conns[c])
  {
    assert ConnLinks(s, c);
  }

  /** While m is being written its connection waits for it or has it in its tag table. */
  ghost predicate OutPhase(s: State, r: State)
  {
    r.out.OWritten? ==> r.out == s.out || (r.out.m < |s.msgs| && Active(s.msgs[r.out.m].stage))
  }

  lemma OuterPhase(s: State, r: State, c: nat)
    requires Outer(s, r) && ActiveHeld(s) && OutThread(s) && OutPhase(s, r) && c < |s.conns| && Phase(s, c)
    ensures Phase(r, c)
  {
    forall m: nat | m < |r.msgs|
      ensures r.msgs[m].conn == s.msgs[m].conn && (r.msgs[m].stage.Fresh? <==> s.msgs[m].stage.Fresh?) {
      assert MoveMsg(s.msgs[m], r.msgs[m]);
    }
    if r.out.OWritten? && r.out != s.out {
      assert Waits(s, r.out.m);
    }
  }

  /** What a step of the outer threads must show. */
  ghost predicate OuterDone(s: State, r: State)
  {
    OutOk(r) && ServerOk(r) && ReplyOrder(r) && OutPhase(s, r) && SyncsOk(r) &&
    forall f: nat :: f < |r.msgs| ==> FlushOk(r, f)
  }

  lemma OuterLife(s: State, r: State)
    requires Outer(s, r) && Life(s) && OuterDone(s, r)
    ensures Life(r)
  {
    OuterLinks(s, r);
    OuterActive(s, r);
    forall c: nat | c < |r.conns| ensures ConnStages(r, r.conns[c]) {
      OuterConnStages(s, r, c);
    }
    forall c: nat | c < |r.conns| ensures Phase(r, c) {
      OuterPhase(s, r, c);
    }
    MovedLogged(s, r);
  }
}
