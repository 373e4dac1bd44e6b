/** What every state of the multiplexer satisfies. */
module NinePInv {
  import opened NinePState

  // ----- who holds a reference -----------------------------------------------------------

  function OutHolds(out: OutPc, m: nat): nat { if out.OIdle? then 0 else One(out.m == m) }

  function PcHolds(pc: ConnPc, m: nat): nat
  {
    match pc
    case FlushWait(om, x) => One(om == m) + One(x == m)
    case ClunkWait(k, x) => One(x == m)
    case _ => 0
  }

  function WriterHolds(pc: ConnOut, m: nat): nat { if pc.CWriting? then One(pc.m == m) else 0 }

  predicate InTags(c: Conn, k: nat, m: nat) { k in c.tag && c.tag[k] == m }

  /** The references to m from the tag table, the queue and the two threads of its connection. */
  function ConnHolds(c: Conn, k: nat, m: nat): nat
  {
    One(InTags(c, k, m)) + multiset(c.outq)[Some(m)] + WriterHolds(c.outpc, m) + PcHolds(c.pc, m) +
      One(c.internal == Some(m))
  }

  /** All references to m that are not links from other messages. */
  function Rooted(s: State, m: nat): nat
  {
    (if M(s, m).conn.Some? then ConnHolds(C(s, M(s, m).conn.value), M(s, m).ctag, m) else 0) +
    multiset(s.outq)[Out(m)] + OutHolds(s.out, m)
  }

  function Held(s: State, m: nat): nat
  {
    Rooted(s, m) + Count(s.msgs, OldmIs(m))
  }

  function FidHeld(s: State, f: nat): nat
  {
    (if IsFid(s, f) then Count(s.conns, TableHas(s.fids[f].cfid, f)) else 0) +
    Count(s.msgs, FidIs(f)) + Count(s.msgs, NewfidIs(f)) + Count(s.msgs, AfidIs(f))
  }

  // ----- counts --------------------------------------------------------------------------
  // xm and xf are the references a thread holds in its local variables in the middle of a step;
  // dying are the messages whose last reference has gone but that are not yet on the free list.

  ghost predicate RefM(s: State, xm: multiset<nat>)
  {
    (forall m: nat :: m < |s.msgs| ==> s.msgs[m].ref == Held(s, m) + xm[m]) && (forall m :: m in xm ==> m < |s.msgs|)
  }

  ghost predicate RefF(s: State, xf: multiset<nat>)
  {
    (forall f: nat :: IsFid(s, f) ==> s.fids[f].ref == FidHeld(s, f) + xf[f]) && (forall f :: f in xf ==> IsFid(s, f))
  }

  predicate Clean(o: Msg)
  {
    o.conn.None? && o.oldm.None? && o.fid.None? && o.newfid.None? && o.afid.None? && o.stage.Free? && !o.internal
  }

  ghost predicate NoDup(q: seq<nat>)
  {
    forall i, j :: 0 <= i < j < |q| ==> q[i] != q[j]
  }

  ghost predicate FreeM(s: State, dying: set<nat>)
  {
    NoDup(s.freem) &&
    (forall i :: 0 <= i < |s.freem| ==> s.freem[i] < |s.msgs| && s.msgs[s.freem[i]].ref == 0 && s.freem[i] !in dying) &&
    (forall m :: m in dying ==> m < |s.msgs| && s.msgs[m].ref == 0) &&
    (forall m: nat :: m < |s.msgs| && s.msgs[m].ref == 0 ==> m in s.freem || m in dying) &&
    (forall m: nat :: m < |s.msgs| && s.msgs[m].ref == 0 ==> Clean(s.msgs[m]))
  }

  ghost predicate FreeF(s: State, xafid: nat)
  {
    NoDup(s.freef) &&
    (forall i :: 0 <= i < |s.freef| ==> IsFid(s, s.freef[i]) && s.fids[s.freef[i]].ref == 0) &&
    (forall f: nat :: IsFid(s, f) && s.fids[f].ref == 0 ==> f in s.freef) &&
    !IsFid(s, xafid)
  }

  ghost predicate Counts(s: State)
  {
    s.nmsg == Count(s.msgs, Live()) &&
    forall c: nat :: c < |s.conns| ==> s.conns[c].nmsg == Count(s.msgs, ConnIs(c))
  }

  ghost predicate Cnt(s: State, xm: multiset<nat>, xf: multiset<nat>, dying: set<nat>, xafid: nat)
  {
    !s.fault && RefM(s, xm) && RefF(s, xf) && FreeM(s, dying) && FreeF(s, xafid) && Counts(s)
  }

  // ----- links ---------------------------------------------------------------------------

  /** m is a client's message of connection c. */
  ghost predicate ClientMsg(s: State, c: nat, m: nat)
  {
    m < |s.msgs| && s.msgs[m].conn == Some(c) && !s.msgs[m].internal
  }

  ghost predicate WaitOk(s: State, c: nat)
    requires c < |s.conns|
  {
    match s.conns[c].pc
    case FlushWait(om, m) =>
      m < |s.msgs| && s.msgs[m].conn == Some(c) && s.msgs[m].internal && s.msgs[m].oldm == Some(om) &&
      ClientMsg(s, c, om)
    case ClunkWait(k, m) =>
      m < |s.msgs| && s.msgs[m].conn == Some(c) && s.msgs[m].internal && s.msgs[m].oldm.None? &&
      k in s.conns[c].fid && s.msgs[m].fid == Some(s.conns[c].fid[k])
    case _ => true
  }

  ghost predicate ConnLinks(s: State, c: nat)
    requires c < |s.conns|
  {
    var d := s.conns[c];
    (forall k :: k in d.tag ==> ClientMsg(s, c, d.tag[k]) && s.msgs[d.tag[k]].ctag == k) &&
    (forall i :: 0 <= i < |d.outq| && d.outq[i].Some? ==> ClientMsg(s, c, d.outq[i].value)) &&
    (d.outpc.CWriting? ==> ClientMsg(s, c, d.outpc.m)) &&
    (forall k :: k in d.fid ==> IsFid(s, d.fid[k]) && s.fids[d.fid[k]].cfid == k) &&
    (d.internal.Some? ==> (d.pc.FlushWait? || d.pc.ClunkWait?) && d.pc.m == d.internal.value) && WaitOk(s, c)
  }

  ghost predicate OptFid(s: State, f: Option<nat>) { f.Some? ==> IsFid(s, f.value) }

  ghost predicate OlderMsg(s: State, c: nat, m: nat, serial: nat)
  {
    ClientMsg(s, c, m) && s.msgs[m].serial < serial
  }

  ghost predicate MsgLinks(s: State, o: Msg)
  {
    (o.conn.Some? ==> o.conn.value < |s.conns|) &&
    (o.conn.None? ==> o.oldm.None? && o.fid.None? && o.newfid.None? && o.afid.None?) &&
    OptFid(s, o.fid) && OptFid(s, o.newfid) && OptFid(s, o.afid) &&
    (!s.refused && o.conn.Some? && o.kind in {Topen, Tcreate} && o.stage !in {Free, Fresh} ==> o.fid.Some?) &&
    (o.oldm.Some? ==> o.kind == Tflush && o.conn.Some? && OlderMsg(s, o.conn.value, o.oldm.value, o.serial))
  }

  ghost predicate Links(s: State)
  {
    (forall m: nat :: m < |s.msgs| ==> MsgLinks(s, s.msgs[m])) &&
    (forall c: nat :: c < |s.conns| ==> ConnLinks(s, c))
  }

  // ----- stages --------------------------------------------------------------------------

  /** On its way to the server, there, or on its way back. */
  predicate Active(g: Stage) { g in {Queued, Writing, Sent, Replied} }

  /** At or past the server, or next to it. */
  predicate Departed(g: Stage) { g in {Writing, Sent, Replied} }

  predicate Answered(g: Stage) { g in {Fetched, Delivered, Handling, Done} }

  ghost predicate Waits(s: State, m: nat)
    requires m < |s.msgs| && s.msgs[m].conn.Some?
  {
    var d := C(s, s.msgs[m].conn.value);
    if s.msgs[m].internal then (d.pc.FlushWait? || d.pc.ClunkWait?) && d.pc.m == m
    else InTags(d, s.msgs[m].ctag, m)
  }

  /** An active message is in its tag table, or its connection waits for it. */
  ghost predicate ActiveHeld(s: State)
  {
    forall m: nat :: m < |s.msgs| && Active(s.msgs[m].stage) ==> s.msgs[m].conn.Some? && Waits(s, m)
  }

  ghost predicate OutQueue(s: State)
  {
    forall i :: 0 <= i < |s.outq| && s.outq[i].Out? ==> s.outq[i].m < |s.msgs| && s.msgs[s.outq[i].m].stage == Queued
  }

  ghost predicate OutAll(s: State)
  {
    forall m: nat :: m < |s.msgs| && s.msgs[m].stage == Queued ==> Out(m) in s.outq
  }

  /** Requests leave in the order in which they came. */
  ghost predicate OutSorted(s: State)
  {
    forall i, j :: 0 <= i < j < |s.outq| && s.outq[i].Out? && s.outq[j].Out? ==>
      M(s, s.outq[i].m).serial < M(s, s.outq[j].m).serial
  }

  ghost predicate OutBefore(s: State)
  {
    forall i, m: nat :: 0 <= i < |s.outq| && s.outq[i].Out? && m < |s.msgs| && Departed(s.msgs[m].stage) ==>
      s.msgs[m].serial < M(s, s.outq[i].m).serial
  }

  ghost predicate OutThread(s: State)
  {
    (!s.out.OIdle? ==> s.out.m < |s.msgs|) &&
    (s.out.OWriting? ==> s.msgs[s.out.m].stage == Writing) &&
    (forall m: nat :: m < |s.msgs| && s.msgs[m].stage == Writing ==> s.out == OWriting(m)) &&
    (forall m: nat :: m < |s.msgs| && s.msgs[m].stage in {Sent, Replied} && s.out.OWriting? ==>
      s.msgs[m].serial < s.msgs[s.out.m].serial)
  }

  ghost predicate OutOk(s: State)
  {
    OutQueue(s) && OutAll(s) && OutSorted(s) && OutBefore(s) && OutThread(s)
  }

  ghost predicate PendOk(s: State)
  {
    (forall t ::
      t in s.pend ==> t < |s.msgs| && s.msgs[t].stage == Sent && s.pend[t] == ReqOf(s.msgs[t])) &&
    (forall m: nat :: m < |s.msgs| && s.msgs[m].stage == Sent ==> m in s.pend)
  }

  ghost predicate RepliesOk(s: State)
  {
    (forall i :: 0 <= i < |s.replies| ==> var r := s.replies[i];
      r.tag < |s.msgs| && s.msgs[r.tag].stage == Replied && s.msgs[r.tag].serial == r.serial) &&
    (forall i, j :: 0 <= i < j < |s.replies| ==> s.replies[i].tag != s.replies[j].tag)
  }

  ghost predicate InReplies(s: State, m: nat)
  {
    exists i :: 0 <= i < |s.replies| && s.replies[i].tag == m
  }

  ghost predicate ServerOk(s: State)
  {
    PendOk(s) && RepliesOk(s) && forall m: nat :: m < |s.msgs| && s.msgs[m].stage == Replied ==> InReplies(s, m)
  }

  ghost predicate ConnStages(s: State, d: Conn)
  {
    (forall i :: 0 <= i < |d.outq| && d.outq[i].Some? ==> M(s, d.outq[i].value).stage == Delivered) &&
    (forall i, j :: 0 <= i < j < |d.outq| && d.outq[i].Some? ==> d.outq[i] != d.outq[j]) &&
    (d.outpc.CWriting? ==> M(s, d.outpc.m).stage == Handling) &&
    (d.internal.Some? ==> M(s, d.internal.value).stage == Done)
  }

  /** What a flush guarantees about the request it names. */
  ghost predicate FlushOk(s: State, f: nat)
    requires f < |s.msgs|
  {
    s.msgs[f].oldm.Some? ==>
      var old1 := M(s, s.msgs[f].oldm.value);
      (s.msgs[f].stage == Sent ==> old1.stage !in {Queued, Writing}) &&
      (s.msgs[f].stage == Replied ==> old1.stage !in {Queued, Writing, Sent}) &&
      (Answered(s.msgs[f].stage) ==> !Active(old1.stage))
  }

  /** The reply to a request precedes the reply to its flush. */
  ghost predicate ReplyOrder(s: State)
  {
    forall i, j :: (0 <= i < |s.replies| && 0 <= j < |s.replies| &&
      M(s, s.replies[i].tag).oldm == Some(s.replies[j].tag)) ==> j < i
  }

  ghost predicate Stages(s: State)
  {
    ActiveHeld(s) && OutOk(s) && ServerOk(s) && ReplyOrder(s) &&
    (forall c: nat :: c < |s.conns| ==> ConnStages(s, s.conns[c])) &&
    (forall f: nat :: f < |s.msgs| ==> FlushOk(s, f))
  }

  // ----- closing a connection ------------------------------------------------------------

  predicate Flushed?(pc: ConnPc) { pc.SyncWait? || Drained(pc) }

  predicate Drained(pc: ConnPc) { pc.Synced? || pc.DeadWait? || Emptied(pc) }

  predicate Emptied(pc: ConnPc) { pc.DeadSeen? || pc.Clunking? || pc.ClunkWait? || pc.Closed? }

  ghost predicate Phase(s: State, c: nat)
    requires c < |s.conns|
  {
    var d := s.conns[c];
    (Flushed?(d.pc) ==> d.tag == map[]) &&
    (forall i :: 0 <= i < |d.outq| && d.outq[i].None? ==> d.pc.DeadWait? && i == |d.outq| - 1) &&
    (d.outpc.CGone? <==> Emptied(d.pc)) && (d.outpc.CGone? ==> d.outq == []) &&
    (Drained(d.pc) && s.out.OWritten? && M(s, s.out.m).conn == Some(c) ==> d.pc.ClunkWait? && d.pc.m == s.out.m) &&
    (Emptied(d.pc) ==>
      forall m: nat ::
        m < |s.msgs| && s.msgs[m].conn == Some(c) ==> s.msgs[m].stage.Fresh? || (d.pc.ClunkWait? && d.pc.m == m))
  }

  ghost predicate Phases(s: State)
  {
    (forall c: nat :: c < |s.conns| ==> Phase(s, c)) &&
    (forall i ::
      0 <= i < |s.outq| && s.outq[i].Sync? ==> s.outq[i].c < |s.conns| && s.conns[s.outq[i].c].pc.SyncWait?) &&
    (forall i, j :: 0 <= i < j < |s.outq| && s.outq[i].Sync? ==> s.outq[i] != s.outq[j])
  }

  // ----- what clients see ----------------------------------------------------------------

  ghost predicate Logged(s: State)
  {
    (forall m: nat :: m < |s.msgs| && s.msgs[m].conn.Some? ==> s.msgs[m].serial < |s.log|) &&
    (forall m: nat :: m < |s.msgs| && s.msgs[m].conn.Some? && !s.msgs[m].internal ==>
      s.log[s.msgs[m].serial].c == s.msgs[m].conn.value && s.log[s.msgs[m].serial].tx.tag == s.msgs[m].ctag) &&
    (forall m: nat, n: nat :: m < n < |s.msgs| && s.msgs[m].conn.Some? && s.msgs[n].conn.Some? ==>
      s.msgs[m].serial != s.msgs[n].serial)
  }

  ghost predicate AnswerOk(s: State, a: Answer)
  {
    a.serial < |s.log| && s.log[a.serial].c == a.c && s.log[a.serial].tx.tag == a.tag
  }

  predicate Unanswered(g: Stage) { Active(g) || g in {Fresh, Fetched, Delivered} }

  /** Every reply written to a client went to the connection that asked, under the tag it used, and
      no request was answered twice. */
  ghost predicate AnswersOk(s: State)
  {
    (forall i :: 0 <= i < |s.answers| ==> AnswerOk(s, s.answers[i])) &&
    (forall i, j :: 0 <= i < j < |s.answers| ==> s.answers[i].serial != s.answers[j].serial) &&
    (forall i, m: nat :: 0 <= i < |s.answers| && m < |s.msgs| && s.msgs[m].conn.Some? && Unanswered(s.msgs[m].stage) ==>
      s.answers[i].serial != s.msgs[m].serial)
  }

  ghost predicate Life(s: State)
  {
    Links(s) && Stages(s) && Phases(s) && Logged(s) && AnswersOk(s)
  }

  /** In the middle of a step: the running thread holds the references xm and xf in its variables. */
  ghost predicate Ok(s: State, xm: multiset<nat>, xf: multiset<nat>, xafid: nat)
  {
    Cnt(s, xm, xf, {}, xafid) && Life(s)
  }

  ghost predicate NoFresh(s: State)
  {
    forall m: nat :: m < |s.msgs| ==> !s.msgs[m].stage.Fresh?
  }

  /** Between steps no thread holds anything in its variables. */
  ghost predicate Inv(s: State, xafid: nat)
  {
    Ok(s, multiset{}, multiset{}, xafid) && NoFresh(s)
  }
}
