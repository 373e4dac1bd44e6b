/** The 9P multiplexer as a transition system: its tables, queues and the code of its threads, cut
    at the points where a thread can block.

    A message is named by its index in the message table, which is also the tag the server sees; a
    fid by its index in the fid table, which is also the fid the server sees. Three things are kept
    only so that properties can be stated: a message's `serial`, `stage` and the `log`. */
module NinePState {

  datatype Option<+T> = None | Some(value: T)

  datatype Kind = Tversion | Tauth | Tattach | Tflush | Twalk | Topen | Tcreate | Tclunk | Tremove | Tother

  /** How far a message has come. */
  datatype Stage = Free | Fresh | Queued | Writing | Sent | Replied | Cancelled | Fetched | Delivered | Handling | Done

  datatype Msg = Msg(
    ref: int,
    conn: Option<nat>,
    internal: bool,
    ctag: nat,
    kind: Kind,
    txfid: nat,
    txnewfid: nat,
    txafid: nat,
    fid: Option<nat>,
    newfid: Option<nat>,
    afid: Option<nat>,
    oldm: Option<nat>,
    err: bool,      // the reply is not the one that fits the request
    short: bool,    // a walk that got less far than asked
    serial: nat,
    stage: Stage)

  datatype Fid = Hole | Fid(ref: int, cfid: int)

  /** A slot of the queue to the server: a message, or a mark a closing connection waits for. */
  datatype Slot = Out(m: nat) | Sync(c: nat)

  datatype OutPc = OIdle | OWriting(m: nat) | OWritten(m: nat)

  /** Where a connection's reading thread stands. It blocks in Reading, FlushWait, SyncWait, DeadWait and
      ClunkWait; in Synced and DeadSeen it has been woken and not run yet; in Flushing and Clunking it is
      about to look for the next request to flush or fid to clunk. */
  datatype ConnPc =
    | Reading
    | Flushing
    | FlushWait(om: nat, m: nat)
    | SyncWait
    | Synced
    | DeadWait
    | DeadSeen
    | Clunking
    | ClunkWait(k: nat, m: nat)
    | Closed

  /** Where a connection's writing thread blocks. */
  datatype ConnOut = CIdle | CWriting(m: nat) | CGone

  datatype Conn = Conn(
    tag: map<nat, nat>,
    fid: map<nat, nat>,
    outq: seq<Option<nat>>,   // None is the nil that ends the writing thread
    pc: ConnPc,
    outpc: ConnOut,
    internal: Option<nat>,    // a reply handed to the reading thread, which has not run since
    nmsg: int)

  /** A request the server has and has not answered, with the fids it names as the server sees them; flushes is
      the tag a flush names. */
  datatype Req = Req(serial: nat, flushes: Option<nat>, kind: Kind, fid: nat, newfid: nat, afid: nat)

  function ReqOf(o: Msg): Req { Req(o.serial, o.oldm, o.kind, o.txfid, o.txnewfid, o.txafid) }

  datatype Reply = Reply(tag: nat, serial: nat, err: bool, short: bool)

  /** A reply written to a client. */
  datatype Answer = Answer(c: nat, tag: nat, serial: nat)

  /** A request as a client sends it; refuse stands for the checks that depend on what is left out
      here (authentication, attach name, file type), attached for the multiplexer having attached itself. */
  datatype Tx = Tx(kind: Kind, tag: nat, fid: nat, newfid: nat, afid: nat, oldtag: nat, refuse: bool, attached: bool)

  /** What was asked, on which connection, and its tables when the request had been taken in. */
  datatype Asked = Asked(c: nat, tx: Tx, tags: map<nat, nat>, fids: map<nat, nat>)

  datatype State = State(
    msgs: seq<Msg>,
    freem: seq<nat>,
    nmsg: int,
    fids: seq<Fid>,
    freef: seq<nat>,
    conns: seq<Conn>,
    outq: seq<Slot>,
    out: OutPc,
    pend: map<nat, Req>,
    replies: seq<Reply>,
    log: seq<Asked>,          // by serial
    answers: seq<Answer>,
    refused: bool,            // an open or create has been answered here, without a fid
    fault: bool)              // an assertion failed or a nil pointer was followed

  const NOFID: nat := 0xffff_ffff

  // ----- counting ------------------------------------------------------------------------

  function Count<T>(s: seq<T>, p: T -> bool): nat
  {
    if s == [] then 0 else Count(s[..|s| - 1], p) + if p(s[|s| - 1]) then 1 else 0
  }

  function One(b: bool): nat { if b then 1 else 0 }

  lemma {:induction false} CountUpdate<T>(s: seq<T>, i: nat, v: T, p: T -> bool)
    requires i < |s|
    ensures Count(s[i := v], p) == Count(s, p) - One(p(s[i])) + One(p(v))
  {
    var k := |s| - 1;
    if i == k {
      assert s[i := v][..k] == s[..k];
    } else {
      CountUpdate(s[..k], i, v, p);
      assert s[i := v][..k] == s[..k][i := v];
    }
  }

  lemma CountAppend<T>(s: seq<T>, v: T, p: T -> bool)
    ensures Count(s + [v], p) == Count(s, p) + One(p(v))
  {
    assert (s + [v])[..|s|] == s;
  }

  lemma {:induction false} CountHas<T>(s: seq<T>, i: nat, p: T -> bool)
    requires i < |s| && p(s[i])
    ensures Count(s, p) >= 1
  {
    if i < |s| - 1 {
      CountHas(s[..|s| - 1], i, p);
    }
  }

  lemma {:induction false} CountZero<T>(s: seq<T>, p: T -> bool)
    requires forall i :: 0 <= i < |s| ==> !p(s[i])
    ensures Count(s, p) == 0
  {
    if s != [] {
      CountZero(s[..|s| - 1], p);
    }
  }

  function OldmIs(x: nat): Msg -> bool { (m: Msg) => m.oldm == Some(x) }

  function HasOldm(): Msg -> bool { (m: Msg) => m.oldm.Some? }

  function ConnIs(c: nat): Msg -> bool { (m: Msg) => m.conn == Some(c) }

  function FidIs(f: nat): Msg -> bool { (m: Msg) => m.fid == Some(f) }

  function NewfidIs(f: nat): Msg -> bool { (m: Msg) => m.newfid == Some(f) }

  function AfidIs(f: nat): Msg -> bool { (m: Msg) => m.afid == Some(f) }

  function Live(): Msg -> bool { (m: Msg) => m.ref > 0 }

  /** Connections whose fid table has f under the client's number k. */
  function TableHas(k: int, f: nat): Conn -> bool
  {
    (c: Conn) => k >= 0 && k in c.fid && c.fid[k] == f
  }

  // ----- tables --------------------------------------------------------------------------
  // Following an index out of range stands for following a bad pointer: it sets fault.

  predicate IsMsg(s: State, m: nat) { m < |s.msgs| }

  predicate IsFid(s: State, f: nat) { f < |s.fids| && s.fids[f].Fid? }

  predicate IsConn(s: State, c: nat) { c < |s.conns| }

  function Faulty(s: State): State { s.(fault := true) }

  const NO_MSG := Msg(0, None, false, 0, Tother, 0, 0, 0, None, None, None, None, false, false, 0, Free)

  const NO_CONN := Conn(map[], map[], [], Closed, CGone, None, 0)

  const NEW_CONN := Conn(map[], map[], [], Reading, CIdle, None, 0)

  function M(s: State, m: nat): Msg { if IsMsg(s, m) then s.msgs[m] else NO_MSG }

  function C(s: State, c: nat): Conn { if IsConn(s, c) then s.conns[c] else NO_CONN }

  function SetMsg(s: State, m: nat, v: Msg): State
  {
    if IsMsg(s, m) then s.(msgs := s.msgs[m := v]) else Faulty(s)
  }

  function SetConn(s: State, c: nat, v: Conn): State
  {
    if IsConn(s, c) then s.(conns := s.conns[c := v]) else Faulty(s)
  }

  // ----- reference counts ----------------------------------------------------------------

  function IncRef(s: State, m: nat): State
  {
    SetMsg(s, m, M(s, m).(ref := M(s, m).ref + 1))
  }

  function FidInc(s: State, f: nat): State
  {
    if IsFid(s, f) then s.(fids := s.fids[f := s.fids[f].(ref := s.fids[f].ref + 1)]) else Faulty(s)
  }

  function FidPut(s: State, f: nat): State
  {
    if !IsFid(s, f) || s.fids[f].ref <= 0 then Faulty(s)
    else if s.fids[f].ref > 1 then s.(fids := s.fids[f := s.fids[f].(ref := s.fids[f].ref - 1)])
    else s.(fids := s.fids[f := Fid(0, -1)], freef := [f] + s.freef)
  }

  function FidPutOpt(s: State, f: Option<nat>): State
  {
    if f.Some? then FidPut(s, f.value) else s
  }

  /** The releases of the fids a message held. */
  function FidPuts(s: State, o: Msg): State
  {
    FidPutOpt(FidPutOpt(FidPutOpt(s, o.fid), o.afid), o.newfid)
  }

  /** A message with the links cut that msgclear cuts. */
  function Unlinked(m: Msg): Msg
  {
    m.(conn := None, oldm := None, fid := None, afid := None, newfid := None)
  }

  function Uncount(s: State, c: Option<nat>): State
  {
    if c.Some? then SetConn(s, c.value, C(s, c.value).(nmsg := C(s, c.value).nmsg - 1)) else s
  }

  /** msgclear up to the releases: cut the message's links and uncount it at its connection. */
  function Unlink(s: State, m: nat): (r: State)
    ensures M(s, m).oldm.Some? ==> Count(r.msgs, HasOldm()) < Count(s.msgs, HasOldm())
  {
    if IsMsg(s, m) then
      CountUpdate(s.msgs, m, Unlinked(s.msgs[m]), HasOldm());
      Uncount(SetMsg(s, m, Unlinked(s.msgs[m])), s.msgs[m].conn)
    else Faulty(s)
  }

  /** msgput as far as the count: one holder less, and one message less when it was the last. */
  function Drop(s: State, m: nat): (r: State)
    ensures Count(r.msgs, HasOldm()) == Count(s.msgs, HasOldm())
  {
    if IsMsg(s, m) then
      var o := s.msgs[m];
      CountUpdate(s.msgs, m, o.(ref := o.ref - 1), HasOldm());
      SetMsg(s, m, o.(ref := o.ref - 1)).(nmsg := if o.ref == 1 then s.nmsg - 1 else s.nmsg)
    else Faulty(s)
  }

  function MsgClear(s: State, m: nat): State
    decreases Count(s.msgs, HasOldm()), 0
  {
    var o := M(s, m);
    var s1 := Unlink(s, m);
    FidPuts(if o.oldm.Some? then MsgPut(s1, o.oldm.value) else s1, o)
  }

  /** The last holder has gone; what else msgput resets in the message itself. */
  function Fade(s: State, m: nat): (r: State)
    ensures Count(r.msgs, HasOldm()) == Count(s.msgs, HasOldm())
  {
    if IsMsg(s, m) then
      CountUpdate(s.msgs, m, s.msgs[m].(internal := false, stage := Free), HasOldm());
      s.(msgs := s.msgs[m := s.msgs[m].(internal := false, stage := Free)])
    else Faulty(s)
  }

  function MsgPut(s: State, m: nat): State
    decreases Count(s.msgs, HasOldm()), 1
  {
    if M(s, m).ref <= 0 then Faulty(s)
    else
      var s1 := Drop(s, m);
      if M(s1, m).ref > 0 then s1
      else
        var s2 := MsgClear(Fade(s1, m), m);
        s2.(freem := [m] + s2.freem)
  }

  /** msgnew: the first message of the free list, or a new one. */
  function MsgNew(s: State): (r: (State, nat))
  {
    var s1 := if s.freem == [] then s.(msgs := s.msgs + [NO_MSG], freem := [|s.msgs|]) else s;
    var m := s1.freem[0];
    (SetMsg(s1, m, M(s1, m).(ref := 1)).(freem := s1.freem[1..], nmsg := s1.nmsg + 1), m)
  }

  /** fidnew: the first fid of the free list, or a new one whose number is not xafid. */
  function FidNew(s: State, cfid: nat, xafid: nat): (r: (State, nat))
  {
    var tab := if |s.fids| == xafid then s.fids + [Hole] else s.fids;
    var s1 := if s.freef == [] then s.(fids := tab + [Fid(0, -1)], freef := [|tab|]) else s;
    var f := s1.freef[0];
    (if IsFid(s1, f) then s1.(fids := s1.fids[f := Fid(1, cfid)], freef := s1.freef[1..]) else Faulty(s1), f)
  }

  // ----- tables of a connection ----------------------------------------------------------

  function TagAdd(s: State, c: nat, k: nat, m: nat): State
  {
    SetConn(s, c, C(s, c).(tag := C(s, c).tag[k := m]))
  }

  function FidAdd(s: State, c: nat, k: nat, f: nat): State
  {
    SetConn(s, c, C(s, c).(fid := C(s, c).fid[k := f]))
  }

  function TagDel(s: State, c: nat, k: nat): State
  {
    SetConn(s, c, C(s, c).(tag := C(s, c).tag - {k}))
  }

  function FidDel(s: State, c: nat, k: nat): State
  {
    SetConn(s, c, C(s, c).(fid := C(s, c).fid - {k}))
  }

  /** delhash on the tag table and, when it deleted, msgput. */
  function TagRelease(s: State, m: nat): State
  {
    var o := M(s, m);
    if o.conn.None? then Faulty(s)
    else
      var c := o.conn.value;
      if o.ctag in C(s, c).tag && C(s, c).tag[o.ctag] == m then MsgPut(TagDel(s, c, o.ctag), m) else s
  }

  /** delhash on the fid table of connection c and, when it deleted, fidput. */
  function FidRelease(s: State, c: nat, f: nat): State
  {
    if !IsFid(s, f) then Faulty(s)
    else
      var k := s.fids[f].cfid;
      if k >= 0 && k in C(s, c).fid && C(s, c).fid[k] == f then FidPut(FidDel(s, c, k), f) else s
  }

  function FidReleaseOpt(s: State, c: nat, f: Option<nat>): State
  {
    if f.Some? then FidRelease(s, c, f.value) else s
  }
}
