/** The steps of the multiplexer's threads and of the server behind it. */
module NinePStep {
  import opened NinePState

  // ----- a connection's reading thread ---------------------------------------------------

  /** What a message is for; an internal one has no client tag. */
  datatype Hdr = Hdr(internal: bool, tx: Tx)

  /** The multiplexer's own requests: to flush the request under tag k, to clunk the fid under number k. */
  function FlushTx(k: nat): Tx { Tx(Tflush, 0, 0, 0, 0, k, false, false) }

  function ClunkTx(k: nat): Tx { Tx(Tclunk, 0, k, 0, 0, 0, false, false) }

  /** A message put to use for connection c as request number serial. */
  function Filled(o: Msg, c: nat, h: Hdr, serial: nat): Msg
  {
    o.(conn := Some(c), internal := h.internal, ctag := if h.internal then o.ctag else h.tx.tag, kind := h.tx.kind,
       txfid := h.tx.fid, txnewfid := h.tx.newfid, txafid := h.tx.afid, err := false, short := false, serial := serial,
       stage := Fresh)
  }

  function Enter(s: State, c: nat, h: Hdr): (r: (State, nat))
  {
    var (s1, m) := MsgNew(s);
    var s2 := SetMsg(s1, m, Filled(M(s1, m), c, h, |s1.log|));
    (SetConn(s2, c, C(s2, c).(nmsg := C(s2, c).nmsg + 1))
       .(log := s2.log + [Asked(c, h.tx, C(s2, c).tag, C(s2, c).fid)]), m)
  }

  predicate IsOpen(k: Kind) { k in {Topen, Tcreate} }

  /** send9pmsg: answer without asking the server. */
  function Local(s: State, m: nat, err: bool): State
  {
    var o := M(s, m);
    if o.conn.None? then Faulty(s)
    else
      var c := o.conn.value;
      var s1 := SetMsg(s, m, o.(err := err, stage := Delivered));
      SetConn(s1, c, C(s1, c).(outq := C(s1, c).outq + [Some(m)])).(refused := s.refused || IsOpen(o.kind))
  }

  /** Translate tag and fids, and pass the message to the queue to the server. */
  function Send(s: State, m: nat): State
  {
    var o := M(s, m);
    SetMsg(s, m, o.(txfid := if o.fid.Some? then o.fid.value else o.txfid,
                    txnewfid := if o.newfid.Some? then o.newfid.value else o.txnewfid,
                    txafid := if o.afid.Some? then o.afid.value else o.txafid,
                    stage := Queued)).(outq := s.outq + [Out(m)])
  }

  function SetOldm(s: State, m: nat, om: nat): State
  {
    SetMsg(IncRef(s, om), m, M(IncRef(s, om), m).(oldm := Some(om)))
  }

  function SetFid(s: State, m: nat, f: nat): State { SetMsg(s, m, M(s, m).(fid := Some(f))) }

  function SetNewfid(s: State, m: nat, f: nat): State { SetMsg(s, m, M(s, m).(newfid := Some(f))) }

  function SetAfid(s: State, m: nat, f: nat): State { SetMsg(s, m, M(s, m).(afid := Some(f))) }

  function SetTxAfid(s: State, m: nat, f: nat): State { SetMsg(s, m, M(s, m).(txafid := f)) }

  function RecvFlush(s: State, c: nat, m: nat, tx: Tx): State
  {
    if tx.oldtag !in C(s, c).tag then Local(s, m, false) else Send(SetOldm(s, m, C(s, c).tag[tx.oldtag]), m)
  }

  function RecvFid(s: State, c: nat, m: nat, tx: Tx): State
  {
    if tx.fid !in C(s, c).fid then Local(s, m, true)
    else Send(SetFid(FidInc(s, C(s, c).fid[tx.fid]), m, C(s, c).fid[tx.fid]), m)
  }

  /** An attach without an afid, once the multiplexer has attached itself, must not ask for another tree. */
  predicate Misnamed(tx: Tx) { tx.attached && tx.afid == NOFID && tx.refuse }

  /** Such an attach names the multiplexer's own afid to the server. */
  function RecvAttach(s: State, c: nat, m: nat, tx: Tx, xafid: nat): State
  {
    Attach(if tx.attached && tx.afid == NOFID then SetTxAfid(s, m, xafid) else s, c, m, tx, xafid)
  }

  function Attach(s: State, c: nat, m: nat, tx: Tx, xafid: nat): State
  {
    if tx.afid != NOFID && tx.afid !in C(s, c).fid then Local(s, m, true)
    else
      var s1 := if tx.afid == NOFID then s else SetAfid(FidInc(s, C(s, c).fid[tx.afid]), m, C(s, c).fid[tx.afid]);
      var (s2, f) := FidNew(s1, tx.fid, xafid);
      var s3 := SetFid(s2, m, f);
      if tx.fid in C(s3, c).fid then Local(s3, m, true)
      else
        var s4 := FidAdd(FidInc(s3, f), c, tx.fid, f);
        if Misnamed(tx) then Local(s4, m, true) else Send(s4, m)
  }

  function RecvWalk(s: State, c: nat, m: nat, tx: Tx, xafid: nat): State
  {
    if tx.fid !in C(s, c).fid then Local(s, m, true)
    else
      var f := C(s, c).fid[tx.fid];
      var s1 := SetFid(FidInc(s, f), m, f);
      if tx.newfid == tx.fid then Send(SetNewfid(FidInc(s1, f), m, f), m)
      else
        var (s2, g) := FidNew(s1, tx.newfid, xafid);
        var s3 := SetNewfid(s2, m, g);
        if tx.newfid in C(s3, c).fid then Local(s3, m, true)
        else Send(FidAdd(FidInc(s3, g), c, tx.newfid, g), m)
  }

  function RecvAuth(s: State, c: nat, m: nat, tx: Tx, xafid: nat): State
  {
    if tx.refuse then Local(s, m, true)
    else
      var (s1, f) := FidNew(s, tx.afid, xafid);
      var s2 := SetAfid(s1, m, f);
      if tx.afid in C(s2, c).fid then Local(s2, m, true)
      else Send(FidAdd(FidInc(s2, f), c, tx.afid, f), m)
  }

  function Dispatch(s: State, c: nat, m: nat, tx: Tx, xafid: nat): State
  {
    match tx.kind
    case Tversion => Local(s, m, false)
    case Tflush => RecvFlush(s, c, m, tx)
    case Tattach => RecvAttach(s, c, m, tx, xafid)
    case Twalk => RecvWalk(s, c, m, tx, xafid)
    case Tauth => RecvAuth(s, c, m, tx, xafid)
    case Tcreate => if tx.refuse then Local(s, m, true) else RecvFid(s, c, m, tx)
    case _ => RecvFid(s, c, m, tx)
  }

  function TakeIn(s: State, c: nat, tx: Tx, xafid: nat): State
  {
    var (s1, m) := Enter(s, c, Hdr(false, tx));
    if tx.tag in C(s1, c).tag then Local(s1, m, true)
    else Dispatch(TagAdd(IncRef(s1, m), c, tx.tag, m), c, m, tx, xafid)
  }

  /** Log the tables as they are now with the latest request. */
  function Noted(s: State, c: nat): State
  {
    if s.log == [] then s
    else
      var n := |s.log| - 1;
      s.(log := s.log[n := s.log[n].(tags := C(s, c).tag, fids := C(s, c).fid)])
  }

  /** Take in one request. */
  function Recv(s: State, c: nat, tx: Tx, xafid: nat): State { Noted(TakeIn(s, c, tx, xafid), c) }

  function SetPc(s: State, c: nat, pc: ConnPc): State { SetConn(s, c, C(s, c).(pc := pc)) }

  /** After end of file: flush the request under tag k. */
  function Flush(s: State, c: nat, k: nat): State
  {
    if k !in C(s, c).tag then Faulty(s)
    else
      var om := C(s, c).tag[k];
      var (s1, m) := Enter(IncRef(s, om), c, Hdr(true, FlushTx(k)));
      Send(SetPc(IncRef(SetOldm(s1, m, om), m), c, FlushWait(om, m)), m)
  }

  /** The reply to an internal flush has arrived; m carries the reference msgget took. */
  function FlushDone(s: State, c: nat, om: nat, m: nat): State
  {
    MsgPut(TagRelease(MsgPut(MsgPut(SetPc(s, c, Flushing), m), m), om), om)
  }

  /** No request is left to flush: mark the queue to the server. */
  function Flushed(s: State, c: nat): State
  {
    SetPc(s, c, SyncWait).(outq := s.outq + [Sync(c)])
  }

  /** The reading thread runs again after the mark has come through: close the connection's own queue. */
  function CloseQueue(s: State, c: nat): State
  {
    SetConn(s, c, C(s, c).(pc := DeadWait, outq := C(s, c).outq + [None]))
  }

  /** The reading thread runs again after the writing thread has gone: no message may be left. */
  function Dead(s: State, c: nat): State
  {
    SetPc(s, c, Clunking).(fault := s.fault || C(s, c).nmsg != 0)
  }

  /** Clunk the fid under number k. */
  function Clunk(s: State, c: nat, k: nat): State
  {
    if k !in C(s, c).fid then Faulty(s)
    else
      var f := C(s, c).fid[k];
      var (s1, m) := Enter(s, c, Hdr(true, ClunkTx(k)));
      Send(SetPc(IncRef(SetFid(FidInc(s1, f), m, f), m), c, ClunkWait(k, m)), m)
  }

  function ClunkDone(s: State, c: nat, k: nat, m: nat): State
  {
    if k !in C(s, c).fid then Faulty(s)
    else
      var f := C(s, c).fid[k];
      var s1 := MsgPut(MsgPut(MsgClear(SetPc(s, c, Clunking), m), m), m);
      FidPut(FidDel(s1, c, k), f)
  }

  /** No fid is left: the connection may be freed if no message is left either. */
  function Close(s: State, c: nat): State
  {
    SetPc(s, c, Closed).(fault := s.fault || C(s, c).nmsg != 0)
  }

  // ----- a connection's writing thread ---------------------------------------------------

  /** What a reply does to the tables before it is written to the client. */
  function Settle(s: State, m: nat): State
  {
    var o := M(s, m);
    if o.conn.None? then Faulty(s)
    else
      var c := o.conn.value;
      match o.kind
      case Tflush => if o.oldm.Some? then TagRelease(s, o.oldm.value) else s
      case Tclunk => FidReleaseOpt(s, c, o.fid)
      case Tremove => FidReleaseOpt(s, c, o.fid)
      case Tauth => if o.err then FidReleaseOpt(s, c, o.afid) else s
      case Tattach => if o.err then FidReleaseOpt(s, c, o.fid) else s
      case Twalk => if (o.err || o.short) && o.txfid != o.txnewfid then FidReleaseOpt(s, c, o.newfid) else s
      case Topen => if o.fid.None? then Faulty(s) else s
      case Tcreate => if o.fid.None? then Faulty(s) else s
      case _ => s
  }

  /** Take the next reply from the connection's queue. */
  function TakeReply(s: State, c: nat, m: nat): State
  {
    var s1 := SetConn(s, c,
      C(s, c).(outq := if C(s, c).outq == [] then [] else C(s, c).outq[1..], outpc := CWriting(m)));
    SetMsg(s1, m, M(s1, m).(stage := Handling))
  }

  /** The next reply is to an open or create that has no fid. */
  predicate NilHead(s: State, c: nat)
  {
    var q := C(s, c).outq;
    q != [] && q[0].Some? && IsOpen(M(s, q[0].value).kind) && M(s, q[0].value).fid.None?
  }

  function ConnTake(s: State, c: nat): State
  {
    var q := C(s, c).outq;
    if q == [] || q[0].None? then Faulty(s)
    else
      var m := q[0].value;
      var s1 := TagRelease(Settle(TakeReply(s, c, m), m), m);
      s1.(answers := s1.answers + [Answer(c, M(s, m).ctag, M(s, m).serial)])
  }

  /** The reply has been written to the client. */
  function LetReply(s: State, c: nat, m: nat): State
  {
    var s1 := SetConn(s, c, C(s, c).(outpc := CIdle));
    SetMsg(s1, m, M(s1, m).(stage := Done))
  }

  function ConnWritten(s: State, c: nat): State
  {
    var pc := C(s, c).outpc;
    if !pc.CWriting? then Faulty(s) else MsgPut(LetReply(s, c, pc.m), pc.m)
  }

  /** The nil at the end of the queue: the writing thread goes and wakes the reading thread. */
  function ConnNil(s: State, c: nat): State
  {
    if C(s, c).outq == [] || !C(s, c).pc.DeadWait? then Faulty(s)
    else SetConn(s, c, C(s, c).(outq := C(s, c).outq[1..], outpc := CGone, pc := DeadSeen))
  }

  // ----- the threads that talk to the server ---------------------------------------------

  function OutTake(s: State): State
  {
    if s.outq == [] || !s.outq[0].Out? then Faulty(s)
    else
      var m := s.outq[0].m;
      SetMsg(s, m, M(s, m).(stage := Writing)).(outq := s.outq[1..], out := OWriting(m))
  }

  /** The request reaches the server. */
  function OutWrite(s: State): State
  {
    if !s.out.OWriting? then Faulty(s)
    else
      var m := s.out.m;
      SetMsg(s, m, M(s, m).(stage := Sent))
        .(out := OWritten(m), pend := s.pend[m := ReqOf(M(s, m))])
  }

  function OutPut(s: State): State
  {
    if !s.out.OWritten? then Faulty(s) else MsgPut(s.(out := OIdle), s.out.m)
  }

  /** The mark has come through the queue: its connection's reading thread is woken. */
  function OutSync(s: State): State
  {
    if s.outq == [] || !s.outq[0].Sync? then Faulty(s)
    else
      var c := s.outq[0].c;
      if !C(s, c).pc.SyncWait? then Faulty(s) else SetPc(s, c, Synced).(outq := s.outq[1..])
  }

  /** The server answers request t; answering a flush, it forgets the request flushed. */
  function Serve(s: State, t: nat, err: bool, short: bool): State
  {
    if t !in s.pend then Faulty(s)
    else
      var req := s.pend[t];
      var s1 := SetMsg(s, t, M(s, t).(stage := Replied));
      var s2 := s1.(pend := s1.pend - {t}, replies := s1.replies + [Reply(t, req.serial, err, short)]);
      if req.flushes.Some? && req.flushes.value in s2.pend
      then SetMsg(s2, req.flushes.value,
        M(s2, req.flushes.value).(stage := Cancelled)).(pend := s2.pend - {req.flushes.value})
      else s2
  }

  /** Read one reply from the server and find the message it is for. */
  function Fetch(s: State, r: Reply): State
  {
    var o := M(s, r.tag);
    SetMsg(s, r.tag, o.(ref := o.ref + 1, err := r.err, short := r.short, stage := Fetched))
      .(replies := if s.replies == [] then [] else s.replies[1..])
  }

  function Input(s: State): State
  {
    if s.replies == [] then Faulty(s)
    else if M(s, s.replies[0].tag).ref == 0 then s.(replies := s.replies[1..])
    else Deliver(Fetch(s, s.replies[0]), s.replies[0].tag)
  }

  function SetStage(s: State, m: nat, g: Stage): State { SetMsg(s, m, M(s, m).(stage := g)) }

  function Deliver(s: State, m: nat): State
  {
    var o := M(s, m);
    if o.conn.None? then Faulty(s)
    else if o.internal then Wake(SetStage(s, m, Done), o.conn.value, m)
    else if !C(s, o.conn.value).outpc.CGone? then
      var c := o.conn.value;
      var s1 := SetStage(s, m, Delivered);
      SetConn(s1, c, C(s1, c).(outq := C(s1, c).outq + [Some(m)]))
    else MsgPut(SetStage(s, m, Done), m)
  }

  /** Hand the reply to an internal request to the thread that waits for one. */
  function Wake(s: State, c: nat, m: nat): State
  {
    if !(C(s, c).pc.FlushWait? || C(s, c).pc.ClunkWait?) || C(s, c).internal.Some? then Faulty(s)
    else SetConn(s, c, C(s, c).(internal := Some(m)))
  }

  /** The reading thread runs again with the reply it was handed, which must be the one it waits for. */
  function TakeUp(s: State, c: nat): State
  {
    if C(s, c).internal.None? then Faulty(s)
    else
      var m := C(s, c).internal.value;
      var s1 := SetConn(s, c, C(s, c).(internal := None));
      match C(s, c).pc
      case FlushWait(om, x) => if x != m then Faulty(s) else FlushDone(s1, c, om, m)
      case ClunkWait(k, x) => if x != m then Faulty(s) else ClunkDone(s1, c, k, m)
      case _ => Faulty(s)
  }

  // ----- runs ----------------------------------------------------------------------------

  const START := State([], [], 0, [], [], [], [], OIdle, map[], [], [], [], false, false)

  datatype Step =
    | SAccept
    | SRecv(c: nat, tx: Tx)
    | SEof(c: nat)
    | SFlush(c: nat, k: nat)
    | SFlushed(c: nat)
    | STakeUp(c: nat)
    | SCloseQueue(c: nat)
    | SDead(c: nat)
    | SClunk(c: nat, k: nat)
    | SClose(c: nat)
    | SConnTake(c: nat)
    | SConnWritten(c: nat)
    | SConnNil(c: nat)
    | SOutTake
    | SOutWrite
    | SOutPut
    | SOutSync
    | SServe(t: nat, err: bool, short: bool)
    | SInput

  /** What is assumed of clients: a flush does not name its own tag. */
  predicate ClientOk(tx: Tx) { tx.kind == Tflush ==> tx.oldtag != tx.tag }

  /** The tests an open or create must pass to go on to the server. */
  predicate Passes(s: State, c: nat, tx: Tx)
  {
    IsOpen(tx.kind) ==> tx.tag !in C(s, c).tag && !(tx.kind == Tcreate && tx.refuse) && tx.fid in C(s, c).fid
  }

  predicate Enabled(s: State, step: Step)
  {
    match step
    case SAccept => true
    case SRecv(c, tx) => IsConn(s, c) && C(s, c).pc.Reading? && ClientOk(tx)
    case SEof(c) => IsConn(s, c) && C(s, c).pc.Reading?
    case SFlush(c, k) => IsConn(s, c) && C(s, c).pc.Flushing? && k in C(s, c).tag
    case SFlushed(c) => IsConn(s, c) && C(s, c).pc.Flushing? && C(s, c).tag == map[]
    case STakeUp(c) => IsConn(s, c) && C(s, c).internal.Some?
    case SCloseQueue(c) => IsConn(s, c) && C(s, c).pc.Synced?
    case SDead(c) => IsConn(s, c) && C(s, c).pc.DeadSeen?
    case SClunk(c, k) => IsConn(s, c) && C(s, c).pc.Clunking? && k in C(s, c).fid
    case SClose(c) => IsConn(s, c) && C(s, c).pc.Clunking? && C(s, c).fid == map[]
    case SConnTake(c) => IsConn(s, c) && C(s, c).outpc.CIdle? && C(s, c).outq != [] && C(s, c).outq[0].Some?
    case SConnWritten(c) => IsConn(s, c) && C(s, c).outpc.CWriting?
    case SConnNil(c) => IsConn(s, c) && C(s, c).outpc.CIdle? && C(s, c).outq != [] && C(s, c).outq[0].None?
    case SOutTake => s.out.OIdle? && s.outq != [] && s.outq[0].Out?
    case SOutWrite => s.out.OWriting?
    case SOutPut => s.out.OWritten?
    case SOutSync => s.out.OIdle? && s.outq != [] && s.outq[0].Sync?
    case SServe(t, err, short) => t in s.pend
    case SInput => s.replies != []
  }

  function Apply(s: State, step: Step, xafid: nat): State
  {
    match step
    case SAccept => s.(conns := s.conns + [NEW_CONN])
    case SRecv(c, tx) => Recv(s, c, tx, xafid)
    case SEof(c) => SetConn(s, c, C(s, c).(pc := Flushing))
    case SFlush(c, k) => Flush(s, c, k)
    case SFlushed(c) => Flushed(s, c)
    case STakeUp(c) => TakeUp(s, c)
    case SCloseQueue(c) => CloseQueue(s, c)
    case SDead(c) => Dead(s, c)
    case SClunk(c, k) => Clunk(s, c, k)
    case SClose(c) => Close(s, c)
    case SConnTake(c) => ConnTake(s, c)
    case SConnWritten(c) => ConnWritten(s, c)
    case SConnNil(c) => ConnNil(s, c)
    case SOutTake => OutTake(s)
    case SOutWrite => OutWrite(s)
    case SOutPut => OutPut(s)
    case SOutSync => OutSync(s)
    case SServe(t, err, short) => Serve(s, t, err, short)
    case SInput => Input(s)
  }
}
