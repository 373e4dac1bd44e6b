/** How the reference counts follow each elementary change of the state: what a holder gives up goes to
    the running thread's own references xm and xf, and the other way round. */
module NinePCnt {
  import opened NinePState
  import opened NinePInv
  import opened NinePPut

  // ----- one message changes -------------------------------------------------------------

  ghost predicate MsgDelta(o: Msg, v: Msg, m: nat, xm: multiset<nat>, xm': multiset<nat>)
  {
    forall x: nat :: xm'[x] + One(v.oldm == Some(x)) + (if x == m then o.ref else 0) ==
      xm[x] + One(o.oldm == Some(x)) + (if x == m then v.ref else 0)
  }

  ghost predicate FidDelta(o: Msg, v: Msg, xf: multiset<nat>, xf': multiset<nat>)
  {
    forall f: nat :: xf'[f] + FidRefs(v)[f] == xf[f] + FidRefs(o)[f]
  }

  lemma MsgChangeRefM(s: State, m: nat, v: Msg, xm: multiset<nat>, xm': multiset<nat>)
    requires RefM(s, xm) && m < |s.msgs| && v.conn == s.msgs[m].conn && v.ctag == s.msgs[m].ctag
    requires MsgDelta(s.msgs[m], v, m, xm, xm') && forall x :: x in xm' ==> x < |s.msgs|
    ensures RefM(SetMsg(s, m, v), xm')
  {
    var r := SetMsg(s, m, v);
    OldmCounts(s.msgs, m, v);
    forall x: nat | x < |r.msgs| ensures r.msgs[x].ref == Held(r, x) + xm'[x] {
      assert Rooted(r, x) == Rooted(s, x);
      assert s.msgs[x].ref == Held(s, x) + xm[x];
    }
  }

  lemma MsgChangeFidHeld(s: State, m: nat, v: Msg, f: nat)
    requires m < |s.msgs|
    ensures FidHeld(SetMsg(s, m, v), f) + FidRefs(s.msgs[m])[f] == FidHeld(s, f) + FidRefs(v)[f]
  {
    hide FidRefs;
    CountUpdate(s.msgs, m, v, FidIs(f));
    CountUpdate(s.msgs, m, v, NewfidIs(f));
    CountUpdate(s.msgs, m, v, AfidIs(f));
    FidRefsIs(s.msgs[m], f);
    FidRefsIs(v, f);
  }

  lemma MsgChangeRefF(s: State, m: nat, v: Msg, xf: multiset<nat>, xf': multiset<nat>)
    requires RefF(s, xf) && m < |s.msgs| && FidDelta(s.msgs[m], v, xf, xf') && forall f :: f in xf' ==> IsFid(s, f)
    ensures RefF(SetMsg(s, m, v), xf')
  {
    hide FidRefs, FidHeld;
    var r := SetMsg(s, m, v);
    forall f: nat | IsFid(r, f) ensures r.fids[f].ref == FidHeld(r, f) + xf'[f] {
      MsgChangeFidHeld(s, m, v, f);
    }
  }

  lemma MsgChangeCounts(s: State, m: nat, v: Msg)
    requires Counts(s) && m < |s.msgs| && v.conn == s.msgs[m].conn && s.msgs[m].ref > 0 && v.ref > 0
    ensures Counts(SetMsg(s, m, v))
  {
    ConnCounts(s.msgs, m, v);
  }

  /** A live message changes; its connection does not. */
  lemma MsgChange(s: State, m: nat, v: Msg, xm: multiset<nat>, xm': multiset<nat>, xf: multiset<nat>,
                  xf': multiset<nat>,
                  dying: set<nat>, xafid: nat)
    requires Cnt(s, xm, xf, dying, xafid) && m < |s.msgs| && s.msgs[m].ref > 0 && v.ref > 0
    requires v.conn == s.msgs[m].conn && v.ctag == s.msgs[m].ctag
    requires MsgDelta(s.msgs[m], v, m, xm, xm') && forall x :: x in xm' ==> x < |s.msgs|
    requires FidDelta(s.msgs[m], v, xf, xf') && forall f :: f in xf' ==> IsFid(s, f)
    ensures Cnt(SetMsg(s, m, v), xm', xf', dying, xafid)
  {
    hide RefM, RefF, Counts, FreeM, MsgDelta, FidDelta;
    MsgChangeRefM(s, m, v, xm, xm');
    MsgChangeRefF(s, m, v, xf, xf');
    MsgChangeCounts(s, m, v);
    FreeMUpdate(s, m, v, dying);
  }

  // ----- one connection changes ----------------------------------------------------------

  ghost predicate ConnDelta(s: State, c: nat, d: Conn, xm: multiset<nat>, xm': multiset<nat>)
    requires c < |s.conns|
  {
    forall x: nat ::
      x < |s.msgs| ==> (xm'[x] + HoldsIf(s.msgs[x], c, d, x) == xm[x] + HoldsIf(s.msgs[x], c, s.conns[c], x))
  }

  /** The references from connection c, being d, to message x. */
  function HoldsIf(o: Msg, c: nat, d: Conn, x: nat): nat
  {
    if o.conn == Some(c) then ConnHolds(d, o.ctag, x) else 0
  }

  ghost predicate TableDelta(s: State, c: nat, d: Conn, xf: multiset<nat>, xf': multiset<nat>)
    requires c < |s.conns|
  {
    forall f: nat :: IsFid(s, f) ==>
      xf'[f] + One(TableHas(s.fids[f].cfid, f)(d)) == xf[f] + One(TableHas(s.fids[f].cfid, f)(s.conns[c]))
  }

  lemma ConnChangeRefM(s: State, c: nat, d: Conn, xm: multiset<nat>, xm': multiset<nat>)
    requires RefM(s, xm) && c < |s.conns| && ConnDelta(s, c, d, xm, xm') && forall x :: x in xm' ==> x < |s.msgs|
    ensures RefM(SetConn(s, c, d), xm')
  {
    hide ConnHolds;
    var r := SetConn(s, c, d);
    forall x: nat | x < |r.msgs| ensures r.msgs[x].ref == Held(r, x) + xm'[x] {
      assert s.msgs[x].ref == Held(s, x) + xm[x];
    }
  }

  lemma ConnChangeRefF(s: State, c: nat, d: Conn, xf: multiset<nat>, xf': multiset<nat>)
    requires RefF(s, xf) && c < |s.conns| && TableDelta(s, c, d, xf, xf') && forall f :: f in xf' ==> IsFid(s, f)
    ensures RefF(SetConn(s, c, d), xf')
  {
    hide TableHas;
    var r := SetConn(s, c, d);
    TableCounts(s.conns, c, d);
    forall f: nat | IsFid(r, f) ensures r.fids[f].ref == FidHeld(r, f) + xf'[f] {
      assert s.fids[f].ref == FidHeld(s, f) + xf[f];
    }
  }

  /** A connection changes, all but its count of messages. */
  lemma ConnChange(s: State, c: nat, d: Conn, xm: multiset<nat>, xm': multiset<nat>, xf: multiset<nat>,
                   xf': multiset<nat>,
                   dying: set<nat>, xafid: nat)
    requires Cnt(s, xm, xf, dying, xafid) && c < |s.conns| && d.nmsg == s.conns[c].nmsg
    requires ConnDelta(s, c, d, xm, xm') && forall x :: x in xm' ==> x < |s.msgs|
    requires TableDelta(s, c, d, xf, xf') && forall f :: f in xf' ==> IsFid(s, f)
    ensures Cnt(SetConn(s, c, d), xm', xf', dying, xafid)
  {
    hide RefM, RefF, ConnDelta, TableDelta;
    ConnChangeRefM(s, c, d, xm, xm');
    ConnChangeRefF(s, c, d, xf, xf');
  }

  // ----- the queue to the server and its thread change -----------------------------------

  ghost predicate OutDelta(s: State, r: State, xm: multiset<nat>, xm': multiset<nat>)
  {
    forall x: nat ::
      xm'[x] + multiset(r.outq)[Out(x)] + OutHolds(r.out, x) == xm[x] + multiset(s.outq)[Out(x)] + OutHolds(s.out, x)
  }

  lemma OutChange(s: State, r: State, xm: multiset<nat>, xm': multiset<nat>, xf: multiset<nat>, dying: set<nat>,
                  xafid: nat)
    requires Cnt(s, xm, xf, dying, xafid) && r == s.(outq := r.outq, out := r.out) && OutDelta(s, r, xm, xm')
    requires forall x :: x in xm' ==> x < |s.msgs|
    ensures Cnt(r, xm', xf, dying, xafid)
  {
    hide ConnHolds;
    forall x: nat | x < |r.msgs| ensures r.msgs[x].ref == Held(r, x) + xm'[x] {
      assert s.msgs[x].ref == Held(s, x) + xm[x];
    }
    forall f: nat ensures FidHeld(r, f) == FidHeld(s, f) {
    }
  }

  /** Counts do not look at the server, its replies or the records kept of them. */
  lemma CntFrame(s: State, r: State, xm: multiset<nat>, xf: multiset<nat>, dying: set<nat>, xafid: nat)
    requires Cnt(s, xm, xf, dying, xafid)
    requires r == s.(pend := r.pend, replies := r.replies, log := r.log, answers := r.answers, refused := r.refused)
    ensures Cnt(r, xm, xf, dying, xafid)
  {
    hide Held, FidHeld;
    forall x: nat ensures Held(r, x) == Held(s, x) && FidHeld(r, x) == FidHeld(s, x) {
      FrameHeld(s, r, x);
    }
  }

  lemma FrameHeld(s: State, r: State, x: nat)
    requires r == s.(pend := r.pend, replies := r.replies, log := r.log, answers := r.answers, refused := r.refused)
    ensures Held(r, x) == Held(s, x) && FidHeld(r, x) == FidHeld(s, x)
  {
  }

  // ----- fids ----------------------------------------------------------------------------

  lemma FidIncHeld(s: State, f: nat, x: nat)
    requires IsFid(s, f)
    ensures Held(FidInc(s, f), x) == Held(s, x) && FidHeld(FidInc(s, f), x) == FidHeld(s, x)
  {
  }

  lemma FidIncRefs(s: State, f: nat, xm: multiset<nat>, xf: multiset<nat>)
    requires RefM(s, xm) && RefF(s, xf) && IsFid(s, f)
    ensures RefM(FidInc(s, f), xm) && RefF(FidInc(s, f), xf + multiset{f})
  {
    var r := FidInc(s, f);
    forall x: nat ensures Held(r, x) == Held(s, x) && FidHeld(r, x) == FidHeld(s, x) {
      FidIncHeld(s, f, x);
    }
    hide Held, FidHeld;
  }

  lemma FidIncCnt(s: State, f: nat, xm: multiset<nat>, xf: multiset<nat>, dying: set<nat>, xafid: nat)
    requires Cnt(s, xm, xf, dying, xafid) && IsFid(s, f) && s.fids[f].ref > 0
    ensures Cnt(FidInc(s, f), xm, xf + multiset{f}, dying, xafid)
  {
    FidIncRefs(s, f, xm, xf);
    FidIncFree(s, f, xafid);
    hide FreeF, RefF, RefM;
    assert FreeM(FidInc(s, f), dying) && Counts(FidInc(s, f));
  }

  lemma FidIncFree(s: State, f: nat, xafid: nat)
    requires FreeF(s, xafid) && IsFid(s, f) && s.fids[f].ref > 0
    ensures FreeF(FidInc(s, f), xafid)
  {
  }

  /** Every fid named by a connection or a message exists, and tables name it by its own number. */
  ghost predicate FidsOk(s: State)
  {
    (forall c: nat, k ::
      c < |s.conns| && k in s.conns[c].fid ==> IsFid(s, s.conns[c].fid[k]) && s.fids[s.conns[c].fid[k]].cfid == k) &&
    (forall m: nat ::
      m < |s.msgs| ==> OptFid(s, s.msgs[m].fid) && OptFid(s, s.msgs[m].newfid) && OptFid(s, s.msgs[m].afid))
  }

  lemma FidsOkOf(s: State)
    requires Links(s)
    ensures FidsOk(s)
  {
    forall c: nat, k | c < |s.conns| && k in s.conns[c].fid
      ensures IsFid(s, s.conns[c].fid[k]) && s.fids[s.conns[c].fid[k]].cfid == k {
      assert ConnLinks(s, c);
    }
    forall m: nat | m < |s.msgs|
      ensures OptFid(s, s.msgs[m].fid) && OptFid(s, s.msgs[m].newfid) && OptFid(s, s.msgs[m].afid) {
      assert MsgLinks(s, s.msgs[m]);
    }
  }

  /** Nobody names f. */
  ghost predicate Unnamed(s: State, f: nat)
  {
    (forall k: int :: Count(s.conns, TableHas(k, f)) == 0) &&
    Count(s.msgs, FidIs(f)) == 0 && Count(s.msgs, NewfidIs(f)) == 0 && Count(s.msgs, AfidIs(f)) == 0
  }

  lemma UnnamedNew(s: State, f: nat)
    requires FidsOk(s) && !IsFid(s, f)
    ensures Unnamed(s, f)
  {
    forall k: int ensures Count(s.conns, TableHas(k, f)) == 0 {
      CountZero(s.conns, TableHas(k, f));
    }
    CountZero(s.msgs, FidIs(f));
    CountZero(s.msgs, NewfidIs(f));
    CountZero(s.msgs, AfidIs(f));
  }

  lemma UnnamedFree(s: State, f: nat)
    requires FidsOk(s) && IsFid(s, f) && FidHeld(s, f) == 0
    ensures Unnamed(s, f)
  {
    forall c: nat, k | c < |s.conns| && k in s.conns[c].fid ensures s.conns[c].fid[k] != f {
      if s.conns[c].fid[k] == f {
        CountHas(s.conns, c, TableHas(s.fids[f].cfid, f));
        assert false;
      }
    }
    forall k: int ensures Count(s.conns, TableHas(k, f)) == 0 {
      CountZero(s.conns, TableHas(k, f));
    }
  }

  /** The table with room for one more fid, which xafid never names. */
  function Grown(s: State, xafid: nat): State
  {
    var tab := if |s.fids| == xafid then s.fids + [Hole] else s.fids;
    if s.freef == [] then s.(fids := tab + [Fid(0, -1)], freef := [|tab|]) else s
  }

  lemma GrownCnt(s: State, xm: multiset<nat>, xf: multiset<nat>, dying: set<nat>, xafid: nat)
    requires Cnt(s, xm, xf, dying, xafid) && FidsOk(s)
    ensures Cnt(Grown(s, xafid), xm, xf, dying, xafid) && FidsOk(Grown(s, xafid)) && Grown(s, xafid).freef != []
  {
    hide Held, FidHeld, FreeM, Counts;
    var r := Grown(s, xafid);
    if s.freef == [] {
      forall x: nat ensures Held(r, x) == Held(s, x) {
        GrownHeld(s, xafid, x);
      }
      forall g: nat | IsFid(r, g) ensures r.fids[g].ref == FidHeld(r, g) + xf[g] {
        GrownFidHeld(s, xafid, g);
      }
      GrownCounts(s, dying, xafid);
    }
  }

  lemma GrownHeld(s: State, xafid: nat, x: nat)
    ensures Held(Grown(s, xafid), x) == Held(s, x)
  {
  }

  lemma GrownFidHeld(s: State, xafid: nat, g: nat)
    requires FidsOk(s) && s.freef == []
    ensures FidHeld(Grown(s, xafid), g) == if IsFid(s, g) then FidHeld(s, g) else 0
  {
    if !IsFid(s, g) {
      UnnamedNew(s, g);
    }
  }

  lemma GrownCounts(s: State, dying: set<nat>, xafid: nat)
    requires FreeM(s, dying) && Counts(s)
    ensures FreeM(Grown(s, xafid), dying) && Counts(Grown(s, xafid))
  {
  }

  lemma FidNewIs(s: State, cfid: nat, xafid: nat)
    ensures FidNew(s, cfid, xafid) == (var s1 := Grown(s, xafid); var f := s1.freef[0];
      (if IsFid(s1, f) then s1.(fids := s1.fids[f := Fid(1, cfid)], freef := s1.freef[1..]) else Faulty(s1), f))
  {
  }

  /** State s with its first free fid in use. */
  function WithFid(s: State, cfid: nat): State
    requires s.freef != [] && s.freef[0] < |s.fids|
  {
    s.(fids := s.fids[s.freef[0] := Fid(1, cfid)], freef := s.freef[1..])
  }

  lemma TakeFidHeld(s: State, cfid: nat, x: nat)
    requires s.freef != [] && s.freef[0] < |s.fids|
    ensures Held(WithFid(s, cfid), x) == Held(s, x)
  {
  }

  lemma TakeFidRefF(s: State, cfid: nat, xf: multiset<nat>)
    requires RefF(s, xf) && s.freef != [] && IsFid(s, s.freef[0]) && s.fids[s.freef[0]].ref == 0 &&
             Unnamed(s, s.freef[0])
    ensures RefF(WithFid(s, cfid), xf + multiset{s.freef[0]})
  {
    var f := s.freef[0];
    var r := WithFid(s, cfid);
    assert s.fids[f].ref == FidHeld(s, f) + xf[f];
    forall g: nat | IsFid(r, g) ensures r.fids[g].ref == FidHeld(r, g) + (xf + multiset{f})[g] {
      assert g != f ==> FidHeld(r, g) == FidHeld(s, g);
    }
  }

  lemma TakeFidRest(s: State, cfid: nat, xm: multiset<nat>, dying: set<nat>)
    requires RefM(s, xm) && FreeM(s, dying) && Counts(s) && s.freef != [] && s.freef[0] < |s.fids|
    ensures var r := WithFid(s, cfid); RefM(r, xm) && FreeM(r, dying) && Counts(r)
  {
    var r := WithFid(s, cfid);
    forall x: nat ensures Held(r, x) == Held(s, x) {
      TakeFidHeld(s, cfid, x);
    }
    hide Held;
  }

  lemma TakeFidOk(s: State, cfid: nat)
    requires FidsOk(s) && s.freef != [] && IsFid(s, s.freef[0]) && Unnamed(s, s.freef[0])
    ensures FidsOk(WithFid(s, cfid))
  {
    UnnamedTables(s, s.freef[0]);
  }

  lemma FirstFree(s: State, xf: multiset<nat>, xafid: nat)
    requires RefF(s, xf) && FreeF(s, xafid) && FidsOk(s) && s.freef != []
    ensures IsFid(s, s.freef[0]) && s.fids[s.freef[0]].ref == 0 && Unnamed(s, s.freef[0])
  {
    var f := s.freef[0];
    assert IsFid(s, f) && s.fids[f].ref == 0;
    assert s.fids[f].ref == FidHeld(s, f) + xf[f];
    UnnamedFree(s, f);
  }

  lemma TakeFid(s: State, cfid: nat, xm: multiset<nat>, xf: multiset<nat>, dying: set<nat>, xafid: nat)
    requires Cnt(s, xm, xf, dying, xafid) && FidsOk(s) && s.freef != []
    ensures var f := s.freef[0]; var r := s.(fids := s.fids[f := Fid(1, cfid)], freef := s.freef[1..]);
      IsFid(s, f) && Cnt(r, xm, xf + multiset{f}, dying, xafid) && FidsOk(r) && Unnamed(s, f)
  {
    hide RefM, RefF, FreeM, FreeF, Counts, FidsOk, Unnamed;
    FirstFree(s, xf, xafid);
    TakeFidRefF(s, cfid, xf);
    TakeFidRest(s, cfid, xm, dying);
    TakeFidFree(s, cfid, xafid);
    TakeFidOk(s, cfid);
  }

  lemma UnnamedTables(s: State, f: nat)
    requires Unnamed(s, f)
    ensures forall c: nat, k: nat :: c < |s.conns| && k in s.conns[c].fid ==> s.conns[c].fid[k] != f
  {
    forall c: nat, k: nat | c < |s.conns| && k in s.conns[c].fid ensures s.conns[c].fid[k] != f {
      if s.conns[c].fid[k] == f {
        assert Count(s.conns, TableHas(k, f)) == 0;
        CountHas(s.conns, c, TableHas(k, f));
        assert false;
      }
    }
  }

  lemma TakeFidFree(s: State, cfid: nat, xafid: nat)
    requires FreeF(s, xafid) && s.freef != []
    ensures FreeF(s.(fids := s.fids[s.freef[0] := Fid(1, cfid)], freef := s.freef[1..]), xafid)
  {
    var f := s.freef[0];
    var r := s.(fids := s.fids[f := Fid(1, cfid)], freef := s.freef[1..]);
    assert s.freef == [f] + r.freef;
    forall g: nat | IsFid(r, g) && r.fids[g].ref == 0 ensures g in r.freef {
      assert g in s.freef;
    }
  }

  /** fidnew gives the thread one reference to a fid nobody names. */
  lemma FidNewCnt(s: State, cfid: nat, xm: multiset<nat>, xf: multiset<nat>, dying: set<nat>, xafid: nat)
    requires Cnt(s, xm, xf, dying, xafid) && FidsOk(s)
    ensures var (r, f) := FidNew(s, cfid, xafid);
      Cnt(r, xm, xf + multiset{f}, dying, xafid) && FidsOk(r) && IsFid(r, f) && r.fids[f] == Fid(1, cfid) &&
      r == s.(fids := r.fids, freef := r.freef) && f != xafid && SameTables(s, r)
  {
    hide Cnt, FidsOk;
    FidNewIs(s, cfid, xafid);
    GrownCnt(s, xm, xf, dying, xafid);
    TakeFid(Grown(s, xafid), cfid, xm, xf, dying, xafid);
    SameTablesNew(s, cfid, xm, xf, dying, xafid);
  }

  /** Fids that tables name are as before, and no fid has gone. */
  ghost predicate SameTables(s: State, r: State)
  {
    (forall f: nat :: IsFid(s, f) ==> IsFid(r, f)) &&
    (forall c: nat, k :: c < |s.conns| && k in s.conns[c].fid && IsFid(s, s.conns[c].fid[k]) ==>
      IsFid(r, s.conns[c].fid[k]) && r.fids[s.conns[c].fid[k]].cfid == s.fids[s.conns[c].fid[k]].cfid)
  }

  lemma SameTablesNew(s: State, cfid: nat, xm: multiset<nat>, xf: multiset<nat>, dying: set<nat>, xafid: nat)
    requires Cnt(s, xm, xf, dying, xafid) && FidsOk(s)
    ensures SameTables(s, FidNew(s, cfid, xafid).0) && FidNew(s, cfid, xafid).1 != xafid
  {
    hide RefM, RefF, FreeM, Counts, FidsOk, FidNew, Unnamed;
    FidNewIs(s, cfid, xafid);
    GrownCnt(s, xm, xf, dying, xafid);
    var g := Grown(s, xafid);
    TakeFid(g, cfid, xm, xf, dying, xafid);
    UnnamedTables(g, g.freef[0]);
    assert IsFid(g, g.freef[0]) && !IsFid(g, xafid);
  }
}
