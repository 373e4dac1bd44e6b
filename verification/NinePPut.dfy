/** msgput and fidput give back exactly the reference they are handed. */
module NinePPut {
  import opened NinePState
  import opened NinePInv
  import opened NinePRel

  // ----- how counts move when one message or one connection changes ----------------------

  lemma OldmCounts(ms: seq<Msg>, m: nat, v: Msg)
    requires m < |ms|
    ensures forall x: nat {:trigger Count(ms[m := v], OldmIs(x))} ::
      Count(ms[m := v], OldmIs(x)) == Count(ms, OldmIs(x)) - One(ms[m].oldm == Some(x)) + One(v.oldm == Some(x))
  {
    forall x: nat {
      CountUpdate(ms, m, v, OldmIs(x));
    }
  }

  lemma FidCounts(ms: seq<Msg>, m: nat, v: Msg)
    requires m < |ms|
    ensures forall f: nat {:trigger Count(ms[m := v], FidIs(f))} ::
      Count(ms[m := v], FidIs(f)) == Count(ms, FidIs(f)) - One(ms[m].fid == Some(f)) + One(v.fid == Some(f))
    ensures forall f: nat {:trigger Count(ms[m := v], NewfidIs(f))} ::
      Count(ms[m := v], NewfidIs(f)) == Count(ms, NewfidIs(f)) - One(ms[m].newfid == Some(f)) + One(v.newfid == Some(f))
    ensures forall f: nat {:trigger Count(ms[m := v], AfidIs(f))} ::
      Count(ms[m := v], AfidIs(f)) == Count(ms, AfidIs(f)) - One(ms[m].afid == Some(f)) + One(v.afid == Some(f))
  {
    forall f: nat {
      CountUpdate(ms, m, v, FidIs(f));
    }
    forall f: nat {
      CountUpdate(ms, m, v, NewfidIs(f));
    }
    forall f: nat {
      CountUpdate(ms, m, v, AfidIs(f));
    }
  }

  lemma ConnCounts(ms: seq<Msg>, m: nat, v: Msg)
    requires m < |ms|
    ensures forall c: nat {:trigger Count(ms[m := v], ConnIs(c))} ::
      Count(ms[m := v], ConnIs(c)) == Count(ms, ConnIs(c)) - One(ms[m].conn == Some(c)) + One(v.conn == Some(c))
    ensures Count(ms[m := v], Live()) == Count(ms, Live()) - One(ms[m].ref > 0) + One(v.ref > 0)
  {
    forall c: nat {
      CountUpdate(ms, m, v, ConnIs(c));
    }
    CountUpdate(ms, m, v, Live());
  }

  lemma TableCounts(cs: seq<Conn>, c: nat, d: Conn)
    requires c < |cs|
    ensures forall k: int, f: nat {:trigger Count(cs[c := d], TableHas(k, f))} ::
      Count(cs[c := d], TableHas(k, f)) == Count(cs, TableHas(k, f)) - One(TableHas(k, f)(cs[c])) +
        One(TableHas(k, f)(d))
  {
    forall k: int, f: nat {
      CountUpdate(cs, c, d, TableHas(k, f));
    }
  }

  /** A change of one message that leaves its links alone moves no count but the live one. */
  lemma SameLinks(s: State, m: nat, v: Msg)
    requires m < |s.msgs| && v.oldm == s.msgs[m].oldm && v.fid == s.msgs[m].fid && v.newfid == s.msgs[m].newfid &&
             v.afid == s.msgs[m].afid && v.conn == s.msgs[m].conn && v.ctag == s.msgs[m].ctag
    ensures forall x: nat :: Held(SetMsg(s, m, v), x) == Held(s, x)
    ensures forall f: nat :: FidHeld(SetMsg(s, m, v), f) == FidHeld(s, f)
    ensures forall c: nat :: Count(SetMsg(s, m, v).msgs, ConnIs(c)) == Count(s.msgs, ConnIs(c))
  {
    hide Held, FidHeld;
    ConnCounts(s.msgs, m, v);
    forall x: nat ensures Held(SetMsg(s, m, v), x) == Held(s, x) && FidHeld(SetMsg(s, m, v), x) == FidHeld(s, x) {
      SameLinksHeld(s, m, v, x);
      SameLinksFid(s, m, v, x);
    }
  }

  lemma SameLinksHeld(s: State, m: nat, v: Msg, x: nat)
    requires m < |s.msgs| && v.oldm == s.msgs[m].oldm && v.conn == s.msgs[m].conn && v.ctag == s.msgs[m].ctag
    ensures Held(SetMsg(s, m, v), x) == Held(s, x)
  {
    hide ConnHolds;
    OldmCounts(s.msgs, m, v);
  }

  lemma SameLinksFid(s: State, m: nat, v: Msg, f: nat)
    requires m < |s.msgs| && v.fid == s.msgs[m].fid && v.newfid == s.msgs[m].newfid && v.afid == s.msgs[m].afid
    ensures FidHeld(SetMsg(s, m, v), f) == FidHeld(s, f)
  {
    FidCounts(s.msgs, m, v);
  }

  // ----- changes that leave the links alone ----------------------------------------------

  ghost predicate SameLinksMsg(o: Msg, v: Msg)
  {
    v.oldm == o.oldm && v.fid == o.fid && v.newfid == o.newfid && v.afid == o.afid && v.conn == o.conn &&
    v.ctag == o.ctag
  }

  lemma FreeMUpdate(s: State, m: nat, v: Msg, dying: set<nat>)
    requires FreeM(s, dying) && m < |s.msgs| && s.msgs[m].ref > 0 && v.ref > 0
    ensures FreeM(SetMsg(s, m, v), dying)
  {
  }

  lemma RefMChange(s: State, m: nat, v: Msg, xm: multiset<nat>, xm': multiset<nat>)
    requires RefM(s, xm) && m < |s.msgs| && SameLinksMsg(s.msgs[m], v)
    requires forall x :: xm'[x] == if x == m then xm[x] + v.ref - s.msgs[m].ref else xm[x]
    ensures RefM(SetMsg(s, m, v), xm')
  {
    SameLinks(s, m, v);
    var r := SetMsg(s, m, v);
    forall x: nat | x < |r.msgs| ensures r.msgs[x].ref == Held(r, x) + xm'[x] {
      assert Held(r, x) == Held(s, x);
    }
    forall x | x in xm' ensures x < |r.msgs| {
      assert x != m ==> x in xm;
    }
  }

  lemma RefFChange(s: State, m: nat, v: Msg, xf: multiset<nat>, xafid: nat)
    requires RefF(s, xf) && FreeF(s, xafid) && m < |s.msgs| && SameLinksMsg(s.msgs[m], v)
    ensures RefF(SetMsg(s, m, v), xf) && FreeF(SetMsg(s, m, v), xafid)
  {
    SameLinks(s, m, v);
    var r := SetMsg(s, m, v);
    forall f: nat | IsFid(r, f) ensures r.fids[f].ref == FidHeld(r, f) + xf[f] {
      assert FidHeld(r, f) == FidHeld(s, f);
    }
  }

  lemma CountsChange(s: State, m: nat, v: Msg)
    requires Counts(s) && m < |s.msgs| && SameLinksMsg(s.msgs[m], v) && s.msgs[m].ref > 0 && v.ref > 0
    ensures Counts(SetMsg(s, m, v))
  {
    SameLinks(s, m, v);
    ConnCounts(s.msgs, m, v);
  }

  /** A live message changes, not its links; its count moves with what the thread holds. */
  lemma RefChange(s: State, m: nat, v: Msg, xm: multiset<nat>, xm': multiset<nat>, xf: multiset<nat>, dying: set<nat>,
                  xafid: nat)
    requires Cnt(s, xm, xf, dying, xafid) && m < |s.msgs| && s.msgs[m].ref > 0 && v.ref > 0 &&
             SameLinksMsg(s.msgs[m], v)
    requires forall x :: xm'[x] == if x == m then xm[x] + v.ref - s.msgs[m].ref else xm[x]
    ensures Cnt(SetMsg(s, m, v), xm', xf, dying, xafid)
  {
    RefMChange(s, m, v, xm, xm');
    RefFChange(s, m, v, xf, xafid);
    CountsChange(s, m, v);
    FreeMUpdate(s, m, v, dying);
  }

  lemma RefRel(s: State, m: nat, ref: int)
    requires Links(s) && m < |s.msgs| && s.msgs[m].ref > 0
    ensures Rel(s, SetMsg(s, m, s.msgs[m].(ref := ref)))
  {
    var r := SetMsg(s, m, s.msgs[m].(ref := ref));
    assert forall x: nat :: x < |s.msgs| ==> Kept(s, r, x);
    forall f: nat ensures FidRel(s, r, f) {
    }
  }

  lemma DropCnt(s: State, m: nat, xm: multiset<nat>, xf: multiset<nat>, dying: set<nat>, xafid: nat)
    requires Links(s) && Cnt(s, xm, xf, dying, xafid) && xm[m] > 0 && m < |s.msgs| && s.msgs[m].ref > 1
    ensures Cnt(Drop(s, m), xm - multiset{m}, xf, dying, xafid) && Rel(s, Drop(s, m))
  {
    hide Cnt, Links, Rel;
    var v := s.msgs[m].(ref := s.msgs[m].ref - 1);
    RefChange(s, m, v, xm, xm - multiset{m}, xf, dying, xafid);
    RefRel(s, m, v.ref);
  }

  // ----- the last holder goes ------------------------------------------------------------

  function Refs(x: Option<nat>): multiset<nat> { if x.Some? then multiset{x.value} else multiset{} }

  /** What m's links hold and a release of m must give back. */
  function FidRefs(o: Msg): multiset<nat> { Refs(o.fid) + Refs(o.afid) + Refs(o.newfid) }

  /** The first part of msgput of a message nobody else holds: uncount it and cut its links. */
  function Orphan(s: State, m: nat): State { Unlink(Fade(Drop(s, m), m), m) }

  function OrphanMsg(o: Msg): Msg { Unlinked(o).(ref := 0, internal := false, stage := Free) }

  lemma OrphanIs(s: State, m: nat)
    requires m < |s.msgs| && MsgLinks(s, s.msgs[m]) && s.msgs[m].ref == 1
    ensures var r := Orphan(s, m); var o := s.msgs[m];
      r == s.(msgs := r.msgs, nmsg := r.nmsg, conns := r.conns) &&
      r.msgs == s.msgs[m := OrphanMsg(o)] && r.nmsg == s.nmsg - 1 &&
      r.conns == if o.conn.Some?
        then s.conns[o.conn.value := s.conns[o.conn.value].(nmsg := s.conns[o.conn.value].nmsg - 1)] else s.conns
  {
  }

  /** What Orphan does to counts of message references. */
  lemma OrphanHeld(s: State, m: nat, x: nat)
    requires m < |s.msgs| && MsgLinks(s, s.msgs[m]) && s.msgs[m].ref == 1 && x < |s.msgs|
    ensures var h := Held(Orphan(s, m), x) + One(s.msgs[m].oldm == Some(x));
            h <= Held(s, x) && (x != m ==> h == Held(s, x))
  {
    OrphanIs(s, m);
    var r, o := Orphan(s, m), s.msgs[m];
    OldmCounts(s.msgs, m, r.msgs[m]);
    if x != m && s.msgs[x].conn.Some? && s.msgs[x].conn.value < |s.conns| {
      assert ConnRel(s.conns[s.msgs[x].conn.value], r.conns[s.msgs[x].conn.value]);
    }
  }

  lemma OrphanRefM(s: State, m: nat, xm: multiset<nat>)
    requires Links(s) && RefM(s, xm) && m < |s.msgs| && s.msgs[m].ref == 1 && xm[m] == 1
    ensures RefM(Orphan(s, m), xm - multiset{m} + Refs(s.msgs[m].oldm))
  {
    OrphanIs(s, m);
    var r, o := Orphan(s, m), s.msgs[m];
    assert MsgLinks(s, o);
    hide Orphan, Held;
    forall x: nat | x < |r.msgs| ensures r.msgs[x].ref == Held(r, x) + (xm - multiset{m} + Refs(o.oldm))[x] {
      OrphanHeld(s, m, x);
    }
  }

  lemma OrphanTables(s: State, m: nat)
    requires m < |s.msgs| && MsgLinks(s, s.msgs[m]) && s.msgs[m].ref == 1
    ensures forall k: int, f: nat :: Count(Orphan(s, m).conns, TableHas(k, f)) == Count(s.conns, TableHas(k, f))
  {
    OrphanIs(s, m);
    var o := s.msgs[m];
    if o.conn.Some? {
      TableCounts(s.conns, o.conn.value, s.conns[o.conn.value].(nmsg := s.conns[o.conn.value].nmsg - 1));
    }
  }

  lemma OrphanFidHeld(s: State, m: nat, f: nat)
    requires m < |s.msgs| && MsgLinks(s, s.msgs[m]) && s.msgs[m].ref == 1
    ensures FidHeld(Orphan(s, m), f) + FidRefs(s.msgs[m])[f] == FidHeld(s, f)
  {
    hide Orphan, MsgLinks;
    OrphanIs(s, m);
    var o := s.msgs[m];
    OrphanTables(s, m);
    CountUpdate(s.msgs, m, OrphanMsg(o), FidIs(f));
    CountUpdate(s.msgs, m, OrphanMsg(o), NewfidIs(f));
    CountUpdate(s.msgs, m, OrphanMsg(o), AfidIs(f));
    FidRefsIs(o, f);
  }

  lemma FidRefsIs(o: Msg, f: nat)
    ensures FidRefs(o)[f] == One(o.fid == Some(f)) + One(o.newfid == Some(f)) + One(o.afid == Some(f))
  {
  }

  lemma OrphanRefF(s: State, m: nat, xf: multiset<nat>, xafid: nat)
    requires RefF(s, xf) && FreeF(s, xafid) && m < |s.msgs| && MsgLinks(s, s.msgs[m]) && s.msgs[m].ref == 1
    ensures RefF(Orphan(s, m), xf + FidRefs(s.msgs[m])) && FreeF(Orphan(s, m), xafid)
  {
    hide Orphan, FidHeld;
    OrphanIs(s, m);
    var r, o := Orphan(s, m), s.msgs[m];
    forall f: nat | IsFid(r, f) ensures r.fids[f].ref == FidHeld(r, f) + (xf + FidRefs(o))[f] {
      OrphanFidHeld(s, m, f);
    }
  }

  lemma OrphanFreeM(s: State, m: nat, dying: set<nat>)
    requires FreeM(s, dying) && m < |s.msgs| && MsgLinks(s, s.msgs[m]) && s.msgs[m].ref == 1
    ensures FreeM(Orphan(s, m), dying + {m})
  {
    OrphanIs(s, m);
    var r := Orphan(s, m);
    var ms, v := s.msgs, r.msgs[m];
    assert r.msgs == ms[m := v] && r.freem == s.freem && v.ref == 0 && Clean(v);
    forall x: nat | x < |r.msgs| && r.msgs[x].ref == 0 ensures (x in r.freem || x in dying + {m}) && Clean(r.msgs[x]) {
      assert x != m ==> r.msgs[x] == s.msgs[x];
    }
  }

  lemma OrphanCounts(s: State, m: nat)
    requires Counts(s) && m < |s.msgs| && MsgLinks(s, s.msgs[m]) && s.msgs[m].ref == 1
    ensures Counts(Orphan(s, m))
  {
    OrphanIs(s, m);
    var r := Orphan(s, m);
    ConnCounts(s.msgs, m, r.msgs[m]);
  }

  lemma OrphanRel(s: State, m: nat)
    requires Links(s) && m < |s.msgs| && s.msgs[m].ref == 1 && Held(s, m) == 0
    ensures Rel(s, Orphan(s, m))
  {
    OrphanIs(s, m);
    var r, o := Orphan(s, m), s.msgs[m];
    assert MsgLinks(s, o);
    forall x: nat | x < |s.msgs| ensures MsgRel(s, r, x) {
      assert x != m ==> Kept(s, r, x);
    }
    forall x: nat | x < |s.msgs| && r.msgs[x].oldm.Some? && r.msgs[x].oldm.value < |s.msgs|
      ensures Kept(s, r, r.msgs[x].oldm.value) {
      if r.msgs[x].oldm.value == m {
        CountHas(s.msgs, x, OldmIs(m));
        assert false;
      }
    }
    forall f: nat ensures FidRel(s, r, f) {
    }
  }

  lemma OrphanCnt(s: State, m: nat, xm: multiset<nat>, xf: multiset<nat>, dying: set<nat>, xafid: nat)
    requires Life(s) && Cnt(s, xm, xf, dying, xafid) && xm[m] > 0 && s.msgs[m].ref == 1
    ensures Cnt(Orphan(s, m), xm - multiset{m} + Refs(s.msgs[m].oldm), xf + FidRefs(s.msgs[m]), dying + {m}, xafid)
    ensures Rel(s, Orphan(s, m)) && Life(Orphan(s, m)) && m !in dying
  {
    OrphanIs(s, m);
    OrphanRefM(s, m, xm);
    OrphanRefF(s, m, xf, xafid);
    OrphanFreeM(s, m, dying);
    OrphanCounts(s, m);
    OrphanRel(s, m);
    LifeRel(s, Orphan(s, m));
  }

  // ----- fids ----------------------------------------------------------------------------

  /** A fid nobody holds is in no connection's table. */
  lemma NoTable(s: State, f: nat)
    requires Links(s) && IsFid(s, f) && Count(s.conns, TableHas(s.fids[f].cfid, f)) == 0
    ensures forall c, k :: 0 <= c < |s.conns| && k in s.conns[c].fid ==> s.conns[c].fid[k] != f
  {
    forall c, k | 0 <= c < |s.conns| && k in s.conns[c].fid ensures s.conns[c].fid[k] != f {
      assert ConnLinks(s, c);
      if s.conns[c].fid[k] == f {
        CountHas(s.conns, c, TableHas(s.fids[f].cfid, f));
        assert false;
      }
    }
  }

  lemma NoTableCount(s: State, f: nat)
    requires Links(s) && IsFid(s, f) && Count(s.conns, TableHas(s.fids[f].cfid, f)) == 0
    ensures forall k: int :: Count(s.conns, TableHas(k, f)) == 0
  {
    NoTable(s, f);
    forall k: int ensures Count(s.conns, TableHas(k, f)) == 0 {
      forall c | 0 <= c < |s.conns| ensures !TableHas(k, f)(s.conns[c]) {
      }
      CountZero(s.conns, TableHas(k, f));
    }
  }

  lemma FidPutHeld(s: State, f: nat, g: nat)
    requires Links(s) && IsFid(s, f) && s.fids[f].ref > 0 &&
             (s.fids[f].ref == 1 ==> Count(s.conns, TableHas(s.fids[f].cfid, f)) == 0)
    ensures FidHeld(FidPut(s, f), g) == FidHeld(s, g)
  {
    if s.fids[f].ref == 1 {
      NoTableCount(s, f);
    }
  }

  lemma FidPutRefF(s: State, f: nat, xf: multiset<nat>, xafid: nat)
    requires Links(s) && RefF(s, xf) && FreeF(s, xafid) && xf[f] > 0
    ensures RefF(FidPut(s, f), xf - multiset{f}) && FreeF(FidPut(s, f), xafid)
  {
    hide Links;
    FidInRange(s, f, xf);
    var r := FidPut(s, f);
    forall g: nat | IsFid(r, g) ensures r.fids[g].ref == FidHeld(r, g) + (xf - multiset{f})[g] {
      assert s.fids[f].ref == FidHeld(s, f) + xf[f];
      FidPutHeld(s, f, g);
      assert s.fids[g].ref == FidHeld(s, g) + xf[g];
    }
    forall g | g in (xf - multiset{f}) ensures IsFid(r, g) {
      assert g in xf;
    }
    FidPutFree(s, f, xafid);
  }

  lemma FidPutFree(s: State, f: nat, xafid: nat)
    requires FreeF(s, xafid) && IsFid(s, f) && s.fids[f].ref > 0
    ensures FreeF(FidPut(s, f), xafid)
  {
    var r := FidPut(s, f);
    if s.fids[f].ref == 1 {
      assert f !in s.freef;
      forall g: nat | IsFid(r, g) && r.fids[g].ref == 0 ensures g in r.freef {
        assert g != f ==> g in s.freef;
      }
    }
  }

  lemma FidPutRel(s: State, f: nat, xf: multiset<nat>)
    requires Links(s) && RefF(s, xf) && xf[f] > 0
    ensures Rel(s, FidPut(s, f))
  {
    hide Links, RefF, MsgRel, FidRel, Kept;
    FidInRange(s, f, xf);
    var r := FidPut(s, f);
    forall x: nat | x < |s.msgs| ensures MsgRel(s, r, x) && Kept(s, r, x) {
      MsgSame(s, r, x);
    }
    forall g: nat ensures FidRel(s, r, g) {
      FidPutOne(s, f, xf, g);
    }
  }

  lemma MsgSame(s: State, r: State, x: nat)
    requires r.msgs == s.msgs && x < |s.msgs|
    ensures MsgRel(s, r, x) && Kept(s, r, x)
  {
  }

  lemma FidPutOne(s: State, f: nat, xf: multiset<nat>, g: nat)
    requires Links(s) && RefF(s, xf) && xf[f] > 0
    ensures FidRel(s, FidPut(s, f), g)
  {
    if IsFid(s, f) && s.fids[f].ref == 1 {
      NoTable(s, f);
    }
  }

  lemma HeldSame(s: State, r: State)
    requires r == s.(fids := r.fids, freef := r.freef)
    ensures forall x: nat :: Held(r, x) == Held(s, x)
  {
  }

  lemma FidPutCnt(s: State, f: nat, xm: multiset<nat>, xf: multiset<nat>, dying: set<nat>, xafid: nat)
    requires Life(s) && Cnt(s, xm, xf, dying, xafid) && xf[f] > 0
    ensures Cnt(FidPut(s, f), xm, xf - multiset{f}, dying, xafid) && Rel(s, FidPut(s, f)) && Life(FidPut(s, f))
  {
    hide Links, Stages, Phases, Logged, AnswersOk, RefF, FreeF, Rel;
    var r := FidPut(s, f);
    FidInRange(s, f, xf);
    FidPutRefF(s, f, xf, xafid);
    FidPutRel(s, f, xf);
    LifeRel(s, r);
    HeldSame(s, r);
  }

  lemma FidInRange(s: State, f: nat, xf: multiset<nat>)
    requires RefF(s, xf) && xf[f] > 0
    ensures IsFid(s, f) && s.fids[f].ref > 0
  {
    assert f in xf;
  }

  lemma FidPutOptCnt(s: State, f: Option<nat>, xm: multiset<nat>, xf: multiset<nat>, rest: multiset<nat>,
                     dying: set<nat>, xafid: nat)
    requires Life(s) && Cnt(s, xm, xf, dying, xafid) && xf == rest + Refs(f)
    ensures Cnt(FidPutOpt(s, f), xm, rest, dying, xafid) && Rel(s, FidPutOpt(s, f)) && Life(FidPutOpt(s, f))
  {
    hide Life, Cnt, Rel;
    if f.Some? {
      FidPutCnt(s, f.value, xm, xf, dying, xafid);
      assert xf - multiset{f.value} == rest;
    } else {
      assert xf == rest;
      RelRefl(s);
    }
  }

  lemma RelRefl(s: State)
    requires Life(s)
    ensures Rel(s, s)
  {
    assert forall x: nat :: x < |s.msgs| ==> Kept(s, s, x);
    forall g: nat ensures FidRel(s, s, g) {
    }
  }

  lemma FidPutsCnt(s: State, o: Msg, xm: multiset<nat>, xf: multiset<nat>, dying: set<nat>, xafid: nat)
    requires Life(s) && Cnt(s, xm, xf + FidRefs(o), dying, xafid)
    ensures Cnt(FidPuts(s, o), xm, xf, dying, xafid) && Rel(s, FidPuts(s, o)) && Life(FidPuts(s, o))
  {
    hide Life, Cnt, Rel;
    var x2 := xf + Refs(o.newfid);
    var x1 := x2 + Refs(o.afid);
    assert xf + FidRefs(o) == x1 + Refs(o.fid);
    var s1 := FidPutOpt(s, o.fid);
    FidPutOptCnt(s, o.fid, xm, xf + FidRefs(o), x1, dying, xafid);
    var s2 := FidPutOpt(s1, o.afid);
    FidPutOptCnt(s1, o.afid, xm, x1, x2, dying, xafid);
    FidPutOptCnt(s2, o.newfid, xm, x2, xf, dying, xafid);
    RelTrans(s, s1, s2);
    RelTrans(s, s2, FidPutOpt(s2, o.newfid));
  }

  // ----- msgput --------------------------------------------------------------------------

  lemma PushFree(s: State, m: nat, xm: multiset<nat>, xf: multiset<nat>, dying: set<nat>, xafid: nat)
    requires Cnt(s, xm, xf, dying + {m}, xafid) && m !in dying && m < |s.msgs|
    ensures Cnt(s.(freem := [m] + s.freem), xm, xf, dying, xafid)
  {
    hide Held, FidHeld;
    var r := s.(freem := [m] + s.freem);
    PushFreeM(s, m, dying);
    forall x: nat ensures Held(r, x) == Held(s, x) && FidHeld(r, x) == FidHeld(s, x) {
      PushHeld(s, m, x);
    }
  }

  lemma PushHeld(s: State, m: nat, x: nat)
    ensures Held(s.(freem := [m] + s.freem), x) == Held(s, x) && FidHeld(s.(freem := [m] + s.freem), x) == FidHeld(s, x)
  {
  }

  lemma PushFreeM(s: State, m: nat, dying: set<nat>)
    requires FreeM(s, dying + {m}) && m !in dying
    ensures FreeM(s.(freem := [m] + s.freem), dying)
  {
    var r := s.(freem := [m] + s.freem);
    assert m in dying + {m};
    forall x: nat | x < |r.msgs| && r.msgs[x].ref == 0 ensures x in r.freem || x in dying {
      assert x in s.freem || x in dying + {m};
    }
  }

  lemma RelPush(s: State, r: State, free: seq<nat>)
    requires Rel(s, r)
    ensures Rel(s, r.(freem := free))
  {
    var t := r.(freem := free);
    assert forall m: nat :: m < |s.msgs| ==> (MsgRel(s, r, m) ==> MsgRel(s, t, m)) && (Kept(s, r, m) ==> Kept(s, t, m));
    forall f: nat ensures FidRel(s, t, f) {
      assert FidRel(s, r, f);
    }
  }

  lemma MsgPutIs(s: State, m: nat)
    requires m < |s.msgs| && s.msgs[m].ref == 1
    ensures var o := s.msgs[m]; var s1 := Orphan(s, m);
      var s2 := if o.oldm.Some? then MsgPut(s1, o.oldm.value) else s1;
      var s3 := FidPuts(s2, o);
      MsgPut(s, m) == s3.(freem := [m] + s3.freem)
  {
    hide FidPutOpt;
    var o, d := s.msgs[m], Fade(Drop(s, m), m);
    assert M(d, m) == o.(ref := 0, internal := false, stage := Free);
    assert MsgPut(s, m) == MsgClear(d, m).(freem := [m] + MsgClear(d, m).freem);
  }

  lemma MsgInRange(s: State, m: nat, xm: multiset<nat>, xf: multiset<nat>, dying: set<nat>, xafid: nat)
    requires Links(s) && Cnt(s, xm, xf, dying, xafid) && xm[m] > 0
    ensures m < |s.msgs| && s.msgs[m].ref >= 1 && MsgLinks(s, s.msgs[m])
  {
    assert m in xm;
  }

  /** msgput hands back exactly one reference, whatever else goes with the message. */
  /** The rest of msgput once the flush's own reference has gone back. */
  lemma PutRest(s: State, s1: State, s2: State, o: Msg, m: nat, xm: multiset<nat>, xf: multiset<nat>, dying: set<nat>,
                xafid: nat)
    requires Life(s) && Life(s2) && Rel(s, s1) && Rel(s1, s2) && Cnt(s2, xm, xf + FidRefs(o), dying + {m}, xafid) &&
             m !in dying && m < |s2.msgs|
    ensures var s3 := FidPuts(s2, o); var r := s3.(freem := [m] + s3.freem);
            Cnt(r, xm, xf, dying, xafid) && Rel(s, r) && Life(r)
  {
    hide Life, Cnt, FidPuts;
    FidPutsCnt(s2, o, xm, xf, dying + {m}, xafid);
    var s3 := FidPuts(s2, o);
    RelTrans(s, s1, s2);
    RelTrans(s, s2, s3);
    assert |s3.msgs| == |s2.msgs|;
    hide Rel;
    PushFree(s3, m, xm, xf, dying, xafid);
    RelPush(s, s3, [m] + s3.freem);
    LifeRel(s, s3.(freem := [m] + s3.freem));
  }

  lemma RelExtent(s: State, r: State)
    requires Rel(s, r)
    ensures |r.msgs| == |s.msgs|
  {
  }

  lemma {:induction false} PutMsg(s: State, m: nat, xm: multiset<nat>, xf: multiset<nat>, dying: set<nat>, xafid: nat)
    requires Life(s) && Cnt(s, xm, xf, dying, xafid) && xm[m] > 0
    ensures Cnt(MsgPut(s, m), xm - multiset{m}, xf, dying, xafid) && Rel(s, MsgPut(s, m)) && Life(MsgPut(s, m))
    decreases Count(s.msgs, HasOldm())
  {
    hide Links, Stages, Phases, Logged, AnswersOk, Cnt, Rel, FidPuts, FidRefs, MsgPut;
    MsgInRange(s, m, xm, xf, dying, xafid);
    if s.msgs[m].ref > 1 {
      PutDrop(s, m, xm, xf, dying, xafid);
    } else {
      var o := s.msgs[m];
      var s1 := Orphan(s, m);
      OrphanCnt(s, m, xm, xf, dying, xafid);
      OrphanIs(s, m);
      hide Orphan;
      var x1 := xm - multiset{m};
      var s2 := if o.oldm.Some? then MsgPut(s1, o.oldm.value) else s1;
      if o.oldm.Some? {
        OrphanLess(s, m);
        PutMsg(s1, o.oldm.value, x1 + Refs(o.oldm), xf + FidRefs(o), dying + {m}, xafid);
        assert x1 + Refs(o.oldm) - multiset{o.oldm.value} == x1;
      } else {
        RelRefl(s1);
        assert x1 + Refs(o.oldm) == x1;
      }
      RelExtent(s1, s2);
      PutRest(s, s1, s2, o, m, x1, xf, dying, xafid);
      MsgPutIs(s, m);
    }
  }

  lemma PutDrop(s: State, m: nat, xm: multiset<nat>, xf: multiset<nat>, dying: set<nat>, xafid: nat)
    requires Life(s) && Cnt(s, xm, xf, dying, xafid) && xm[m] > 0 && m < |s.msgs| && s.msgs[m].ref > 1
    ensures Cnt(MsgPut(s, m), xm - multiset{m}, xf, dying, xafid) && Rel(s, MsgPut(s, m)) && Life(MsgPut(s, m))
  {
    hide Links, Stages, Phases, Logged, AnswersOk, Cnt, Rel;
    DropCnt(s, m, xm, xf, dying, xafid);
    LifeRel(s, Drop(s, m));
  }

  lemma OrphanLess(s: State, m: nat)
    requires m < |s.msgs| && s.msgs[m].oldm.Some?
    ensures Count(Orphan(s, m).msgs, HasOldm()) < Count(s.msgs, HasOldm())
  {
  }
}
