/** A new message for a connection. */
module NinePEnter {
  import opened NinePState
  import opened NinePStep
  import opened NinePInv
  import opened NinePPut
  import opened NinePCnt

  /** The message table with a free message in it. */
  function Roomy(s: State): State
  {
    if s.freem == [] then s.(msgs := s.msgs + [NO_MSG], freem := [|s.msgs|]) else s
  }

  /** Nothing in the state refers to message m. */
  ghost predicate Unreferenced(s: State, m: nat)
  {
    (forall c: nat, k: nat :: c < |s.conns| ==> ConnHolds(s.conns[c], k, m) == 0) &&
    multiset(s.outq)[Out(m)] == 0 && OutHolds(s.out, m) == 0 && Count(s.msgs, OldmIs(m)) == 0
  }

  lemma UnheldConn(s: State, c: nat, k: nat, m: nat)
    requires c < |s.conns| && ConnLinks(s, c) && (m >= |s.msgs| || s.msgs[m].conn != Some(c))
    ensures ConnHolds(s.conns[c], k, m) == 0
  {
    var d := s.conns[c];
    assert Some(m) !in d.outq;
  }

  lemma UnreferencedFree(s: State, m: nat, xm: multiset<nat>)
    requires Links(s) && OutOk(s) && RefM(s, xm) && m < |s.msgs| && s.msgs[m].ref == 0 && Clean(s.msgs[m])
    ensures Unreferenced(s, m) && xm[m] == 0
  {
    forall c: nat, k: nat | c < |s.conns| ensures ConnHolds(s.conns[c], k, m) == 0 {
      UnheldConn(s, c, k, m);
    }
    assert s.msgs[m].ref == Held(s, m) + xm[m];
  }

  lemma UnreferencedNew(s: State, m: nat, xm: multiset<nat>)
    requires Links(s) && OutOk(s) && RefM(s, xm) && m >= |s.msgs|
    ensures Unreferenced(s, m) && xm[m] == 0
  {
    forall c: nat, k: nat | c < |s.conns| ensures ConnHolds(s.conns[c], k, m) == 0 {
      UnheldConn(s, c, k, m);
    }
    assert Out(m) !in s.outq;
    forall i | 0 <= i < |s.msgs| ensures !OldmIs(m)(s.msgs[i]) {
      assert MsgLinks(s, s.msgs[i]);
    }
    CountZero(s.msgs, OldmIs(m));
  }

  lemma RoomyUnreferenced(s: State, xm: multiset<nat>)
    requires Links(s) && OutOk(s) && RefM(s, xm) && FreeM(s, {})
    ensures var r := Roomy(s); r.freem != [] && var m := r.freem[0];
      m < |r.msgs| && Unreferenced(r, m) && xm[m] == 0 && r.msgs[m].ref == 0 && Clean(r.msgs[m])
  {
    if s.freem == [] {
      UnreferencedNew(s, |s.msgs|, xm);
      CountAppend(s.msgs, NO_MSG, OldmIs(|s.msgs|));
    } else {
      UnreferencedFree(s, s.freem[0], xm);
    }
  }

  lemma RoomyRefM(s: State, xm: multiset<nat>)
    requires Links(s) && OutOk(s) && RefM(s, xm)
    ensures RefM(Roomy(s), xm)
  {
    var r := Roomy(s);
    if s.freem == [] {
      UnreferencedNew(s, |s.msgs|, xm);
      forall x: nat | x < |r.msgs| ensures r.msgs[x].ref == Held(r, x) + xm[x] {
        CountAppend(s.msgs, NO_MSG, OldmIs(x));
        if x < |s.msgs| {
          assert s.msgs[x].ref == Held(s, x) + xm[x];
        }
      }
    }
  }

  lemma RoomyRefF(s: State, xf: multiset<nat>)
    requires RefF(s, xf)
    ensures RefF(Roomy(s), xf)
  {
    var r := Roomy(s);
    if s.freem == [] {
      forall f: nat | IsFid(r, f) ensures r.fids[f].ref == FidHeld(r, f) + xf[f] {
        CountAppend(s.msgs, NO_MSG, FidIs(f));
        CountAppend(s.msgs, NO_MSG, NewfidIs(f));
        CountAppend(s.msgs, NO_MSG, AfidIs(f));
        assert s.fids[f].ref == FidHeld(s, f) + xf[f];
      }
    }
  }

  lemma RoomyCounts(s: State)
    requires Counts(s) && FreeM(s, {})
    ensures Counts(Roomy(s)) && FreeM(Roomy(s), {})
  {
    var r := Roomy(s);
    if s.freem == [] {
      CountAppend(s.msgs, NO_MSG, Live());
      forall c: nat | c < |s.conns| ensures r.conns[c].nmsg == Count(r.msgs, ConnIs(c)) {
        CountAppend(s.msgs, NO_MSG, ConnIs(c));
      }
    }
  }

  lemma RoomyCnt(s: State, xm: multiset<nat>, xf: multiset<nat>, xafid: nat)
    requires Ok(s, xm, xf, xafid)
    ensures Cnt(Roomy(s), xm, xf, {}, xafid)
  {
    hide RefM, RefF, Links, OutOk, FreeM, Counts, FreeF;
    RoomyRefM(s, xm);
    RoomyRefF(s, xf);
    RoomyCounts(s);
    RoomyFreeF(s, xafid);
  }

  lemma RoomyFreeF(s: State, xafid: nat)
    requires FreeF(s, xafid)
    ensures FreeF(Roomy(s), xafid)
  {
  }

  // ----- putting the free message to use -------------------------------------------------

  /** The state after Enter, given one with a free message. */
  function Taken(s: State, c: nat, h: Hdr): State
    requires s.freem != [] && s.freem[0] < |s.msgs| && c < |s.conns|
  {
    var m := s.freem[0];
    s.(msgs := s.msgs[m := Filled(s.msgs[m].(ref := 1), c, h, |s.log|)], freem := s.freem[1..], nmsg := s.nmsg + 1,
       conns := s.conns[c := s.conns[c].(nmsg := s.conns[c].nmsg + 1)], 
       log := s.log + [Asked(c, h.tx, s.conns[c].tag, s.conns[c].fid)])
  }

  lemma EnterIs(s: State, c: nat, h: Hdr)
    requires c < |s.conns| && Roomy(s).freem != [] && Roomy(s).freem[0] < |Roomy(s).msgs|
    ensures Enter(s, c, h) == (Taken(Roomy(s), c, h), Roomy(s).freem[0])
  {
    var b := Roomy(s);
    var m := b.freem[0];
    var a, v := b.msgs[m].(ref := 1), Filled(b.msgs[m].(ref := 1), c, h, |b.log|);
    assert b.msgs[m := a][m := v] == b.msgs[m := v];
  }

  lemma TakenRefM(s: State, c: nat, h: Hdr, xm: multiset<nat>)
    requires RefM(s, xm) && s.freem != [] && s.freem[0] < |s.msgs| && c < |s.conns|
    requires var m := s.freem[0]; Unreferenced(s, m) && xm[m] == 0 && Clean(s.msgs[m])
    ensures RefM(Taken(s, c, h), xm + multiset{s.freem[0]})
  {
    var r, m := Taken(s, c, h), s.freem[0];
    OldmCounts(s.msgs, m, r.msgs[m]);
    forall x: nat | x < |r.msgs| ensures r.msgs[x].ref == Held(r, x) + (xm + multiset{m})[x] {
      if x == m {
        assert ConnHolds(r.conns[c], r.msgs[m].ctag, m) == ConnHolds(s.conns[c], r.msgs[m].ctag, m);
      } else {
        assert s.msgs[x].ref == Held(s, x) + xm[x];
        assert Rooted(r, x) == Rooted(s, x);
      }
    }
  }

  lemma TakenRefF(s: State, c: nat, h: Hdr, xf: multiset<nat>)
    requires RefF(s, xf) && s.freem != [] && s.freem[0] < |s.msgs| && c < |s.conns|
    ensures RefF(Taken(s, c, h), xf)
  {
    var r, m := Taken(s, c, h), s.freem[0];
    FidCounts(s.msgs, m, r.msgs[m]);
    TableCounts(s.conns, c, r.conns[c]);
    forall f: nat | IsFid(r, f) ensures r.fids[f].ref == FidHeld(r, f) + xf[f] {
      assert s.fids[f].ref == FidHeld(s, f) + xf[f];
    }
  }

  lemma TakenFree(s: State, c: nat, h: Hdr, xafid: nat)
    requires FreeM(s, {}) && FreeF(s, xafid) && s.freem != [] && s.freem[0] < |s.msgs| && c < |s.conns|
    ensures FreeM(Taken(s, c, h), {}) && FreeF(Taken(s, c, h), xafid)
  {
    var r, m := Taken(s, c, h), s.freem[0];
    assert s.freem == [m] + r.freem;
    forall x: nat | x < |r.msgs| && r.msgs[x].ref == 0 ensures x in r.freem {
      assert x in s.freem;
    }
  }

  lemma TakenCounts(s: State, c: nat, h: Hdr)
    requires Counts(s) && s.freem != [] && s.freem[0] < |s.msgs| && c < |s.conns|
    requires s.msgs[s.freem[0]].ref == 0 && s.msgs[s.freem[0]].conn.None?
    ensures Counts(Taken(s, c, h))
  {
    var r, m := Taken(s, c, h), s.freem[0];
    ConnCounts(s.msgs, m, r.msgs[m]);
  }

  /** Enter gives the thread one reference to a message nobody else has. */
  lemma EnterCnt(s: State, c: nat, h: Hdr, xm: multiset<nat>, xf: multiset<nat>, xafid: nat)
    requires Ok(s, xm, xf, xafid) && c < |s.conns|
    ensures var (r, m) := Enter(s, c, h); Cnt(r, xm + multiset{m}, xf, {}, xafid)
    ensures var b := Roomy(s); b.freem != [] && b.freem[0] < |b.msgs| && Enter(s, c, h) == (Taken(b, c, h), b.freem[0])
    ensures var b := Roomy(s); Unreferenced(b, b.freem[0]) && b.msgs[b.freem[0]].ref == 0 && Clean(b.msgs[b.freem[0]])
  {
    hide RefM, RefF, Links, OutOk, FreeM, Counts, FreeF, Unreferenced, Clean;
    RoomyCnt(s, xm, xf, xafid);
    RoomyUnreferenced(s, xm);
    var b := Roomy(s);
    EnterIs(s, c, h);
    TakenRefM(b, c, h, xm);
    TakenRefF(b, c, h, xf);
    TakenFree(b, c, h, xafid);
    CleanConn(b.msgs[b.freem[0]]);
    TakenCounts(b, c, h);
  }

  lemma CleanConn(o: Msg)
    requires Clean(o)
    ensures o.conn.None?
  {
  }
}
