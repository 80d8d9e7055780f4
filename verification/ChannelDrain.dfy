/**
Leak-free teardown: a ring all of whose tenancies ended quiesced holds no slot claim once it
is Free again.
*/
module ChannelDrain {
  import opened ChannelModel
  import opened ChannelShape
  import opened ChannelRings
  import opened ChannelLocks
  import opened Modulo
  import opened Sums

  predicate At(pos: nat, cap: nat, i: nat)
    requires cap > 0
  {
    pos % cap == i
  }

  /** The first position the drain of u has still to visit. */
  function From(u: Sub): nat { if u.pc.SDrainDrop? || u.pc.SDrainPush? then u.at + 1 else u.at }

  ghost predicate ToVisit(u: Sub, cap: nat, i: nat)
    requires cap > 0
  {
    exists pos: nat :: From(u) <= pos < u.wp && At(pos, cap, i)
  }

  /** The tenancy of u can account for claim m at index i of its ring. */
  ghost predicate Accounted(u: Sub, cap: nat, i: nat, m: Meta)
    requires cap > 0
  {
    m.slot.Some? ==>
      if InDrain(u) then ToVisit(u, cap, i)
      else if u.pc.SSetFree? then false
      else m.tag > u.start
  }

  ghost predicate Clear(st: State, r: nat)
    requires Sized(st) && r < st.cfg.maxSubs
  {
    forall i :: 0 <= i < st.cfg.cap ==> st.ents.metas[r][i].slot.None?
  }

  ghost predicate TenancyOk(st: State, a: nat)
    requires SubsShape(st) && a < |st.subs|
  {
    var u := st.subs[a];
    && (u.pc.SClaimCas? ==> u.wp <= st.rings.wpos[u.ring])
    && (LivingOwner(st, a) ==>
          && u.start <= st.rings.wpos[u.ring]
          && (InDrain(u) ==> u.wp == st.rings.wpos[u.ring] && u.at < u.wp)
          && (u.pc.SDrainCas? ==> MetaAt(st, u.ring, u.at) == u.cur)
          && (forall p :: 0 <= p < |st.pubs| && HasPos(st.pubs[p]) && st.pubs[p].i == u.ring ==>
                u.start <= st.pubs[p].pos)
          && (st.rings.clean[u.ring] ==>
                forall i :: 0 <= i < st.cfg.cap ==> Accounted(u, st.cfg.cap, i, st.ents.metas[u.ring][i])))
  }

  ghost predicate Tenancies(st: State)
    requires SubsShape(st)
  {
    && (forall a :: 0 <= a < |st.subs| ==> TenancyOk(st, a))
    && (forall r :: 0 <= r < st.cfg.maxSubs && st.rings.state[r] == Free && st.rings.clean[r] ==> Clear(st, r))
  }

  /** Tags record the claiming position: handed out, and congruent to the index. */
  ghost predicate Tagged(st: State)
    requires Sized(st)
  {
    forall r, i {:trigger st.ents.metas[r][i]} :: 0 <= r < st.cfg.maxSubs && 0 <= i < st.cfg.cap ==>
      var m := st.ents.metas[r][i];
      && (m.slot.Some? ==> m.tag > 0)
      && (m.tag > 0 ==> At(m.tag - 1, st.cfg.cap, i) && m.tag <= st.rings.wpos[r])
  }

  /** Every index is visited in any window of cap positions. */
  lemma {:induction false} Window(lo: nat, cap: nat, i: nat) returns (pos: nat)
    requires i < cap
    ensures lo <= pos < lo + cap && At(pos, cap, i)
  {
    if lo == 0 {
      pos := i;
      ModSmall(i, cap);
    } else {
      pos := Window(lo - 1, cap, i);
      if pos == lo - 1 {
        ModPlus(pos, cap);
        pos := pos + cap;
      }
    }
  }

  // ----- publishers -----

  predicate ClaimMove(st: State, u: Pub, acc: Access)
    requires Sized(st) && PubShape(st.cfg, u) && InRange(st.cfg, acc)
  {
    && (acc.Claim? ==> Admitted(u) && HasPos(u) && acc.r == u.i && acc.pos == u.pos && acc.i == Idx(st.cfg, u.pos))
    && (acc.FetchPos? ==> Admitted(u) && acc.r == u.i)
  }

  lemma PubClaimMove(st: State, p: nat, c: Choice)
    requires PubReady(st, p, c)
    ensures ClaimMove(st, st.pubs[p], PubNext(st, p, c).acc)
  {
  }

  lemma PubKeepsTenancies(st: State, p: nat, c: Choice)
    requires PubReady(st, p, c) && PubsShape(st) && SubsShape(st) && SubsShape(PubTo(st, p, c))
    requires Owned(st) && Counted(st) && QuietOk(st) && Positions(st) && Tenancies(st)
    ensures Tenancies(PubTo(st, p, c))
  {
    hide PubNext;
    PubClaimMove(st, p, c);
    PubLockMove(st, p, c);
    PubKinds(st, p, c);
    var u, v, acc, st' := st.pubs[p], PubNext(st, p, c).u, PubNext(st, p, c).acc, PubTo(st, p, c);
    assert PosOk(st, u);
    if Admitted(u) { SumMember(st.pubs, p, FlightF(u.i)); }
    forall a | 0 <= a < |st'.subs| ensures TenancyOk(st', a) {
      assert TenancyOk(st, a);
      if LivingOwner(st', a) {
        assert LivingOwner(st, a) && OwnOk(st, a);
        var w := st.subs[a];
        forall q | 0 <= q < |st'.pubs| && HasPos(st'.pubs[q]) && st'.pubs[q].i == w.ring
          ensures w.start <= st'.pubs[q].pos
        {
          if q != p { assert st'.pubs[q] == st.pubs[q]; }
        }
      }
    }
  }

  // ----- the drain of one subscriber -----

  ghost predicate AllAccounted(st: State, u: Sub)
    requires Sized(st) && u.ring < st.cfg.maxSubs
  {
    forall i :: 0 <= i < st.cfg.cap ==> Accounted(u, st.cfg.cap, i, st.ents.metas[u.ring][i])
  }

  /** The start of the drain: claims since `start` are all in the window it visits. */
  lemma DrainStarts(st: State, u: Sub)
    requires SubsShape(st) && SubShape(st.cfg, u) && u.pc.SDrainLoad? && Tagged(st)
    requires AllAccounted(st, u)
    ensures AllAccounted(st, SubTeardown(st, u).u)
  {
    var v := SubTeardown(st, u).u;
    var oldest := if v.wp > st.cfg.cap then v.wp - st.cfg.cap else 0;
    forall i | 0 <= i < st.cfg.cap ensures Accounted(v, st.cfg.cap, i, st.ents.metas[u.ring][i]) {
      var m := st.ents.metas[u.ring][i];
      assert Accounted(u, st.cfg.cap, i, m);
      if m.slot.Some? {
        assert At(m.tag - 1, st.cfg.cap, i);
        if m.tag - 1 >= v.at {
          assert From(v) <= m.tag - 1 < v.wp;
        } else {
          var pos := Window(oldest, st.cfg.cap, i);
          assert From(v) <= pos < v.wp;
        }
      }
    }
  }

  /** A claim stays accounted for while the window is the same, or gives up a position it no longer needs. */
  lemma DrainGoesOn(u: Sub, v: Sub, cap: nat, i: nat, m: Meta)
    requires cap > 0 && InDrain(u) && (InDrain(v) || v.pc.SSetFree?) && v.wp == u.wp
    requires v.pc.SSetFree? ==> From(v) >= v.wp
    requires From(v) == From(u) || (From(v) == From(u) + 1 && (At(From(u), cap, i) ==> m.slot.None?))
    requires Accounted(u, cap, i, m)
    ensures Accounted(v, cap, i, m)
  {
    if m.slot.Some? {
      var pos: nat :| From(u) <= pos < u.wp && At(pos, cap, i);
      assert From(v) <= pos < v.wp;
    }
  }

  /** The drain visits the positions in order, and its claim CAS cannot fail. */
  predicate DrainMove(st: State, u: Sub, v: Sub, acc: Access)
    requires Sized(st) && SubShape(st.cfg, u) && u.ring < st.cfg.maxSubs
  {
    var m := MetaAt(st, u.ring, u.at);
    && (u.pc.SDrainMeta? ==> acc.Load? && (if m.slot.None? then v == NextDrain(u) else v.pc.SDrainCas? && v.at == u.at && v.cur == m))
    && (u.pc.SDrainCas? ==> acc == Unclaim(u.ring, Idx(st.cfg, u.at)) && v.pc.SDrainDrop? && v.at == u.at)
    && (u.pc.SDrainDrop? ==> acc.PutRc? && ((v.pc.SDrainPush? && v.at == u.at) || v == NextDrain(u)))
    && (u.pc.SDrainPush? ==> acc.Push? && v == NextDrain(u))
    && (!InDrain(u) && (InDrain(v) || v.pc.SSetFree?) ==> u.pc.SDrainLoad?)
    && (u.pc.SDrainLoad? ==> acc.Load? && (InDrain(v) ==> v.pc.SDrainMeta? && v.at < v.wp))
    && v.ring == u.ring && (Owns(v) ==> v.start == u.start)
    && (InDrain(u) ==> v.wp == u.wp)
    && (!InDrain(u) ==> !acc.Unclaim? && !acc.Claim?)
  }

  lemma TeardownMoves(st: State, u: Sub)
    requires SubsShape(st) && MetaShape(st) && SubShape(st.cfg, u) && Leaving(u)
    requires u.pc.SDrainCas? ==> MetaAt(st, u.ring, u.at) == u.cur
    ensures DrainMove(st, u, SubTeardown(st, u).u, SubTeardown(st, u).acc)
  {
  }

  /** The tenancy as its own subscriber moves. */
  lemma TeardownAccounts(st: State, u: Sub)
    requires SubsShape(st) && MetaShape(st) && SubShape(st.cfg, u) && Leaving(u) && Tagged(st)
    requires AllAccounted(st, u) && (InDrain(u) ==> u.at < u.wp)
    requires u.pc.SDrainCas? ==> MetaAt(st, u.ring, u.at) == u.cur
    requires InRange(st.cfg, SubTeardown(st, u).acc)
    ensures Sized(Perform(st, SubTeardown(st, u).acc))
    ensures Owns(SubTeardown(st, u).u) ==> AllAccounted(Perform(st, SubTeardown(st, u).acc), SubTeardown(st, u).u)
  {
    var v, acc := SubTeardown(st, u).u, SubTeardown(st, u).acc;
    PerformFrames(st, acc);
    TeardownMoves(st, u);
    if u.pc.SDrainLoad? { DrainStarts(st, u); }
    hide SubTeardown;
    var st' := Perform(st, acc);
    if Owns(v) && !u.pc.SDrainLoad? {
      forall i | 0 <= i < st.cfg.cap ensures Accounted(v, st.cfg.cap, i, st'.ents.metas[u.ring][i]) {
        var m := st'.ents.metas[u.ring][i];
        assert Accounted(u, st.cfg.cap, i, st.ents.metas[u.ring][i]);
        if InDrain(u) {
          assert At(u.at, st.cfg.cap, i) <==> i == Idx(st.cfg, u.at);
          DrainGoesOn(u, v, st.cfg.cap, i, m);
        }
      }
    }
  }

  /** What a subscriber's own move means for its tenancy, outside the drain. */
  predicate TenancyMove(st: State, u: Sub, v: Sub, acc: Access)
    requires Sized(st) && SubShape(st.cfg, u)
  {
    && (v.pc.SClaimCas? ==> v.ring == u.ring < st.cfg.maxSubs && v.wp == st.rings.wpos[u.ring])
    && (Owns(v) && !Owns(u) ==>
          u.pc.SClaimCas? && v.start == u.wp && v.pc.SOwner? && st.rings.flight[u.ring] == 0)
    && (Owns(v) && Owns(u) ==> v.start == u.start && v.ring == u.ring)
    && (Owns(v) && !Leaving(u) ==> !InDrain(v) && !v.pc.SSetFree?)
    && (InDrain(v) && Owns(u) ==> (if InDrain(u) then v.wp == u.wp else v.wp == st.rings.wpos[u.ring]))
    && (acc.Unclaim? ==> Leaving(u) && acc.r == u.ring)
    && (acc.PutFree? ==> u.pc.SSetFree? && acc.r == u.ring)
    && (acc.PutState? ==> acc.x != Free)
    && !acc.Claim? && !acc.FetchPos?
  }

  lemma SubTenancyMove(st: State, a: nat, c: Choice)
    requires SubReady(st, a, c)
    ensures TenancyMove(st, st.subs[a], SubNext(st, a, c).u, SubNext(st, a, c).acc)
    ensures Leaving(st.subs[a]) ==> SubNext(st, a, c) == SubTeardown(st, st.subs[a])
  {
  }

  lemma OwnTenancy(st: State, a: nat, c: Choice)
    requires SubReady(st, a, c) && SubsShape(st) && MetaShape(st) && PubsShape(st)
    requires SubsShape(SubTo(st, a, c))
    requires Owned(st) && Counted(st) && QuietOk(st) && Tagged(st) && Tenancies(st)
    ensures TenancyOk(SubTo(st, a, c), a)
  {
    hide SubNext, SubTeardown;
    var u, v, acc, st' := st.subs[a], SubNext(st, a, c).u, SubNext(st, a, c).acc, SubTo(st, a, c);
    SubTenancyMove(st, a, c);
    SubOwnMove(st, a, c);
    assert TenancyOk(st, a);
    if Owns(v) && !Owns(u) {
      assert Clear(st, u.ring) || !st.rings.clean[u.ring];
      forall p | 0 <= p < |st.pubs| && HasPos(st.pubs[p]) && st.pubs[p].i == u.ring ensures false {
        SumMember(st.pubs, p, FlightF(u.ring));
      }
    } else if Owns(v) {
      if Leaving(u) {
        TeardownMoves(st, u);
        if st.rings.clean[u.ring] { TeardownAccounts(st, u); }
        assert st'.ents == Perform(st, acc).ents;
      }
      forall i | 0 <= i < st.cfg.cap && st'.rings.clean[u.ring]
        ensures Accounted(v, st.cfg.cap, i, st'.ents.metas[u.ring][i])
      {
        assert Accounted(u, st.cfg.cap, i, st.ents.metas[u.ring][i]);
      }
    }
  }

  lemma SubKeepsTenancies(st: State, a: nat, c: Choice)
    requires SubReady(st, a, c) && SubsShape(st) && MetaShape(st) && PubsShape(st)
    requires SubsShape(SubTo(st, a, c))
    requires Owned(st) && Counted(st) && QuietOk(st) && Tagged(st) && Tenancies(st)
    ensures Tenancies(SubTo(st, a, c))
  {
    hide SubNext;
    var u, v, acc, st' := st.subs[a], SubNext(st, a, c).u, SubNext(st, a, c).acc, SubTo(st, a, c);
    OwnTenancy(st, a, c);
    SubTenancyMove(st, a, c);
    SubOwnMove(st, a, c);
    assert TenancyOk(st, a);
    forall b | 0 <= b < |st'.subs| ensures TenancyOk(st', b) {
      assert TenancyOk(st, b);
      if b != a && LivingOwner(st', b) {
        assert LivingOwner(st, b) && OwnOk(st, b);
        var w := st.subs[b];
        assert acc.Unclaim? ==> acc.r != w.ring;
        forall i | 0 <= i < st.cfg.cap && st.rings.clean[w.ring]
          ensures Accounted(w, st.cfg.cap, i, st'.ents.metas[w.ring][i])
        {
          assert Accounted(w, st.cfg.cap, i, st.ents.metas[w.ring][i]);
        }
      }
    }
    forall r | 0 <= r < st.cfg.maxSubs && st'.rings.state[r] == Free && st'.rings.clean[r]
      ensures Clear(st', r)
    {
      if acc.PutFree? && acc.r == r {
        forall i | 0 <= i < st.cfg.cap ensures st'.ents.metas[r][i].slot.None? {
          assert Accounted(u, st.cfg.cap, i, st.ents.metas[r][i]);
        }
      } else {
        assert Clear(st, r);
      }
    }
  }

  lemma RestKeepsTenancies(st: State, st': State)
    requires SubsShape(st) && SubsShape(st') && Owned(st) && Tenancies(st)
    requires st'.cfg == st.cfg && st'.pubs == st.pubs && st'.subs == st.subs && st'.dead >= st.dead
    requires st'.ents.metas == st.ents.metas && st'.rings.wpos == st.rings.wpos
    requires forall r :: 0 <= r < st.cfg.maxSubs && st'.rings.clean[r] ==> st.rings.clean[r]
    requires forall r :: 0 <= r < st.cfg.maxSubs && st'.rings.clean[r] && st'.rings.state[r] == Free ==>
               st.rings.state[r] == Free
    ensures Tenancies(st')
  {
    forall b | 0 <= b < |st'.subs| ensures TenancyOk(st', b) {
      assert TenancyOk(st, b);
      if LivingOwner(st', b) {
        assert LivingOwner(st, b);
        var w := st.subs[b];
        forall i | 0 <= i < st.cfg.cap && st'.rings.clean[w.ring]
          ensures Accounted(w, st.cfg.cap, i, st'.ents.metas[w.ring][i])
        {
          assert Accounted(w, st.cfg.cap, i, st.ents.metas[w.ring][i]);
        }
      }
    }
    forall r | 0 <= r < st.cfg.maxSubs && st'.rings.state[r] == Free && st'.rings.clean[r]
      ensures Clear(st', r)
    {
      assert Clear(st, r);
    }
  }

  lemma RecRings(st: State, q: nat, c: Choice, r: nat)
    requires SubsShape(st) && Owned(st) && RecReady(st, q, c) && r < st.cfg.maxSubs && Sized(RecTo(st, q, c))
    ensures RecTo(st, q, c).rings.clean[r] ==> st.rings.clean[r]
    ensures RecTo(st, q, c).rings.clean[r] && RecTo(st, q, c).rings.state[r] == Free ==> st.rings.state[r] == Free
    ensures RecTo(st, q, c).rings.wpos == st.rings.wpos && RecTo(st, q, c).ents == st.ents
  {
  }

  lemma AccessKeepsTagged(st: State, acc: Access)
    requires Sized(st) && InRange(st.cfg, acc) && Tagged(st)
    requires acc.Claim? ==> ClaimWrite(st, acc)
    ensures Sized(Perform(st, acc)) && Tagged(Perform(st, acc))
  {
  }
}
