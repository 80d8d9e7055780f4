/**
Ring admission and teardown: a ring has at most one living owner, its in-flight count is the
number of admitted publishers, and a ring whose tenancies all ended quiesced holds no claim
when it is Free.
*/
module ChannelRings {
  import opened ChannelModel
  import opened ChannelShape
  import opened Sums

  // ----- ownership -----

  predicate Leaving(u: Sub) { Owns(u) && !Receiving(u) && !u.pc.SOwner? && !u.pc.SFloor? }

  /** The subscriber has seen Draining with in_flight == 0. */
  predicate Quiesced(u: Sub) {
    u.pc.SClearQuiesced? || u.pc.SDrainLoad? || InDrain(u) || u.pc.SSetFree?
  }

  predicate Recorded(u: Sub) {
    u.pc.SFloor? || Receiving(u) || u.pc.SQuiesce? || u.pc.SClearQuiesced? || u.pc.SClearTimeout?
  }

  predicate LivingOwner(st: State, a: nat) {
    a < |st.subs| && a !in st.dead && Owns(st.subs[a])
  }

  predicate OwnOk(st: State, a: nat)
    requires Sized(st) && a < |st.subs| && SubShape(st.cfg, st.subs[a])
  {
    var u := st.subs[a];
    LivingOwner(st, a) ==>
      && st.rings.state[u.ring] == (if Leaving(u) then RState.Draining else Live)
      && st.rings.owner[u.ring] == (if Recorded(u) then Some(a) else None)
  }

  predicate RecOk(st: State)
    requires Sized(st) && RecShape(st.cfg, st.rec)
  {
    match st.rec
    case CIdle => true
    case CSeen(q, was) => OwnerDead(st, q) && st.rings.state[q] != Free && was != Free
    case CHeld(q, was) => OwnerDead(st, q) && st.rings.state[q] == Reclaiming
    case CClear(q) => OwnerDead(st, q) && st.rings.state[q] == Reclaiming
    case CFree(q) => st.rings.owner[q] == None && st.rings.state[q] == Reclaiming
    case CRestore(_, _) => false
  }

  ghost predicate SubsShape(st: State) {
    && Sized(st)
    && (forall a :: 0 <= a < |st.subs| ==> SubShape(st.cfg, st.subs[a]))
    && RecShape(st.cfg, st.rec)
  }

  ghost predicate Owned(st: State)
    requires SubsShape(st)
  {
    && (forall a :: 0 <= a < |st.subs| ==> OwnOk(st, a))
    && (forall a: nat, b: nat :: LivingOwner(st, a) && LivingOwner(st, b) && a != b ==>
          st.subs[a].ring != st.subs[b].ring)
    && (forall r :: 0 <= r < st.cfg.maxSubs && st.rings.state[r] == Free ==> st.rings.owner[r] == None)
    && RecOk(st)
  }

  predicate TouchesRing(acc: Access) { acc.PutState? || acc.PutOwner? || acc.PutFree? || acc.Strand? }

  /** A subscriber writes ring words only of the ring it owns, or of the Free ring it claims. */
  predicate OwnMove(st: State, a: nat, u: Sub, v: Sub, acc: Access)
    requires Sized(st) && SubShape(st.cfg, u)
  {
    && (Owns(u) && Owns(v) ==>
          && v.ring == u.ring
          && (Leaving(v) && !Leaving(u) ==> acc == PutState(u.ring, RState.Draining))
          && (Leaving(u) ==> Leaving(v))
          && (Recorded(v) && !Recorded(u) ==> acc == PutOwner(u.ring, Some(a)))
          && (Recorded(u) && !Recorded(v) ==> acc == PutOwner(u.ring, None)))
    && (!Owns(u) && Owns(v) ==>
          && u.ring < st.cfg.maxSubs && v.ring == u.ring && !Leaving(v) && !Recorded(v)
          && st.rings.state[u.ring] == Free && acc == PutState(u.ring, Live))
    && (!Owns(v) && Owns(u) ==> !Recorded(u) && (acc == PutFree(u.ring) || acc == Strand(u.ring)))
    && (acc.PutState? && Owns(u) ==> Leaving(v) && !Leaving(u))
    && (acc.PutOwner? ==> Owns(u) && Recorded(u) != Recorded(v))
    && (TouchesRing(acc) && !Owns(u) ==> Owns(v))
    && (acc.PutFree? || acc.Strand? ==> Owns(u) && !Owns(v))
  }

  lemma SubOwnMove(st: State, a: nat, c: Choice)
    requires SubReady(st, a, c)
    ensures OwnMove(st, a, st.subs[a], SubNext(st, a, c).u, SubNext(st, a, c).acc)
  {
  }

  lemma OwnMoveKeeps(st: State, a: nat, v: Sub, acc: Access, st': State)
    requires SubsShape(st) && Owned(st) && SubsShape(st') && a < |st.subs| && a !in st.dead
    requires InRange(st.cfg, acc) && OwnMove(st, a, st.subs[a], v, acc)
    requires st' == Perform(st.(subs := st.subs[a := v]), acc)
    ensures Owned(st')
  {
    var u := st.subs[a];
    assert OwnOk(st, a);
    forall b | 0 <= b < |st'.subs| ensures OwnOk(st', b) { assert OwnOk(st, b); }
    forall b: nat, d: nat | LivingOwner(st', b) && LivingOwner(st', d) && b != d
      ensures st'.subs[b].ring != st'.subs[d].ring
    {
      assert b != a ==> LivingOwner(st, b) && OwnOk(st, b);
      assert d != a ==> LivingOwner(st, d) && OwnOk(st, d);
    }
  }

  lemma SubKeepsOwned(st: State, a: nat, c: Choice)
    requires SubsShape(st) && SubReady(st, a, c) && Owned(st) && SubsShape(SubTo(st, a, c))
    ensures Owned(SubTo(st, a, c))
  {
    hide SubNext;
    SubOwnMove(st, a, c);
    OwnMoveKeeps(st, a, SubNext(st, a, c).u, SubNext(st, a, c).acc, SubTo(st, a, c));
  }

  lemma RecKeepsOwned(st: State, q: nat, c: Choice)
    requires SubsShape(st) && RecReady(st, q, c) && Owned(st) && SubsShape(RecTo(st, q, c))
    ensures Owned(RecTo(st, q, c))
  {
    var st' := RecTo(st, q, c);
    forall b | 0 <= b < |st'.subs| ensures OwnOk(st', b) { assert OwnOk(st, b); }
  }

  lemma CrashKeepsOwned(st: State, a: nat)
    requires SubsShape(st) && Owned(st)
    ensures Owned(st.(dead := st.dead + {a}))
  {
    var st' := st.(dead := st.dead + {a});
    forall b | 0 <= b < |st'.subs| ensures OwnOk(st', b) { assert OwnOk(st, b); }
  }

  /** Steps that touch neither ring states, ring owners nor subscribers. */
  lemma UnaffectedOwned(st: State, st': State)
    requires SubsShape(st) && Owned(st) && SubsShape(st') && st'.cfg == st.cfg
    requires st'.rings.state == st.rings.state && st'.rings.owner == st.rings.owner
    requires st'.subs == st.subs && st'.rec == st.rec && st'.dead == st.dead
    ensures Owned(st')
  {
    forall b | 0 <= b < |st'.subs| ensures OwnOk(st', b) { assert OwnOk(st, b); }
  }

  // ----- the in-flight count -----

  function FlightOf(u: Pub, r: nat): nat { if Admitted(u) && u.i == r then 1 else 0 }
  function FlightF(r: nat): Pub -> nat { u => FlightOf(u, r) }

  /** in_flight is the number of publishers between admission and its release. */
  ghost predicate Counted(st: State)
    requires Sized(st)
  {
    forall r :: 0 <= r < st.cfg.maxSubs ==> st.rings.flight[r] == Sum(st.pubs, FlightF(r))
  }

  ghost predicate QuietOk(st: State)
    requires SubsShape(st)
  {
    && (forall a: nat :: LivingOwner(st, a) && Quiesced(st.subs[a]) ==> st.rings.flight[st.subs[a].ring] == 0)
    && (forall r :: 0 <= r < st.cfg.maxSubs && st.rings.state[r] == Free && st.rings.clean[r] ==>
          st.rings.flight[r] == 0)
  }

  function FlightAfter(st: State, acc: Access, r: nat): nat
    requires Sized(st) && r < st.cfg.maxSubs
  {
    if acc.PutFlight? && acc.r == r then acc.n else st.rings.flight[r]
  }

  lemma PubFlight(st: State, p: nat, c: Choice, r: nat)
    requires PubReady(st, p, c) && r < st.cfg.maxSubs
    requires FlightOf(st.pubs[p], r) <= st.rings.flight[r]
    ensures FlightAfter(st, PubNext(st, p, c).acc, r) + FlightOf(st.pubs[p], r)
            == st.rings.flight[r] + FlightOf(PubNext(st, p, c).u, r)
    ensures FlightAfter(st, PubNext(st, p, c).acc, r) > st.rings.flight[r] ==> st.rings.state[r] == Live
  {
  }

  lemma PubKinds(st: State, p: nat, c: Choice)
    requires PubReady(st, p, c)
    ensures !TouchesRing(PubNext(st, p, c).acc)
    ensures !PubNext(st, p, c).acc.Unclaim? && !PubNext(st, p, c).acc.NewView?
  {
  }

  lemma PubKeepsCounted(st: State, p: nat, c: Choice)
    requires PubReady(st, p, c) && Counted(st) && SubsShape(st) && Owned(st) && QuietOk(st)
    requires SubsShape(PubTo(st, p, c))
    ensures Counted(PubTo(st, p, c)) && QuietOk(PubTo(st, p, c))
  {
    hide PubNext, FlightOf;
    PubKinds(st, p, c);
    var mv := PubNext(st, p, c);
    var mid := st.(pubs := st.pubs[p := mv.u]);
    PerformFrames(mid, mv.acc);
    var st' := PubTo(st, p, c);
    forall r | 0 <= r < st.cfg.maxSubs
      ensures st'.rings.flight[r] == Sum(st'.pubs, FlightF(r))
      ensures st'.rings.flight[r] > st.rings.flight[r] ==> st.rings.state[r] == Live
    {
      SumMember(st.pubs, p, FlightF(r));
      PubFlight(st, p, c, r);
      SumUpdate(st.pubs, p, mv.u, FlightF(r));
    }
    forall a: nat | LivingOwner(st', a) && Quiesced(st'.subs[a])
      ensures st'.rings.flight[st'.subs[a].ring] == 0
    {
      assert LivingOwner(st, a) && OwnOk(st, a);
    }
  }

  /** What a subscriber's move does to the counters: nothing, or (Free, 0) on its quiesced ring. */
  predicate CountMove(st: State, u: Sub, v: Sub, acc: Access)
    requires Sized(st) && SubShape(st.cfg, u)
  {
    && !acc.PutFlight? && !acc.FetchPos? && !acc.Claim? && !acc.PutWord?
    && (acc.PutFree? ==> u.pc.SSetFree?)
    && (u.pc.SSetFree? ==> acc == PutFree(u.ring))
    && (acc.Strand? ==> acc.r == u.ring)
    && (Quiesced(v) ==> v.ring == u.ring < st.cfg.maxSubs && (Quiesced(u) || st.rings.flight[u.ring] == 0))
    && (!Owns(u) && Owns(v) ==> u.ring < st.cfg.maxSubs && st.rings.flight[u.ring] == 0)
  }

  lemma SubCountMove(st: State, a: nat, c: Choice)
    requires SubReady(st, a, c)
    ensures CountMove(st, st.subs[a], SubNext(st, a, c).u, SubNext(st, a, c).acc)
  {
  }

  lemma SubKeepsCounted(st: State, a: nat, c: Choice)
    requires SubReady(st, a, c) && SubsShape(st) && Owned(st) && Counted(st) && QuietOk(st)
    requires SubsShape(SubTo(st, a, c)) && Owned(SubTo(st, a, c))
    ensures Counted(SubTo(st, a, c)) && QuietOk(SubTo(st, a, c))
  {
    hide SubNext;
    SubCountMove(st, a, c);
    SubOwnMove(st, a, c);
    var u, v, acc, st' := st.subs[a], SubNext(st, a, c).u, SubNext(st, a, c).acc, SubTo(st, a, c);
    assert LivingOwner(st, a) && Quiesced(u) ==> st.rings.flight[u.ring] == 0;
    assert OwnOk(st, a);
    forall b: nat | LivingOwner(st', b) && Quiesced(st'.subs[b])
      ensures st'.rings.flight[st'.subs[b].ring] == 0
    {
      if b != a { assert LivingOwner(st, b) && OwnOk(st, b); }
    }
  }

  lemma RecKeepsCounted(st: State, q: nat, c: Choice)
    requires RecReady(st, q, c) && SubsShape(st) && Owned(st) && Counted(st) && QuietOk(st)
    requires SubsShape(RecTo(st, q, c))
    ensures Counted(RecTo(st, q, c)) && QuietOk(RecTo(st, q, c))
  {
    var st' := RecTo(st, q, c);
    assert st'.rings.flight == st.rings.flight && st'.pubs == st.pubs;
    forall b: nat | LivingOwner(st', b) && Quiesced(st'.subs[b])
      ensures st'.rings.flight[st'.subs[b].ring] == 0
    {
      assert LivingOwner(st, b);
    }
  }

  /** A quiesced subscriber's ring has no admitted publisher. */
  lemma QuiescedMeansNoPublisher(st: State, a: nat, p: nat)
    requires SubsShape(st) && Counted(st) && QuietOk(st)
    requires LivingOwner(st, a) && Quiesced(st.subs[a]) && p < |st.pubs|
    ensures !(Admitted(st.pubs[p]) && st.pubs[p].i == st.subs[a].ring)
  {
    SumMember(st.pubs, p, FlightF(st.subs[a].ring));
  }
}
