/**
Message accounting and order: positions advanced = views delivered + lost, a subscriber's
delivered positions strictly increase, and on one ring a publisher's positions increase with
its publications.
*/
module ChannelOrder {
  import opened ChannelModel
  import opened ChannelShape
  import opened ChannelLocks
  import opened Sums

  // ----- accounting -----

  predicate Retrying(u: Sub) {
    u.pc.SRx? || u.pc.SSeq? || u.pc.SMeta? || u.pc.SPin? || u.pc.SCheck? || u.pc.SLen? || u.pc.SUnpin? || u.pc.SPush?
  }

  predicate Unattached(u: Sub) {
    u.pc.SDetached? || u.pc.SClaimLoad? || u.pc.SClaimCas? || u.pc.SOwner? || u.pc.SFloor?
  }

  function FromSub(v: View, a: nat): nat { if v.sub == a then 1 else 0 }
  function FromSubF(a: nat): View -> nat { v => FromSub(v, a) }

  /** Views ever delivered to subscriber a. */
  ghost function Delivered(st: State, a: nat): nat { Sum(st.views, FromSubF(a)) }

  predicate CountOk(u: Sub, delivered: nat) {
    && (Unattached(u) ==> delivered == 0)
    && (!Unattached(u) ==> u.got == delivered && u.read == u.first + u.lost + delivered)
    && (Retrying(u) ==> u.lost >= u.callLost + u.tries && (!u.pc.SRx? ==> u.tries < RECEIVE_ATTEMPTS))
  }

  predicate Behind(v: View, u: Sub) { !Unattached(u) && v.ring == u.ring && v.pos < u.read }

  ghost predicate Deliveries(st: State) {
    && (forall a :: 0 <= a < |st.subs| ==> CountOk(st.subs[a], Delivered(st, a)))
    && (forall v :: 0 <= v < |st.views| ==> st.views[v].sub < |st.subs| && Behind(st.views[v], st.subs[st.views[v].sub]))
    && (forall v, w :: 0 <= v < w < |st.views| && st.views[v].sub == st.views[w].sub ==>
          st.views[v].pos < st.views[w].pos)
  }

  /** A subscriber's move as its counters see it. */
  predicate CounterMove(st: State, a: nat, u: Sub, v: Sub, acc: Access) {
    && (Unattached(v) ==> Unattached(u))
    && (!Unattached(u) ==> v.ring == u.ring && v.read >= u.read)
    && (acc.NewView? ==>
          !Unattached(u) && acc.v.sub == a && acc.v.ring == u.ring && acc.v.pos == u.read && v.read == u.read + 1)
  }

  lemma SubCounterMove(st: State, a: nat, c: Choice)
    requires SubReady(st, a, c)
    ensures CounterMove(st, a, st.subs[a], SubNext(st, a, c).u, SubNext(st, a, c).acc)
  {
  }

  lemma AttachCounts(st: State, a: nat, u: Sub, c: Choice, delivered: nat)
    requires Sized(st) && SubShape(st.cfg, u) && SubEnabled(st, u, c) && Attaching(u) && CountOk(u, delivered)
    ensures CountOk(SubAttach(st, a, u, c).u, delivered) && !SubAttach(st, a, u, c).acc.NewView?
  {
  }

  lemma ReceiveCounts(st: State, a: nat, u: Sub, c: Choice, delivered: nat)
    requires Sized(st) && SubShape(st.cfg, u) && SubEnabled(st, u, c) && Receiving(u) && CountOk(u, delivered)
    ensures CountOk(SubReceive(st, a, u, c).u, delivered + (if SubReceive(st, a, u, c).acc.NewView? then 1 else 0))
  {
  }

  lemma TeardownCounts(st: State, u: Sub, delivered: nat)
    requires Sized(st) && SubShape(st.cfg, u) && !Attaching(u) && !Receiving(u) && Owns(u) && CountOk(u, delivered)
    ensures CountOk(SubTeardown(st, u).u, delivered) && !SubTeardown(st, u).acc.NewView?
  {
  }

  lemma SubCounts(st: State, a: nat, c: Choice, delivered: nat)
    requires SubReady(st, a, c) && CountOk(st.subs[a], delivered)
    ensures CountOk(SubNext(st, a, c).u, delivered + (if SubNext(st, a, c).acc.NewView? then 1 else 0))
  {
    var u := st.subs[a];
    hide SubAttach, SubReceive, SubTeardown, CountOk;
    if Attaching(u) {
      AttachCounts(st, a, u, c, delivered);
    } else if Receiving(u) {
      ReceiveCounts(st, a, u, c, delivered);
    } else {
      TeardownCounts(st, u, delivered);
    }
  }

  lemma SubKeepsDeliveries(st: State, a: nat, c: Choice)
    requires SubReady(st, a, c) && Deliveries(st)
    ensures Deliveries(SubTo(st, a, c))
  {
    hide SubNext;
    var u, v, acc, st' := st.subs[a], SubNext(st, a, c).u, SubNext(st, a, c).acc, SubTo(st, a, c);
    SubCounterMove(st, a, c);
    SubCounts(st, a, c, Delivered(st, a));
    forall b | 0 <= b < |st'.subs| ensures CountOk(st'.subs[b], Delivered(st', b)) {
      if acc.NewView? { SumAppend(st.views, acc.v, FromSubF(b)); }
    }
    forall w | 0 <= w < |st'.views|
      ensures st'.views[w].sub < |st'.subs| && Behind(st'.views[w], st'.subs[st'.views[w].sub])
    {
      if w < |st.views| { assert Behind(st.views[w], st.subs[st.views[w].sub]); }
    }
    forall w, x | 0 <= w < x < |st'.views| && st'.views[w].sub == st'.views[x].sub
      ensures st'.views[w].pos < st'.views[x].pos
    {
      if x == |st.views| { assert Behind(st.views[w], st.subs[st.views[w].sub]); }
    }
  }

  /** Releasing views changes nothing that was delivered. */
  lemma ReleaseKeepsDeliveries(st: State, v: nat, w: View, st': State)
    requires v < |st.views| && Deliveries(st) && w == st.views[v].(pc := w.pc)
    requires st'.subs == st.subs && st'.views == st.views[v := w]
    ensures Deliveries(st')
  {
    forall a | 0 <= a < |st'.subs| ensures CountOk(st'.subs[a], Delivered(st', a)) {
      SumUpdate(st.views, v, w, FromSubF(a));
    }
    forall x | 0 <= x < |st'.views|
      ensures st'.views[x].sub < |st'.subs| && Behind(st'.views[x], st'.subs[st'.views[x].sub])
    {
      assert Behind(st.views[x], st.subs[st.views[x].sub]);
    }
  }

  /** A receive that returns nothing and counts nothing lost found an empty or uncommitted head. */
  lemma NullMeansBlocked(st: State, a: nat, c: Choice)
    requires SubReady(st, a, c) && CountOk(st.subs[a], Delivered(st, a)) && Retrying(st.subs[a])
    requires SubNext(st, a, c).u.pc.SReady? && SubNext(st, a, c).acc.Load?
    requires SubNext(st, a, c).u.lost == st.subs[a].callLost
    ensures var u := st.subs[a];
            || st.rings.wpos[u.ring] <= u.read
            || WordAt(st, u.ring, u.read).Locked()
            || WordAt(st, u.ring, u.read).Pos() < u.read + 1
  {
  }

  // ----- publish order -----

  predicate LoggedOk(st: State, x: Place, y: Sample) {
    && y.pub < |st.pubs|
    && var u := st.pubs[y.pub];
       && y.n <= u.n
       && (InLoop(u) && y.n == u.n ==> x.ring < u.i || (x.ring == u.i && HasPos(u) && x.pos == u.pos && Taken(u)))
       && (HasPos(u) && !Taken(u) && x.ring == u.i ==> x.pos < u.pos)
  }

  /** Two positions of one ring claimed by one publisher. */
  predicate Earlier(e: Ents, x: Place, y: Place)
    requires x in e.log && y in e.log
  {
    x.ring == y.ring && x.pos < y.pos && e.log[x].pub == e.log[y].pub
  }

  ghost predicate InOrder(st: State) {
    && (forall x :: x in st.ents.log ==> LoggedOk(st, x, st.ents.log[x]))
    && (forall x, y :: x in st.ents.log && y in st.ents.log && Earlier(st.ents, x, y) ==>
          st.ents.log[x].n < st.ents.log[y].n)
  }

  predicate OrderMove(st: State, p: nat, u: Pub, v: Pub, acc: Access)
    requires Sized(st) && PubShape(st.cfg, u)
  {
    && v.n >= u.n
    && (InLoop(v) && !InLoop(u) ==> v.n > u.n)
    && (InLoop(v) && InLoop(u) ==> v.n == u.n && (v.i == u.i || (v.i == u.i + 1 && !HasPos(v))))
    && (HasPos(v) && !HasPos(u) ==> u.pc.PClaim? && v.i == u.i && v.pos == st.rings.wpos[u.i] && !Taken(v))
    && (HasPos(v) && HasPos(u) ==> v.i == u.i && v.pos == u.pos && (Taken(v) <==> Taken(u) || acc.Claim?))
    && (v.i == u.i && InLoop(v) && HasPos(u) ==> HasPos(v))
    && (acc.Claim? ==>
          && HasPos(u) && !Taken(u) && HasPos(v) && Taken(v) && acc.r == u.i && acc.pos == u.pos
          && acc.sample.pub == p && acc.sample.n == u.n)
  }

  lemma PubOrderMove(st: State, p: nat, c: Choice)
    requires PubReady(st, p, c)
    ensures OrderMove(st, p, st.pubs[p], PubNext(st, p, c).u, PubNext(st, p, c).acc)
  {
  }

  /** The log after an access. */
  function LogAfter(e: Ents, acc: Access): map<Place, Sample> {
    if acc.Claim? then e.log[Place(acc.r, acc.pos) := acc.sample] else e.log
  }

  lemma AccessLogs(e: Ents, acc: Access)
    requires |e.seqs| == |e.metas|
    requires acc.PutWord? ==> acc.r < |e.seqs| && acc.i < |e.seqs[acc.r]|
    requires acc.Claim? || acc.Unclaim? ==> acc.r < |e.metas| && acc.i < |e.metas[acc.r]|
    ensures AccessEnts(e, acc).log == LogAfter(e, acc)
  {
  }

  lemma OrderKept(st: State, p: nat, v: Pub, acc: Access, st': State)
    requires Sized(st) && p < |st.pubs| && PubShape(st.cfg, st.pubs[p]) && OrderMove(st, p, st.pubs[p], v, acc)
    requires st'.pubs == st.pubs[p := v] && st'.ents.log == LogAfter(st.ents, acc)
    requires InOrder(st) && Histories(st)
    ensures InOrder(st')
  {
    forall x | x in st'.ents.log ensures LoggedOk(st', x, st'.ents.log[x]) {
      if x in st.ents.log { assert LoggedOk(st, x, st.ents.log[x]) && HandedOut(st, x); }
    }
    forall x, y | x in st'.ents.log && y in st'.ents.log && Earlier(st'.ents, x, y)
      ensures st'.ents.log[x].n < st'.ents.log[y].n
    {
      assert x in st.ents.log ==> LoggedOk(st, x, st.ents.log[x]);
      assert y in st.ents.log ==> LoggedOk(st, y, st.ents.log[y]);
    }
  }

  lemma PubKeepsOrder(st: State, p: nat, c: Choice)
    requires PubReady(st, p, c) && PubsShape(st) && Histories(st) && InOrder(st)
    ensures InOrder(PubTo(st, p, c))
  {
    hide PubNext, PubTo, AccessPool, AccessRings, AccessEnts, InOrder, Histories;
    PubOrderMove(st, p, c);
    PubParts(st, p, c);
    AccessLogs(st.ents, PubNext(st, p, c).acc);
    OrderKept(st, p, PubNext(st, p, c).u, PubNext(st, p, c).acc, PubTo(st, p, c));
  }
}
