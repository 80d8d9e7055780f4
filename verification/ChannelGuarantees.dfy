/** What the channel promises, stated on runs. */
module ChannelGuarantees {
  import opened ChannelModel
  import opened ChannelShape
  import opened ChannelRefs
  import opened ChannelRings
  import opened ChannelLocks
  import opened ChannelViews
  import opened ChannelDrain
  import opened ChannelOrder
  import opened ChannelSafety
  import opened Sums

  // ----- references -----

  /**
  At every point of every run a slot's refcount is the number of entries claiming it, views
  pinning it, and references held by publishers and subscribers, crashed ones included.
  */
  lemma ReferencesConserved(states: seq<State>, steps: seq<Step>, k: nat, s: nat)
    requires Run(states, steps) && k <= |steps| && s < states[0].cfg.pool
    ensures Inv(states[k]) && states[k].cfg == states[0].cfg
    ensures states[k].pool.rc[s]
            == Claims(states[k], s) + Pins(states[k], s) + PubHeld(states[k], s) + SubHeld(states[k], s)
  {
    RunKeepsInv(states, steps, k);
    RunKeepsConfig(states, steps, k);
    assert SlotConserved(states[k], s);
  }

  lemma {:induction false} RunKeepsConfig(states: seq<State>, steps: seq<Step>, k: nat)
    requires Run(states, steps) && k <= |steps|
    ensures states[k].cfg == states[0].cfg
  {
    if k > 0 {
      RunKeepsConfig(states, steps, k - 1);
      KeepsShape(states[k - 1], steps[k - 1], states[k]);
    }
  }

  /** A slot has no reference exactly when it is in one, and only one, idle place. */
  lemma IdleInOnePlace(states: seq<State>, steps: seq<Step>, k: nat, s: nat)
    requires Run(states, steps) && k <= |steps| && s < states[0].cfg.pool
    ensures Inv(states[k]) && states[k].cfg == states[0].cfg
    ensures OnStack(states[k], s) + Pending(states[k], s) == (if states[k].pool.rc[s] == 0 then 1 else 0)
  {
    RunKeepsInv(states, steps, k);
    RunKeepsConfig(states, steps, k);
    assert SlotIdleOnce(states[k], s);
  }

  ghost predicate Unreferenced(st: State, s: nat)
    requires Sized(st) && s < st.cfg.pool
  {
    st.pool.rc[s] == 0 && Claims(st, s) == 0 && Others(st, s) == 0
  }

  lemma PubPushes(st: State, p: nat, c: Choice)
    requires PubReady(st, p, c) && PubNext(st, p, c).acc.Push?
    ensures PubIdle(st.pubs[p], PubNext(st, p, c).acc.s) == 1
  {
  }

  lemma SubPushesIdle(st: State, a: nat, c: Choice)
    requires SubReady(st, a, c) && SubNext(st, a, c).acc.Push?
    ensures SubIdle(st.subs[a], SubNext(st, a, c).acc.s) == 1
  {
  }

  lemma SubNeverPops(st: State, a: nat, c: Choice)
    requires SubReady(st, a, c)
    ensures !SubNext(st, a, c).acc.Pop?
  {
  }

  lemma PubPops(st: State, p: nat, c: Choice)
    requires PubReady(st, p, c) && PubNext(st, p, c).acc.Pop?
    ensures PubNext(st, p, c).acc.s in st.pool.free
  {
  }

  /** A slot is pushed only while off the stack and unreferenced: by one party, once. */
  lemma PushedOnce(st: State, step: Step, st': State, s: nat)
    requires Inv(st) && Next(st, step, st') && Acc(st, step) == Push(s)
    ensures s < st.cfg.pool && s !in st.pool.free && Unreferenced(st, s)
  {
    hide PubNext, SubNext, Owned, Counted, QuietOk, LocksOk, ClaimsOk, Tagged, Tenancies, Deliveries, InOrder;
    assert SlotConserved(st, s) && SlotIdleOnce(st, s);
    match step
    case PubStep(p, c) => PubPushes(st, p, c); PubShare(st, p, s);
    case SubStep(a, c) => SubPushesIdle(st, a, c); SubShare(st, a, s);
    case ViewStep(v) => ViewShare(st, v, s);
    case _ =>
  }

  /** A popped slot is unreferenced: nobody can reach what its publisher is about to write. */
  lemma PoppedUnreferenced(st: State, step: Step, st': State, s: nat)
    requires Inv(st) && Next(st, step, st') && Acc(st, step) == Pop(s)
    ensures s < st.cfg.pool && s in st.pool.free && Unreferenced(st, s)
  {
    hide PubNext, SubNext, Owned, Counted, QuietOk, LocksOk, ClaimsOk, Tagged, Tenancies, Deliveries, InOrder;
    assert SlotConserved(st, s) && SlotIdleOnce(st, s);
    match step
    case PubStep(p, c) => PubPops(st, p, c);
    case SubStep(a, c) => SubNeverPops(st, a, c);
    case _ =>
  }

  // ----- theft -----

  lemma SubWritesNoWord(st: State, a: nat, c: Choice)
    requires SubReady(st, a, c)
    ensures !SubNext(st, a, c).acc.PutWord? && !SubNext(st, a, c).acc.Claim?
  {
  }

  /** The committed value p + 1 replaces the lock of p, which was neither stolen nor committed before. */
  lemma CommittedOnce(st: State, step: Step, st': State, r: nat, i: nat, v: nat)
    requires Inv(st) && Next(st, step, st') && Acc(st, step) == PutWord(r, i, Plain(v))
    ensures r < st.cfg.maxSubs && i < st.cfg.cap && v > 0 && st.ents.seqs[r][i] == Lock(v - 1)
    ensures Place(r, v - 1) !in st.ents.committed && Place(r, v - 1) !in st.ents.stolen
  {
    hide PubNext, SubNext, Kept, Owned, Counted, QuietOk, ClaimsOk, Tagged, Tenancies, Deliveries, InOrder;
    match step
    case PubStep(p, c) =>
      PubLockMove(st, p, c);
      assert WordOk(st.ents, st.cfg.cap, r, i, st.ents.seqs[r][i]);
    case SubStep(a, c) => SubWritesNoWord(st, a, c);
    case _ =>
  }

  predicate GoesForward(m: Meta, m': Meta) { m' == m || m.tag < m'.tag || m' == m.(slot := None) }

  lemma AccessClaimsForward(st: State, acc: Access, r: nat, i: nat)
    requires Sized(st) && InRange(st.cfg, acc) && r < st.cfg.maxSubs && i < st.cfg.cap
    requires acc.Claim? ==> ClaimWrite(st, acc)
    ensures Sized(Perform(st, acc)) && GoesForward(st.ents.metas[r][i], Perform(st, acc).ents.metas[r][i])
  {
  }

  lemma StepClaimWrite(st: State, step: Step)
    requires Inv(st) && Enabled(st, step) && InRange(st.cfg, Acc(st, step))
    ensures Acc(st, step).Claim? ==> ClaimWrite(st, Acc(st, step))
  {
    hide PubNext, SubNext, Kept, Owned, Counted, QuietOk, Words, ClaimsOk, Tagged, Tenancies, Deliveries, InOrder;
    match step
    case PubStep(p, c) => PubLockMove(st, p, c); assert PosOk(st, st.pubs[p]);
    case SubStep(a, c) => SubWritesNoWord(st, a, c);
    case _ =>
  }

  /** A claim replaces only an older position's claim; nothing else happens to it but being drained. */
  lemma ClaimsGoForward(st: State, step: Step, st': State, r: nat, i: nat)
    requires Inv(st) && Next(st, step, st') && r < st.cfg.maxSubs && i < st.cfg.cap
    ensures Sized(st') && st'.cfg == st.cfg && GoesForward(st.ents.metas[r][i], st'.ents.metas[r][i])
  {
    KeepsShape(st, step, st');
    StepClaimWrite(st, step);
    MovedInShape(st, step);
    hide PubNext, SubNext, ViewNext, RepNext, RecNext, Perform, Inv;
    AccessClaimsForward(Moved(st, step), Acc(st, step), r, i);
  }

  lemma HistoryGrows(st: State, step: Step, st': State)
    requires Next(st, step, st')
    ensures st.ents.stolen <= st'.ents.stolen && st.ents.committed <= st'.ents.committed
  {
    hide PubNext, SubNext, ViewNext, RepNext, RecNext;
  }

  lemma {:induction false} HistoryLasts(states: seq<State>, steps: seq<Step>, j: nat, k: nat)
    requires Run(states, steps) && j <= k <= |steps|
    ensures states[j].ents.stolen <= states[k].ents.stolen && states[j].ents.committed <= states[k].ents.committed
  {
    if j < k {
      HistoryLasts(states, steps, j, k - 1);
      HistoryGrows(states[k - 1], steps[k - 1], states[k]);
    }
  }

  /** Once the lock of a position is stolen that position is never committed, however late its publisher resumes. */
  lemma StolenNeverCommitted(states: seq<State>, steps: seq<Step>, j: nat, k: nat, x: Place)
    requires Run(states, steps) && j <= |steps| && k <= |steps| && x in states[j].ents.stolen
    ensures x !in states[k].ents.committed
  {
    RunKeepsInv(states, steps, |steps|);
    HistoryLasts(states, steps, j, |steps|);
    HistoryLasts(states, steps, k, |steps|);
    assert Histories(states[|steps|]);
  }

  // ----- admission and teardown -----

  /** in_flight counts the admitted publishers, and a quiesced ring has none. */
  lemma AdmissionCounted(states: seq<State>, steps: seq<Step>, k: nat)
    requires Run(states, steps) && k <= |steps|
    ensures Inv(states[k])
    ensures forall r :: 0 <= r < states[k].cfg.maxSubs ==>
              states[k].rings.flight[r] == Sum(states[k].pubs, FlightF(r))
    ensures forall a: nat, p: nat :: LivingOwner(states[k], a) && Quiesced(states[k].subs[a]) && p < |states[k].pubs| ==>
              !(Admitted(states[k].pubs[p]) && states[k].pubs[p].i == states[k].subs[a].ring)
  {
    RunKeepsInv(states, steps, k);
    forall a: nat, p: nat | LivingOwner(states[k], a) && Quiesced(states[k].subs[a]) && p < |states[k].pubs|
      ensures !(Admitted(states[k].pubs[p]) && states[k].pubs[p].i == states[k].subs[a].ring)
    {
      QuiescedMeansNoPublisher(states[k], a, p);
    }
  }

  /** A Free ring whose tenancies all ended quiesced holds no slot claim. */
  lemma QuiescedRingsLeakNothing(states: seq<State>, steps: seq<Step>, k: nat, r: nat)
    requires Run(states, steps) && k <= |steps|
    ensures Inv(states[k])
    ensures r < states[k].cfg.maxSubs && states[k].rings.state[r] == Free && states[k].rings.clean[r] ==>
              Clear(states[k], r)
  {
    RunKeepsInv(states, steps, k);
  }

  // ----- views -----

  /**
  (H) An unreleased view of position Q pins the slot and length the publisher of Q committed;
  the slot is referenced, off the free stack, in no publisher's hands, and still holds that
  publication's payload.
  */
  lemma ViewIntegrity(states: seq<State>, steps: seq<Step>, k: nat, v: nat)
    requires Run(states, steps) && k <= |steps| && RunForward(states, steps, k)
    requires v < |states[k].views| && states[k].views[v].pc.VHeld?
    ensures InvH(states[k])
    ensures var st, w := states[k], states[k].views[v];
            var x := Place(w.ring, w.pos);
      && x in st.ents.committed && x in st.ents.log
      && st.ents.log[x].slot == w.slot && st.ents.log[x].len == w.len
      && st.pool.len[w.slot] == w.len && st.pool.data[w.slot] == st.ents.log[x].data
      && st.pool.rc[w.slot] > 0 && w.slot !in st.pool.free
      && forall p :: 0 <= p < |st.pubs| ==> PubIdle(st.pubs[p], w.slot) == 0
  {
    RunKeepsInvH(states, steps, k);
    var st, w := states[k], states[k].views[v];
    assert ViewOk(st, w);
    ViewPins(st, v);
    forall p | 0 <= p < |st.pubs| ensures PubIdle(st.pubs[p], w.slot) == 0 { PubShare(st, p, w.slot); }
    assert SlotIdleOnce(st, w.slot);
  }

  /** Positions advanced are views delivered plus positions lost. */
  lemma EveryPositionAccounted(states: seq<State>, steps: seq<Step>, k: nat, a: nat)
    requires Run(states, steps) && k <= |steps| && a < |states[k].subs| && !Unattached(states[k].subs[a])
    ensures states[k].subs[a].read - states[k].subs[a].first == Delivered(states[k], a) + states[k].subs[a].lost
  {
    RunKeepsInv(states, steps, k);
    assert CountOk(states[k].subs[a], Delivered(states[k], a));
  }

  /**
  (H) Of two samples delivered to one subscriber the later has the larger position, and two
  from one publisher come out in the order they were published.
  */
  lemma DeliveredInOrder(states: seq<State>, steps: seq<Step>, k: nat, v: nat, w: nat)
    requires Run(states, steps) && k <= |steps| && RunForward(states, steps, k)
    requires v < w < |states[k].views| && states[k].views[v].sub == states[k].views[w].sub
    ensures var st := states[k];
            var x, y := Place(st.views[v].ring, st.views[v].pos), Place(st.views[w].ring, st.views[w].pos);
      && x.ring == y.ring && x.pos < y.pos && x in st.ents.log && y in st.ents.log
      && (st.ents.log[x].pub == st.ents.log[y].pub ==> st.ents.log[x].n < st.ents.log[y].n)
  {
    RunKeepsInvH(states, steps, k);
    var st := states[k];
    assert ViewOk(st, st.views[v]) && ViewOk(st, st.views[w]);
    assert Behind(st.views[v], st.subs[st.views[v].sub]) && Behind(st.views[w], st.subs[st.views[w].sub]);
    var x, y := Place(st.views[v].ring, st.views[v].pos), Place(st.views[w].ring, st.views[w].pos);
    assert st.ents.log[x].pub == st.ents.log[y].pub ==> Earlier(st.ents, x, y);
  }

  /** A receive that ends with neither a sample nor a loss met an empty or an uncommitted head. */
  lemma NullMeansEmptyHead(states: seq<State>, steps: seq<Step>, k: nat, a: nat, c: Choice)
    requires Run(states, steps) && k < |steps| && steps[k] == SubStep(a, c) && a < |states[k].subs|
    requires SubReady(states[k], a, c) && Retrying(states[k].subs[a])
    requires var mv := SubNext(states[k], a, c);
             mv.u.pc.SReady? && mv.acc.Load? && mv.u.lost == states[k].subs[a].callLost
    ensures var st, u := states[k], states[k].subs[a];
      || st.rings.wpos[u.ring] <= u.read
      || WordAt(st, u.ring, u.read).Locked()
      || WordAt(st, u.ring, u.read).Pos() < u.read + 1
  {
    RunKeepsInv(states, steps, k);
    assert CountOk(states[k].subs[a], Delivered(states[k], a));
    hide SubNext, Inv, Run;
    NullMeansBlocked(states[k], a, c);
  }
}
