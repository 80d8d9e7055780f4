/** The channel's guarantees over whole runs. */
module ChannelSafety {
  import opened ChannelModel
  import opened ChannelShape
  import opened ChannelRefs
  import opened ChannelRings
  import opened ChannelLocks
  import opened ChannelViews
  import opened ChannelDrain
  import opened ChannelOrder
  import opened Sums

  ghost predicate Rest(st: State)
    requires ShapeParts(st)
  {
    ClaimsOk(st) && Tagged(st) && Tenancies(st) && Deliveries(st) && InOrder(st)
  }

  /** Kept by every step of every participant, thieves of any kind included. */
  ghost predicate Inv(st: State) {
    Shape(st) && ShapeParts(st) && Sound(st) && Rest(st)
  }

  /** (H) for a step. */
  ghost predicate Forward(st: State, step: Step)
    requires Shape(st) && Enabled(st, step) && InRange(st.cfg, Acc(st, step))
  {
    ForwardAcc(st, Acc(st, step))
  }

  predicate SameContent(st: State, st': State) {
    st'.pool.len == st.pool.len && st'.pool.data == st.pool.data
  }

  /** The parts of Rest depend only on these components. */
  lemma RestAlike(st: State, st': State)
    requires ShapeParts(st) && ShapeParts(st') && st'.cfg == st.cfg
    ensures ClaimsOk(st) && st'.ents.metas == st.ents.metas && st'.ents.log == st.ents.log && SameContent(st, st') ==>
              ClaimsOk(st')
    ensures Tagged(st) && st'.ents.metas == st.ents.metas && st'.rings.wpos == st.rings.wpos ==> Tagged(st')
    ensures Deliveries(st) && st'.subs == st.subs && st'.views == st.views ==> Deliveries(st')
    ensures InOrder(st) && st'.ents.log == st.ents.log && st'.pubs == st.pubs ==> InOrder(st')
  {
  }

  // ----- what each kind of step leaves alone -----

  lemma PubFrame(st: State, p: nat, c: Choice)
    requires PubReady(st, p, c)
    ensures var acc, st' := PubNext(st, p, c).acc, PubTo(st, p, c);
      && st'.ents == Perform(st, acc).ents && st'.pool == Perform(st, acc).pool && st'.cfg == st.cfg
      && st'.rings == Perform(st, acc).rings
      && st'.rings.state == st.rings.state && st'.rings.owner == st.rings.owner
      && st'.subs == st.subs && st'.views == st.views && st'.rec == st.rec && st'.dead == st.dead
  {
    PubKinds(st, p, c);
    hide PubNext;
  }

  lemma SubFrame(st: State, a: nat, c: Choice)
    requires SubReady(st, a, c)
    ensures var acc, st' := SubNext(st, a, c).acc, SubTo(st, a, c);
      && st'.ents == Perform(st, acc).ents && st'.pool == Perform(st, acc).pool && st'.cfg == st.cfg
      && st'.rings == Perform(st, acc).rings && st'.rings.wpos == st.rings.wpos
      && st'.pubs == st.pubs && st'.rec == st.rec && st'.dead == st.dead
      && Careful(st, acc) && !acc.PutWord? && !acc.Claim? && st'.ents == st.ents.(metas := st'.ents.metas)
  {
    SubReadMove(st, a, c);
    SubTenancyMove(st, a, c);
    hide SubNext;
  }

  lemma ViewFrame(st: State, v: nat)
    requires ViewReady(st, v)
    ensures var u, acc, st' := ViewNext(st, v).u, ViewNext(st, v).acc, ViewTo(st, v);
      && u == st.views[v].(pc := u.pc) && st'.views == st.views[v := u]
      && (u.pc.VHeld? ==> st.views[v].pc.VHeld?)
      && (acc.PutRc? || acc.Push? || acc.Load?)
      && st'.ents == st.ents == Perform(st, acc).ents && st'.rings == st.rings && st'.cfg == st.cfg
      && st'.pool == Perform(st, acc).pool
      && st'.pool.len == st.pool.len && st'.pool.data == st.pool.data
      && st'.pubs == st.pubs && st'.subs == st.subs && st'.rec == st.rec && st'.dead == st.dead
  {
  }

  lemma RepFrame(st: State, k: nat, r: nat, pos: nat)
    requires RepReady(st, k, r, pos)
    ensures var acc, st' := RepNext(st, k, r, pos).acc, RepTo(st, k, r, pos);
      && (acc.Load? || (acc.PutWord? && (acc.w.Repair? || acc.w.Skip?)))
      && st'.ents == Perform(st, acc).ents && st'.ents.metas == st.ents.metas && st'.ents.log == st.ents.log
      && st'.pool == st.pool == Perform(st, acc).pool && st'.rings == st.rings && st'.cfg == st.cfg
      && st'.pubs == st.pubs && st'.subs == st.subs && st'.rec == st.rec && st'.dead == st.dead
      && st'.views == st.views
  {
  }

  lemma RecFrame(st: State, q: nat, c: Choice)
    requires RecReady(st, q, c)
    ensures var st' := RecTo(st, q, c);
      && st'.ents == st.ents && st'.pool == st.pool && st'.cfg == st.cfg && st'.rings.wpos == st.rings.wpos
      && st'.pubs == st.pubs && st'.subs == st.subs && st'.dead == st.dead && st'.views == st.views
  {
  }

  lemma RestQuiet(st: State, st': State)
    requires SubsShape(st) && SubsShape(st') && QuietOk(st) && Counted(st)
    requires st'.cfg == st.cfg && st'.subs == st.subs && st'.rings == st.rings && st'.dead >= st.dead
    requires st'.pubs == st.pubs
    ensures QuietOk(st') && Counted(st')
  {
    forall a: nat | LivingOwner(st', a) && Quiesced(st'.subs[a])
      ensures st'.rings.flight[st'.subs[a].ring] == 0
    {
      assert LivingOwner(st, a);
    }
  }

  // ----- every step keeps the invariant -----

  lemma PubStepKeeps(st: State, p: nat, c: Choice)
    requires Inv(st) && PubReady(st, p, c) && Shape(PubTo(st, p, c))
    ensures Inv(PubTo(st, p, c))
  {
    hide PubNext, Perform, Conserved, IdleOnce, Owned, Counted, QuietOk, ClaimsOk, Tagged, Tenancies, Deliveries, InOrder;
    var acc, st' := PubNext(st, p, c).acc, PubTo(st, p, c);
    PubFrame(st, p, c);
    PubKeeps(st, p, c);
    UnaffectedOwned(st, st');
    PubKeepsCounted(st, p, c);
    PubKeepsLocks(st, p, c);
    PubCareful(st, p, c);
    AccessKeepsClaims(st, acc);
    AccessKeepsTagged(st, acc);
    PerformFrames(st, acc);
    RestAlike(Perform(st, acc), st');
    RestAlike(st, st');
    PubKeepsTenancies(st, p, c);
    PubKeepsOrder(st, p, c);
  }

  lemma SubStepKeeps(st: State, a: nat, c: Choice)
    requires Inv(st) && SubReady(st, a, c) && Shape(SubTo(st, a, c))
    ensures Inv(SubTo(st, a, c))
  {
    hide SubNext, Perform, Kept, Owned, Counted, QuietOk, LocksOk, ClaimsOk, Tagged, Tenancies, Deliveries, InOrder;
    var acc, st' := SubNext(st, a, c).acc, SubTo(st, a, c);
    SubFrame(st, a, c);
    SubKeeps(st, a, c);
    SubKeepsOwned(st, a, c);
    SubKeepsCounted(st, a, c);
    UnaffectedLocks(st, st');
    SubKeepsClaims(st, a, c);
    SubKeepsTenancies(st, a, c);
    SubKeepsDeliveries(st, a, c);
    RestAlike(st, st');
  }

  lemma SubKeepsClaims(st: State, a: nat, c: Choice)
    requires SubReady(st, a, c) && ShapeParts(st) && Kept(st) && ClaimsOk(st) && Tagged(st) && Sized(SubTo(st, a, c))
    ensures ClaimsOk(SubTo(st, a, c)) && Tagged(SubTo(st, a, c))
  {
    hide SubNext, Perform;
    SubFrame(st, a, c);
    AccessKeepsClaims(st, SubNext(st, a, c).acc);
    AccessKeepsTagged(st, SubNext(st, a, c).acc);
  }

  lemma ViewStepKeeps(st: State, v: nat)
    requires Inv(st) && ViewReady(st, v) && Shape(ViewTo(st, v))
    ensures Inv(ViewTo(st, v))
  {
    hide ViewNext, Perform, Kept, Owned, Counted, QuietOk, LocksOk, ClaimsOk, Tagged, Tenancies, Deliveries, InOrder;
    var st' := ViewTo(st, v);
    ViewFrame(st, v);
    ViewKeeps(st, v);
    UnaffectedOwned(st, st');
    UnaffectedLocks(st, st');
    RestQuiet(st, st');
    assert forall r :: 0 <= r < st.cfg.maxSubs && st'.rings.clean[r] ==> st.rings.clean[r];
    RestKeepsTenancies(st, st');
    ReleaseKeepsDeliveries(st, v, ViewNext(st, v).u, st');
    RestAlike(st, st');
  }

  lemma RepStepKeeps(st: State, k: nat, r: nat, pos: nat)
    requires Inv(st) && RepReady(st, k, r, pos) && Shape(RepTo(st, k, r, pos))
    ensures Inv(RepTo(st, k, r, pos))
  {
    hide RepNext, Perform, Kept, Owned, Counted, QuietOk, LocksOk, ClaimsOk, Tagged, Tenancies, Deliveries, InOrder;
    var st' := RepTo(st, k, r, pos);
    RepFrame(st, k, r, pos);
    Unaffected(st, st');
    UnaffectedOwned(st, st');
    RestQuiet(st, st');
    RepKeepsLocks(st, k, r, pos);
    RestKeepsTenancies(st, st');
    RestAlike(st, st');
  }

  lemma RecStepKeeps(st: State, q: nat, c: Choice)
    requires Inv(st) && RecReady(st, q, c) && Shape(RecTo(st, q, c))
    ensures Inv(RecTo(st, q, c))
  {
    hide RecNext, Perform, Kept, Owned, Counted, QuietOk, LocksOk, ClaimsOk, Tagged, Tenancies, Deliveries, InOrder;
    var st' := RecTo(st, q, c);
    RecFrame(st, q, c);
    Unaffected(st, st');
    RecKeepsOwned(st, q, c);
    RecKeepsCounted(st, q, c);
    UnaffectedLocks(st, st');
    forall r | 0 <= r < st.cfg.maxSubs
      ensures st'.rings.clean[r] ==> st.rings.clean[r]
      ensures st'.rings.clean[r] && st'.rings.state[r] == Free ==> st.rings.state[r] == Free
    {
      RecRings(st, q, c, r);
    }
    RestKeepsTenancies(st, st');
    RestAlike(st, st');
  }

  lemma CrashStepKeeps(st: State, a: nat)
    requires Inv(st) && Shape(st.(dead := st.dead + {a}))
    ensures Inv(st.(dead := st.dead + {a}))
  {
    hide Kept, Owned, Counted, QuietOk, LocksOk, ClaimsOk, Tagged, Tenancies, Deliveries, InOrder;
    var st' := st.(dead := st.dead + {a});
    Unaffected(st, st');
    CrashKeepsOwned(st, a);
    RestQuiet(st, st');
    UnaffectedLocks(st, st');
    RestKeepsTenancies(st, st');
    RestAlike(st, st');
  }

  lemma StepKeepsInv(st: State, step: Step, st': State)
    requires Inv(st) && Next(st, step, st')
    ensures Inv(st')
  {
    KeepsShape(st, step, st');
    hide PubNext, SubNext, ViewNext, RepNext, RecNext, Perform;
    match step
    case PubStep(p, c) => PubStepKeeps(st, p, c);
    case SubStep(a, c) => SubStepKeeps(st, a, c);
    case ViewStep(v) => ViewStepKeeps(st, v);
    case RepStep(k, r, pos) => RepStepKeeps(st, k, r, pos);
    case RecStep(q, c) => RecStepKeeps(st, q, c);
    case CrashStep(a) => CrashStepKeeps(st, a);
  }

  // ----- what (H) adds -----

  ghost predicate InvH(st: State) { Inv(st) && Integral(st) }

  lemma LoadChangesNothing(st: State)
    requires Sized(st)
    ensures Perform(st, Load) == st
  {
  }

  lemma StepKeepsIntegral(st: State, step: Step, st': State)
    requires InvH(st) && Next(st, step, st') && Forward(st, step) && Inv(st')
    ensures InvH(st')
  {
    hide PubNext, SubNext, ViewNext, RepNext, RecNext, Perform, Kept, Owned, Counted, QuietOk, LocksOk;
    hide ClaimsOk, Tagged, Tenancies, Deliveries, InOrder, Fronts, TagsOk, ReadsOk;
    match step
    case PubStep(p, c) => PubKeepsIntegral(st, p, c);
    case SubStep(a, c) => SubKeepsIntegral(st, a, c);
    case ViewStep(v) => ViewFrame(st, v); RestKeepsIntegral(st, st', ViewNext(st, v).acc);
    case RepStep(k, r, pos) => RepFrame(st, k, r, pos); RestKeepsIntegral(st, st', RepNext(st, k, r, pos).acc);
    case RecStep(q, c) => RecFrame(st, q, c); LoadChangesNothing(st); RestKeepsIntegral(st, st', Load);
    case CrashStep(a) =>
      LoadChangesNothing(st);
      LoadChangesNothing(Moved(st, step));
      RestKeepsIntegral(st, st', Load);
  }

  // ----- the start -----

  lemma InitInv(st: State)
    requires Init(st)
    ensures Inv(st)
  {
    InitKept(st);
    hide Conserved, IdleOnce;
    forall r | 0 <= r < st.cfg.maxSubs ensures st.rings.flight[r] == Sum(st.pubs, FlightF(r)) {
      SumZero(st.pubs, FlightF(r));
    }
    forall a | 0 <= a < |st.subs| ensures CountOk(st.subs[a], Delivered(st, a)) {
      SumZero(st.views, FromSubF(a));
    }
    assert Owned(st) && LocksOk(st);
    assert Tenancies(st);
  }

  lemma InitInvH(st: State)
    requires Init(st)
    ensures InvH(st)
  {
    InitInv(st);
    hide Kept, Owned, Counted, QuietOk, LocksOk, Tagged, Tenancies, Deliveries, InOrder;
  }

  // ----- runs -----

  /** Every state of every run satisfies the invariant. */
  lemma {:induction false} RunKeepsInv(states: seq<State>, steps: seq<Step>, k: nat)
    requires Run(states, steps) && k <= |steps|
    ensures Inv(states[k])
  {
    hide Inv;
    if k == 0 { InitInv(states[0]); }
    else {
      RunKeepsInv(states, steps, k - 1);
      StepKeepsInv(states[k - 1], steps[k - 1], states[k]);
    }
  }

  /** (H) for the first k steps of a run. */
  ghost predicate RunForward(states: seq<State>, steps: seq<Step>, k: nat)
    requires Run(states, steps) && k <= |steps|
  {
    forall i :: 0 <= i < k ==> Next(states[i], steps[i], states[i + 1]) && Forward(states[i], steps[i])
  }

  lemma {:induction false} RunKeepsInvH(states: seq<State>, steps: seq<Step>, k: nat)
    requires Run(states, steps) && k <= |steps| && RunForward(states, steps, k)
    ensures InvH(states[k])
  {
    hide Inv;
    if k == 0 { InitInvH(states[0]); }
    else {
      RunKeepsInvH(states, steps, k - 1);
      assert Next(states[k - 1], steps[k - 1], states[k]) && Forward(states[k - 1], steps[k - 1]);
      RunKeepsInv(states, steps, k);
      StepKeepsIntegral(states[k - 1], steps[k - 1], states[k]);
    }
  }

  function UpTo(n: nat): (s: set<nat>)
    ensures forall i: nat :: i in s <==> i < n
  {
    if n == 0 then {} else UpTo(n - 1) + {n - 1}
  }

  /** A region as its creator stamps it, with any participants at rest, is where every run may start. */
  lemma StampedRegion(cfg: Config, pubs: seq<Pub>, subs: seq<Sub>, reps: seq<Rep>) returns (st: State)
    requires cfg.Valid()
    requires forall p :: 0 <= p < |pubs| ==> pubs[p].pc == PIdle && pubs[p].n == 0
    requires forall a :: 0 <= a < |subs| ==> subs[a].pc == SDetached
    requires forall k :: 0 <= k < |reps| ==> reps[k] == RIdle
    ensures Init(st) && st.cfg == cfg && st.pubs == pubs && st.subs == subs && st.reps == reps
  {
    var words, metas := seq(cfg.cap, _ => Plain(0)), seq(cfg.cap, _ => Meta(0, None));
    var pool := Pool(seq(cfg.pool, _ => 0), seq(cfg.pool, _ => 0), seq(cfg.pool, _ => []), UpTo(cfg.pool));
    var rings := Rings(seq(cfg.maxSubs, _ => Free), seq(cfg.maxSubs, _ => 0), seq(cfg.maxSubs, _ => 0),
                       seq(cfg.maxSubs, _ => None), seq(cfg.maxSubs, _ => true));
    var ents := Ents(seq(cfg.maxSubs, _ => words), seq(cfg.maxSubs, _ => metas), map[], {}, {}, {});
    st := State(cfg, pool, rings, ents, pubs, subs, [], reps, CIdle, {});
    assert Shape(st);
    hide Shape;
  }
}
