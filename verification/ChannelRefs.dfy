/**
Reference conservation: at every step of every interleaving a slot's refcount is the number
of entries claiming it, views pinning it and references held by participants, and a slot at
zero is in exactly one of: the free stack, a reservation, or one pending push.
*/
module ChannelRefs {
  import opened ChannelModel
  import opened ChannelShape
  import opened Sums

  // ----- who holds a reference of slot s -----

  function PubRefs(cfg: Config, u: Pub, s: nat): nat {
    (if u.slot == s then Held(cfg, u) else 0) + (if u.pc.PEvict? && u.prev == s then 1 else 0)
  }

  function SubRefs(u: Sub, s: nat): nat { if SubHolds(u) && u.slot == s then 1 else 0 }

  function ViewRefs(v: View, s: nat): nat { if v.pc.VHeld? && v.slot == s then 1 else 0 }

  function MetaRefs(m: Meta, s: nat): nat { if m.slot == Some(s) then 1 else 0 }

  function PubF(cfg: Config, s: nat): Pub -> nat { u => PubRefs(cfg, u, s) }
  function SubF(s: nat): Sub -> nat { u => SubRefs(u, s) }
  function ViewF(s: nat): View -> nat { v => ViewRefs(v, s) }
  function MetaF(s: nat): Meta -> nat { m => MetaRefs(m, s) }
  ghost function RowF(s: nat): seq<Meta> -> nat { row => Sum(row, MetaF(s)) }

  /** Ring entries whose claim names s. */
  ghost function Claims(st: State, s: nat): nat { Sum(st.ents.metas, RowF(s)) }

  /** Unreleased views of s. */
  ghost function Pins(st: State, s: nat): nat { Sum(st.views, ViewF(s)) }

  /** References of s a running or crashed publish still holds, or owes for an evicted claim. */
  ghost function PubHeld(st: State, s: nat): nat { Sum(st.pubs, PubF(st.cfg, s)) }

  /** Pins under validation, and releases owed for drained claims. */
  ghost function SubHeld(st: State, s: nat): nat { Sum(st.subs, SubF(s)) }

  /** All references of s that are not entry claims. */
  ghost function Others(st: State, s: nat): nat { Pins(st, s) + PubHeld(st, s) + SubHeld(st, s) }

  ghost predicate SlotConserved(st: State, s: nat)
    requires Sized(st) && s < st.cfg.pool
  {
    st.pool.rc[s] == Claims(st, s) + Others(st, s)
  }

  ghost predicate Conserved(st: State)
    requires Sized(st)
  {
    forall s :: 0 <= s < st.cfg.pool ==> SlotConserved(st, s)
  }

  // ----- where a slot without references is -----

  function PubIdle(u: Pub, s: nat): nat {
    if ((u.pc.PReserved? || u.pc.PFilled? || u.pc.PExcessPush?) && u.slot == s)
       || (u.pc.PEvictPush? && u.prev == s) then 1 else 0
  }

  function SubIdle(u: Sub, s: nat): nat { if SubPushes(u) && u.slot == s then 1 else 0 }

  function ViewIdle(v: View, s: nat): nat { if v.pc.VPush? && v.slot == s then 1 else 0 }

  function PubIdleF(s: nat): Pub -> nat { u => PubIdle(u, s) }
  function SubIdleF(s: nat): Sub -> nat { u => SubIdle(u, s) }
  function ViewIdleF(s: nat): View -> nat { v => ViewIdle(v, s) }

  function OnStack(st: State, s: nat): nat { if s in st.pool.free then 1 else 0 }

  function Zero(st: State, s: nat): nat
    requires Sized(st) && s < st.cfg.pool
  {
    if st.pool.rc[s] == 0 then 1 else 0
  }

  /** Reservations and pending pushes of s. */
  ghost function Pending(st: State, s: nat): nat {
    Sum(st.pubs, PubIdleF(s)) + Sum(st.subs, SubIdleF(s)) + Sum(st.views, ViewIdleF(s))
  }

  ghost predicate SlotIdleOnce(st: State, s: nat)
    requires Sized(st) && s < st.cfg.pool
  {
    OnStack(st, s) + Pending(st, s) == Zero(st, s)
  }

  ghost predicate IdleOnce(st: State)
    requires Sized(st)
  {
    forall s :: 0 <= s < st.cfg.pool ==> SlotIdleOnce(st, s)
  }

  // ----- what one participant's move and access do, slot by slot -----

  function RcAfter(st: State, acc: Access, s: nat): nat
    requires Sized(st) && InRange(st.cfg, acc) && s < st.cfg.pool
  {
    if acc.PutRc? && acc.s == s then acc.n else st.pool.rc[s]
  }

  function StackAfter(st: State, acc: Access, s: nat): nat {
    if acc.Pop? && acc.s == s then 0 else if acc.Push? && acc.s == s then 1 else OnStack(st, s)
  }

  function ClaimsDelta(st: State, acc: Access, s: nat): int
    requires Sized(st) && InRange(st.cfg, acc)
  {
    match acc
    case Claim(r, i, _, x) => (if x.slot == s then 1 else 0) - MetaRefs(st.ents.metas[r][i], s)
    case Unclaim(r, i) => 0 - MetaRefs(st.ents.metas[r][i], s)
    case _ => 0
  }

  function PinsDelta(acc: Access, s: nat): int {
    if acc.NewView? then ViewRefs(acc.v, s) else 0
  }

  /** The refcount moves by exactly the references gained and lost. */
  ghost predicate RefsBalance(st: State, acc: Access, s: nat, was: nat, now: nat)
    requires Sized(st) && InRange(st.cfg, acc) && s < st.cfg.pool
  {
    RcAfter(st, acc, s) - st.pool.rc[s] == now - was + ClaimsDelta(st, acc, s) + PinsDelta(acc, s)
  }

  /** A slot leaves or enters the idle places exactly as its refcount leaves or reaches zero. */
  ghost predicate IdleBalance(st: State, acc: Access, s: nat, was: nat, now: nat)
    requires Sized(st) && InRange(st.cfg, acc) && s < st.cfg.pool
  {
    && StackAfter(st, acc, s) + now - OnStack(st, s) - was
       == (if RcAfter(st, acc, s) == 0 then 1 else 0) - Zero(st, s)
    && (acc.NewView? ==> acc.v.pc.VHeld?)
  }

  /** What the global sums say about one participant's share. */
  ghost predicate Share(st: State, s: nat, refs: nat, idle: nat)
    requires Sized(st) && s < st.cfg.pool
  {
    && refs <= st.pool.rc[s]
    && OnStack(st, s) + idle <= Zero(st, s)
  }

  ghost predicate PubBalanced(st: State, u: Pub, mv: PubMove, s: nat)
    requires Sized(st) && InRange(st.cfg, mv.acc) && s < st.cfg.pool
  {
    && RefsBalance(st, mv.acc, s, PubRefs(st.cfg, u, s), PubRefs(st.cfg, mv.u, s))
    && IdleBalance(st, mv.acc, s, PubIdle(u, s), PubIdle(mv.u, s))
  }

  lemma PubLockBalance(st: State, u: Pub, c: Choice, s: nat)
    requires Sized(st) && s < st.cfg.pool && PubShape(st.cfg, u) && Locking(u)
    requires InRange(st.cfg, PubLock(st, u, c).acc)
    ensures PubBalanced(st, u, PubLock(st, u, c), s)
  {
  }

  lemma PubHealBalance(st: State, u: Pub, s: nat)
    requires Sized(st) && s < st.cfg.pool && PubShape(st.cfg, u) && Healing(u)
    requires InRange(st.cfg, PubHeal(st, u).acc)
    ensures PubBalanced(st, u, PubHeal(st, u), s)
  {
  }

  lemma PubEvictBalance(st: State, p: nat, u: Pub, s: nat)
    requires Sized(st) && s < st.cfg.pool && PubShape(st.cfg, u) && u.pc == PEvict
    requires InRange(st.cfg, PubCommit(st, p, u).acc)
    requires Share(st, s, PubRefs(st.cfg, u, s), PubIdle(u, s))
    ensures PubBalanced(st, u, PubCommit(st, p, u), s)
  {
  }

  lemma PubTakeBalance(st: State, p: nat, u: Pub, s: nat)
    requires Sized(st) && s < st.cfg.pool && PubShape(st.cfg, u) && u.pc == PTake
    requires InRange(st.cfg, PubCommit(st, p, u).acc)
    requires Share(st, s, PubRefs(st.cfg, u, s), PubIdle(u, s))
    ensures PubBalanced(st, u, PubCommit(st, p, u), s)
  {
  }

  lemma PubRestBalance(st: State, p: nat, u: Pub, s: nat)
    requires Sized(st) && s < st.cfg.pool && PubShape(st.cfg, u) && InLoop(u) && !Locking(u) && !Healing(u) && u.pc != PEvict && u.pc != PTake
    requires InRange(st.cfg, PubCommit(st, p, u).acc)
    requires Share(st, s, PubRefs(st.cfg, u, s), PubIdle(u, s))
    ensures PubBalanced(st, u, PubCommit(st, p, u), s)
  {
  }

  lemma PubCommitBalance(st: State, p: nat, u: Pub, s: nat)
    requires Sized(st) && s < st.cfg.pool && PubShape(st.cfg, u) && InLoop(u) && !Locking(u) && !Healing(u)
    requires InRange(st.cfg, PubCommit(st, p, u).acc)
    requires Share(st, s, PubRefs(st.cfg, u, s), PubIdle(u, s))
    ensures PubBalanced(st, u, PubCommit(st, p, u), s)
  {
    hide PubCommit, PubBalanced, Share;
    if u.pc == PEvict {
      PubEvictBalance(st, p, u, s);
    } else if u.pc == PTake {
      PubTakeBalance(st, p, u, s);
    } else {
      PubRestBalance(st, p, u, s);
    }
  }

  lemma PubOutsideBalance(st: State, u: Pub, c: Choice, s: nat)
    requires Sized(st) && s < st.cfg.pool
    requires PubShape(st.cfg, u) && !InLoop(u) && PubEnabled(st, u, c)
    requires InRange(st.cfg, PubOutside(st, u, c).acc)
    requires Share(st, s, PubRefs(st.cfg, u, s), PubIdle(u, s))
    ensures PubBalanced(st, u, PubOutside(st, u, c), s)
  {
  }

  lemma PubBalance(st: State, p: nat, c: Choice, s: nat)
    requires Sized(st) && p < |st.pubs| && s < st.cfg.pool
    requires PubShape(st.cfg, st.pubs[p]) && PubEnabled(st, st.pubs[p], c)
    requires InRange(st.cfg, PubNext(st, p, c).acc)
    requires Share(st, s, PubRefs(st.cfg, st.pubs[p], s), PubIdle(st.pubs[p], s))
    ensures PubBalanced(st, st.pubs[p], PubNext(st, p, c), s)
  {
    var u := st.pubs[p];
    if Locking(u) { PubLockBalance(st, u, c, s); }
    else if Healing(u) { PubHealBalance(st, u, s); }
    else if InLoop(u) { PubCommitBalance(st, p, u, s); }
    else { PubOutsideBalance(st, u, c, s); }
  }

  lemma SubBalance(st: State, a: nat, c: Choice, s: nat)
    requires Sized(st) && a < |st.subs| && s < st.cfg.pool
    requires SubShape(st.cfg, st.subs[a]) && SubEnabled(st, st.subs[a], c)
    requires InRange(st.cfg, SubNext(st, a, c).acc)
    requires Share(st, s, SubRefs(st.subs[a], s), SubIdle(st.subs[a], s))
    ensures RefsBalance(st, SubNext(st, a, c).acc, s, SubRefs(st.subs[a], s), SubRefs(SubNext(st, a, c).u, s))
    ensures IdleBalance(st, SubNext(st, a, c).acc, s, SubIdle(st.subs[a], s), SubIdle(SubNext(st, a, c).u, s))
  {
  }

  lemma ViewBalance(st: State, v: nat, s: nat)
    requires Sized(st) && v < |st.views| && s < st.cfg.pool && st.views[v].slot < st.cfg.pool
    requires Share(st, s, ViewRefs(st.views[v], s), ViewIdle(st.views[v], s))
    ensures RefsBalance(st, ViewNext(st, v).acc, s, ViewRefs(st.views[v], s), ViewRefs(ViewNext(st, v).u, s))
    ensures IdleBalance(st, ViewNext(st, v).acc, s, ViewIdle(st.views[v], s), ViewIdle(ViewNext(st, v).u, s))
  {
  }

  // ----- the sums -----

  /** The shares of single participants are bounded by the totals. */
  lemma PubShare(st: State, p: nat, s: nat)
    requires Sized(st) && Conserved(st) && IdleOnce(st) && s < st.cfg.pool && p < |st.pubs|
    ensures Share(st, s, PubRefs(st.cfg, st.pubs[p], s), PubIdle(st.pubs[p], s))
  {
    SumMember(st.pubs, p, PubF(st.cfg, s));
    SumMember(st.pubs, p, PubIdleF(s));
    assert SlotConserved(st, s) && SlotIdleOnce(st, s);
  }

  lemma SubShare(st: State, a: nat, s: nat)
    requires Sized(st) && Conserved(st) && IdleOnce(st) && s < st.cfg.pool && a < |st.subs|
    ensures Share(st, s, SubRefs(st.subs[a], s), SubIdle(st.subs[a], s))
  {
    SumMember(st.subs, a, SubF(s));
    SumMember(st.subs, a, SubIdleF(s));
    assert SlotConserved(st, s) && SlotIdleOnce(st, s);
  }

  lemma ViewShare(st: State, v: nat, s: nat)
    requires Sized(st) && Conserved(st) && IdleOnce(st) && s < st.cfg.pool && v < |st.views|
    ensures Share(st, s, ViewRefs(st.views[v], s), ViewIdle(st.views[v], s))
  {
    SumMember(st.views, v, ViewF(s));
    SumMember(st.views, v, ViewIdleF(s));
    assert SlotConserved(st, s) && SlotIdleOnce(st, s);
  }

  /** One entry's claim changes: the sum over all rings changes by the same amount. */
  lemma ClaimsUpdate(st: State, r: nat, i: nat, m: Meta, s: nat)
    requires Sized(st) && r < st.cfg.maxSubs && i < st.cfg.cap
    ensures Sum(st.ents.metas[r := st.ents.metas[r][i := m]], RowF(s)) + MetaRefs(st.ents.metas[r][i], s)
            == Claims(st, s) + MetaRefs(m, s)
  {
    SumUpdate(st.ents.metas[r], i, m, MetaF(s));
    SumUpdate(st.ents.metas, r, st.ents.metas[r][i := m], RowF(s));
  }

  /** The totals after an access. */
  lemma PerformTotals(st: State, acc: Access, s: nat)
    requires Sized(st) && InRange(st.cfg, acc) && s < st.cfg.pool
    ensures Sized(Perform(st, acc)) && Perform(st, acc).cfg == st.cfg
    ensures Perform(st, acc).pool.rc[s] == RcAfter(st, acc, s)
    ensures OnStack(Perform(st, acc), s) == StackAfter(st, acc, s)
    ensures Claims(Perform(st, acc), s) == Claims(st, s) + ClaimsDelta(st, acc, s)
    ensures Pins(Perform(st, acc), s) == Pins(st, s) + PinsDelta(acc, s)
    ensures Perform(st, acc).pubs == st.pubs && Perform(st, acc).subs == st.subs
    ensures acc.NewView? && acc.v.pc.VHeld? ==>
              Sum(Perform(st, acc).views, ViewIdleF(s)) == Sum(st.views, ViewIdleF(s))
    ensures !acc.NewView? ==> Perform(st, acc).views == st.views
  {
    PerformFrames(st, acc);
    match acc
    case Claim(r, i, pos, x) => ClaimsUpdate(st, r, i, Meta(pos + 1, Some(x.slot)), s);
    case Unclaim(r, i) => ClaimsUpdate(st, r, i, Meta(st.ents.metas[r][i].tag, None), s);
    case NewView(v) =>
      SumAppend(st.views, v, ViewF(s));
      SumAppend(st.views, v, ViewIdleF(s));
    case _ =>
  }

  ghost predicate Kept(st: State)
    requires Sized(st)
  {
    Conserved(st) && IdleOnce(st)
  }

  /** A balanced move of one participant, followed by its access, keeps slot s accounted for. */
  lemma SlotKept(st: State, mid: State, acc: Access, s: nat, was: nat, now: nat, idleWas: nat, idleNow: nat)
    requires Sized(st) && s < st.cfg.pool && SlotConserved(st, s) && SlotIdleOnce(st, s)
    requires Sized(mid) && mid.cfg == st.cfg && mid.pool == st.pool && mid.ents == st.ents
    requires InRange(st.cfg, acc)
    requires Others(mid, s) + was == Others(st, s) + now
    requires Pending(mid, s) + idleWas == Pending(st, s) + idleNow
    requires RefsBalance(mid, acc, s, was, now) && IdleBalance(mid, acc, s, idleWas, idleNow)
    ensures Sized(Perform(mid, acc)) && Perform(mid, acc).cfg == st.cfg
    ensures SlotConserved(Perform(mid, acc), s) && SlotIdleOnce(Perform(mid, acc), s)
  {
    PerformTotals(mid, acc, s);
  }

  lemma PubKeeps(st: State, p: nat, c: Choice)
    requires PubReady(st, p, c) && Kept(st)
    ensures Sized(PubTo(st, p, c)) && Kept(PubTo(st, p, c))
  {
    hide PubNext, PubRefs, PubIdle, Held;
    var u, mv := st.pubs[p], PubNext(st, p, c);
    var mid := st.(pubs := st.pubs[p := mv.u]);
    PerformFrames(mid, mv.acc);
    var st' := Perform(mid, mv.acc);
    forall s | 0 <= s < st.cfg.pool ensures SlotConserved(st', s) && SlotIdleOnce(st', s) {
      PubShare(st, p, s);
      PubBalance(st, p, c, s);
      SumUpdate(st.pubs, p, mv.u, PubF(st.cfg, s));
      SumUpdate(st.pubs, p, mv.u, PubIdleF(s));
      SlotKept(st, mid, mv.acc, s, PubRefs(st.cfg, u, s), PubRefs(st.cfg, mv.u, s), PubIdle(u, s), PubIdle(mv.u, s));
    }
  }

  lemma SubKeeps(st: State, a: nat, c: Choice)
    requires SubReady(st, a, c) && Kept(st)
    ensures Sized(SubTo(st, a, c)) && Kept(SubTo(st, a, c))
  {
    hide SubNext, SubRefs, SubIdle;
    var u, mv := st.subs[a], SubNext(st, a, c);
    var mid := st.(subs := st.subs[a := mv.u]);
    PerformFrames(mid, mv.acc);
    var st' := Perform(mid, mv.acc);
    forall s | 0 <= s < st.cfg.pool ensures SlotConserved(st', s) && SlotIdleOnce(st', s) {
      SubShare(st, a, s);
      SubBalance(st, a, c, s);
      SumUpdate(st.subs, a, mv.u, SubF(s));
      SumUpdate(st.subs, a, mv.u, SubIdleF(s));
      SlotKept(st, mid, mv.acc, s, SubRefs(u, s), SubRefs(mv.u, s), SubIdle(u, s), SubIdle(mv.u, s));
    }
  }

  lemma ViewKeeps(st: State, v: nat)
    requires ViewReady(st, v) && Kept(st)
    ensures Sized(ViewTo(st, v)) && Kept(ViewTo(st, v))
  {
    hide ViewNext, ViewRefs, ViewIdle;
    var u, mv := st.views[v], ViewNext(st, v);
    var mid := st.(views := st.views[v := mv.u]);
    PerformFrames(mid, mv.acc);
    var st' := Perform(mid, mv.acc);
    forall s | 0 <= s < st.cfg.pool ensures SlotConserved(st', s) && SlotIdleOnce(st', s) {
      ViewShare(st, v, s);
      ViewBalance(st, v, s);
      SumUpdate(st.views, v, mv.u, ViewF(s));
      SumUpdate(st.views, v, mv.u, ViewIdleF(s));
      SlotKept(st, mid, mv.acc, s, ViewRefs(u, s), ViewRefs(mv.u, s), ViewIdle(u, s), ViewIdle(mv.u, s));
    }
  }

  /** A step that leaves the pool, the claims and all references alone. */
  lemma Unaffected(st: State, st': State)
    requires Sized(st) && Kept(st) && Sized(st')
    requires st'.cfg == st.cfg && st'.pool == st.pool && st'.ents.metas == st.ents.metas
    requires st'.pubs == st.pubs && st'.subs == st.subs && st'.views == st.views
    ensures Kept(st')
  {
    forall s | 0 <= s < st.cfg.pool ensures SlotConserved(st', s) && SlotIdleOnce(st', s) {
      assert SlotConserved(st, s) && SlotIdleOnce(st, s);
    }
  }

  lemma StepKeepsRefs(st: State, step: Step, st': State)
    requires Shape(st) && Kept(st) && Next(st, step, st') && Sized(st')
    ensures Kept(st')
  {
    match step
    case PubStep(p, c) => PubKeeps(st, p, c);
    case SubStep(a, c) => SubKeeps(st, a, c);
    case ViewStep(v) => ViewKeeps(st, v);
    case RepStep(k, r, pos) => Unaffected(st, st');
    case RecStep(q, c) => Unaffected(st, st');
    case CrashStep(_) => Unaffected(st, st');
  }

  lemma InitKept(st: State)
    requires Init(st)
    ensures Kept(st)
  {
    forall s | 0 <= s < st.cfg.pool ensures SlotConserved(st, s) && SlotIdleOnce(st, s) {
      forall r | 0 <= r < |st.ents.metas| ensures RowF(s)(st.ents.metas[r]) == 0 {
        SumZero(st.ents.metas[r], MetaF(s));
      }
      SumZero(st.ents.metas, RowF(s));
      SumZero(st.pubs, PubF(st.cfg, s));
      SumZero(st.subs, SubF(s));
      SumZero(st.pubs, PubIdleF(s));
      SumZero(st.subs, SubIdleF(s));
    }
  }

  lemma StepConserves(st: State, step: Step, st': State)
    requires Shape(st) && Kept(st) && Next(st, step, st')
    ensures Shape(st') && Kept(st')
  {
    hide Kept, Enabled, Acc, Moved;
    KeepsShape(st, step, st');
    StepKeepsRefs(st, step, st');
  }

  /** Reference conservation over whole runs. */
  lemma {:induction false} RunConserves(states: seq<State>, steps: seq<Step>, k: nat)
    requires Run(states, steps) && k <= |steps|
    ensures Shape(states[k]) && Kept(states[k])
  {
    hide Kept, Next, Init;
    if k == 0 {
      InitConserves(states[0]);
    } else {
      RunConserves(states, steps, k - 1);
      hide Shape;
      StepConserves(states[k - 1], steps[k - 1], states[k]);
    }
  }

  lemma InitConserves(st: State)
    requires Init(st)
    ensures Shape(st) && Kept(st)
  {
    InitKept(st);
    hide Kept;
  }
}
