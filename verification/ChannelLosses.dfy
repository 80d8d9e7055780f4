/**
What a subscriber passes over: every position behind read_pos was delivered, or could not be
delivered when the subscriber gave it up.
*/
module ChannelLosses {
  import opened ChannelModel
  import opened ChannelShape
  import opened ChannelOrder
  import opened ChannelServes

  /** Why a position is counted lost. */
  datatype Cause =
    | Overrun     // more than a ring's capacity behind write_pos
    | Marked      // a repairer's skip marker
    | Replaced    // a later position has the entry
    | Unclaimed   // the entry's claim is another position's, or was drained
    | Recycled    // the claimed slot had no reference left, or no room for another
    | Moved       // the word changed before the pin could be checked
    | Overlong    // the slot's length is beyond its payload

  /** Position `q` of ring `r` can be delivered as things are. */
  predicate Deliverable(st: State, r: nat, q: nat)
    requires Sized(st) && r < st.cfg.maxSubs
  {
    && st.rings.wpos[r] <= q + st.cfg.cap
    && WordAt(st, r, q) == Plain(q + 1)
    && var m := MetaAt(st, r, q);
       && m.tag == q + 1 && m.slot.Some? && m.slot.value < st.cfg.pool
       && 0 < st.pool.rc[m.slot.value] < UINT32_MAX && st.pool.len[m.slot.value] <= st.cfg.dataSize
  }

  /** The head is handed out and neither committed nor given up: a receive does not pass it. */
  predicate Blocking(w: Word, q: nat) { w != Plain(q + 1) && w != Word.Skip(q + 1) && (w.Locked() || w.Pos() < q + 1) }

  /** What the subscriber's step finds at position `q`. */
  predicate Finds(st: State, u: Sub, q: nat, why: Cause)
    requires Sized(st) && SubShape(st.cfg, u) && u.ring < st.cfg.maxSubs
  {
    var r := u.ring;
    match why
    case Overrun => u.pc.SRx? && u.read <= q && q + st.cfg.cap < st.rings.wpos[r]
    case Marked => u.pc.SSeq? && q == u.read && WordAt(st, r, q) == Word.Skip(q + 1)
    case Replaced => u.pc.SSeq? && q == u.read && !WordAt(st, r, q).Locked() && WordAt(st, r, q).Pos() > q + 1
    case Unclaimed =>
      u.pc.SMeta? && q == u.read
      && (MetaAt(st, r, q).tag != q + 1 || MetaAt(st, r, q).slot.None? || MetaAt(st, r, q).slot.value >= st.cfg.pool)
    case Recycled => u.pc.SPin? && q == u.read && (st.pool.rc[u.slot] == 0 || st.pool.rc[u.slot] == UINT32_MAX)
    case Moved => u.pc.SCheck? && q == u.read && WordAt(st, r, q) != Plain(q + 1)
    case Overlong => u.pc.SLen? && q == u.read && st.pool.len[u.slot] > st.cfg.dataSize
  }

  /** On the way back from a position that turned out undeliverable after the pin. */
  predicate Dropping(u: Sub) { u.pc.SUnpin? || u.pc.SPush? }

  ghost predicate Gives(st: State, u: Sub, q: nat)
    requires Sized(st) && SubShape(st.cfg, u) && u.ring < st.cfg.maxSubs
  {
    exists why :: Finds(st, u, q, why)
  }

  /** A subscriber's move, as the positions behind it see it. */
  ghost predicate LossMove(st: State, a: nat, u: Sub, v: Sub, acc: Access)
    requires Sized(st) && SubShape(st.cfg, u)
  {
    && (Unattached(u) && !Unattached(v) ==> v.first == v.read)
    && (!Unattached(u) ==> u.ring < st.cfg.maxSubs && v.ring == u.ring && !Unattached(v) && v.first == u.first && v.read >= u.read)
    && (!Unattached(u) ==>
          forall q :: u.read <= q < v.read ==>
            Gives(st, u, q) || (acc.NewView? && acc.v.sub == a && acc.v.pos == q && acc.v.ring == u.ring) || (Dropping(u) && q == u.read))
    && (Dropping(v) ==> !Unattached(u) && v.read == u.read && (Dropping(u) || Gives(st, u, u.read)))
  }

  lemma SubLossMove(st: State, a: nat, c: Choice)
    requires SubReady(st, a, c)
    ensures LossMove(st, a, st.subs[a], SubNext(st, a, c).u, SubNext(st, a, c).acc)
  {
    var u := st.subs[a];
    if Receiving(u) {
      ReceiveLossMove(st, a, u, c);
      hide SubReceive, Gives;
    }
  }

  lemma ReceiveLossMove(st: State, a: nat, u: Sub, c: Choice)
    requires Sized(st) && SubShape(st.cfg, u) && SubEnabled(st, u, c) && Receiving(u)
    ensures LossMove(st, a, u, SubReceive(st, a, u, c).u, SubReceive(st, a, u, c).acc)
  {
    var v := SubReceive(st, a, u, c).u;
    hide Idx;
    forall q | u.read <= q < v.read && !Dropping(u) && !SubReceive(st, a, u, c).acc.NewView? ensures Gives(st, u, q) {
      assert q > u.read ==> Finds(st, u, q, Overrun);
      assert Finds(st, u, q, Overrun) || Finds(st, u, q, Marked) || Finds(st, u, q, Replaced) || Finds(st, u, q, Unclaimed)
             || Finds(st, u, q, Recycled);
    }
    if Dropping(v) && !Dropping(u) {
      assert Finds(st, u, u.read, Moved) || Finds(st, u, u.read, Overlong);
    }
  }

  // ----- over runs -----

  ghost predicate FoundAt(st: State, step: Step, a: nat, q: nat) {
    && Sized(st) && step.SubStep? && step.a == a < |st.subs| && SubShape(st.cfg, st.subs[a])
    && st.subs[a].ring < st.cfg.maxSubs && Gives(st, st.subs[a], q)
  }

  /** At some step before `k` the subscriber found that `q` could not be delivered. */
  ghost predicate GivenUp(states: seq<State>, steps: seq<Step>, k: nat, a: nat, q: nat)
    requires |states| == |steps| + 1 && k <= |steps|
  {
    exists j :: 0 <= j < k && FoundAt(states[j], steps[j], a, q)
  }

  /** The subscriber was given a view of `q`. */
  ghost predicate Received(st: State, a: nat, q: nat) {
    exists v :: 0 <= v < |st.views| && st.views[v].sub == a && st.views[v].pos == q
  }

  ghost predicate Explained(states: seq<State>, steps: seq<Step>, k: nat, a: nat)
    requires |states| == |steps| + 1 && k <= |steps| && a < |states[k].subs|
  {
    var u := states[k].subs[a];
    !Unattached(u) ==>
      && (forall q :: u.first <= q < u.read ==> Received(states[k], a, q) || GivenUp(states, steps, k, a, q))
      && (Dropping(u) ==> GivenUp(states, steps, k, a, u.read))
  }

  lemma ReceivedStays(st: State, step: Step, st': State, a: nat)
    requires Next(st, step, st')
    ensures |st'.subs| == |st.subs|
    ensures !(step.SubStep? && step.a == a) && a < |st.subs| ==> st'.subs[a] == st.subs[a]
    ensures forall q :: Received(st, a, q) ==> Received(st', a, q)
  {
    ViewsStay(st, step, st');
    hide PubNext, SubNext, ViewNext, RepNext, RecNext, Next;
    forall q | Received(st, a, q) ensures Received(st', a, q) {
      var v :| 0 <= v < |st.views| && st.views[v].sub == a && st.views[v].pos == q;
      assert st'.views[v].sub == a && st'.views[v].pos == q;
    }
  }

  lemma ViewsStay(st: State, step: Step, st': State)
    requires Next(st, step, st')
    ensures |st'.subs| == |st.subs| && |st.views| <= |st'.views|
    ensures forall a :: 0 <= a < |st.subs| && !(step.SubStep? && step.a == a) ==> st'.subs[a] == st.subs[a]
    ensures forall v :: 0 <= v < |st.views| ==> st'.views[v].sub == st.views[v].sub && st'.views[v].pos == st.views[v].pos
  {
    hide PubNext, SubNext, RepNext, RecNext;
  }

  lemma SubStepped(st: State, step: Step, st': State)
    requires Next(st, step, st') && step.SubStep?
    ensures SubReady(st, step.a, step.c) && st'.subs == st.subs[step.a := SubNext(st, step.a, step.c).u]
    ensures var acc := SubNext(st, step.a, step.c).acc; st'.views == if acc.NewView? then st.views + [acc.v] else st.views
  {
    hide SubNext;
  }

  lemma ExplainedStep(states: seq<State>, steps: seq<Step>, k: nat, a: nat)
    requires |states| == |steps| + 1 && k < |steps| && a < |states[k].subs| && Explained(states, steps, k, a)
    requires Next(states[k], steps[k], states[k + 1]) && steps[k].SubStep? && steps[k].a == a
    ensures a < |states[k + 1].subs| && Explained(states, steps, k + 1, a)
  {
    var st, st', u := states[k], states[k + 1], states[k].subs[a];
    SubStepped(st, steps[k], st');
    SubLossMove(st, a, steps[k].c);
    ReceivedStays(st, steps[k], st', a);
    var v, acc := st'.subs[a], SubNext(st, a, steps[k].c).acc;
    hide SubNext, Next, Gives, Received;
    GivenUpStays(states, steps, k, a);
    if acc.NewView? { assert st'.views[|st.views|] == acc.v; SeenNow(st', a, |st.views|); }
    hide GivenUp;
  }

  lemma SeenNow(st: State, a: nat, v: nat)
    requires v < |st.views|
    ensures st.views[v].sub == a ==> Received(st, a, st.views[v].pos)
  {
  }

  lemma GivenUpStays(states: seq<State>, steps: seq<Step>, k: nat, a: nat)
    requires |states| == |steps| + 1 && k < |steps|
    ensures forall q :: GivenUp(states, steps, k, a, q) ==> GivenUp(states, steps, k + 1, a, q)
    ensures forall q :: FoundAt(states[k], steps[k], a, q) ==> GivenUp(states, steps, k + 1, a, q)
  {
    hide FoundAt;
  }

  lemma ExplainedElsewhere(states: seq<State>, steps: seq<Step>, k: nat, a: nat)
    requires |states| == |steps| + 1 && k < |steps| && a < |states[k].subs| && Explained(states, steps, k, a)
    requires Next(states[k], steps[k], states[k + 1]) && !(steps[k].SubStep? && steps[k].a == a)
    ensures a < |states[k + 1].subs| && Explained(states, steps, k + 1, a)
  {
    ReceivedStays(states[k], steps[k], states[k + 1], a);
    GivenUpStays(states, steps, k, a);
    hide Next, GivenUp, Received, FoundAt;
  }

  lemma {:induction false} RunExplained(states: seq<State>, steps: seq<Step>, k: nat, a: nat)
    requires Run(states, steps) && k <= |steps| && a < |states[k].subs|
    ensures Explained(states, steps, k, a)
  {
    hide Explained, Next, Shape;
    if k == 0 {
      StartExplained(states, steps, a);
    } else {
      assert Next(states[k - 1], steps[k - 1], states[k]);
      ReceivedStays(states[k - 1], steps[k - 1], states[k], a);
      RunExplained(states, steps, k - 1, a);
      if steps[k - 1].SubStep? && steps[k - 1].a == a {
        ExplainedStep(states, steps, k - 1, a);
      } else {
        ExplainedElsewhere(states, steps, k - 1, a);
      }
    }
  }

  lemma StartExplained(states: seq<State>, steps: seq<Step>, a: nat)
    requires Run(states, steps) && a < |states[0].subs|
    ensures Explained(states, steps, 0, a)
  {
    hide Next, Shape;
  }

  /** A position given up was not deliverable then, and not one a receive waits for. */
  lemma CauseHolds(st: State, u: Sub, q: nat, why: Cause)
    requires Sized(st) && SubShape(st.cfg, u) && u.ring < st.cfg.maxSubs && Finds(st, u, q, why)
    requires why.Recycled? || why.Overlong? ==> MetaAt(st, u.ring, q) == Meta(q + 1, Some(u.slot))
    ensures !Deliverable(st, u.ring, q)
    ensures u.pc.SSeq? ==> !Blocking(WordAt(st, u.ring, q), q)
  {
    hide Idx;
  }

  /**
  Whatever else ran, every position from the subscriber's first to its read position was delivered
  to it, or was found undeliverable at a step of its own: overrun by more than the capacity, marked
  by a repairer, replaced, its claim gone, its slot recycled, or its word changed before the check.
  */
  lemma EveryLossHasACause(states: seq<State>, steps: seq<Step>, k: nat, a: nat, q: nat)
    requires Run(states, steps) && k <= |steps| && a < |states[k].subs| && !Unattached(states[k].subs[a])
    requires states[k].subs[a].first <= q < states[k].subs[a].read
    ensures Received(states[k], a, q) || GivenUp(states, steps, k, a, q)
  {
    RunExplained(states, steps, k, a);
  }

  // ----- nothing older than the tenancy -----

  /** The step in which the subscriber read its floor, no later than position `q`. */
  predicate FloorAt(st: State, step: Step, a: nat, q: nat) {
    && step.SubStep? && step.a == a < |st.subs| && st.subs[a].pc == SFloor
    && st.subs[a].ring < |st.rings.wpos| && st.rings.wpos[st.subs[a].ring] <= q
  }

  ghost predicate FloorSeen(states: seq<State>, steps: seq<Step>, k: nat, a: nat, q: nat)
    requires |states| == |steps| + 1 && k <= |steps|
  {
    exists j :: 0 <= j < k && FloorAt(states[j], steps[j], a, q)
  }

  /** The subscriber begins where write_pos stood when it had the ring. */
  ghost predicate Floored(states: seq<State>, steps: seq<Step>, k: nat, a: nat)
    requires |states| == |steps| + 1 && k <= |steps| && a < |states[k].subs|
  {
    var u := states[k].subs[a];
    && (!Unattached(u) ==> u.first <= u.read && FloorSeen(states, steps, k, a, u.first))
    && (Unattached(u) ==> !exists v :: 0 <= v < |states[k].views| && states[k].views[v].sub == a)
    && (forall v :: 0 <= v < |states[k].views| && states[k].views[v].sub == a ==> u.first <= states[k].views[v].pos)
  }

  lemma FloorMove(st: State, a: nat, c: Choice)
    requires SubReady(st, a, c)
    ensures var u, v, acc := st.subs[a], SubNext(st, a, c).u, SubNext(st, a, c).acc;
      && (Unattached(u) && !Unattached(v) ==> u.pc == SFloor && FloorAt(st, SubStep(a, c), a, v.first) && v.read == v.first)
      && (Unattached(v) ==> Unattached(u))
      && (acc.NewView? ==> !Unattached(u) && acc.v.sub == a && acc.v.pos == u.read)
  {
  }

  lemma FloorStays(states: seq<State>, steps: seq<Step>, k: nat, a: nat)
    requires |states| == |steps| + 1 && k < |steps|
    ensures forall q :: FloorSeen(states, steps, k, a, q) ==> FloorSeen(states, steps, k + 1, a, q)
    ensures forall q :: FloorAt(states[k], steps[k], a, q) ==> FloorSeen(states, steps, k + 1, a, q)
  {
    hide FloorAt;
  }

  lemma FlooredStep(states: seq<State>, steps: seq<Step>, k: nat, a: nat)
    requires |states| == |steps| + 1 && k < |steps| && a < |states[k].subs| && Floored(states, steps, k, a)
    requires Next(states[k], steps[k], states[k + 1]) && steps[k].SubStep? && steps[k].a == a
    ensures a < |states[k + 1].subs| && Floored(states, steps, k + 1, a)
  {
    SubStepped(states[k], steps[k], states[k + 1]);
    SubLossMove(states[k], a, steps[k].c);
    FloorMove(states[k], a, steps[k].c);
    FloorStays(states, steps, k, a);
    hide SubNext, Next, Gives, FloorSeen, FloorAt;
  }

  lemma FlooredElsewhere(states: seq<State>, steps: seq<Step>, k: nat, a: nat)
    requires |states| == |steps| + 1 && k < |steps| && a < |states[k].subs| && Floored(states, steps, k, a)
    requires Next(states[k], steps[k], states[k + 1]) && !(steps[k].SubStep? && steps[k].a == a)
    ensures a < |states[k + 1].subs| && Floored(states, steps, k + 1, a)
  {
    ViewsStay(states[k], steps[k], states[k + 1]);
    NoViewFor(states[k], steps[k], states[k + 1], a);
    FloorStays(states, steps, k, a);
    hide Next, FloorSeen, FloorAt;
  }

  lemma NoViewFor(st: State, step: Step, st': State, a: nat)
    requires Next(st, step, st') && !(step.SubStep? && step.a == a)
    ensures forall v :: |st.views| <= v < |st'.views| ==> st'.views[v].sub != a
  {
    hide PubNext, SubNext;
    match step
    case SubStep(b, c) =>
      SubStepped(st, step, st');
      NoViewOf(st, b, c);
    case PubStep(p, c) =>
      PubStepped(st, step, st');
      NoPubView(st, p, c);
    case _ =>
  }

  lemma NoViewOf(st: State, b: nat, c: Choice)
    requires SubReady(st, b, c)
    ensures SubNext(st, b, c).acc.NewView? ==> SubNext(st, b, c).acc.v.sub == b
  {
  }

  lemma NoPubView(st: State, p: nat, c: Choice)
    requires PubReady(st, p, c)
    ensures !PubNext(st, p, c).acc.NewView?
  {
  }

  lemma {:induction false} RunFloored(states: seq<State>, steps: seq<Step>, k: nat, a: nat)
    requires Run(states, steps) && k <= |steps| && a < |states[k].subs|
    ensures Floored(states, steps, k, a)
  {
    hide Floored, Next, Shape;
    if k == 0 {
      StartFloored(states, steps, a);
    } else {
      assert Next(states[k - 1], steps[k - 1], states[k]);
      ReceivedStays(states[k - 1], steps[k - 1], states[k], a);
      RunFloored(states, steps, k - 1, a);
      if steps[k - 1].SubStep? && steps[k - 1].a == a {
        FlooredStep(states, steps, k - 1, a);
      } else {
        FlooredElsewhere(states, steps, k - 1, a);
      }
    }
  }

  lemma StartFloored(states: seq<State>, steps: seq<Step>, a: nat)
    requires Run(states, steps) && a < |states[0].subs|
    ensures Floored(states, steps, 0, a)
  {
    hide Next, Shape;
  }

  /** Whatever the ring carried before, a subscriber is only given positions handed out after it had the ring. */
  lemma NothingOlderDelivered(states: seq<State>, steps: seq<Step>, k: nat, v: nat)
    requires Run(states, steps) && k <= |steps| && v < |states[k].views| && states[k].views[v].sub < |states[k].subs|
    ensures FloorSeen(states, steps, k, states[k].views[v].sub, states[k].views[v].pos)
  {
    RunFloored(states, steps, k, states[k].views[v].sub);
    var u := states[k].subs[states[k].views[v].sub];
    var j :| 0 <= j < k && FloorAt(states[j], steps[j], states[k].views[v].sub, u.first);
    assert FloorAt(states[j], steps[j], states[k].views[v].sub, states[k].views[v].pos);
    hide Run;
  }
}
