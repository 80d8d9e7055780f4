/** Every index a participant carries stays in range, so no access of any run is out of bounds. */
module ChannelShape {
  import opened ChannelModel

  ghost predicate Framed(st: State, st': State) {
    && st'.cfg == st.cfg && Sized(st') && Sized(st)
    && (MetaShape(st) ==> MetaShape(st'))
    && st'.pubs == st.pubs && st'.subs == st.subs && st'.reps == st.reps && st'.rec == st.rec
    && st'.dead == st.dead
    && ((forall s :: s in st.pool.free ==> s < st.cfg.pool) ==> (forall s :: s in st'.pool.free ==> s < st.cfg.pool))
    && |st.views| <= |st'.views| && st'.views[..|st.views|] == st.views
    && (forall v :: |st.views| <= v < |st'.views| ==> st'.views[v].slot < st.cfg.pool)
  }

  lemma PerformFrames(st: State, acc: Access)
    requires Sized(st) && InRange(st.cfg, acc)
    ensures Framed(st, Perform(st, acc))
  {
  }

  lemma PubStaysInShape(st: State, p: nat, c: Choice)
    requires Sized(st) && MetaShape(st) && p < |st.pubs|
    requires forall s :: s in st.pool.free ==> s < st.cfg.pool
    requires PubShape(st.cfg, st.pubs[p]) && PubEnabled(st, st.pubs[p], c)
    ensures PubShape(st.cfg, PubNext(st, p, c).u) && InRange(st.cfg, PubNext(st, p, c).acc)
  {
  }

  lemma SubStaysInShape(st: State, a: nat, c: Choice)
    requires Sized(st) && MetaShape(st) && a < |st.subs|
    requires SubShape(st.cfg, st.subs[a]) && SubEnabled(st, st.subs[a], c)
    ensures SubShape(st.cfg, SubNext(st, a, c).u) && InRange(st.cfg, SubNext(st, a, c).acc)
  {
  }

  /** Accesses stay in range. */
  lemma InBounds(st: State, step: Step)
    requires Shape(st) && Enabled(st, step)
    ensures InRange(st.cfg, Acc(st, step))
  {
    match step
    case PubStep(p, c) => PubStaysInShape(st, p, c);
    case SubStep(a, c) => SubStaysInShape(st, a, c);
    case _ =>
  }

  lemma MovedInShape(st: State, step: Step)
    requires Shape(st) && Enabled(st, step)
    ensures Shape(Moved(st, step)) && Moved(st, step).cfg == st.cfg
  {
    match step
    case PubStep(p, c) => PubStaysInShape(st, p, c);
    case SubStep(a, c) => SubStaysInShape(st, a, c);
    case _ =>
  }

  /** Shape is inductive, and every enabled step can be taken. */
  lemma KeepsShape(st: State, step: Step, st': State)
    requires Shape(st) && Enabled(st, step)
    requires InRange(st.cfg, Acc(st, step)) ==> st' == Perform(Moved(st, step), Acc(st, step))
    ensures Next(st, step, st') && Shape(st') && st'.cfg == st.cfg
  {
    InBounds(st, step);
    MovedInShape(st, step);
    PerformFrames(Moved(st, step), Acc(st, step));
  }

  /** The state after a publisher's step, part by part. */
  lemma PubParts(st: State, p: nat, c: Choice)
    requires PubReady(st, p, c)
    ensures var u, acc, st' := PubNext(st, p, c).u, PubNext(st, p, c).acc, PubTo(st, p, c);
      && st'.cfg == st.cfg && st'.pubs == st.pubs[p := u] && st'.subs == st.subs && st'.dead == st.dead
      && st'.pool == AccessPool(st.pool, acc) && st'.rings == AccessRings(st.rings, acc)
      && st'.ents == AccessEnts(st.ents, acc) && st'.ents == Perform(st, acc).ents
      && st'.views == if acc.NewView? then st.views + [acc.v] else st.views
  {
    hide PubNext, AccessPool, AccessRings, AccessEnts;
  }

  lemma SubParts(st: State, a: nat, c: Choice)
    requires SubReady(st, a, c)
    ensures var u, acc, st' := SubNext(st, a, c).u, SubNext(st, a, c).acc, SubTo(st, a, c);
      && st'.cfg == st.cfg && st'.subs == st.subs[a := u] && st'.pubs == st.pubs && st'.dead == st.dead
      && st'.pool == AccessPool(st.pool, acc) && st'.rings == AccessRings(st.rings, acc)
      && st'.ents == AccessEnts(st.ents, acc) && st'.ents == Perform(st, acc).ents
      && st'.views == if acc.NewView? then st.views + [acc.v] else st.views
  {
    hide SubNext, AccessPool, AccessRings, AccessEnts;
  }
}
