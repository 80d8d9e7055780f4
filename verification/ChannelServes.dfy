/**
What a publish did, ring by ring, once it is over: every ring was met, and each either was not
Live, or handed out a position that the publisher then claimed, or gave up for a cause it saw.
*/
module ChannelServes {
  import opened ChannelModel
  import opened ChannelShape
  import opened ChannelLocks

  /** What publication `n` of `p` may meet at a ring. */
  datatype Meeting =
    | NotLive      // the check or the admission found another state
    | Handed       // write_pos gave it a position
    | Claimed      // the claim CAS put its slot into the entry
    | Unlockable   // the entry was not its predecessor's, or stayed locked
    | Stolen       // its lock was gone when it looked again
    | Overtaken    // the entry already carried a claim at least as new

  /** What publisher state `u` meets at ring `r` in this state. */
  predicate Meets(st: State, u: Pub, r: nat, what: Meeting)
    requires Sized(st)
  {
    && r == u.i < st.cfg.maxSubs
    && match what
       case NotLive => (u.pc.PCheck? || u.pc.PAdmit?) && st.rings.state[r] != Live
       case Handed => u.pc.PClaim?
       case Claimed => u.pc.PTake? && MetaAt(st, r, u.pos).tag < u.pos + 1
       case Unlockable =>
         u.pc.PTry? && (u.tries >= LOCK_ATTEMPTS || (!u.seen.Locked() && u.seen.Pos() != PrevSeq(st.cfg, u.pos)))
       case Stolen => u.pc.PRecheck? && WordAt(st, r, u.pos) != Lock(u.pos)
       case Overtaken => u.pc.PTake? && MetaAt(st, r, u.pos).tag >= u.pos + 1
  }

  predicate Cause(what: Meeting) { what.Unlockable? || what.Stolen? || what.Overtaken? }

  /** The publisher is giving ring u.i up. */
  predicate Refused(u: Pub) { Healing(u) }

  /** Publication `n` of `u` is past ring `r`. */
  predicate Past(cfg: Config, u: Pub, n: nat, r: nat) {
    0 < n <= u.n && r < cfg.maxSubs && (n == u.n && InLoop(u) ==> r < u.i)
  }

  /** One step of a publisher, as its rings see it. */
  ghost predicate ServeMove(st: State, u: Pub, v: Pub)
    requires Sized(st)
  {
    && u.n <= v.n <= u.n + 1
    && (InLoop(v) ==> if InLoop(u) then v.n == u.n else v.n == u.n + 1 && v.i == 0)
    && (v.n != u.n ==> InLoop(v))
    && (HasPos(v) ==> v.i == u.i && (HasPos(u) || Meets(st, u, u.i, Handed)))
    && (Refused(v) ==> v.i == u.i && (Refused(u) || exists c :: Cause(c) && Meets(st, u, u.i, c)))
    && (Taken(v) ==> v.i == u.i && (Taken(u) || Meets(st, u, u.i, Claimed)))
    && (InLoop(u) && InLoop(v) ==> v.i == u.i || v.i == u.i + 1)
    && (InLoop(u) && !(InLoop(v) && v.i == u.i) ==>
          && (Meets(st, u, u.i, NotLive) || Refused(u) || Taken(u))
          && (InLoop(v) || u.i + 1 == st.cfg.maxSubs))
  }

  lemma PubServeMove(st: State, p: nat, c: Choice)
    requires PubReady(st, p, c)
    ensures ServeMove(st, st.pubs[p], PubNext(st, p, c).u)
  {
    var u := st.pubs[p];
    if u.pc.PTry? {
      assert Cause(Unlockable);
    } else if u.pc.PRecheck? {
      assert Cause(Stolen);
    } else if u.pc.PTake? {
      assert Cause(Overtaken);
    }
  }

  // ----- over runs -----

  /** Publication `n` of `p` met this at ring `r` before step `k`. */
  ghost predicate Met(states: seq<State>, steps: seq<Step>, k: nat, p: nat, n: nat, r: nat, what: Meeting)
    requires |states| == |steps| + 1 && k <= |steps|
  {
    exists j :: 0 <= j < k && MeetsAt(states[j], steps[j], p, n, r, what)
  }

  predicate MeetsAt(st: State, step: Step, p: nat, n: nat, r: nat, what: Meeting) {
    && Sized(st) && step.PubStep? && step.p == p < |st.pubs|
    && st.pubs[p].n == n && Meets(st, st.pubs[p], r, what)
  }

  /** The ring was not Live; or it handed out a position that was claimed, or given up for a cause. */
  ghost predicate Served(states: seq<State>, steps: seq<Step>, k: nat, p: nat, n: nat, r: nat)
    requires |states| == |steps| + 1 && k <= |steps|
  {
    || Met(states, steps, k, p, n, r, NotLive)
    || (Met(states, steps, k, p, n, r, Handed) && (Met(states, steps, k, p, n, r, Claimed) || Declined(states, steps, k, p, n, r)))
  }

  ghost predicate Declined(states: seq<State>, steps: seq<Step>, k: nat, p: nat, n: nat, r: nat)
    requires |states| == |steps| + 1 && k <= |steps|
  {
    exists c :: Cause(c) && Met(states, steps, k, p, n, r, c)
  }

  /** What the program counter tells of the ring being served. */
  ghost predicate Serving(states: seq<State>, steps: seq<Step>, k: nat, p: nat)
    requires |states| == |steps| + 1 && k <= |steps| && p < |states[k].pubs|
  {
    var u := states[k].pubs[p];
    && (HasPos(u) ==> Met(states, steps, k, p, u.n, u.i, Handed))
    && (Refused(u) ==> Declined(states, steps, k, p, u.n, u.i))
    && (Taken(u) ==> Met(states, steps, k, p, u.n, u.i, Claimed))
    && forall n: nat, r: nat :: Past(states[k].cfg, u, n, r) ==> Served(states, steps, k, p, n, r)
  }

  lemma MetStays(states: seq<State>, steps: seq<Step>, k: nat, p: nat, n: nat, r: nat)
    requires |states| == |steps| + 1 && k < |steps|
    ensures forall what :: Met(states, steps, k, p, n, r, what) ==> Met(states, steps, k + 1, p, n, r, what)
    ensures Served(states, steps, k, p, n, r) ==> Served(states, steps, k + 1, p, n, r)
    ensures Declined(states, steps, k, p, n, r) ==> Declined(states, steps, k + 1, p, n, r)
    ensures forall what :: MeetsAt(states[k], steps[k], p, n, r, what) ==> Met(states, steps, k + 1, p, n, r, what)
  {
  }

  /** Other steps leave publisher `p` and the configuration alone. */
  lemma PubUntouched(st: State, step: Step, st': State, p: nat)
    requires Next(st, step, st') && p < |st.pubs| && !(step.PubStep? && step.p == p)
    ensures st'.cfg == st.cfg && |st'.pubs| == |st.pubs| && st'.pubs[p] == st.pubs[p]
  {
    hide PubNext, SubNext, ViewNext, RepNext, RecNext;
  }

  lemma PubStepped(st: State, step: Step, st': State)
    requires Next(st, step, st') && step.PubStep?
    ensures PubReady(st, step.p, step.c)
    ensures st'.cfg == st.cfg && st'.pubs == st.pubs[step.p := PubNext(st, step.p, step.c).u]
  {
    hide PubNext;
  }

  lemma ServingStep(states: seq<State>, steps: seq<Step>, k: nat, p: nat)
    requires |states| == |steps| + 1 && k < |steps| && p < |states[k].pubs| && Serving(states, steps, k, p)
    requires Next(states[k], steps[k], states[k + 1]) && steps[k].PubStep? && steps[k].p == p
    ensures p < |states[k + 1].pubs| && Serving(states, steps, k + 1, p)
  {
    var st, u := states[k], states[k].pubs[p];
    PubStepped(st, steps[k], states[k + 1]);
    PubServeMove(st, p, steps[k].c);
    var v := states[k + 1].pubs[p];
    hide PubNext, Next, Met, Served, Declined, Meets;
    MetStays(states, steps, k, p, u.n, u.i);
    assert forall what :: Meets(st, u, u.i, what) ==> MeetsAt(st, steps[k], p, u.n, u.i, what);
    if Refused(v) && !Refused(u) {
      var c :| Cause(c) && Meets(st, u, u.i, c);
      assert Met(states, steps, k + 1, p, u.n, u.i, c);
      DeclinedFor(states, steps, k + 1, p, u.n, u.i, c);
    }
    forall n: nat, r: nat | Past(st.cfg, v, n, r) ensures Served(states, steps, k + 1, p, n, r) {
      MetStays(states, steps, k, p, n, r);
      if !Past(st.cfg, u, n, r) {
        assert n == u.n && r == u.i;
        ServedNow(states, steps, k, p);
      }
    }
  }

  lemma DeclinedFor(states: seq<State>, steps: seq<Step>, k: nat, p: nat, n: nat, r: nat, c: Meeting)
    requires |states| == |steps| + 1 && k <= |steps| && Cause(c) && Met(states, steps, k, p, n, r, c)
    ensures Declined(states, steps, k, p, n, r)
  {
  }

  lemma ServedNow(states: seq<State>, steps: seq<Step>, k: nat, p: nat)
    requires |states| == |steps| + 1 && k < |steps| && p < |states[k].pubs| && Serving(states, steps, k, p)
    requires Sized(states[k]) && steps[k].PubStep? && steps[k].p == p
    requires var u := states[k].pubs[p]; Meets(states[k], u, u.i, NotLive) || Refused(u) || Taken(u)
    ensures Served(states, steps, k + 1, p, states[k].pubs[p].n, states[k].pubs[p].i)
  {
    var u := states[k].pubs[p];
    MetStays(states, steps, k, p, u.n, u.i);
    assert Meets(states[k], u, u.i, NotLive) ==> MeetsAt(states[k], steps[k], p, u.n, u.i, NotLive);
    hide Met, Declined;
  }

  lemma {:induction false} RunServes(states: seq<State>, steps: seq<Step>, k: nat, p: nat)
    requires Run(states, steps) && k <= |steps| && p < |states[k].pubs|
    ensures Serving(states, steps, k, p)
  {
    hide Serving, Init, Next;
    if k == 0 {
      StartServing(states, steps, p);
    } else {
      var st, step := states[k - 1], steps[k - 1];
      assert Next(st, step, states[k]);
      if step.PubStep? && step.p == p {
        PubStepped(st, step, states[k]);
        RunServes(states, steps, k - 1, p);
        ServingStep(states, steps, k - 1, p);
      } else {
        PubCount(st, step, states[k]);
        PubUntouched(st, step, states[k], p);
        RunServes(states, steps, k - 1, p);
        ServingElsewhere(states, steps, k - 1, p);
      }
    }
  }

  lemma PubCount(st: State, step: Step, st': State)
    requires Next(st, step, st')
    ensures |st'.pubs| == |st.pubs|
  {
    hide PubNext, SubNext, ViewNext, RepNext, RecNext;
  }

  lemma StartServing(states: seq<State>, steps: seq<Step>, p: nat)
    requires Run(states, steps) && p < |states[0].pubs|
    ensures Serving(states, steps, 0, p)
  {
  }

  lemma ServingElsewhere(states: seq<State>, steps: seq<Step>, k: nat, p: nat)
    requires |states| == |steps| + 1 && k < |steps| && p < |states[k].pubs| && Serving(states, steps, k, p)
    requires p < |states[k + 1].pubs| && states[k + 1].pubs[p] == states[k].pubs[p] && states[k + 1].cfg == states[k].cfg
    ensures Serving(states, steps, k + 1, p)
  {
    var u := states[k].pubs[p];
    hide Met, Declined, Served;
    MetStays(states, steps, k, p, u.n, u.i);
    forall n: nat, r: nat | Past(states[k].cfg, u, n, r) ensures Served(states, steps, k + 1, p, n, r) {
      MetStays(states, steps, k, p, n, r);
    }
  }

  /**
  Whatever else ran, when publication `n` of `p` is over every ring has been met: it was not Live
  when the publisher checked it or asked to be admitted, or it handed out a position which the
  publisher claimed, or gave up because the entry could not be locked, its lock was stolen, or a
  newer claim was there.
  */
  lemma EveryRingServed(states: seq<State>, steps: seq<Step>, k: nat, p: nat, n: nat, r: nat)
    requires Run(states, steps) && k <= |steps| && p < |states[k].pubs|
    requires 0 < n <= states[k].pubs[p].n && (n == states[k].pubs[p].n ==> !InLoop(states[k].pubs[p]))
    requires r < states[k].cfg.maxSubs
    ensures Served(states, steps, k, p, n, r)
  {
    RunServes(states, steps, k, p);
    assert Past(states[k].cfg, states[k].pubs[p], n, r);
  }
}
