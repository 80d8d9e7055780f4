/**
A publisher left alone at one ring: its moves one by one, and the stretches of the publish loop
they make up.  Alone, wait_for_commit runs into its timeout on a lock, and reports the lock it
watched as unchanged.
*/
module ChannelAttempt {
  import opened ChannelModel
  import opened ChannelShape

  /** The choice a publisher left alone makes: at the wait, the timeout. */
  function Lonely(u: Pub): Choice { if u.pc.PWait? then Alt else Go }

  /** `n` steps of publisher `p` lead from `st` to `end`. */
  ghost predicate Alone(st: State, p: nat, n: nat, end: State)
    decreases n
  {
    if n == 0 then end == st
    else
      && p < |st.pubs| && Shape(st) && PubReady(st, p, Lonely(st.pubs[p]))
      && Alone(PubTo(st, p, Lonely(st.pubs[p])), p, n - 1, end)
  }

  ghost predicate Leads(st: State, p: nat, end: State) { exists n :: Alone(st, p, n, end) }

  lemma {:induction false} AloneOn(a: State, p: nat, n: nat, b: State, m: nat, c: State)
    requires Alone(a, p, n, b) && Alone(b, p, m, c)
    ensures Alone(a, p, n + m, c)
    decreases n
  {
    hide PubReady, PubTo, Shape;
    if n > 0 { AloneOn(PubTo(a, p, Lonely(a.pubs[p])), p, n - 1, b, m, c); }
  }

  lemma LeadsOn(a: State, p: nat, b: State, c: State)
    requires Leads(a, p, b) && Leads(b, p, c)
    ensures Leads(a, p, c)
  {
    var n :| Alone(a, p, n, b);
    var m :| Alone(b, p, m, c);
    AloneOn(a, p, n, b, m, c);
  }

  lemma LeadsNowhere(st: State, p: nat)
    ensures Leads(st, p, st)
  {
    assert Alone(st, p, 0, st);
  }

  lemma AloneAtRest(st: State, p: nat, end: State)
    requires Alone(st, p, 0, end)
    ensures end == st
  {
  }

  lemma RunOn(states: seq<State>, steps: seq<Step>, p: nat, n: nat, end: State) returns (longer: seq<State>, more: seq<Step>)
    requires Run(states, steps) && n > 0 && Alone(states[|steps|], p, n, end)
    ensures |longer| == |more| + 1 && Run(longer, more) && |more| == |steps| + 1 && steps <= more && more[|steps|].PubStep? && more[|steps|].p == p
    ensures Alone(longer[|more|], p, n - 1, end)
  {
    var st := states[|steps|];
    var step, st' := PubStep(p, Lonely(st.pubs[p])), PubTo(st, p, Lonely(st.pubs[p]));
    assert Next(st, step, st') && Alone(st', p, n - 1, end);
    hide Next, Init, PubReady, PubTo, Alone;
    longer, more := states + [st'], steps + [step];
    forall i | 0 <= i < |more| ensures Next(longer[i], more[i], longer[i + 1]) {
      if i < |steps| { assert Next(states[i], steps[i], states[i + 1]); }
    }
  }

  /** What a publisher does alone is a continuation of any run that leads there. */
  lemma {:induction false} AloneRuns(states: seq<State>, steps: seq<Step>, p: nat, n: nat, end: State)
      returns (longer: seq<State>, more: seq<Step>)
    requires |states| == |steps| + 1 && Run(states, steps) && Alone(states[|steps|], p, n, end)
    ensures |longer| == |more| + 1 && Run(longer, more) && longer[|more|] == end && steps <= more
    ensures forall i :: |steps| <= i < |more| ==> more[i].PubStep? && more[i].p == p
    decreases n
  {
    hide *;
    if n == 0 {
      AloneAtRest(states[|steps|], p, end);
      longer, more := states, steps;
    } else {
      longer, more := RunOn(states, steps, p, n, end);
      longer, more := AloneRuns(longer, more, p, n - 1, end);
    }
  }

  predicate Busy(u: Pub) { !u.pc.PIdle? && !u.pc.PReserved? }

  /** One step, by its move. */
  lemma Moves(st: State, p: nat, u: Pub, acc: Access) returns (end: State)
    requires Shape(st) && p < |st.pubs| && Busy(st.pubs[p])
    requires PubShape(st.cfg, st.pubs[p]) && PubNext(st, p, Lonely(st.pubs[p])) == PubMove(u, acc) && !acc.NewView?
    ensures InRange(st.cfg, acc) && Leads(st, p, end) && Here(end, p, u.pc) && Sized(st) && Sized(end)
    ensures end == st.(pubs := st.pubs[p := u], pool := AccessPool(st.pool, acc), rings := AccessRings(st.rings, acc),
                       ents := AccessEnts(st.ents, acc))
  {
    var c := Lonely(st.pubs[p]);
    assert PubEnabled(st, st.pubs[p], c);
    InBounds(st, PubStep(p, c));
    end := PubTo(st, p, c);
    KeepsShape(st, PubStep(p, c), end);
    hide PubNext, Shape, AccessPool, AccessRings, AccessEnts;
    assert Alone(end, p, 0, end);
    assert Alone(st, p, 1, end);
  }

  // ----- what becomes of one entry -----

  /** The entry is as its predecessor left it. */
  predicate Lockable(cfg: Config, w: Word, pos: nat) { !w.Locked() && w.Pos() == PrevSeq(cfg, pos) }

  /** Residue that a publisher at `pos` may mend: an old word, or a lock that outlived the wait for it. */
  predicate Mendable(cfg: Config, w: Word, pos: nat) {
    pos >= cfg.cap && (w.Locked() || w.Pos() + cfg.cap < pos + 1)
  }

  /** The word a publisher at `pos` leaves behind. */
  function After(cfg: Config, w: Word, pos: nat): Word {
    if Lockable(cfg, w, pos) then Plain(pos + 1)
    else if Mendable(cfg, w, pos) then Word.Skip(pos + 1)
    else w
  }

  // ----- the moves, one by one -----

  ghost predicate Here(st: State, p: nat, pc: PubPc) {
    Shape(st) && p < |st.pubs| && st.pubs[p].pc == pc && PubShape(st.cfg, st.pubs[p])
  }

  ghost predicate Ready(st: State, p: nat) { p < |st.pubs| && Here(st, p, st.pubs[p].pc) }

  lemma CheckMoves(st: State, p: nat)
    requires Here(st, p, PCheck)
    ensures var u := st.pubs[p];
            PubNext(st, p, Go) == if st.rings.state[u.i] == Live then PubMove(u.(pc := PAdmit), Load)
                                  else PubMove(NextRing(st.cfg, u.(excess := u.excess + 1)), Load)
  {
  }

  lemma AdmitMoves(st: State, p: nat)
    requires Here(st, p, PAdmit) && st.rings.state[st.pubs[p].i] == Live
    ensures var u := st.pubs[p];
            PubNext(st, p, Go) == PubMove(u.(pc := PClaim), PutFlight(u.i, st.rings.flight[u.i] + 1))
  {
  }

  /** The publisher has its position and has not looked at the entry. */
  function Entered(cfg: Config, u: Pub, pos: nat): Pub {
    u.(pc := if pos >= cfg.cap then PWait else PTry, pos := pos, seen := Plain(0), last := Plain(0), stable := false,
       tries := 0)
  }

  lemma ClaimMoves(st: State, p: nat)
    requires Here(st, p, PClaim)
    ensures var u := st.pubs[p]; PubNext(st, p, Go) == PubMove(Entered(st.cfg, u, st.rings.wpos[u.i]), FetchPos(u.i))
  {
  }

  lemma WaitMoves(st: State, p: nat)
    requires Here(st, p, PWait)
    ensures var u := st.pubs[p];
            var w := WordAt(st, u.i, u.pos);
            PubNext(st, p, Alt) == PubMove(u.(pc := PTry, seen := w, last := w, stable := w.Locked()), Load)
  {
  }

  lemma TryMoves(st: State, p: nat)
    requires Here(st, p, PTry)
    ensures var u := st.pubs[p];
            var w := WordAt(st, u.i, u.pos);
            PubNext(st, p, Go) ==
              if u.tries >= LOCK_ATTEMPTS then PubMove(u.(pc := PHeal), Load)
              else if Lockable(st.cfg, u.seen, u.pos) && w == u.seen then
                PubMove(u.(pc := PRecheck), PutWord(u.i, Idx(st.cfg, u.pos), Lock(u.pos)))
              else if Lockable(st.cfg, u.seen, u.pos) || u.seen.Locked() then PubMove(u.(seen := w, tries := u.tries + 1), Load)
              else PubMove(u.(pc := PHeal), Load)
  {
  }

  lemma HealMoves(st: State, p: nat)
    requires Here(st, p, PHeal)
    ensures var u := st.pubs[p];
            var w := WordAt(st, u.i, u.pos);
            var steal := if w.Locked() then u.stable && w == u.last else w.Pos() + st.cfg.cap < u.pos + 1;
            PubNext(st, p, Go) == PubMove(u.(seen := w, pc := if steal then PHealCas else PAbandon), Load)
  {
  }

  lemma StealMoves(st: State, p: nat)
    requires Here(st, p, PHealCas) && WordAt(st, st.pubs[p].i, st.pubs[p].pos) == st.pubs[p].seen
    ensures var u := st.pubs[p];
            PubNext(st, p, Go) == PubMove(u.(pc := PHealStore), PutWord(u.i, Idx(st.cfg, u.pos), Repair(u.pos)))
  {
  }

  lemma MarkMoves(st: State, p: nat)
    requires Here(st, p, PHealStore)
    ensures var u := st.pubs[p];
            PubNext(st, p, Go) == PubMove(u.(pc := PAbandon), PutWord(u.i, Idx(st.cfg, u.pos), Word.Skip(u.pos + 1)))
  {
  }

  lemma AbandonMoves(st: State, p: nat)
    requires Here(st, p, PAbandon)
    ensures var u := st.pubs[p];
            PubNext(st, p, Go) == PubMove(NextRing(st.cfg, u.(excess := u.excess + 1)),
                                          PutFlight(u.i, Sub32(st.rings.flight[u.i], 1)))
  {
  }

  lemma RecheckMoves(st: State, p: nat)
    requires Here(st, p, PRecheck) && WordAt(st, st.pubs[p].i, st.pubs[p].pos) == Lock(st.pubs[p].pos)
    ensures PubNext(st, p, Go) == PubMove(st.pubs[p].(pc := PTake), Load)
  {
  }

  /** What the publisher puts behind its position. */
  function Offer(st: State, p: nat, u: Pub): Sample
    requires Sized(st) && u.slot < st.cfg.pool
  {
    Sample(p, u.n, u.slot, st.pool.len[u.slot], st.pool.data[u.slot])
  }

  lemma TakeMoves(st: State, p: nat)
    requires Here(st, p, PTake) && MetaAt(st, st.pubs[p].i, st.pubs[p].pos).tag < st.pubs[p].pos + 1
    ensures var u := st.pubs[p];
            var m := MetaAt(st, u.i, u.pos);
            PubNext(st, p, Go) == PubMove(if m.slot.Some? then u.(pc := PEvict, prev := m.slot.value) else u.(pc := PCommit),
                                          Claim(u.i, Idx(st.cfg, u.pos), u.pos, Offer(st, p, u)))
  {
  }

  lemma EvictMoves(st: State, p: nat)
    requires Here(st, p, PEvict)
    ensures var u := st.pubs[p];
            PubNext(st, p, Go) == PubMove(u.(pc := if st.pool.rc[u.prev] == 1 then PEvictPush else PCommit),
                                          PutRc(u.prev, Sub32(st.pool.rc[u.prev], 1)))
  {
  }

  lemma EvictPushMoves(st: State, p: nat)
    requires Here(st, p, PEvictPush)
    ensures PubNext(st, p, Go) == PubMove(st.pubs[p].(pc := PCommit), Push(st.pubs[p].prev))
  {
  }

  lemma CommitMoves(st: State, p: nat)
    requires Here(st, p, PCommit) && WordAt(st, st.pubs[p].i, st.pubs[p].pos) == Lock(st.pubs[p].pos)
    ensures var u := st.pubs[p];
            PubNext(st, p, Go) == PubMove(u.(pc := PRelease), PutWord(u.i, Idx(st.cfg, u.pos), Plain(u.pos + 1)))
  {
  }

  lemma ReleaseMoves(st: State, p: nat)
    requires Here(st, p, PRelease)
    ensures var u := st.pubs[p];
            PubNext(st, p, Go) == PubMove(NextRing(st.cfg, u), PutFlight(u.i, Sub32(st.rings.flight[u.i], 1)))
  {
  }

  // ----- stretches -----

  /** Admission and the claim of a position. */
  lemma Enters(st: State, p: nat) returns (end: State)
    requires Here(st, p, PCheck) && st.rings.state[st.pubs[p].i] == Live
    ensures var u := st.pubs[p];
            var r, pos := u.i, st.rings.wpos[u.i];
      && Leads(st, p, end) && Here(end, p, Entered(st.cfg, u, pos).pc)
      && end == st.(pubs := st.pubs[p := Entered(st.cfg, u, pos)],
                 rings := st.rings.(flight := st.rings.flight[r := st.rings.flight[r] + 1],
                                    wpos := st.rings.wpos[r := pos + 1]))
  {
    hide Leads, Shape, PubNext;
    var u := st.pubs[p];
    CheckMoves(st, p);
    var a := Moves(st, p, u.(pc := PAdmit), Load);
    AdmitMoves(a, p);
    var b := Moves(a, p, u.(pc := PClaim), PutFlight(u.i, st.rings.flight[u.i] + 1));
    ClaimMoves(b, p);
    end := Moves(b, p, Entered(st.cfg, u, st.rings.wpos[u.i]), FetchPos(u.i));
    LeadsOn(st, p, a, b);
    LeadsOn(st, p, b, end);
    assert end.pubs == st.pubs[p := Entered(st.cfg, u, st.rings.wpos[u.i])];
  }

  // What a stretch leaves alone, and what it leaves at the entry of position `pos` of ring `r`.

  /** Everything but publisher `p`, refcounts, free stack, rings and entries. */
  predicate Around(st: State, end: State, p: nat) {
    && end.cfg == st.cfg && end.subs == st.subs && end.views == st.views && end.reps == st.reps
    && end.rec == st.rec && end.dead == st.dead
    && p < |st.pubs| == |end.pubs| && end.pubs == st.pubs[p := end.pubs[p]]
    && end.pool.len == st.pool.len && end.pool.data == st.pool.data
  }

  /** Row `r` with `v` at index `i`. */
  function Put<T>(x: seq<seq<T>>, r: nat, i: nat, v: T): seq<seq<T>>
    requires r < |x| && i < |x[r]|
  {
    x[r := x[r][i := v]]
  }

  /** Word `w` and claim `m` are in the entry, and the rest is as it was. */
  predicate Leaves(st: State, end: State, r: nat, pos: nat, w: Word, m: Meta) {
    && Sized(st) && Sized(end) && r < st.cfg.maxSubs
    && end.ents.seqs == Put(st.ents.seqs, r, Idx(st.cfg, pos), w)
    && end.ents.metas == Put(st.ents.metas, r, Idx(st.cfg, pos), m)
  }

  lemma PutSame<T>(x: seq<seq<T>>, r: nat, i: nat)
    requires r < |x| && i < |x[r]|
    ensures Put(x, r, i, x[r][i]) == x
  {
    assert x[r][i := x[r][i]] == x[r];
  }

  lemma PutTwice<T>(x: seq<seq<T>>, r: nat, i: nat, v: T, w: T)
    requires r < |x| && i < |x[r]|
    ensures Put(Put(x, r, i, v), r, i, w) == Put(x, r, i, w)
  {
    assert x[r][i := v][i := w] == x[r][i := w];
  }

  /** The publisher still holds its position, with other fields of its attempt changed. */
  predicate SameRing(u: Pub, v: Pub) {
    v.i == u.i && v.pos == u.pos && v.n == u.n && v.slot == u.slot && v.excess == u.excess
  }

  /** From `st` to `mid` the publisher stayed at its position, whose entry now holds `w` and `m`. */
  ghost predicate Stays(st: State, mid: State, p: nat, w: Word, m: Meta) {
    && Leads(st, p, mid) && Around(st, mid, p) && mid.rings == st.rings && SameRing(st.pubs[p], mid.pubs[p])
    && Leaves(st, mid, st.pubs[p].i, st.pubs[p].pos, w, m)
  }

  /** On to the next ring, or past the loop, with `x` references unused so far. */
  predicate Onward(cfg: Config, u: Pub, v: Pub, x: nat) {
    && v.i == u.i + 1 && v.n == u.n && v.slot == u.slot && v.excess == x
    && v.pc == NextRing(cfg, u.(excess := x)).pc
  }

  /** The admission to ring `r` is given back. */
  predicate Dismissed(st: State, end: State, r: nat) {
    r < |st.rings.flight| && end.rings == st.rings.(flight := st.rings.flight[r := Sub32(st.rings.flight[r], 1)])
  }

  /** From `st` to `end` the publisher finished with ring u.i, leaving `w` and `m` in the entry. */
  ghost predicate Finishes(st: State, end: State, p: nat, x: nat, w: Word, m: Meta) {
    && Leads(st, p, end) && Around(st, end, p) && Dismissed(st, end, st.pubs[p].i) && Onward(st.cfg, st.pubs[p], end.pubs[p], x)
    && Leaves(st, end, st.pubs[p].i, st.pubs[p].pos, w, m)
  }

  lemma LeavesOn(st: State, a: State, end: State, r: nat, pos: nat, w: Word, m: Meta, w': Word, m': Meta)
    requires Leaves(st, a, r, pos, w, m) && Leaves(a, end, r, pos, w', m') && a.cfg == st.cfg
    ensures Leaves(st, end, r, pos, w', m')
  {
    PutTwice(st.ents.seqs, r, Idx(st.cfg, pos), w, w');
    PutTwice(st.ents.metas, r, Idx(st.cfg, pos), m, m');
  }

  lemma LeavesSame(st: State, a: State, r: nat, pos: nat)
    requires Sized(st) && Sized(a) && r < st.cfg.maxSubs && a.cfg == st.cfg && a.ents == st.ents
    ensures Leaves(st, a, r, pos, WordAt(st, r, pos), MetaAt(st, r, pos))
  {
    PutSame(st.ents.seqs, r, Idx(st.cfg, pos));
    PutSame(st.ents.metas, r, Idx(st.cfg, pos));
  }

  lemma StaysOn(st: State, a: State, b: State, p: nat, w: Word, m: Meta, w': Word, m': Meta)
    requires Stays(st, a, p, w, m) && Stays(a, b, p, w', m')
    ensures Stays(st, b, p, w', m')
  {
    LeadsOn(st, p, a, b);
    LeavesOn(st, a, b, st.pubs[p].i, st.pubs[p].pos, w, m, w', m');
    hide Leads, Leaves;
  }

  lemma StaysThen(st: State, a: State, end: State, p: nat, x: nat, w: Word, m: Meta, w': Word, m': Meta)
    requires Stays(st, a, p, w, m) && Finishes(a, end, p, x, w', m')
    ensures Finishes(st, end, p, x, w', m')
  {
    LeadsOn(st, p, a, end);
    LeavesOn(st, a, end, st.pubs[p].i, st.pubs[p].pos, w, m, w', m');
    hide Leads, Leaves;
  }

  lemma StaysThere(st: State, a: State, p: nat, w: Word, m: Meta)
    requires Stays(st, a, p, w, m)
    requires p < |st.pubs|
    ensures a.cfg == st.cfg && |a.pubs| == |st.pubs| && p < |a.pubs| && a.pubs[p].i == st.pubs[p].i && a.pubs[p].pos == st.pubs[p].pos
    ensures a.pubs[p].excess == st.pubs[p].excess && a.pubs[p].slot == st.pubs[p].slot && a.pubs[p].n == st.pubs[p].n && Sized(a) && a.pubs[p].i < a.cfg.maxSubs
    ensures WordAt(a, a.pubs[p].i, a.pubs[p].pos) == w && MetaAt(a, a.pubs[p].i, a.pubs[p].pos) == m
  {
  }

  /** A step that leaves rings and entries alone. */
  lemma Waits(st: State, p: nat, u: Pub, acc: Access) returns (end: State)
    requires Shape(st) && p < |st.pubs| && Busy(st.pubs[p]) && InLoop(st.pubs[p]) && SameRing(st.pubs[p], u)
    requires PubShape(st.cfg, st.pubs[p]) && PubNext(st, p, Lonely(st.pubs[p])) == PubMove(u, acc)
    requires acc.Load? || acc.PutRc? || acc.Push?
    ensures Ready(end, p) && end.pubs[p] == u && end.ents.log == st.ents.log
    ensures Stays(st, end, p, WordAt(st, u.i, u.pos), MetaAt(st, u.i, u.pos))
  {
    assert Sized(st);
    hide Leads, Shape, PubNext;
    end := Moves(st, p, u, acc);
    LeavesSame(st, end, u.i, u.pos);
    hide Leaves;
  }

  /** A step that writes the word of the entry. */
  lemma Writes(st: State, p: nat, u: Pub, w: Word) returns (end: State)
    requires Shape(st) && p < |st.pubs| && Busy(st.pubs[p]) && InLoop(st.pubs[p]) && SameRing(st.pubs[p], u)
    requires PubShape(st.cfg, st.pubs[p])
    requires PubNext(st, p, Lonely(st.pubs[p])) == PubMove(u, PutWord(u.i, Idx(st.cfg, u.pos), w))
    ensures Ready(end, p) && end.pubs[p] == u && end.ents.log == st.ents.log
    ensures Stays(st, end, p, w, MetaAt(st, u.i, u.pos))
  {
    assert Sized(st);
    hide Leads, Shape, PubNext;
    end := Moves(st, p, u, PutWord(u.i, Idx(st.cfg, u.pos), w));
    PutSame(st.ents.metas, u.i, Idx(st.cfg, u.pos));
  }

  /** A step that ends the publisher's business with the ring. */
  lemma Ends(st: State, p: nat, x: nat) returns (end: State)
    requires Shape(st) && p < |st.pubs| && Busy(st.pubs[p]) && InLoop(st.pubs[p]) && PubShape(st.cfg, st.pubs[p])
    requires var u := st.pubs[p];
             PubNext(st, p, Lonely(u)) == PubMove(NextRing(st.cfg, u.(excess := x)), PutFlight(u.i, Sub32(st.rings.flight[u.i], 1)))
    ensures Ready(end, p) && end.ents.log == st.ents.log
    ensures var u := st.pubs[p]; Finishes(st, end, p, x, WordAt(st, u.i, u.pos), MetaAt(st, u.i, u.pos))
  {
    assert Sized(st);
    hide Leads, Shape, PubNext, Sub32;
    var u := st.pubs[p];
    end := Moves(st, p, NextRing(st.cfg, u.(excess := x)), PutFlight(u.i, Sub32(st.rings.flight[u.i], 1)));
    LeavesSame(st, end, u.i, u.pos);
    hide Leaves;
  }

  /** An entry that cannot be locked: the attempts run out. */
  lemma {:induction false} Fails(st: State, p: nat) returns (end: State)
    requires Here(st, p, PTry)
    requires var u := st.pubs[p];
             var w := WordAt(st, u.i, u.pos); !Lockable(st.cfg, w, u.pos) && (u.seen == w || Lockable(st.cfg, u.seen, u.pos))
    ensures Here(end, p, PHeal) && end.ents.log == st.ents.log
    ensures var u, v := st.pubs[p], end.pubs[p];
            v.stable == u.stable && v.last == u.last && Stays(st, end, p, WordAt(st, u.i, u.pos), MetaAt(st, u.i, u.pos))
    decreases LOCK_ATTEMPTS - st.pubs[p].tries
  {
    assert Sized(st);
    hide Leads, Shape, PubNext, PrevSeq, Stays;
    var u := st.pubs[p];
    var w, m := WordAt(st, u.i, u.pos), MetaAt(st, u.i, u.pos);
    TryMoves(st, p);
    if u.tries >= LOCK_ATTEMPTS || !(Lockable(st.cfg, u.seen, u.pos) || u.seen.Locked()) {
      end := Waits(st, p, u.(pc := PHeal), Load);
    } else {
      var a := Waits(st, p, u.(seen := w, tries := u.tries + 1), Load);
      StaysThere(st, a, p, w, m);
      end := Fails(a, p);
      StaysOn(st, a, end, p, w, m, w, m);
    }
  }

  /** An entry as its predecessor left it is locked. */
  lemma Locks(st: State, p: nat) returns (end: State)
    requires Here(st, p, PTry)
    requires var u := st.pubs[p];
             var w := WordAt(st, u.i, u.pos);
             Lockable(st.cfg, w, u.pos) && Lockable(st.cfg, u.seen, u.pos) && (u.tries == 0 || (u.tries == 1 && u.seen == w))
    ensures Here(end, p, PRecheck) && end.ents.log == st.ents.log
    ensures var u := st.pubs[p]; Stays(st, end, p, Lock(u.pos), MetaAt(st, u.i, u.pos))
    decreases 1 - st.pubs[p].tries
  {
    assert Sized(st);
    hide Leads, Shape, PubNext, PrevSeq, Stays;
    var u := st.pubs[p];
    var w, m := WordAt(st, u.i, u.pos), MetaAt(st, u.i, u.pos);
    TryMoves(st, p);
    if w == u.seen {
      end := Writes(st, p, u.(pc := PRecheck), Lock(u.pos));
    } else {
      var a := Waits(st, p, u.(seen := w, tries := u.tries + 1), Load);
      StaysThere(st, a, p, w, m);
      end := Locks(a, p);
      StaysOn(st, a, end, p, w, m, Lock(u.pos), m);
    }
  }

  /** The end of a lost delivery. */
  lemma Abandons(st: State, p: nat) returns (end: State)
    requires Here(st, p, PAbandon)
    ensures Ready(end, p) && end.ents.log == st.ents.log
    ensures var u := st.pubs[p]; Finishes(st, end, p, u.excess + 1, WordAt(st, u.i, u.pos), MetaAt(st, u.i, u.pos))
  {
    AbandonMoves(st, p);
    hide PubNext, Shape, Finishes;
    end := Ends(st, p, st.pubs[p].excess + 1);
  }

  /** self_repair leaves residue as the skip marker of this position, and a newer word as it is. */
  lemma Mends(st: State, p: nat) returns (end: State)
    requires p < |st.pubs| && Sized(st) && st.pubs[p].i < st.cfg.maxSubs
    requires Here(st, p, PHeal)
    requires var u := st.pubs[p];
             var w := WordAt(st, u.i, u.pos);
             && !Lockable(st.cfg, w, u.pos)
             && u.stable == (u.pos >= st.cfg.cap && w.Locked()) && (u.stable ==> u.last == w)
    ensures Ready(end, p) && end.ents.log == st.ents.log
    ensures var u := st.pubs[p];
            Finishes(st, end, p, u.excess + 1, After(st.cfg, WordAt(st, u.i, u.pos), u.pos), MetaAt(st, u.i, u.pos))
  {
    hide *;
    var u := st.pubs[p];
    var w, m := WordAt(st, u.i, u.pos), MetaAt(st, u.i, u.pos);
    var a := Judges(st, p);
    StaysThere(st, a, p, w, m);
    if a.pubs[p].pc == PHealCas {
      end := Steals(a, p);
      StaysThen(st, a, end, p, u.excess + 1, w, m, Word.Skip(u.pos + 1), m);
    } else {
      end := Abandons(a, p);
      StaysThen(st, a, end, p, u.excess + 1, w, m, w, m);
    }
  }

  /** The look that decides: residue of this wrap's past, or something newer. */
  lemma Judges(st: State, p: nat) returns (end: State)
    requires Here(st, p, PHeal)
    requires var u := st.pubs[p];
             var w := WordAt(st, u.i, u.pos);
             && !Lockable(st.cfg, w, u.pos)
             && u.stable == (u.pos >= st.cfg.cap && w.Locked()) && (u.stable ==> u.last == w)
    ensures p < |end.pubs| && end.ents.log == st.ents.log
    ensures var u := st.pubs[p];
            var w := WordAt(st, u.i, u.pos);
      && Stays(st, end, p, w, MetaAt(st, u.i, u.pos)) && end.pubs[p].seen == w
      && (if end.pubs[p].pc == PHealCas then Here(end, p, PHealCas) else Here(end, p, PAbandon))
      && After(st.cfg, w, u.pos) == if end.pubs[p].pc == PHealCas then Word.Skip(u.pos + 1) else w
  {
    var u := st.pubs[p];
    var w := WordAt(st, u.i, u.pos);
    HealMoves(st, p);
    hide PubNext, Shape, Stays, PrevSeq, Idx;
    end := Waits(st, p, u.(seen := w, pc := if Mendable(st.cfg, w, u.pos) then PHealCas else PAbandon), Load);
  }

  lemma Steals(st: State, p: nat) returns (end: State)
    requires p < |st.pubs| && Sized(st) && st.pubs[p].i < st.cfg.maxSubs
    requires Here(st, p, PHealCas) && WordAt(st, st.pubs[p].i, st.pubs[p].pos) == st.pubs[p].seen
    ensures Ready(end, p) && end.ents.log == st.ents.log
    ensures var u := st.pubs[p]; Finishes(st, end, p, u.excess + 1, Word.Skip(u.pos + 1), MetaAt(st, u.i, u.pos))
  {
    hide *;
    var u := st.pubs[p];
    var m := MetaAt(st, u.i, u.pos);
    var a := StealsLock(st, p);
    StaysThere(st, a, p, Repair(u.pos), m);
    end := Marks(a, p);
    StaysThen(st, a, end, p, u.excess + 1, Repair(u.pos), m, Word.Skip(u.pos + 1), m);
  }

  lemma StealsLock(st: State, p: nat) returns (end: State)
    requires Here(st, p, PHealCas) && WordAt(st, st.pubs[p].i, st.pubs[p].pos) == st.pubs[p].seen
    ensures Here(end, p, PHealStore) && end.ents.log == st.ents.log
    ensures Stays(st, end, p, Repair(st.pubs[p].pos), MetaAt(st, st.pubs[p].i, st.pubs[p].pos))
  {
    StealMoves(st, p);
    hide PubNext, Shape, Stays, Idx;
    end := Writes(st, p, st.pubs[p].(pc := PHealStore), Repair(st.pubs[p].pos));
  }

  lemma Marks(st: State, p: nat) returns (end: State)
    requires p < |st.pubs| && Sized(st) && st.pubs[p].i < st.cfg.maxSubs
    requires Here(st, p, PHealStore)
    ensures Ready(end, p) && end.ents.log == st.ents.log
    ensures var u := st.pubs[p]; Finishes(st, end, p, u.excess + 1, Word.Skip(u.pos + 1), MetaAt(st, u.i, u.pos))
  {
    hide *;
    var u := st.pubs[p];
    var m := MetaAt(st, u.i, u.pos);
    var a := MarksEntry(st, p);
    StaysThere(st, a, p, Word.Skip(u.pos + 1), m);
    end := Abandons(a, p);
    StaysThen(st, a, end, p, u.excess + 1, Word.Skip(u.pos + 1), m, Word.Skip(u.pos + 1), m);
  }

  lemma MarksEntry(st: State, p: nat) returns (end: State)
    requires Here(st, p, PHealStore)
    ensures Here(end, p, PAbandon) && end.ents.log == st.ents.log
    ensures Stays(st, end, p, Word.Skip(st.pubs[p].pos + 1), MetaAt(st, st.pubs[p].i, st.pubs[p].pos))
  {
    MarkMoves(st, p);
    hide PubNext, Shape, Stays, Idx;
    end := Writes(st, p, st.pubs[p].(pc := PAbandon), Word.Skip(st.pubs[p].pos + 1));
  }

  /** The claim CAS. */
  lemma Claims(st: State, p: nat) returns (end: State)
    requires Here(st, p, PTake) && MetaAt(st, st.pubs[p].i, st.pubs[p].pos).tag <= st.pubs[p].pos
    ensures Here(end, p, PEvict) || Here(end, p, PCommit)
    ensures var u := st.pubs[p];
      && Stays(st, end, p, WordAt(st, u.i, u.pos), Meta(u.pos + 1, Some(u.slot)))
      && u.slot < st.cfg.pool && end.ents.log == st.ents.log[Place(u.i, u.pos) := Offer(st, p, u)]
  {
    assert Sized(st);
    hide Leads, Shape, PubNext;
    var u, i := st.pubs[p], Idx(st.cfg, st.pubs[p].pos);
    var m := MetaAt(st, u.i, u.pos);
    TakeMoves(st, p);
    end := Moves(st, p, if m.slot.Some? then u.(pc := PEvict, prev := m.slot.value) else u.(pc := PCommit),
                 Claim(u.i, i, u.pos, Offer(st, p, u)));
    PutSame(st.ents.seqs, u.i, i);
  }

  /** The release of the evicted claim. */
  lemma Evicts(st: State, p: nat) returns (end: State)
    requires Here(st, p, PEvict)
    ensures Here(end, p, PCommit) && end.ents.log == st.ents.log
    ensures var u := st.pubs[p]; Stays(st, end, p, WordAt(st, u.i, u.pos), MetaAt(st, u.i, u.pos))
  {
    assert Sized(st);
    hide Leads, Shape, PubNext, Stays, Sub32;
    var u := st.pubs[p];
    var w, m := WordAt(st, u.i, u.pos), MetaAt(st, u.i, u.pos);
    EvictMoves(st, p);
    if st.pool.rc[u.prev] == 1 {
      var a := Waits(st, p, u.(pc := PEvictPush), PutRc(u.prev, Sub32(st.pool.rc[u.prev], 1)));
      StaysThere(st, a, p, w, m);
      EvictPushMoves(a, p);
      end := Waits(a, p, u.(pc := PCommit), Push(u.prev));
      StaysOn(st, a, end, p, w, m, w, m);
    } else {
      end := Waits(st, p, u.(pc := PCommit), PutRc(u.prev, Sub32(st.pool.rc[u.prev], 1)));
    }
  }

  /** The commit, and the release of the admission. */
  lemma Commits(st: State, p: nat) returns (end: State)
    requires p < |st.pubs| && Sized(st) && st.pubs[p].i < st.cfg.maxSubs
    requires Here(st, p, PCommit) && WordAt(st, st.pubs[p].i, st.pubs[p].pos) == Lock(st.pubs[p].pos)
    ensures Ready(end, p) && end.ents.log == st.ents.log
    ensures var u := st.pubs[p]; Finishes(st, end, p, u.excess, Plain(u.pos + 1), MetaAt(st, u.i, u.pos))
  {
    hide *;
    var u := st.pubs[p];
    var m := MetaAt(st, u.i, u.pos);
    var a := CommitsWord(st, p);
    StaysThere(st, a, p, Plain(u.pos + 1), m);
    end := Releases(a, p);
    StaysThen(st, a, end, p, u.excess, Plain(u.pos + 1), m, Plain(u.pos + 1), m);
  }

  lemma CommitsWord(st: State, p: nat) returns (end: State)
    requires Here(st, p, PCommit) && WordAt(st, st.pubs[p].i, st.pubs[p].pos) == Lock(st.pubs[p].pos)
    ensures Here(end, p, PRelease) && end.ents.log == st.ents.log
    ensures Stays(st, end, p, Plain(st.pubs[p].pos + 1), MetaAt(st, st.pubs[p].i, st.pubs[p].pos))
  {
    CommitMoves(st, p);
    hide PubNext, Shape, Stays, Idx;
    end := Writes(st, p, st.pubs[p].(pc := PRelease), Plain(st.pubs[p].pos + 1));
  }

  lemma Releases(st: State, p: nat) returns (end: State)
    requires Here(st, p, PRelease)
    ensures Ready(end, p) && end.ents.log == st.ents.log
    ensures var u := st.pubs[p]; Finishes(st, end, p, u.excess, WordAt(st, u.i, u.pos), MetaAt(st, u.i, u.pos))
  {
    ReleaseMoves(st, p);
    assert st.pubs[p].(excess := st.pubs[p].excess) == st.pubs[p];
    hide PubNext, Shape, Finishes, Idx;
    end := Ends(st, p, st.pubs[p].excess);
  }

  /** From the lock to the next ring. */
  lemma Delivers(st: State, p: nat) returns (end: State)
    requires p < |st.pubs| && Sized(st) && st.pubs[p].i < st.cfg.maxSubs && st.pubs[p].slot < st.cfg.pool
    requires Here(st, p, PRecheck) && WordAt(st, st.pubs[p].i, st.pubs[p].pos) == Lock(st.pubs[p].pos)
    requires MetaAt(st, st.pubs[p].i, st.pubs[p].pos).tag <= st.pubs[p].pos
    ensures Ready(end, p)
    ensures var u := st.pubs[p];
      && Finishes(st, end, p, u.excess, Plain(u.pos + 1), Meta(u.pos + 1, Some(u.slot)))
      && u.slot < st.cfg.pool && end.ents.log == st.ents.log[Place(u.i, u.pos) := Offer(st, p, u)]
  {
    hide *;
    var u := st.pubs[p];
    var w, m, m' := Lock(u.pos), MetaAt(st, u.i, u.pos), Meta(u.pos + 1, Some(u.slot));
    var a := Rechecks(st, p);
    StaysThere(st, a, p, w, m);
    SameOffer(st, a, p, w, m);
    var b := Claims(a, p);
    StaysThere(a, b, p, w, m');
    StaysOn(st, a, b, p, w, m, w, m');
    end := AfterClaim(b, p);
    StaysThen(st, b, end, p, u.excess, w, m', Plain(u.pos + 1), m');
  }

  lemma Rechecks(st: State, p: nat) returns (end: State)
    requires Here(st, p, PRecheck) && WordAt(st, st.pubs[p].i, st.pubs[p].pos) == Lock(st.pubs[p].pos)
    ensures Here(end, p, PTake) && end.ents.log == st.ents.log
    ensures Stays(st, end, p, Lock(st.pubs[p].pos), MetaAt(st, st.pubs[p].i, st.pubs[p].pos))
  {
    RecheckMoves(st, p);
    hide PubNext, Shape, Stays, Idx;
    end := Waits(st, p, st.pubs[p].(pc := PTake), Load);
  }

  lemma AfterClaim(st: State, p: nat) returns (end: State)
    requires p < |st.pubs| && Sized(st) && st.pubs[p].i < st.cfg.maxSubs
    requires (Here(st, p, PEvict) || Here(st, p, PCommit)) && WordAt(st, st.pubs[p].i, st.pubs[p].pos) == Lock(st.pubs[p].pos)
    ensures Ready(end, p) && end.ents.log == st.ents.log
    ensures var u := st.pubs[p]; Finishes(st, end, p, u.excess, Plain(u.pos + 1), MetaAt(st, u.i, u.pos))
  {
    if st.pubs[p].pc == PEvict { end := Seals(st, p); } else { end := Commits(st, p); }
  }

  /** From a claim with something to evict to the next ring. */
  lemma Seals(st: State, p: nat) returns (end: State)
    requires p < |st.pubs| && Sized(st) && st.pubs[p].i < st.cfg.maxSubs
    requires Here(st, p, PEvict)
    requires WordAt(st, st.pubs[p].i, st.pubs[p].pos) == Lock(st.pubs[p].pos)
    ensures Ready(end, p) && end.ents.log == st.ents.log
    ensures var u := st.pubs[p]; Finishes(st, end, p, u.excess, Plain(u.pos + 1), MetaAt(st, u.i, u.pos))
  {
    hide *;
    assert Sized(st) && st.pubs[p].i < st.cfg.maxSubs;
    var u := st.pubs[p];
    var w, m := Lock(u.pos), MetaAt(st, u.i, u.pos);
    var a := Evicts(st, p);
    StaysThere(st, a, p, w, m);
    end := Commits(a, p);
    StaysThen(st, a, end, p, u.excess, w, m, Plain(u.pos + 1), m);
  }

  lemma SameOffer(st: State, a: State, p: nat, w: Word, m: Meta)
    requires Stays(st, a, p, w, m) && Sized(st) && st.pubs[p].slot < st.cfg.pool
    ensures Sized(a) && a.cfg == st.cfg && Offer(a, p, a.pubs[p]) == Offer(st, p, st.pubs[p])
  {
  }
}
