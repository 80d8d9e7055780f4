/**
A subscriber left alone: what a receive returns, and what it takes to read a ring to its end.
*/
module ChannelReceive {
  import opened ChannelModel
  import opened ChannelShape
  import opened ChannelLosses

  /** `n` steps of subscriber `a` lead from `st` to `end`. */
  ghost predicate Alone(st: State, a: nat, n: nat, end: State)
    decreases n
  {
    if n == 0 then end == st
    else Shape(st) && SubReady(st, a, Go) && Alone(SubTo(st, a, Go), a, n - 1, end)
  }

  ghost predicate Leads(st: State, a: nat, end: State) { exists n :: Alone(st, a, n, end) }

  lemma AloneHead(st: State, a: nat, n: nat, end: State) returns (next: State)
    requires n > 0 && Alone(st, a, n, end)
    ensures Alone(next, a, n - 1, end)
    ensures forall m: nat, last: State :: Alone(next, a, m, last) ==> Alone(st, a, m + 1, last)
  {
    next := SubTo(st, a, Go);
    hide Shape, SubReady, SubTo;
  }

  lemma {:induction false} AloneOn(st: State, a: nat, n: nat, mid: State, m: nat, end: State)
    requires Alone(st, a, n, mid) && Alone(mid, a, m, end)
    ensures Alone(st, a, n + m, end)
    decreases n
  {
    hide *;
    if n == 0 {
      AloneAtRest(st, a, mid);
    } else {
      var next := AloneHead(st, a, n, mid);
      AloneOn(next, a, n - 1, mid, m, end);
    }
  }

  lemma LeadsOn(st: State, a: nat, mid: State, end: State)
    requires Leads(st, a, mid) && Leads(mid, a, end)
    ensures Leads(st, a, end)
  {
    var n :| Alone(st, a, n, mid);
    var m :| Alone(mid, a, m, end);
    AloneOn(st, a, n, mid, m, end);
  }

  lemma LeadsNowhere(st: State, a: nat)
    ensures Leads(st, a, st)
  {
    assert Alone(st, a, 0, st);
  }

  lemma AloneAtRest(st: State, a: nat, end: State)
    requires Alone(st, a, 0, end)
    ensures end == st
  {
  }

  lemma RunOn(states: seq<State>, steps: seq<Step>, a: nat, n: nat, end: State) returns (longer: seq<State>, more: seq<Step>)
    requires Run(states, steps) && n > 0 && Alone(states[|steps|], a, n, end)
    ensures |longer| == |more| + 1 && Run(longer, more) && |more| == |steps| + 1 && steps <= more && more[|steps|] == SubStep(a, Go)
    ensures Alone(longer[|more|], a, n - 1, end)
  {
    var st := states[|steps|];
    var st' := SubTo(st, a, Go);
    assert Next(st, SubStep(a, Go), st') && Alone(st', a, n - 1, end);
    hide Next, Init, SubReady, SubTo, Alone;
    longer, more := states + [st'], steps + [SubStep(a, Go)];
    forall i | 0 <= i < |more| ensures Next(longer[i], more[i], longer[i + 1]) {
      if i < |steps| { assert Next(states[i], steps[i], states[i + 1]); }
    }
  }

  /** What a subscriber does alone is a continuation of any run that leads there. */
  lemma {:induction false} AloneRuns(states: seq<State>, steps: seq<Step>, a: nat, n: nat, end: State)
      returns (longer: seq<State>, more: seq<Step>)
    requires |states| == |steps| + 1 && Run(states, steps) && Alone(states[|steps|], a, n, end)
    ensures |longer| == |more| + 1 && Run(longer, more) && longer[|more|] == end && steps <= more
    ensures forall i :: |steps| <= i < |more| ==> more[i] == SubStep(a, Go)
    decreases n
  {
    hide *;
    if n == 0 {
      AloneAtRest(states[|steps|], a, end);
      longer, more := states, steps;
    } else {
      longer, more := RunOn(states, steps, a, n, end);
      longer, more := AloneRuns(longer, more, a, n - 1, end);
    }
  }

  // ----- single steps -----

  /** Subscriber `a` is alive and attached, at this program counter. */
  ghost predicate Here(st: State, a: nat, pc: SubPc) {
    && Shape(st) && a < |st.subs| && a !in st.dead && st.subs[a].pc == pc && SubShape(st.cfg, st.subs[a])
    && st.subs[a].ring < st.cfg.maxSubs
  }

  lemma Moves(st: State, a: nat, pc: SubPc, u: Sub, acc: Access) returns (end: State)
    requires Here(st, a, pc) && SubEnabled(st, st.subs[a], Go) && SubNext(st, a, Go) == SubMove(u, acc)
    requires acc.Load? || acc.PutRc? || acc.NewView?
    ensures InRange(st.cfg, acc) && Leads(st, a, end) && Shape(end) && SubShape(st.cfg, u)
    ensures end == st.(subs := st.subs[a := u], pool := AccessPool(st.pool, acc),
                       views := if acc.NewView? then st.views + [acc.v] else st.views)
  {
    InBounds(st, SubStep(a, Go));
    end := SubTo(st, a, Go);
    KeepsShape(st, SubStep(a, Go), end);
    hide SubNext, Shape;
    assert Alone(end, a, 0, end);
    assert Alone(st, a, 1, end);
  }

  /** Only the subscriber's own fields, refcounts and views differ. */
  predicate Same(st: State, end: State, a: nat) {
    && a < |st.subs| == |end.subs| && |end.pool.rc| == |st.pool.rc|
    && end == st.(subs := st.subs[a := end.subs[a]], pool := st.pool.(rc := end.pool.rc), views := end.views)
  }

  /** The counters that a receive moves: read_pos_, lost_ and the views given out. */
  predicate Counted(u: Sub, v: Sub, read: nat, lost: nat, got: nat) {
    && v.ring == u.ring && v.start == u.start && v.first == u.first
    && v.read == read && v.lost == lost && v.got == got
  }

  // ----- one position -----

  /** The subscriber is about to look at the word of position `u.read`, which is in the window. */
  ghost predicate Looking(st: State, a: nat) {
    && Here(st, a, SSeq) && Sized(st)
    && var u := st.subs[a]; u.read < st.rings.wpos[u.ring] <= u.read + st.cfg.cap
  }

  function ViewOf(st: State, a: nat, r: nat, q: nat): View
    requires Sized(st) && r < st.cfg.maxSubs && Deliverable(st, r, q)
  {
    var s := MetaAt(st, r, q).slot.value;
    View(VHeld, a, r, q, s, st.pool.len[s])
  }

  lemma Blocks(st: State, a: nat) returns (end: State)
    requires Looking(st, a) && Blocking(WordAt(st, st.subs[a].ring, st.subs[a].read), st.subs[a].read)
    ensures Leads(st, a, end) && Here(end, a, SReady) && end == st.(subs := st.subs[a := st.subs[a].(pc := SReady)])
  {
    var u := st.subs[a];
    hide Leads, Shape;
    end := Moves(st, a, SSeq, u.(pc := SReady), Load);
  }

  /** A committed word: on to the claim. */
  lemma Commits(st: State, a: nat) returns (end: State)
    requires Looking(st, a) && WordAt(st, st.subs[a].ring, st.subs[a].read) == Plain(st.subs[a].read + 1)
    ensures Leads(st, a, end) && Here(end, a, SMeta) && end == st.(subs := st.subs[a := st.subs[a].(pc := SMeta)])
  {
    var u := st.subs[a];
    hide Leads, Shape;
    end := Moves(st, a, SSeq, u.(pc := SMeta), Load);
  }

  lemma Claimed(st: State, a: nat, s: nat) returns (end: State)
    requires Here(st, a, SMeta) && Sized(st) && s < st.cfg.pool
    requires MetaAt(st, st.subs[a].ring, st.subs[a].read) == Meta(st.subs[a].read + 1, Some(s))
    ensures Leads(st, a, end) && Here(end, a, SPin) && end == st.(subs := st.subs[a := st.subs[a].(pc := SPin, slot := s)])
  {
    var u := st.subs[a];
    hide Leads, Shape;
    end := Moves(st, a, SMeta, u.(pc := SPin, slot := s), Load);
  }

  lemma Pins(st: State, a: nat) returns (end: State)
    requires Here(st, a, SPin) && Sized(st) && st.subs[a].slot < st.cfg.pool && 0 < st.pool.rc[st.subs[a].slot] < UINT32_MAX
    requires WordAt(st, st.subs[a].ring, st.subs[a].read) == Plain(st.subs[a].read + 1)
    ensures var u := st.subs[a];
      && Leads(st, a, end) && Here(end, a, SLen)
      && end == st.(subs := st.subs[a := u.(pc := SLen)], pool := st.pool.(rc := st.pool.rc[u.slot := st.pool.rc[u.slot] + 1]))
  {
    var u := st.subs[a];
    hide Leads, Shape;
    var b := Moves(st, a, SPin, u.(pc := SCheck), PutRc(u.slot, st.pool.rc[u.slot] + 1));
    end := Checks(b, a);
    LeadsOn(st, a, b, end);
  }

  lemma Checks(st: State, a: nat) returns (end: State)
    requires Here(st, a, SCheck) && Sized(st)
    requires WordAt(st, st.subs[a].ring, st.subs[a].read) == Plain(st.subs[a].read + 1)
    ensures Leads(st, a, end) && Here(end, a, SLen) && end == st.(subs := st.subs[a := st.subs[a].(pc := SLen)])
  {
    var u := st.subs[a];
    hide Leads, Shape;
    end := Moves(st, a, SCheck, u.(pc := SLen), Load);
  }

  lemma Gives(st: State, a: nat) returns (end: State)
    requires Here(st, a, SLen) && Sized(st) && st.subs[a].slot < st.cfg.pool && st.pool.len[st.subs[a].slot] <= st.cfg.dataSize
    ensures var u := st.subs[a];
      && Leads(st, a, end) && Here(end, a, SReady)
      && end == st.(subs := st.subs[a := u.(pc := SReady, read := u.read + 1, got := u.got + 1)],
                    views := st.views + [View(VHeld, a, u.ring, u.read, u.slot, st.pool.len[u.slot])])
  {
    var u := st.subs[a];
    hide Leads, Shape;
    end := Moves(st, a, SLen, u.(pc := SReady, read := u.read + 1, got := u.got + 1),
                 NewView(View(VHeld, a, u.ring, u.read, u.slot, st.pool.len[u.slot])));
  }

  lemma DeliversSlot(st: State, a: nat, s: nat) returns (end: State)
    requires Looking(st, a) && a < |st.subs| && Sized(st) && st.subs[a].ring < st.cfg.maxSubs && s < st.cfg.pool
    requires WordAt(st, st.subs[a].ring, st.subs[a].read) == Plain(st.subs[a].read + 1)
    requires MetaAt(st, st.subs[a].ring, st.subs[a].read) == Meta(st.subs[a].read + 1, Some(s))
    requires 0 < st.pool.rc[s] < UINT32_MAX && st.pool.len[s] <= st.cfg.dataSize
    ensures var u := st.subs[a];
      && Leads(st, a, end) && Here(end, a, SReady)
      && end == st.(subs := st.subs[a := u.(pc := SReady, slot := s, read := u.read + 1, got := u.got + 1)],
                    pool := st.pool.(rc := st.pool.rc[s := st.pool.rc[s] + 1]),
                    views := st.views + [View(VHeld, a, u.ring, u.read, s, st.pool.len[s])])
  {
    hide Shape, Looking, Leads, Idx, Here;
    var b := Commits(st, a);
    var c := Claimed(b, a, s);
    var d := Pins(c, a);
    end := Gives(d, a);
    LeadsOn(st, a, b, c);
    LeadsOn(st, a, c, d);
    LeadsOn(st, a, d, end);
  }

  /** A deliverable position is delivered, and its slot pinned. */
  lemma Delivers(st: State, a: nat) returns (end: State)
    requires Looking(st, a) && Deliverable(st, st.subs[a].ring, st.subs[a].read)
    ensures var u := st.subs[a];
            var v := ViewOf(st, a, u.ring, u.read);
      && Leads(st, a, end) && Here(end, a, SReady) && Same(st, end, a) && v.slot < |st.pool.rc|
      && Counted(u, end.subs[a], u.read + 1, u.lost, u.got + 1)
      && end.views == st.views + [v] && end.pool.rc == st.pool.rc[v.slot := st.pool.rc[v.slot] + 1]
  {
    end := DeliversSlot(st, a, MetaAt(st, st.subs[a].ring, st.subs[a].read).slot.value);
    hide Leads, Shape, Idx;
  }

  /** The position is counted lost and the loop goes round. */
  ghost predicate Loses(st: State, end: State, a: nat) {
    && a < |st.subs| && Leads(st, a, end) && Here(end, a, SRx) && Same(st, end, a)
    && end.views == st.views && end.pool == st.pool
    && var u, v := st.subs[a], end.subs[a]; Counted(u, v, u.read + 1, u.lost + 1, u.got) && v.tries == u.tries + 1
  }

  lemma LosesLater(st: State, mid: State, end: State, a: nat)
    requires a < |st.subs| && Leads(st, a, mid) && Loses(mid, end, a)
    requires mid == st.(subs := st.subs[a := mid.subs[a]]) && |mid.subs| == |st.subs|
    requires var u, v := st.subs[a], mid.subs[a]; Counted(u, v, u.read, u.lost, u.got) && v.tries == u.tries
    ensures Loses(st, end, a)
  {
    LeadsOn(st, a, mid, end);
    hide Leads;
  }

  /** A step that passes over the position. */
  lemma Skips(st: State, a: nat, pc: SubPc) returns (end: State)
    requires Here(st, a, pc) && SubEnabled(st, st.subs[a], Go) && SubNext(st, a, Go) == SubMove(Skipped(st.subs[a]), Load)
    ensures Loses(st, end, a)
  {
    hide Leads, Shape, SubNext;
    end := Moves(st, a, pc, Skipped(st.subs[a]), Load);
  }

  lemma Passes(st: State, a: nat) returns (end: State)
    requires Looking(st, a) && var u := st.subs[a]; var w := WordAt(st, u.ring, u.read); !Blocking(w, u.read) && w != Plain(u.read + 1)
    ensures Loses(st, end, a)
  {
    assert SubNext(st, a, Go) == SubMove(Skipped(st.subs[a]), Load);
    hide SubNext, Loses, Shape;
    end := Skips(st, a, SSeq);
  }

  lemma Unclaims(st: State, a: nat) returns (end: State)
    requires Here(st, a, SMeta) && Sized(st)
    requires var u := st.subs[a];
             var m := MetaAt(st, u.ring, u.read); !(m.tag == u.read + 1 && m.slot.Some? && m.slot.value < st.cfg.pool)
    ensures Loses(st, end, a)
  {
    assert SubNext(st, a, Go) == SubMove(Skipped(st.subs[a]), Load);
    hide SubNext, Loses, Shape;
    end := Skips(st, a, SMeta);
  }

  lemma Unpinned(st: State, a: nat) returns (end: State)
    requires Here(st, a, SPin) && Sized(st) && st.subs[a].slot < st.cfg.pool
    requires st.pool.rc[st.subs[a].slot] == 0 || st.pool.rc[st.subs[a].slot] == UINT32_MAX
    ensures Loses(st, end, a)
  {
    assert SubNext(st, a, Go) == SubMove(Skipped(st.subs[a]), Load);
    hide SubNext, Loses, Shape;
    end := Skips(st, a, SPin);
  }

  /** A claimed slot that cannot be pinned or read. */
  lemma UnpinnedOrLong(st: State, a: nat, s: nat) returns (end: State)
    requires Looking(st, a) && a < |st.subs| && Sized(st) && st.subs[a].ring < st.cfg.maxSubs && s < st.cfg.pool
    requires WordAt(st, st.subs[a].ring, st.subs[a].read) == Plain(st.subs[a].read + 1)
    requires MetaAt(st, st.subs[a].ring, st.subs[a].read) == Meta(st.subs[a].read + 1, Some(s))
    requires !(0 < st.pool.rc[s] < UINT32_MAX) || st.pool.len[s] > st.cfg.dataSize
    requires st.pool.rc[s] <= UINT32_MAX
    ensures Loses(st, end, a)
  {
    hide Shape, Looking, Leads, Idx, Here, Loses;
    var b := Commits(st, a);
    var c := Claimed(b, a, s);
    LeadsOn(st, a, b, c);
    if st.pool.rc[s] == 0 || st.pool.rc[s] == UINT32_MAX {
      end := Unpinned(c, a);
      LosesLater(st, c, end, a);
    } else {
      var d := Pins(c, a);
      LeadsOn(st, a, c, d);
      end := Overlong(st, d, a, s);
    }
  }

  /** The length is beyond the payload: the pin is dropped again. */
  lemma Overlong(st: State, mid: State, a: nat, s: nat) returns (end: State)
    requires a < |st.subs| && Leads(st, a, mid) && Here(mid, a, SLen) && Sized(st) && s < st.cfg.pool
    requires mid == st.(subs := st.subs[a := st.subs[a].(pc := SLen, slot := s)],
                        pool := st.pool.(rc := st.pool.rc[s := st.pool.rc[s] + 1]))
    requires st.pool.rc[s] > 0 && st.pool.len[s] > st.cfg.dataSize
    ensures Loses(st, end, a)
  {
    var u := mid.subs[a];
    var rc := mid.pool.rc[s];
    hide Shape, Leads, Idx;
    var b := Moves(mid, a, SLen, u.(pc := SUnpin), Load);
    end := Unpins(b, a);
    LeadsOn(st, a, mid, b);
    LeadsOn(st, a, b, end);
    assert st.pool.rc[s := rc][s := rc - 1] == st.pool.rc;
  }

  lemma Unpins(st: State, a: nat) returns (end: State)
    requires Here(st, a, SUnpin) && Sized(st) && st.subs[a].slot < st.cfg.pool && st.pool.rc[st.subs[a].slot] > 1
    ensures var u := st.subs[a];
      && Leads(st, a, end) && Here(end, a, SRx)
      && end == st.(subs := st.subs[a := Skipped(u)], pool := st.pool.(rc := st.pool.rc[u.slot := st.pool.rc[u.slot] - 1]))
  {
    var u := st.subs[a];
    hide Shape, Leads;
    end := Moves(st, a, SUnpin, Skipped(u), PutRc(u.slot, Sub32(st.pool.rc[u.slot], 1)));
  }

  /** A position that neither blocks nor can be delivered is lost, and nothing else changes. */
  lemma LosesOne(st: State, a: nat) returns (end: State)
    requires Looking(st, a) && RefsFit(st)
    requires var u := st.subs[a]; !Deliverable(st, u.ring, u.read) && !Blocking(WordAt(st, u.ring, u.read), u.read)
    ensures Loses(st, end, a)
  {
    var u := st.subs[a];
    var w, m := WordAt(st, u.ring, u.read), MetaAt(st, u.ring, u.read);
    if w != Plain(u.read + 1) {
      end := Passes(st, a);
    } else if m.tag == u.read + 1 && m.slot.Some? && m.slot.value < st.cfg.pool {
      end := UnpinnedOrLong(st, a, m.slot.value);
    } else {
      end := CommitsThenUnclaims(st, a);
    }
    hide Loses, Shape;
  }

  lemma CommitsThenUnclaims(st: State, a: nat) returns (end: State)
    requires Looking(st, a) && a < |st.subs| && Sized(st) && st.subs[a].ring < st.cfg.maxSubs
    requires WordAt(st, st.subs[a].ring, st.subs[a].read) == Plain(st.subs[a].read + 1)
    requires var u := st.subs[a];
             var m := MetaAt(st, u.ring, u.read); !(m.tag == u.read + 1 && m.slot.Some? && m.slot.value < st.cfg.pool)
    ensures Loses(st, end, a)
  {
    hide Shape, Looking, Leads, Idx, Here, Loses;
    var b := Commits(st, a);
    end := Unclaims(b, a);
    LosesLater(st, b, end, a);
  }

  /** Refcounts are 32-bit words. */
  ghost predicate RefsFit(st: State) {
    forall s :: 0 <= s < |st.pool.rc| ==> st.pool.rc[s] <= UINT32_MAX
  }
}
