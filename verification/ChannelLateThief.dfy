/**
Why (H) is needed.  One ring of one entry: a thief's skip store that comes late moves the
sequence word back, two publishers come to hold the entry at once, and a subscriber is
handed a view whose slot carries another sample.
*/
module ChannelLateThief {
  import opened ChannelModel
  import opened ChannelShape
  import opened ChannelRefs
  import opened ChannelRings

  const CFG: Config := Config(1, 1, 3, 8)

  ghost predicate Reachable(st: State) {
    exists states, steps :: Run(states, steps) && states[|steps|] == st
  }

  /** Three publishers, one subscriber, two thieves, three slots; nobody dies. */
  ghost predicate Small(st: State) {
    && Reachable(st) && Shape(st) && st.cfg == CFG && |st.pubs| == 3 && |st.subs| == 1 && |st.reps| == 2 && st.dead == {}
  }

  /** The ring is Live with `wp` positions taken, and its entry holds word `w` and claim `m`. */
  predicate At(st: State, w: Word, m: Meta, wp: nat) {
    && st.rings.state == [Live] && st.rings.wpos == [wp] && |st.rings.flight| == 1
    && st.ents.seqs == [[w]] && st.ents.metas == [[m]]
    && |st.pool.rc| == |st.pool.len| == |st.pool.data| == 3
  }

  lemma Reach(st: State, step: Step, st': State)
    requires Reachable(st) && Next(st, step, st')
    ensures Reachable(st') && Shape(st')
  {
    hide Next, Init, Shape;
    var states, steps :| Run(states, steps) && states[|steps|] == st;
    var states', steps' := states + [st'], steps + [step];
    forall n | 0 <= n < |steps'| ensures Next(states'[n], steps'[n], states'[n + 1]) {
      if n < |steps| { assert Next(states[n], steps[n], states[n + 1]); }
    }
    assert Run(states', steps');
    RunConserves(states', steps', |steps'|);
  }

  lemma PubGoes(st: State, p: nat, c: Choice) returns (st': State)
    requires Small(st) && p < 3 && PubEnabled(st, st.pubs[p], c)
    ensures Small(st') && st'.pubs == st.pubs[p := PubNext(st, p, c).u] && st'.subs == st.subs && st'.reps == st.reps
    ensures var acc := PubNext(st, p, c).acc;
      && InRange(CFG, acc) && !acc.NewView? && st'.views == st.views
      && st'.pool == AccessPool(st.pool, acc) && st'.rings == AccessRings(st.rings, acc) && st'.ents == AccessEnts(st.ents, acc)
  {
    InBounds(st, PubStep(p, c));
    PubKinds(st, p, c);
    hide PubNext, AccessPool, AccessRings, AccessEnts, Reachable;
    st' := PubTo(st, p, c);
    Reach(st, PubStep(p, c), st');
  }

  lemma SubGoes(st: State, c: Choice) returns (st': State)
    requires Small(st) && SubEnabled(st, st.subs[0], c)
    ensures Small(st') && st'.subs == [SubNext(st, 0, c).u] && st'.pubs == st.pubs && st'.reps == st.reps
    ensures var acc := SubNext(st, 0, c).acc;
      && InRange(CFG, acc) && st'.views == (if acc.NewView? then st.views + [acc.v] else st.views)
      && st'.pool == AccessPool(st.pool, acc) && st'.rings == AccessRings(st.rings, acc) && st'.ents == AccessEnts(st.ents, acc)
  {
    InBounds(st, SubStep(0, c));
    hide SubNext, AccessPool, AccessRings, AccessEnts, Reachable;
    st' := SubTo(st, 0, c);
    Reach(st, SubStep(0, c), st');
  }

  lemma Thief(st: State, k: nat, pos: nat) returns (st': State)
    requires Small(st) && k < 2 && RepEnabled(st, st.reps[k], 0, pos)
    ensures Small(st') && st'.reps == st.reps[k := RepNext(st, k, 0, pos).u]
    ensures st'.pubs == st.pubs && st'.subs == st.subs && st'.pool == st.pool && st'.rings == st.rings && st'.views == st.views
    ensures InRange(CFG, RepNext(st, k, 0, pos).acc) && st'.ents == AccessEnts(st.ents, RepNext(st, k, 0, pos).acc)
  {
    InBounds(st, RepStep(k, 0, pos));
    hide AccessEnts, Reachable;
    st' := RepTo(st, k, 0, pos);
    Reach(st, RepStep(k, 0, pos), st');
  }

  /** The one entry of the one ring. */
  lemma OneEntry(e: Ents, w: Word, m: Meta, w': Word, m': Meta, pos: nat)
    requires e.seqs == [[w]] && e.metas == [[m]]
    ensures Idx(CFG, pos) == 0
    ensures WriteWord(e, 0, 0, w').seqs == [[w']] && WriteWord(e, 0, 0, w').metas == e.metas
    ensures WriteMeta(e, 0, 0, m').metas == [[m']] && WriteMeta(e, 0, 0, m').seqs == e.seqs
    ensures WriteWord(e, 0, 0, w').log == WriteMeta(e, 0, 0, m').log == e.log
  {
    assert [w][0 := w'] == [w'] && [m][0 := m'] == [m'];
    assert [[w]][0 := [w']] == [[w']] && [[m]][0 := [m']] == [[m']];
  }

  // ----- stretches of the run -----

  /** Everything but the pool and publisher `p`. */
  predicate Beside(st: State, end: State, p: nat) {
    && end.subs == st.subs && end.reps == st.reps && end.views == st.views
    && |end.pubs| == |st.pubs| && p < |st.pubs| && end.pubs == st.pubs[p := end.pubs[p]]
  }

  /** allocate a slot, and publish up to the refcount preset. */
  lemma Reserves(st: State, p: nat, s: nat) returns (end: State)
    requires Small(st) && p < 3 && s in st.pool.free && s < 3 && st.pubs[p].pc == PIdle
    requires |st.pool.rc| == |st.pool.len| == |st.pool.data| == 3
    ensures Small(end) && Beside(st, end, p) && end.rings == st.rings && end.ents == st.ents
    ensures end.pool == Pool(st.pool.rc[s := 1], st.pool.len[s := 0], st.pool.data, st.pool.free - {s})
    ensures end.pubs[p] == st.pubs[p].(pc := PCheck, slot := s, i := 0, excess := 0, n := st.pubs[p].n + 1)
    ensures forall x, c, n :: At(st, x, c, n) ==> At(end, x, c, n)
  {
    hide Reachable, Shape;
    var a := PubGoes(st, p, Take(s)); assert a.pubs[p] == st.pubs[p].(pc := PReserved, slot := s, excess := 0);
    var b := PubGoes(a, p, Length(0)); assert b.pubs[p] == a.pubs[p].(pc := PFilled);
    end := PubGoes(b, p, Go);
  }

  /** Admission, and the claim of a position. */
  lemma ClaimsPos(st: State, p: nat, w: Word, m: Meta, wp: nat) returns (end: State)
    requires Small(st) && At(st, w, m, wp) && p < 3 && st.pubs[p].pc == PCheck && st.pubs[p].i == 0
    ensures Small(end) && At(end, w, m, wp + 1) && Beside(st, end, p) && end.pool == st.pool && end.ents == st.ents
    ensures end.pubs[p] == st.pubs[p].(pc := if wp == 0 then PTry else PWait, pos := wp, seen := Plain(0),
                                       last := Plain(0), stable := false, tries := 0)
  {
    hide Reachable, Shape;
    var a := PubGoes(st, p, Go); assert a.pubs[p] == st.pubs[p].(pc := PAdmit);
    var b := PubGoes(a, p, Go); assert b.pubs[p] == a.pubs[p].(pc := PClaim);
    end := PubGoes(b, p, Go);
  }

  /** The lock of position 0, on the entry as stamped. */
  lemma LocksFirst(st: State, p: nat, m: Meta, wp: nat) returns (end: State)
    requires Small(st) && At(st, Plain(0), m, wp) && p < 3 && st.pubs[p].pc == PTry && st.pubs[p].i == 0
    requires st.pubs[p].pos == 0 && st.pubs[p].tries == 0 && st.pubs[p].seen == Plain(0)
    ensures Small(end) && At(end, Lock(0), m, wp) && Beside(st, end, p) && end.pool == st.pool && end.ents.log == st.ents.log
  {
    hide Reachable, Shape;
    OneEntry(st.ents, Plain(0), m, Lock(0), m, 0);
    end := PubGoes(st, p, Go);
  }

  /** wait_for_commit finds the predecessor's word, and the position is locked and rechecked. */
  lemma Locks(st: State, p: nat, w: Word, m: Meta, wp: nat) returns (end: State)
    requires Small(st) && At(st, w, m, wp) && p < 3 && st.pubs[p].pc == PWait && st.pubs[p].i == 0
    requires st.pubs[p].pos > 0 && st.pubs[p].tries == 0 && !w.Locked() && w.Pos() == st.pubs[p].pos
    ensures Small(end) && At(end, Lock(st.pubs[p].pos), m, wp) && Beside(st, end, p) && end.pool == st.pool
    ensures end.ents.log == st.ents.log
    ensures end.pubs[p] == st.pubs[p].(pc := PTake, seen := w, last := w, stable := false)
  {
    hide Reachable, Shape;
    var pos := st.pubs[p].pos;
    OneEntry(st.ents, w, m, Lock(pos), m, pos);
    var a := PubGoes(st, p, Go); assert a.pubs[p] == st.pubs[p].(pc := PTry, seen := w, last := w, stable := false);
    assert PrevSeq(CFG, pos) == pos;
    var b := PubGoes(a, p, Go); assert b.pubs[p] == a.pubs[p].(pc := PRecheck) && At(b, Lock(pos), m, wp);
    end := PubGoes(b, p, Go);
  }

  /** The claim CAS: nothing to evict, or slot `m.slot` now owed a release. */
  lemma Takes(st: State, p: nat, w: Word, m: Meta, wp: nat) returns (end: State)
    requires p < |st.pubs| && Small(st) && st.pubs[p].pc == PTake && st.pubs[p].i == 0
    requires At(st, w, m, wp) && m.tag < st.pubs[p].pos + 1 && st.pubs[p].slot < 3
    ensures var u := st.pubs[p];
      && Small(end) && At(end, w, Meta(u.pos + 1, Some(u.slot)), wp) && Beside(st, end, p) && end.pool == st.pool
      && end.pubs[p] == (if m.slot.Some? then u.(pc := PEvict, prev := m.slot.value) else u.(pc := PCommit))
      && end.ents.log == st.ents.log[Place(0, u.pos) := Sample(p, u.n, u.slot, st.pool.len[u.slot], st.pool.data[u.slot])]
  {
    hide Reachable, Shape;
    var u := st.pubs[p];
    OneEntry(st.ents, w, m, w, Meta(u.pos + 1, Some(u.slot)), u.pos);
    end := PubGoes(st, p, Go);
  }

  /** The claim of an entry that claims nothing, and the commit. */
  lemma Commits(st: State, p: nat, m: Meta, wp: nat) returns (end: State)
    requires p < |st.pubs| && Small(st) && st.pubs[p].pc == PCommit && st.pubs[p].i == 0 && st.pubs[p].excess == 0
    requires At(st, Lock(st.pubs[p].pos), m, wp)
    ensures Small(end) && At(end, Plain(st.pubs[p].pos + 1), m, wp) && Beside(st, end, p)
    ensures end.pool == st.pool && end.pubs[p].pc == PIdle && end.ents.log == st.ents.log
  {
    hide Reachable, Shape;
    var u := st.pubs[p];
    OneEntry(st.ents, Lock(u.pos), m, Plain(u.pos + 1), m, u.pos);
    var b := PubGoes(st, p, Go); assert b.pubs[p] == u.(pc := PRelease);
    end := PubGoes(b, p, Go);
  }

  /** The release of an evicted claim that was the slot's last reference. */
  lemma Evicts(st: State, p: nat, w: Word, m: Meta, wp: nat) returns (end: State)
    requires p < |st.pubs| && Small(st) && st.pubs[p].pc == PEvict && At(st, w, m, wp)
    requires st.pubs[p].prev < 3 && st.pool.rc[st.pubs[p].prev] == 1 && st.pubs[p].i == 0
    ensures var s := st.pubs[p].prev;
      && Small(end) && At(end, w, m, wp) && Beside(st, end, p) && end.ents == st.ents
      && end.pool == st.pool.(rc := st.pool.rc[s := 0], free := st.pool.free + {s})
  {
    hide Reachable, Shape;
    var a := PubGoes(st, p, Go); assert a.pubs[p] == st.pubs[p].(pc := PEvictPush);
    end := PubGoes(a, p, Go);
  }

  /** allocate a slot and fill it. */
  lemma Fills(st: State, p: nat, s: nat, d: Bytes) returns (end: State)
    requires Small(st) && p < 3 && s in st.pool.free && s < 3 && st.pubs[p].pc == PIdle
    requires |st.pool.rc| == |st.pool.len| == |st.pool.data| == 3
    ensures Small(end) && Beside(st, end, p) && end.rings == st.rings && end.ents == st.ents
    ensures end.pool == Pool(st.pool.rc[s := 1], st.pool.len[s := 0], st.pool.data[s := d], st.pool.free - {s})
    ensures forall x, c, n :: At(st, x, c, n) ==> At(end, x, c, n)
  {
    hide Reachable, Shape;
    var a := PubGoes(st, p, Take(s)); assert a.pubs[p] == st.pubs[p].(pc := PReserved, slot := s, excess := 0);
    var b := PubGoes(a, p, Fill(d)); assert b.pubs[p] == a.pubs[p];
    var c := PubGoes(b, p, Length(0)); assert c.pubs[p] == a.pubs[p].(pc := PFilled);
    end := PubGoes(c, p, Go);
  }

  // ----- thieves -----

  /** A thief steals the lock it has watched, and has yet to store the skip marker. */
  lemma Steals(st: State, k: nat, pos: nat, w: Word, m: Meta, wp: nat) returns (end: State)
    requires Small(st) && At(st, w, m, wp) && k < 2 && st.reps[k] == RIdle && pos < wp && w.Locked()
    ensures Small(end) && At(end, Repair(pos), m, wp) && end.reps == st.reps[k := RMark(0, pos)]
    ensures end.pubs == st.pubs && end.subs == st.subs && end.views == st.views && end.pool == st.pool
    ensures end.ents.log == st.ents.log
  {
    hide Reachable, Shape;
    OneEntry(st.ents, w, m, Repair(pos), m, pos);
    var a := Thief(st, k, pos); assert a.reps[k] == RHave(0, pos, w) && At(a, w, m, wp);
    end := Thief(a, k, pos);
  }

  /** The skip marker, over whatever the word has become. */
  lemma Marks(st: State, k: nat, w: Word, m: Meta, wp: nat) returns (end: State)
    requires Small(st) && At(st, w, m, wp) && k < 2 && st.reps[k].RMark? && st.reps[k].ring == 0
    ensures Small(end) && At(end, Word.Skip(st.reps[k].pos + 1), m, wp) && end.reps == st.reps[k := RIdle]
    ensures end.pubs == st.pubs && end.subs == st.subs && end.views == st.views && end.pool == st.pool
    ensures end.ents.log == st.ents.log
  {
    hide Reachable, Shape;
    OneEntry(st.ents, w, m, Word.Skip(st.reps[k].pos + 1), m, st.reps[k].pos);
    end := Thief(st, k, 0);
  }

  // ----- the subscriber -----

  lemma Attaches(st: State) returns (end: State)
    requires Small(st) && st.subs[0].pc == SDetached
    requires st.rings.state == [Free] && st.rings.flight == [0] && st.rings.wpos == [0] && |st.rings.owner| == 1
    ensures Small(end) && end.rings.state == [Live] && end.rings.wpos == [0] && end.rings.flight == [0]
    ensures end.pubs == st.pubs && end.reps == st.reps && end.views == st.views && end.pool == st.pool && end.ents == st.ents
    ensures end.subs[0].pc == SReady && end.subs[0].ring == 0 && end.subs[0].read == 0
  {
    hide Reachable, Shape;
    var a := SubGoes(st, Take(0)); assert a.subs[0].pc == SClaimLoad && a.subs[0].ring == 0;
    var b := SubGoes(a, Go); assert b.subs[0].pc == SClaimCas && b.subs[0].ring == 0 && b.subs[0].wp == 0;
    var c := Opens(b);
    end := Settles(c);
  }

  lemma Opens(st: State) returns (end: State)
    requires Small(st) && st.subs[0].pc == SClaimCas && st.subs[0].ring == 0 && st.subs[0].wp == 0
    requires st.rings.state == [Free] && st.rings.flight == [0] && st.rings.wpos == [0] && |st.rings.owner| == 1
    ensures Small(end) && end.rings.state == [Live] && end.rings.wpos == [0] && end.rings.flight == [0] && |end.rings.owner| == 1
    ensures end.pubs == st.pubs && end.reps == st.reps && end.views == st.views && end.pool == st.pool && end.ents == st.ents
    ensures end.subs[0].pc == SOwner && end.subs[0].ring == 0 && end.subs[0].start == 0
  {
    hide Reachable, Shape;
    end := SubGoes(st, Go);
  }

  lemma Settles(st: State) returns (end: State)
    requires Small(st) && st.subs[0].pc == SOwner && st.subs[0].ring == 0 && st.subs[0].start == 0
    requires st.rings.state == [Live] && st.rings.wpos == [0] && |st.rings.owner| == 1
    ensures Small(end) && end.rings == st.rings.(owner := end.rings.owner)
    ensures end.pubs == st.pubs && end.reps == st.reps && end.views == st.views && end.pool == st.pool && end.ents == st.ents
    ensures end.subs[0].pc == SReady && end.subs[0].ring == 0 && end.subs[0].read == 0
  {
    hide Reachable, Shape;
    var d := SubGoes(st, Go); assert d.subs[0].pc == SFloor && d.subs[0].ring == 0 && d.subs[0].start == 0;
    end := SubGoes(d, Go);
  }

  /** A receive starts with two positions taken, and is overrun up to position 1. */
  lemma Looks(st: State, w: Word, m: Meta) returns (end: State)
    requires Small(st) && At(st, w, m, 2) && st.subs[0].pc == SReady && st.subs[0].ring == 0 && st.subs[0].read == 0
    ensures Small(end) && end.rings == st.rings && end.ents == st.ents && end.pool == st.pool && end.views == st.views
    ensures end.pubs == st.pubs && end.reps == st.reps
    ensures end.subs[0].pc == SSeq && end.subs[0].ring == 0 && end.subs[0].read == 1
    ensures forall x, c, n :: At(st, x, c, n) ==> At(end, x, c, n)
  {
    hide Reachable, Shape;
    var a := SubGoes(st, Go); assert a.subs[0].pc == SRx && a.subs[0].read == 0 && a.subs[0].ring == 0 && a.subs[0].tries == 0;
    end := SubGoes(a, Go);
  }

  /** It finds position 1 committed with slot `s` behind it. */
  lemma Finds(st: State, s: nat, wp: nat) returns (end: State)
    requires Small(st) && At(st, Plain(2), Meta(2, Some(s)), wp) && s < 3
    requires st.subs[0].pc == SSeq && st.subs[0].ring == 0 && st.subs[0].read == 1
    ensures Small(end) && end.rings == st.rings && end.ents == st.ents && end.pool == st.pool && end.views == st.views
    ensures end.pubs == st.pubs && end.reps == st.reps
    ensures end.subs[0].pc == SPin && end.subs[0].ring == 0 && end.subs[0].read == 1 && end.subs[0].slot == s
    ensures forall x, c, n :: At(st, x, c, n) ==> At(end, x, c, n)
  {
    hide Reachable, Shape;
    OneEntry(st.ents, Plain(2), Meta(2, Some(s)), Plain(2), Meta(2, Some(s)), 1);
    var a := SubGoes(st, Go); assert a.subs[0].pc == SMeta && a.subs[0].ring == 0 && a.subs[0].read == 1;
    end := SubGoes(a, Go);
  }

  /** It pins the slot and finds the same word. */
  lemma Validates(st: State, s: nat, m: Meta, wp: nat) returns (end: State)
    requires Small(st) && At(st, Plain(2), m, wp) && s < 3 && st.pool.rc[s] == 1
    requires st.subs[0].pc == SPin && st.subs[0].ring == 0 && st.subs[0].read == 1 && st.subs[0].slot == s
    ensures Small(end) && end.ents == st.ents && end.pool == st.pool.(rc := st.pool.rc[s := 2]) && end.views == st.views
    ensures end.subs[0].pc == SLen && end.subs[0].ring == 0 && end.subs[0].read == 1 && end.subs[0].slot == s
  {
    hide Reachable, Shape;
    OneEntry(st.ents, Plain(2), m, Plain(2), m, 1);
    var a := SubGoes(st, Go);
    assert a.subs[0].pc == SCheck && a.subs[0].ring == 0 && a.subs[0].read == 1 && a.subs[0].slot == s;
    end := SubGoes(a, Go);
  }

  /** It makes the view. */
  lemma PinsView(st: State, s: nat) returns (end: State)
    requires Small(st) && |st.pool.len| == 3 && s < 3 && st.pool.len[s] == 0
    requires st.subs[0].pc == SLen && st.subs[0].ring == 0 && st.subs[0].read == 1 && st.subs[0].slot == s
    ensures Small(end) && end.ents == st.ents && end.pool.data == st.pool.data
    ensures end.views == st.views + [View(VHeld, 0, 0, 1, s, 0)]
  {
    hide Reachable, Shape;
    end := SubGoes(st, Go);
  }

  // ----- the run -----

  function Fresh(): State {
    var u := Pub.Pub(PIdle, 0, 0, 0, 0, Plain(0), Plain(0), false, 0, 0, 0);
    var v := Sub.Sub(SDetached, 0, 0, 0, 0, 0, 0, 0, 0, 0, Meta(0, None), 0, 0);
    State(CFG, Pool([0, 0, 0], [0, 0, 0], [[], [], []], {0, 1, 2}),
          Rings([Free], [0], [0], [None], [true]),
          Ents([[Plain(0)]], [[Meta(0, None)]], map[], {}, {}, {}),
          [u, u, u], [v], [], [RIdle, RIdle], CIdle, {})
  }

  lemma FreshShape()
    ensures Shape(Fresh())
  {
  }

  lemma FreshInit()
    ensures Init(Fresh())
  {
    FreshShape();
    hide Shape;
  }

  lemma Starts() returns (st: State)
    ensures Small(st) && st.rings.state == [Free] && st.rings.flight == [0] && st.rings.wpos == [0] && |st.rings.owner| == 1
    ensures st.subs[0].pc == SDetached && st.reps == [RIdle, RIdle] && st.views == []
    ensures st.ents.seqs == [[Plain(0)]] && st.ents.metas == [[Meta(0, None)]] && st.ents.log == map[]
    ensures st.pool == Pool([0, 0, 0], [0, 0, 0], [[], [], []], {0, 1, 2})
    ensures forall p :: 0 <= p < 3 ==> st.pubs[p].pc == PIdle
  {
    hide Init, Shape, Reachable;
    st := Fresh();
    FreshShape();
    FreshInit();
    Alone(st);
  }

  lemma Alone(st: State)
    requires Init(st)
    ensures Reachable(st)
  {
    var none: seq<Step> := [];
    assert Run([st], none) && [st][|none|] == st;
  }

  /** The subscriber attaches, and publisher 0 is about to visit its ring. */
  lemma FirstReserved() returns (st: State)
    ensures Small(st) && At(st, Plain(0), Meta(0, None), 0) && |st.pubs| == 3
    ensures st.reps == [RIdle, RIdle] && st.views == [] && st.ents.log == map[]
    ensures st.pool == Pool([1, 0, 0], [0, 0, 0], [[], [], []], {1, 2})
    ensures st.pubs[0].pc == PCheck && st.pubs[0].i == 0 && st.pubs[1].pc == PIdle && st.pubs[2].pc == PIdle
    ensures st.subs[0].pc == SReady && st.subs[0].ring == 0 && st.subs[0].read == 0
  {
    hide Reachable, Shape, Small;
    var a := Starts(); assert Small(a);
    Sizes(a);
    var b := Attaches(a);
    st := Reserves(b, 0, 0);
  }

  /** Position 0 is locked and abandoned, and stolen by thief 0, who falls asleep before its skip store. */
  lemma FirstTheft() returns (st: State)
    ensures Small(st) && At(st, Repair(0), Meta(0, None), 1)
    ensures st.reps == [RMark(0, 0), RIdle] && st.views == [] && st.ents.log == map[]
    ensures st.pool == Pool([1, 0, 0], [0, 0, 0], [[], [], []], {1, 2})
    ensures st.pubs[1].pc == PIdle && st.pubs[2].pc == PIdle
    ensures st.subs[0].pc == SReady && st.subs[0].ring == 0 && st.subs[0].read == 0
  {
    hide Reachable, Shape, Small, At;
    var m := Meta(0, None);
    var c := FirstReserved();
    var d := ClaimsPos(c, 0, Plain(0), m, 0);
    var e := LocksFirst(d, 0, m, 1);
    st := Steals(e, 0, 0, Lock(0), m, 1);
  }

  lemma Sizes(st: State)
    requires Small(st)
    ensures st.cfg == CFG && |st.pubs| == 3 && |st.subs| == 1 && |st.reps| == 2
  {
  }

  /** Publisher 1 claims position 1 and waits; the subscriber looks at it. */
  lemma SecondClaim() returns (st: State)
    ensures Small(st) && At(st, Repair(0), Meta(0, None), 2)
    ensures st.reps == [RMark(0, 0), RIdle] && st.views == [] && st.ents.log == map[]
    ensures st.pool == Pool([1, 1, 0], [0, 0, 0], [[], [], []], {2})
    ensures var u := st.pubs[1]; u.pc == PWait && u.i == 0 && u.excess == 0 && u.pos == 1 && u.tries == 0 && u.slot == 1
    ensures st.pubs[2].pc == PIdle
    ensures st.subs[0].pc == SSeq && st.subs[0].ring == 0 && st.subs[0].read == 1
  {
    hide Reachable, Shape, Small, At;
    var m := Meta(0, None);
    var a := FirstTheft();
    Sizes(a);
    var b := Reserves(a, 1, 1);
    var c := ClaimsPos(b, 1, Repair(0), m, 1);
    st := Looks(c, Repair(0), m);
  }

  /** Thief 1 steals position 1. */
  lemma SecondTheft() returns (st: State)
    ensures Small(st) && At(st, Word.Skip(2), Meta(0, None), 2)
    ensures st.reps == [RMark(0, 0), RIdle] && st.views == [] && st.ents.log == map[]
    ensures st.pool == Pool([1, 1, 0], [0, 0, 0], [[], [], []], {2})
    ensures var u := st.pubs[1]; u.pc == PWait && u.i == 0 && u.excess == 0 && u.pos == 1 && u.tries == 0 && u.slot == 1
    ensures st.pubs[2].pc == PIdle
    ensures st.subs[0].pc == SSeq && st.subs[0].ring == 0 && st.subs[0].read == 1
  {
    hide Reachable, Shape, Small, At;
    var m := Meta(0, None);
    var d := SecondClaim();
    Sizes(d);
    var e := Steals(d, 1, 1, Repair(0), m, 2);
    st := Marks(e, 1, Repair(1), m, 2);
  }

  /** Publisher 2 locks position 2. */
  lemma SecondLock() returns (st: State)
    ensures Small(st) && At(st, Lock(2), Meta(0, None), 3)
    ensures st.reps == [RMark(0, 0), RIdle] && st.views == [] && st.ents.log == map[]
    ensures st.pool == Pool([1, 1, 1], [0, 0, 0], [[], [], []], {})
    ensures var u := st.pubs[1]; u.pc == PWait && u.i == 0 && u.excess == 0 && u.pos == 1 && u.tries == 0 && u.slot == 1
    ensures var u := st.pubs[2]; u.pc == PTake && u.i == 0 && u.pos == 2 && u.slot == 2
    ensures st.subs[0].pc == SSeq && st.subs[0].ring == 0 && st.subs[0].read == 1
  {
    hide Reachable, Shape, Small, At;
    var m := Meta(0, None);
    var f := SecondTheft();
    Sizes(f);
    var g := Reserves(f, 2, 2);
    var h := ClaimsPos(g, 2, Word.Skip(2), m, 2);
    st := Locks(h, 2, Word.Skip(2), m, 3);
  }

  /** Thief 0 wakes and stores its skip marker over the lock of position 2; publisher 1 locks, claims and commits. */
  lemma LateStore() returns (st: State)
    ensures Small(st) && At(st, Plain(2), Meta(2, Some(1)), 3)
    ensures st.views == [] && st.pool == Pool([1, 1, 1], [0, 0, 0], [[], [], []], {})
    ensures st.pubs[1].pc == PIdle && Place(0, 1) in st.ents.log && st.ents.log[Place(0, 1)].data == []
    ensures var u := st.pubs[2]; u.pc == PTake && u.i == 0 && u.pos == 2 && u.slot == 2
    ensures st.subs[0].pc == SSeq && st.subs[0].ring == 0 && st.subs[0].read == 1
  {
    hide Reachable, Shape, Small, At;
    var m := Meta(0, None);
    var a := SecondLock();
    Sizes(a);
    var b := Marks(a, 0, Lock(2), m, 3);
    var c := Locks(b, 1, Word.Skip(1), m, 3);
    var d := Takes(c, 1, Lock(1), m, 3);
    st := Commits(d, 1, Meta(2, Some(1)), 3);
  }

  /** The subscriber finds the claim, publisher 2 evicts it, and publisher 1 refills the freed slot before the pin. */
  lemma Refilled() returns (st: State)
    ensures Small(st) && st.views == [View(VHeld, 0, 0, 1, 1, 0)]
    ensures Place(0, 1) in st.ents.log && st.ents.log[Place(0, 1)].data == []
    ensures |st.pool.data| == 3 && st.pool.data[1] == [1]
  {
    hide Reachable, Shape, Small, At;
    var a := LateStore();
    Sizes(a);
    var b := Finds(a, 1, 3);
    var c := Takes(b, 2, Plain(2), Meta(2, Some(1)), 3);
    var d := Evicts(c, 2, Plain(2), Meta(3, Some(2)), 3);
    var e := Fills(d, 1, 1, [1]);
    var f := Validates(e, 1, Meta(3, Some(2)), 3);
    st := PinsView(f, 1);
  }

  /**
  Without (H) view integrity fails: there is a run that ends with an unreleased view whose slot
  no longer carries what was committed at its position.
  */
  lemma LateSkipBreaksViews()
    ensures exists states: seq<State>, steps: seq<Step> ::
              && Run(states, steps) && |states[|steps|].views| == 1
              && var st, v := states[|steps|], states[|steps|].views[0];
                 && v.pc == VHeld && Place(v.ring, v.pos) in st.ents.log && v.slot < |st.pool.data|
                 && st.pool.data[v.slot] != st.ents.log[Place(v.ring, v.pos)].data
  {
    hide Init, Next, Shape;
    var st := Refilled();
    var states: seq<State>, steps: seq<Step> :| Run(states, steps) && states[|steps|] == st;
    assert Run(states, steps) && states[|steps|].views == [View(VHeld, 0, 0, 1, 1, 0)];
  }
}
