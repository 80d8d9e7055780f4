/** The rest of the channel's operations with nobody else running: attaching, leaving, reclaiming, repairing. */
module ChannelAlone {
  import opened ChannelModel
  import opened ChannelShape
  import opened ChannelReceive

  /** A step of a living subscriber, whatever it writes. */
  lemma Acts(st: State, a: nat, u: Sub, acc: Access) returns (end: State)
    requires Shape(st) && a < |st.subs| && a !in st.dead && SubShape(st.cfg, st.subs[a])
    requires SubEnabled(st, st.subs[a], Go) && SubNext(st, a, Go) == SubMove(u, acc) && !acc.NewView?
    ensures InRange(st.cfg, acc) && Leads(st, a, end) && Shape(end) && Sized(st) && SubShape(st.cfg, u)
    ensures end == st.(subs := st.subs[a := u], pool := AccessPool(st.pool, acc), rings := AccessRings(st.rings, acc),
                       ents := AccessEnts(st.ents, acc))
  {
    InBounds(st, SubStep(a, Go));
    end := SubTo(st, a, Go);
    KeepsShape(st, SubStep(a, Go), end);
    hide SubNext, Shape, AccessPool, AccessRings, AccessEnts;
    assert Alone(end, a, 0, end);
    assert Alone(st, a, 1, end);
  }

  // ----- attaching -----

  /** The subscriber has the ring and reads from `read`. */
  predicate Attached(u: Sub, r: nat, read: nat) {
    u.pc == SReady && u.ring == r && u.start == read && u.read == read && u.first == read && u.lost == 0 && u.got == 0
  }

  lemma TakesRing(st: State, a: nat) returns (end: State)
    requires Shape(st) && a < |st.subs| && a !in st.dead && st.subs[a].pc == SClaimLoad && st.subs[a].ring < st.cfg.maxSubs && Sized(st)
    requires st.rings.state[st.subs[a].ring] == Free && st.rings.flight[st.subs[a].ring] == 0
    ensures Leads(st, a, end) && Shape(end)
    ensures var u := st.subs[a];
            var wp := st.rings.wpos[u.ring];
            end == st.(subs := st.subs[a := u.(pc := SOwner, wp := wp, start := wp, read := wp)],
                       rings := st.rings.(state := st.rings.state[u.ring := Live]))
  {
    var u := st.subs[a];
    var wp := st.rings.wpos[u.ring];
    hide Leads, Shape;
    var b := Acts(st, a, u.(pc := SClaimCas, wp := wp), Load);
    end := Acts(b, a, u.(pc := SOwner, wp := wp, start := wp, read := wp), PutState(u.ring, Live));
    LeadsOn(st, a, b, end);
  }

  lemma Registers(st: State, a: nat) returns (end: State)
    requires Shape(st) && a < |st.subs| && a !in st.dead && st.subs[a].pc == SOwner && Sized(st) && st.subs[a].ring < st.cfg.maxSubs
    requires st.subs[a].start == st.rings.wpos[st.subs[a].ring]
    ensures Leads(st, a, end) && Shape(end)
    ensures var u := st.subs[a];
      end == st.(subs := st.subs[a := u.(pc := SReady, read := u.start, first := u.start, lost := 0, got := 0)],
                 rings := st.rings.(owner := st.rings.owner[u.ring := Some(a)]))
  {
    var u := st.subs[a];
    hide Leads, Shape;
    var b := Acts(st, a, u.(pc := SFloor), PutOwner(u.ring, Some(a)));
    end := Acts(b, a, u.(pc := SReady, read := u.start, first := u.start, lost := 0, got := 0), Load);
    LeadsOn(st, a, b, end);
  }

  /** A Free ring without admitted publishers, tried by a subscriber left alone, becomes its own. */
  lemma AttachTakesTheRing(st: State, a: nat) returns (end: State)
    requires Shape(st) && a < |st.subs| && a !in st.dead && st.subs[a].pc == SClaimLoad && st.subs[a].ring < st.cfg.maxSubs && Sized(st)
    requires st.rings.state[st.subs[a].ring] == Free && st.rings.flight[st.subs[a].ring] == 0
    ensures Leads(st, a, end)
    ensures var r := st.subs[a].ring;
      && |end.subs| == |st.subs| && Attached(end.subs[a], r, st.rings.wpos[r])
      && end == st.(subs := st.subs[a := end.subs[a]],
                    rings := st.rings.(state := st.rings.state[r := Live], owner := st.rings.owner[r := Some(a)]))
  {
    hide Leads, Shape;
    var b := TakesRing(st, a);
    end := Registers(b, a);
    LeadsOn(st, a, b, end);
  }

  // ----- leaving -----

  function Bare(m: Meta): Meta { m.(slot := None) }

  /** The claims of a ring once positions `at` up to `wp` are drained. */
  function Drained(cfg: Config, row: seq<Meta>, at: nat, wp: nat): (out: seq<Meta>)
    requires cfg.cap > 0 && |row| == cfg.cap
    ensures |out| == |row|
    decreases wp - at
  {
    if at >= wp then row else Drained(cfg, row[Idx(cfg, at) := Bare(row[Idx(cfg, at)])], at + 1, wp)
  }

  /** Draining clears the claim of every position of the window, and no tag. */
  lemma {:induction false} DrainedEach(cfg: Config, row: seq<Meta>, at: nat, wp: nat, i: nat)
    requires cfg.cap > 0 && |row| == cfg.cap && i < cfg.cap
    ensures var m := Drained(cfg, row, at, wp)[i];
            if exists q :: at <= q < wp && Idx(cfg, q) == i then m == Bare(row[i]) else m == row[i]
    decreases wp - at
  {
    hide Idx;
    if at < wp { DrainedEach(cfg, row[Idx(cfg, at) := Bare(row[Idx(cfg, at)])], at + 1, wp, i); }
  }

  /** Only the subscriber, refcounts, the free stack and its ring's claims differ. */
  predicate DrainedTo(st: State, end: State, a: nat, at: nat, wp: nat) {
    && Sized(st) && Sized(end) && a < |st.subs| == |end.subs| && st.subs[a].ring < st.cfg.maxSubs
    && end == st.(subs := st.subs[a := end.subs[a]], pool := st.pool.(rc := end.pool.rc, free := end.pool.free),
                  ents := st.ents.(metas := end.ents.metas))
    && var r := st.subs[a].ring;
       && end.subs[a].ring == r
       && end.ents.metas == st.ents.metas[r := Drained(st.cfg, st.ents.metas[r], at, wp)]
  }

  ghost predicate Draining(st: State, a: nat) {
    && Shape(st) && Sized(st) && a < |st.subs| && a !in st.dead && st.subs[a].ring < st.cfg.maxSubs
    && st.subs[a].pc == if st.subs[a].at < st.subs[a].wp then SDrainMeta else SSetFree
  }

  lemma BareSame(m: Meta)
    ensures m.slot.None? ==> Bare(m) == m
  {
  }

  /** One position: its claim, if there is one, is cleared and its reference dropped. */
  lemma DrainsOne(st: State, a: nat) returns (end: State)
    requires Draining(st, a) && st.subs[a].at < st.subs[a].wp
    ensures Leads(st, a, end) && Draining(end, a) && DrainedTo(st, end, a, st.subs[a].at, st.subs[a].at + 1)
    ensures end.subs[a].at == st.subs[a].at + 1 && end.subs[a].wp == st.subs[a].wp
  {
    var u, r := st.subs[a], st.subs[a].ring;
    var m := MetaAt(st, r, u.at);
    OneDrained(st, r, u.at);
    if m.slot.None? {
      end := DrainsNothing(st, a);
    } else {
      ClaimInPool(st, r, u.at);
      end := DrainsClaim(st, a);
    }
    hide Leads, Shape, Idx;
  }

  lemma OneDrained(st: State, r: nat, at: nat)
    requires Sized(st) && r < st.cfg.maxSubs
    ensures var row := st.ents.metas[r];
            Drained(st.cfg, row, at, at + 1) == row[Idx(st.cfg, at) := Bare(row[Idx(st.cfg, at)])]
  {
    hide Idx;
  }

  lemma ClaimInPool(st: State, r: nat, at: nat)
    requires Shape(st) && Sized(st) && r < st.cfg.maxSubs
    ensures var m := MetaAt(st, r, at); m.slot.Some? ==> m.slot.value < st.cfg.pool
  {
  }

  lemma DrainsNothing(st: State, a: nat) returns (end: State)
    requires Draining(st, a) && st.subs[a].at < st.subs[a].wp && MetaAt(st, st.subs[a].ring, st.subs[a].at).slot.None?
    ensures Leads(st, a, end) && Shape(end) && Sized(end) && end == st.(subs := st.subs[a := NextDrain(st.subs[a])])
    ensures st.ents.metas == st.ents.metas[st.subs[a].ring := Drained(st.cfg, st.ents.metas[st.subs[a].ring], st.subs[a].at, st.subs[a].at + 1)]
  {
    var u := st.subs[a];
    OneDrained(st, u.ring, u.at);
    BareSame(MetaAt(st, u.ring, u.at));
    hide Leads, Shape;
    end := Acts(st, a, NextDrain(u), Load);
    assert st.ents.metas[u.ring] == Drained(st.cfg, st.ents.metas[u.ring], u.at, u.at + 1);
  }

  lemma DrainsClaim(st: State, a: nat) returns (end: State)
    requires Draining(st, a) && st.subs[a].at < st.subs[a].wp
    requires var m := MetaAt(st, st.subs[a].ring, st.subs[a].at); m.slot.Some? && m.slot.value < st.cfg.pool
    ensures Leads(st, a, end) && Draining(end, a) && DrainedTo(st, end, a, st.subs[a].at, st.subs[a].at + 1)
    ensures end.subs[a].at == st.subs[a].at + 1 && end.subs[a].wp == st.subs[a].wp
  {
    var u, r := st.subs[a], st.subs[a].ring;
    var m := MetaAt(st, r, u.at);
    var b := Unclaims(st, a);
    end := Drops(b, a);
    LeadsOn(st, a, b, end);
    OneDrained(st, r, u.at);
    hide Leads, Shape, Idx;
  }

  lemma Unclaims(st: State, a: nat) returns (end: State)
    requires Draining(st, a) && st.subs[a].at < st.subs[a].wp
    requires var m := MetaAt(st, st.subs[a].ring, st.subs[a].at); m.slot.Some? && m.slot.value < st.cfg.pool
    ensures var u, r := st.subs[a], st.subs[a].ring;
            var m := MetaAt(st, r, u.at);
      && Leads(st, a, end) && Shape(end)
      && end == st.(subs := st.subs[a := u.(pc := SDrainDrop, cur := m, slot := m.slot.value)],
                    ents := st.ents.(metas := st.ents.metas[r := st.ents.metas[r][Idx(st.cfg, u.at) := Bare(m)]]))
  {
    var u, r := st.subs[a], st.subs[a].ring;
    var m := MetaAt(st, r, u.at);
    hide Leads, Shape;
    var b := Acts(st, a, u.(pc := SDrainCas, cur := m), Load);
    end := Acts(b, a, u.(pc := SDrainDrop, cur := m, slot := m.slot.value), Unclaim(r, Idx(st.cfg, u.at)));
    LeadsOn(st, a, b, end);
  }

  lemma Drops(st: State, a: nat) returns (end: State)
    requires Shape(st) && Sized(st) && a < |st.subs| && a !in st.dead && st.subs[a].pc == SDrainDrop
    requires st.subs[a].slot < st.cfg.pool && st.subs[a].ring < st.cfg.maxSubs
    ensures Leads(st, a, end) && Shape(end) && Sized(end)
    ensures end == st.(subs := st.subs[a := NextDrain(st.subs[a])], pool := st.pool.(rc := end.pool.rc, free := end.pool.free))
  {
    var u := st.subs[a];
    hide Leads, Shape, Sub32;
    if st.pool.rc[u.slot] == 1 {
      var b := Acts(st, a, u.(pc := SDrainPush), PutRc(u.slot, Sub32(st.pool.rc[u.slot], 1)));
      end := Acts(b, a, NextDrain(u), Push(u.slot));
      LeadsOn(st, a, b, end);
    } else {
      end := Acts(st, a, NextDrain(u), PutRc(u.slot, Sub32(st.pool.rc[u.slot], 1)));
    }
  }

  lemma DrainedOn(st: State, mid: State, end: State, a: nat, at: nat, wp: nat)
    requires at < wp && DrainedTo(st, mid, a, at, at + 1) && DrainedTo(mid, end, a, at + 1, wp)
    ensures DrainedTo(st, end, a, at, wp)
  {
    OneDrained(st, st.subs[a].ring, at);
    hide Idx;
  }

  lemma {:induction false} DrainsAll(st: State, a: nat) returns (end: State)
    requires Draining(st, a)
    ensures Leads(st, a, end) && Draining(end, a) && DrainedTo(st, end, a, st.subs[a].at, st.subs[a].wp)
    ensures end.subs[a].pc == SSetFree
    decreases st.subs[a].wp - st.subs[a].at
  {
    var u := st.subs[a];
    if u.at < u.wp {
      var mid := DrainsOne(st, a);
      end := DrainsAll(mid, a);
      LeadsOn(st, a, mid, end);
      DrainedOn(st, mid, end, a, u.at, u.wp);
    } else {
      end := st;
      LeadsNowhere(st, a);
      assert st.subs[a := st.subs[a]] == st.subs;
      assert st.ents.metas[u.ring := st.ents.metas[u.ring]] == st.ents.metas;
    }
    hide Leads, Shape, DrainedTo;
  }

  /** The first position a leaving subscriber answers for. */
  function DrainFloor(cfg: Config, start: nat, wp: nat): nat {
    var oldest := if wp > cfg.cap then wp - cfg.cap else 0;
    if oldest < start then start else oldest
  }

  /** From the end of the wait to the drain. */
  lemma StartsDrain(st: State, a: nat) returns (end: State)
    requires Shape(st) && Sized(st) && a < |st.subs| && a !in st.dead && st.subs[a].pc == SQuiesce && st.subs[a].ring < st.cfg.maxSubs
    requires st.rings.flight[st.subs[a].ring] == 0
    ensures Leads(st, a, end) && Draining(end, a)
    ensures var u := st.subs[a];
            var wp := st.rings.wpos[u.ring];
      && end == st.(subs := st.subs[a := end.subs[a]], rings := st.rings.(owner := st.rings.owner[u.ring := None]))
      && end.subs[a].ring == u.ring && end.subs[a].at == DrainFloor(st.cfg, u.start, wp) && end.subs[a].wp == wp
  {
    hide Leads, Shape;
    var b := Retracts(st, a);
    end := FindsFloor(b, a);
    LeadsOn(st, a, b, end);
  }

  /** The count is seen at zero and the owner cleared. */
  lemma Retracts(st: State, a: nat) returns (end: State)
    requires Shape(st) && Sized(st) && a < |st.subs| && a !in st.dead && st.subs[a].pc == SQuiesce && st.subs[a].ring < st.cfg.maxSubs
    requires st.rings.flight[st.subs[a].ring] == 0
    ensures Leads(st, a, end) && Shape(end)
    ensures var u := st.subs[a];
            end == st.(subs := st.subs[a := u.(pc := SDrainLoad)], rings := st.rings.(owner := st.rings.owner[u.ring := None]))
  {
    var u := st.subs[a];
    hide Leads, Shape;
    var b := Acts(st, a, u.(pc := SClearQuiesced), Load);
    end := Acts(b, a, u.(pc := SDrainLoad), PutOwner(u.ring, None));
    LeadsOn(st, a, b, end);
  }

  lemma FindsFloor(st: State, a: nat) returns (end: State)
    requires Shape(st) && Sized(st) && a < |st.subs| && a !in st.dead && st.subs[a].pc == SDrainLoad && st.subs[a].ring < st.cfg.maxSubs
    ensures Leads(st, a, end) && Draining(end, a)
    ensures var u := st.subs[a];
            var wp := st.rings.wpos[u.ring];
            end == st.(subs := st.subs[a := end.subs[a]])
            && end.subs[a].ring == u.ring && end.subs[a].at == DrainFloor(st.cfg, u.start, wp) && end.subs[a].wp == wp
  {
    var u := st.subs[a];
    var wp := st.rings.wpos[u.ring];
    var from := DrainFloor(st.cfg, u.start, wp);
    hide Leads, Shape;
    end := Acts(st, a, u.(wp := wp, at := from, pc := if from < wp then SDrainMeta else SSetFree), Load);
  }

  lemma SetsFree(st: State, a: nat) returns (end: State)
    requires Draining(st, a) && st.subs[a].pc == SSetFree
    ensures var u := st.subs[a];
      && Leads(st, a, end)
      && end == st.(subs := st.subs[a := u.(pc := SGone)],
                    rings := st.rings.(state := st.rings.state[u.ring := Free], flight := st.rings.flight[u.ring := 0]))
  {
    var u := st.subs[a];
    hide Leads, Shape;
    end := Acts(st, a, u.(pc := SGone), PutFree(u.ring));
  }

  /**
  A subscriber that finds its ring without admitted publishers and is left alone leaves it Free,
  unowned, and without a claim at any position of its tenancy the ring still holds.
  */
  lemma LeavingFreesTheRing(st: State, a: nat) returns (end: State)
    requires Shape(st) && Sized(st) && a < |st.subs| && a !in st.dead && st.subs[a].pc == SQuiesce && st.subs[a].ring < st.cfg.maxSubs
    requires st.rings.flight[st.subs[a].ring] == 0
    ensures Leads(st, a, end) && |end.subs| == |st.subs| && end.subs[a].pc == SGone
    ensures var u, r := st.subs[a], st.subs[a].ring;
      && end.rings == st.rings.(state := st.rings.state[r := Free], owner := st.rings.owner[r := None], flight := end.rings.flight)
      && end.rings.flight == st.rings.flight
      && end.ents == st.ents.(metas := end.ents.metas) && Sized(end) && end.cfg == st.cfg
      && (forall s :: 0 <= s < st.cfg.maxSubs && s != r ==> end.ents.metas[s] == st.ents.metas[s])
      && (forall q: nat :: DrainFloor(st.cfg, u.start, st.rings.wpos[r]) <= q < st.rings.wpos[r] ==> MetaAt(end, r, q).slot == None)
  {
    var r := st.subs[a].ring;
    var b := StartsDrain(st, a);
    var c := DrainsAll(b, a);
    end := SetsFree(c, a);
    LeadsOn(st, a, b, c);
    LeadsOn(st, a, c, end);
    assert end.rings.flight == st.rings.flight;
    forall q: nat | DrainFloor(st.cfg, st.subs[a].start, st.rings.wpos[r]) <= q < st.rings.wpos[r]
      ensures MetaAt(end, r, q).slot == None
    {
      DrainedEach(st.cfg, st.ents.metas[r], b.subs[a].at, b.subs[a].wp, Idx(st.cfg, q));
    }
    hide Leads, Shape, Idx;
  }

  /**
  A subscriber whose wait for admitted publishers runs out gives the ring up without draining it:
  Free and unowned, the count kept for the publishers still to decrement it, the entries untouched.
  */
  lemma TimeoutKeepsTheCount(st: State, a: nat) returns (mid: State, end: State)
    requires Shape(st) && Sized(st) && a < |st.subs| && a !in st.dead && st.subs[a].pc == SQuiesce && st.subs[a].ring < st.cfg.maxSubs
    requires st.rings.flight[st.subs[a].ring] > 0
    ensures SubReady(st, a, Alt) && mid == SubTo(st, a, Alt) && Leads(mid, a, end)
    ensures var u, r := st.subs[a], st.subs[a].ring;
      && end.ents == st.ents && end.pool == st.pool && end.views == st.views
      && end.rings == st.rings.(state := st.rings.state[r := Free], owner := st.rings.owner[r := None],
                                clean := st.rings.clean[r := false])
      && end.subs == st.subs[a := u.(pc := SGone)]
  {
    var u := st.subs[a];
    assert Enabled(st, SubStep(a, Alt));
    InBounds(st, SubStep(a, Alt));
    mid := SubTo(st, a, Alt);
    KeepsShape(st, SubStep(a, Alt), mid);
    assert mid == st.(subs := st.subs[a := u.(pc := SClearTimeout)]);
    hide Leads, Shape;
    end := Abandons(mid, a);
  }

  lemma Abandons(st: State, a: nat) returns (end: State)
    requires Shape(st) && Sized(st) && a < |st.subs| && a !in st.dead && st.subs[a].pc == SClearTimeout && st.subs[a].ring < st.cfg.maxSubs
    ensures Leads(st, a, end)
    ensures var u, r := st.subs[a], st.subs[a].ring;
            end == st.(subs := st.subs[a := u.(pc := SGone)],
                       rings := st.rings.(state := st.rings.state[r := Free], owner := st.rings.owner[r := None],
                                          clean := st.rings.clean[r := false]))
  {
    var u := st.subs[a];
    hide Leads, Shape;
    var b := Acts(st, a, u.(pc := STimeoutFree), PutOwner(u.ring, None));
    end := Acts(b, a, u.(pc := SGone), Strand(u.ring));
    LeadsOn(st, a, b, end);
  }

  // ----- recovery -----

  /** `n` steps of the reclaimer. */
  ghost predicate Reclaims(st: State, r: nat, n: nat, end: State)
    decreases n
  {
    if n == 0 then end == st else RecReady(st, r, Go) && Reclaims(RecTo(st, r, Go), r, n - 1, end)
  }

  lemma {:induction false} ReclaimsOn(st: State, r: nat, n: nat, mid: State, end: State)
    requires Reclaims(st, r, n, mid) && Reclaims(mid, r, 1, end)
    ensures Reclaims(st, r, n + 1, end)
    decreases n
  {
    if n > 0 { ReclaimsOn(RecTo(st, r, Go), r, n - 1, mid, end); }
  }

  lemma ReclaimStep(st: State, r: nat, n: nat, mid: State) returns (end: State)
    requires Reclaims(st, r, n, mid) && RecReady(mid, r, Go)
    ensures Reclaims(st, r, n + 1, end) && end == RecTo(mid, r, Go)
  {
    end := RecTo(mid, r, Go);
    assert Reclaims(end, r, 0, end);
    assert Reclaims(mid, r, 1, end);
    hide RecReady, RecTo, Reclaims;
    ReclaimsOn(st, r, n, mid, end);
  }

  /**
  A reclaim pass left alone makes a dead owner's ring Free and unowned, whatever state its owner or
  an earlier reclaimer died in, and keeps its count of admitted publishers.
  */
  lemma ReclaimFreesTheRing(st: State, r: nat) returns (end: State)
    requires Sized(st) && st.rec == CIdle && r < st.cfg.maxSubs && st.rings.state[r] != Free && OwnerDead(st, r)
    ensures Reclaims(st, r, 5, end)
    ensures end == st.(rings := st.rings.(state := st.rings.state[r := Free], owner := st.rings.owner[r := None],
                                          clean := st.rings.clean[r := false]))
  {
    assert Reclaims(st, r, 0, st);
    hide Reclaims;
    var a := ReclaimStep(st, r, 0, st);
    var b := ReclaimStep(st, r, 1, a);
    var c := ReclaimStep(st, r, 2, b);
    var d := ReclaimStep(st, r, 3, c);
    end := ReclaimStep(st, r, 4, d);
    assert end.rings.state == st.rings.state[r := Free];
  }

  /** The three accesses of a repair at one entry, alone. */
  lemma RepairMarksTheEntry(st: State, k: nat, r: nat, pos: nat) returns (end: State)
    requires Sized(st) && k < |st.reps| && st.reps[k] == RIdle && r < st.cfg.maxSubs && pos < st.rings.wpos[r]
    requires WordAt(st, r, pos).Locked() || WordAt(st, r, pos).Pos() + st.cfg.cap < pos + 1
    ensures RepReady(st, k, r, pos)
    ensures var seen := RepTo(st, k, r, pos);
      && RepReady(seen, k, r, pos)
      && var stolen := RepTo(seen, k, r, pos);
         && RepReady(stolen, k, r, pos) && end == RepTo(stolen, k, r, pos)
    ensures Sized(end) && WordAt(end, r, pos) == Word.Skip(pos + 1)
    ensures end.reps == st.reps && end.rings == st.rings && end.pool == st.pool && end.ents.metas == st.ents.metas
    ensures forall s, i {:trigger end.ents.seqs[s][i]} :: 0 <= s < st.cfg.maxSubs && 0 <= i < st.cfg.cap && !(s == r && i == Idx(st.cfg, pos)) ==>
              end.ents.seqs[s][i] == st.ents.seqs[s][i]
  {
    hide Idx;
    var seen := RepTo(st, k, r, pos);
    var stolen := RepTo(seen, k, r, pos);
    end := RepTo(stolen, k, r, pos);
    assert end.reps == st.reps;
  }
}
