/** A publisher left alone: what its publish leaves in every ring. */
module ChannelPublish {
  import opened ChannelModel
  import opened ChannelDrain
  import opened ChannelSafety
  import opened ChannelAttempt

  // ----- one ring -----

  /** What a publish of (n, slot) leaves at ring `r` of `st`: the word, the claim and the record of one position. */
  ghost predicate RingDone(st: State, end: State, p: nat, r: nat, sample: Sample)
    requires Sized(st) && r < st.cfg.maxSubs
  {
    var pos := st.rings.wpos[r];
    var w, m := WordAt(st, r, pos), MetaAt(st, r, pos);
    if st.rings.state[r] != Live then
      end.rings == st.rings && end.ents.seqs == st.ents.seqs && end.ents.metas == st.ents.metas && end.ents.log == st.ents.log
    else
      && end.rings == st.rings.(wpos := st.rings.wpos[r := pos + 1])
      && Leaves(st, end, r, pos, After(st.cfg, w, pos), if Lockable(st.cfg, w, pos) then Meta(pos + 1, Some(sample.slot)) else m)
      && end.ents.log == if Lockable(st.cfg, w, pos) then st.ents.log[Place(r, pos) := sample] else st.ents.log
  }

  /** What is known of the publisher and the region when it comes to ring u.i. */
  ghost predicate AtRing(st: State, p: nat) {
    Here(st, p, PCheck) && MetaAt(st, st.pubs[p].i, st.rings.wpos[st.pubs[p].i]).tag <= st.rings.wpos[st.pubs[p].i]
  }

  /** The ring behind the publisher. */
  predicate Beyond(cfg: Config, u: Pub, v: Pub) {
    && v.i == u.i + 1 && v.n == u.n && v.slot == u.slot
    && (u.i + 1 < cfg.maxSubs ==> v.pc == PCheck)
    && (u.i + 1 >= cfg.maxSubs ==> v.pc == if v.excess > 0 then PExcess else PIdle)
  }

  /** With a position, before the first look at the entry. */
  ghost predicate Entering(st: State, p: nat) {
    && Ready(st, p) && HasPos(st.pubs[p]) && st.pubs[p] == Entered(st.cfg, st.pubs[p], st.pubs[p].pos)
    && MetaAt(st, st.pubs[p].i, st.pubs[p].pos).tag <= st.pubs[p].pos
  }

  lemma Attempts(st: State, p: nat) returns (end: State)
    requires p < |st.pubs| && Sized(st) && st.pubs[p].i < st.cfg.maxSubs && st.pubs[p].slot < st.cfg.pool
    requires Entering(st, p)
    ensures Ready(end, p)
    ensures var u := st.pubs[p];
            var w, m := WordAt(st, u.i, u.pos), MetaAt(st, u.i, u.pos);
            var ok := Lockable(st.cfg, w, u.pos);
      && Finishes(st, end, p, if ok then u.excess else u.excess + 1, After(st.cfg, w, u.pos),
                  if ok then Meta(u.pos + 1, Some(u.slot)) else m)
      && end.ents.log == if ok then st.ents.log[Place(u.i, u.pos) := Offer(st, p, u)] else st.ents.log
  {
    hide *;
    if st.pubs[p].pos >= st.cfg.cap {
      var u := st.pubs[p];
      var w, m := WordAt(st, u.i, u.pos), MetaAt(st, u.i, u.pos);
      var a := AfterWait(st, p);
      StaysThere(st, a, p, w, m);
      SameOffer(st, a, p, w, m);
      end := Tries(a, p);
      StaysThen(st, a, end, p, if Lockable(st.cfg, w, u.pos) then u.excess else u.excess + 1, w, m, After(st.cfg, w, u.pos),
                if Lockable(st.cfg, w, u.pos) then Meta(u.pos + 1, Some(u.slot)) else m);
    } else {
      StartsAtOnce(st, p);
      end := Tries(st, p);
    }
  }

  lemma StartsAtOnce(st: State, p: nat)
    requires Entering(st, p) && st.pubs[p].pos < st.cfg.cap
    ensures Starting(st, p)
  {
  }

  /** The wait alone: a lock that does not change, or a word that was there. */
  lemma AfterWait(st: State, p: nat) returns (end: State)
    requires Entering(st, p) && st.pubs[p].pos >= st.cfg.cap
    ensures Starting(end, p) && end.ents.log == st.ents.log
    ensures var u := st.pubs[p];
            var w := WordAt(st, u.i, u.pos);
            Stays(st, end, p, w, MetaAt(st, u.i, u.pos))
  {
    var u := st.pubs[p];
    var w := WordAt(st, u.i, u.pos);
    WaitMoves(st, p);
    assert Sized(st);
    hide PubNext, Shape;
    end := Waits(st, p, u.(pc := PTry, seen := w, last := w, stable := w.Locked()), Load);
    StaysThere(st, end, p, w, MetaAt(st, u.i, u.pos));
    hide Stays;
  }

  /** The attempts on an entry, before the first. */
  ghost predicate Starting(st: State, p: nat) {
    && Here(st, p, PTry) && st.pubs[p].tries == 0
    && var u := st.pubs[p];
       var w := WordAt(st, u.i, u.pos);
       && MetaAt(st, u.i, u.pos).tag <= u.pos
       && if u.pos >= st.cfg.cap then u.seen == u.last == w && u.stable == w.Locked() else u.seen == Plain(0) && !u.stable
  }

  lemma Tries(st: State, p: nat) returns (end: State)
    requires Starting(st, p)
    ensures Ready(end, p)
    ensures var u := st.pubs[p];
            var w, m := WordAt(st, u.i, u.pos), MetaAt(st, u.i, u.pos);
            var ok := Lockable(st.cfg, w, u.pos);
      && u.slot < st.cfg.pool
      && Finishes(st, end, p, if ok then u.excess else u.excess + 1, After(st.cfg, w, u.pos),
                  if ok then Meta(u.pos + 1, Some(u.slot)) else m)
      && end.ents.log == if ok then st.ents.log[Place(u.i, u.pos) := Offer(st, p, u)] else st.ents.log
  {
    var u := st.pubs[p];
    assert st.cfg.cap > 0;
    if Lockable(st.cfg, WordAt(st, u.i, u.pos), u.pos) { end := Succeeds(st, p); } else { end := FailsAndMends(st, p); }
    hide Finishes, Shape, Offer, Starting;
  }

  lemma Succeeds(st: State, p: nat) returns (end: State)
    requires Starting(st, p) && Lockable(st.cfg, WordAt(st, st.pubs[p].i, st.pubs[p].pos), st.pubs[p].pos)
    ensures Ready(end, p)
    ensures var u := st.pubs[p];
      && u.slot < st.cfg.pool && Finishes(st, end, p, u.excess, Plain(u.pos + 1), Meta(u.pos + 1, Some(u.slot)))
      && end.ents.log == st.ents.log[Place(u.i, u.pos) := Offer(st, p, u)]
  {
    var u := st.pubs[p];
    var m := MetaAt(st, u.i, u.pos);
    assert Lockable(st.cfg, u.seen, u.pos);
    hide *;
    var a := Locks(st, p);
    StaysThere(st, a, p, Lock(u.pos), m);
    SameOffer(st, a, p, Lock(u.pos), m);
    end := Delivers(a, p);
    StaysThen(st, a, end, p, u.excess, Lock(u.pos), m, Plain(u.pos + 1), Meta(u.pos + 1, Some(u.slot)));
  }

  lemma FailsAndMends(st: State, p: nat) returns (end: State)
    requires Starting(st, p) && !Lockable(st.cfg, WordAt(st, st.pubs[p].i, st.pubs[p].pos), st.pubs[p].pos)
    ensures Ready(end, p) && end.ents.log == st.ents.log
    ensures var u := st.pubs[p];
            Finishes(st, end, p, u.excess + 1, After(st.cfg, WordAt(st, u.i, u.pos), u.pos), MetaAt(st, u.i, u.pos))
  {
    var u := st.pubs[p];
    var w, m := WordAt(st, u.i, u.pos), MetaAt(st, u.i, u.pos);
    assert u.pos < st.cfg.cap ==> Lockable(st.cfg, u.seen, u.pos);
    hide Finishes, Stays, Shape, Idx, PrevSeq;
    var a := Fails(st, p);
    StaysThere(st, a, p, w, m);
    end := Mends(a, p);
    StaysThen(st, a, end, p, u.excess + 1, w, m, After(st.cfg, w, u.pos), m);
  }

  /** One Live ring. */
  lemma Visits(st: State, p: nat) returns (end: State)
    requires AtRing(st, p) && st.rings.state[st.pubs[p].i] == Live
    ensures Ready(end, p) && Leads(st, p, end) && Around(st, end, p) && Beyond(st.cfg, st.pubs[p], end.pubs[p])
    ensures st.pubs[p].slot < st.cfg.pool && RingDone(st, end, p, st.pubs[p].i, Offer(st, p, st.pubs[p]))
  {
    var u, pos := st.pubs[p], st.rings.wpos[st.pubs[p].i];
    assert Sized(st);
    var a := Enters(st, p);
    hide Leads, Shape, Idx, PrevSeq, After, Lockable;
    end := Attempts(a, p);
    LeadsOn(st, p, a, end);
    assert Sub32(st.rings.flight[u.i] + 1, 1) == st.rings.flight[u.i];
    assert end.rings.flight == st.rings.flight;
  }

  /** A ring that is not Live costs its reference. */
  lemma Passes(st: State, p: nat) returns (end: State)
    requires AtRing(st, p) && st.rings.state[st.pubs[p].i] != Live
    ensures Ready(end, p) && Leads(st, p, end) && Around(st, end, p) && Beyond(st.cfg, st.pubs[p], end.pubs[p])
    ensures st.pubs[p].slot < st.cfg.pool && RingDone(st, end, p, st.pubs[p].i, Offer(st, p, st.pubs[p]))
  {
    var u := st.pubs[p];
    CheckMoves(st, p);
    hide Leads, Shape, PubNext;
    end := Moves(st, p, NextRing(st.cfg, u.(excess := u.excess + 1)), Load);
  }

  // ----- every ring -----

  /** Ring `r` is among the first `k` and Live. */
  predicate Reached(st: State, k: nat, r: nat)
    requires Sized(st)
  {
    r < k && r < st.cfg.maxSubs && st.rings.state[r] == Live
  }

  /** Position `x` is the one this publish delivers to. */
  predicate Hits(st: State, k: nat, x: Place)
    requires Sized(st)
  {
    Reached(st, k, x.ring) && x.pos == st.rings.wpos[x.ring] && Lockable(st.cfg, WordAt(st, x.ring, x.pos), x.pos)
  }

  function WordsLeft(st: State, k: nat, r: nat): seq<Word>
    requires Sized(st) && r < st.cfg.maxSubs
  {
    var pos := st.rings.wpos[r];
    if Reached(st, k, r) then st.ents.seqs[r][Idx(st.cfg, pos) := After(st.cfg, WordAt(st, r, pos), pos)]
    else st.ents.seqs[r]
  }

  function ClaimsLeft(st: State, k: nat, r: nat, slot: nat): seq<Meta>
    requires Sized(st) && r < st.cfg.maxSubs
  {
    var pos := st.rings.wpos[r];
    if Hits(st, k, Place(r, pos)) then st.ents.metas[r][Idx(st.cfg, pos) := Meta(pos + 1, Some(slot))]
    else st.ents.metas[r]
  }

  /**
  What a publish of `sample` leaves once the first `k` rings are behind it: a position taken in
  every Live one; its entry committed with the sample if it was lockable, mended if it was residue;
  and nothing else changed but refcounts and the free stack.
  */
  ghost predicate Published(st: State, end: State, p: nat, k: nat, sample: Sample) {
    && Sized(st) && Sized(end) && Around(st, end, p)
    && RingsTaken(st, end, k) && EntriesLeft(st, end, k, sample.slot) && Logged(st, end, k, sample)
  }

  ghost predicate RingsTaken(st: State, end: State, k: nat)
    requires Sized(st) && Sized(end) && end.cfg == st.cfg
  {
    && end.rings == st.rings.(wpos := end.rings.wpos)
    && forall r {:trigger end.rings.wpos[r]} :: 0 <= r < st.cfg.maxSubs ==>
         end.rings.wpos[r] == if Reached(st, k, r) then st.rings.wpos[r] + 1 else st.rings.wpos[r]
  }

  ghost predicate EntriesLeft(st: State, end: State, k: nat, slot: nat)
    requires Sized(st) && Sized(end) && end.cfg == st.cfg
  {
    && (forall r {:trigger end.ents.seqs[r]} :: 0 <= r < st.cfg.maxSubs ==> end.ents.seqs[r] == WordsLeft(st, k, r))
    && (forall r {:trigger end.ents.metas[r]} :: 0 <= r < st.cfg.maxSubs ==> end.ents.metas[r] == ClaimsLeft(st, k, r, slot))
  }

  ghost predicate Logged(st: State, end: State, k: nat, sample: Sample)
    requires Sized(st)
  {
    && (forall x :: x in end.ents.log <==> x in st.ents.log || Hits(st, k, x))
    && (forall x :: x in end.ents.log ==> end.ents.log[x] == if Hits(st, k, x) then sample else st.ents.log[x])
  }

  /** The next claim of every ring is older than the position it hands out next. */
  ghost predicate TagsBehind(st: State)
    requires Sized(st)
  {
    forall r :: 0 <= r < st.cfg.maxSubs ==> MetaAt(st, r, st.rings.wpos[r]).tag <= st.rings.wpos[r]
  }

  /** Ring k is as it was when the publish began. */
  predicate SameSoFar(st: State, mid: State, k: nat) {
    && Sized(st) && Sized(mid) && mid.cfg == st.cfg && k < st.cfg.maxSubs
    && mid.rings.state == st.rings.state && mid.rings.wpos[k] == st.rings.wpos[k]
    && mid.ents.seqs[k] == st.ents.seqs[k] && mid.ents.metas[k] == st.ents.metas[k]
  }

  lemma SoFar(st: State, mid: State, p: nat, k: nat, sample: Sample)
    requires Published(st, mid, p, k, sample) && k < st.cfg.maxSubs
    ensures SameSoFar(st, mid, k)
  {
    hide Idx, After, Lockable;
  }

  lemma RingsOn(st: State, mid: State, end: State, p: nat, k: nat, sample: Sample)
    requires SameSoFar(st, mid, k) && RingsTaken(st, mid, k) && Sized(end) && end.cfg == st.cfg && RingDone(mid, end, p, k, sample)
    ensures RingsTaken(st, end, k + 1)
  {
    hide After, Lockable, Idx, Leaves;
    forall r | 0 <= r < st.cfg.maxSubs
      ensures end.rings.wpos[r] == if Reached(st, k + 1, r) then st.rings.wpos[r] + 1 else st.rings.wpos[r]
    {
      assert mid.rings.wpos[r] == if Reached(st, k, r) then st.rings.wpos[r] + 1 else st.rings.wpos[r];
    }
  }

  lemma EntriesOn(st: State, mid: State, end: State, p: nat, k: nat, sample: Sample)
    requires SameSoFar(st, mid, k) && EntriesLeft(st, mid, k, sample.slot) && Sized(end) && end.cfg == st.cfg
    requires RingDone(mid, end, p, k, sample)
    ensures EntriesLeft(st, end, k + 1, sample.slot)
  {
    hide After, Lockable, Idx;
    forall r | 0 <= r < st.cfg.maxSubs
      ensures end.ents.seqs[r] == WordsLeft(st, k + 1, r) && end.ents.metas[r] == ClaimsLeft(st, k + 1, r, sample.slot)
    {
      assert mid.ents.seqs[r] == WordsLeft(st, k, r) && mid.ents.metas[r] == ClaimsLeft(st, k, r, sample.slot);
    }
  }

  lemma LogOn(st: State, mid: State, end: State, p: nat, k: nat, sample: Sample)
    requires SameSoFar(st, mid, k) && Logged(st, mid, k, sample) && RingDone(mid, end, p, k, sample)
    ensures Logged(st, end, k + 1, sample)
  {
    hide After, Lockable, Idx, Leaves;
    assert WordAt(mid, k, mid.rings.wpos[k]) == WordAt(st, k, st.rings.wpos[k]);
  }

  /** One ring more. */
  lemma PublishedOn(st: State, mid: State, end: State, p: nat, k: nat, sample: Sample)
    requires Published(st, mid, p, k, sample) && k < st.cfg.maxSubs
    requires Around(mid, end, p) && Sized(end) && RingDone(mid, end, p, k, sample)
    ensures Published(st, end, p, k + 1, sample)
  {
    SoFar(st, mid, p, k, sample);
    hide RingsTaken, EntriesLeft, Logged, RingDone, SameSoFar;
    RingsOn(st, mid, end, p, k, sample);
    EntriesOn(st, mid, end, p, k, sample);
    LogOn(st, mid, end, p, k, sample);
  }

  /** Publisher `p` is about to serve ring u.i, having left `sample` in the ones before it. */
  ghost predicate Midway(st: State, mid: State, p: nat, sample: Sample) {
    && Sized(st) && Ready(mid, p) && Published(st, mid, p, mid.pubs[p].i, sample)
    && mid.pubs[p].slot < mid.cfg.pool && Sized(mid) && Offer(mid, p, mid.pubs[p]) == sample
  }

  lemma Serves(st: State, mid: State, p: nat, sample: Sample) returns (next: State)
    requires Midway(st, mid, p, sample) && TagsBehind(st) && mid.pubs[p].pc == PCheck
    ensures Midway(st, next, p, sample) && Leads(mid, p, next) && mid.pubs[p].i < mid.cfg.maxSubs && next.cfg == mid.cfg
    ensures Beyond(mid.cfg, mid.pubs[p], next.pubs[p])
  {
    var u := mid.pubs[p];
    AtNext(st, mid, p, sample);
    if mid.rings.state[u.i] == Live { next := Visits(mid, p); } else { next := Passes(mid, p); }
    ServedNext(st, mid, next, p, sample);
  }

  lemma ServedNext(st: State, mid: State, next: State, p: nat, sample: Sample)
    requires Midway(st, mid, p, sample) && Ready(next, p) && mid.pubs[p].i < st.cfg.maxSubs
    requires Around(mid, next, p) && Beyond(mid.cfg, mid.pubs[p], next.pubs[p]) && RingDone(mid, next, p, mid.pubs[p].i, sample)
    ensures Midway(st, next, p, sample)
  {
    assert Sized(next) by { hide Published, RingDone; }
    OfferKept(mid, next, p);
    PublishedOn(st, mid, next, p, mid.pubs[p].i, sample);
    hide Published, RingDone, Shape;
  }

  /** The loop over the rings. */
  lemma {:induction false} Loops(st: State, mid: State, p: nat, sample: Sample) returns (end: State)
    requires Midway(st, mid, p, sample) && TagsBehind(st) && mid.pubs[p].pc == PCheck
    ensures Midway(st, end, p, sample) && Leads(mid, p, end) && end.pubs[p].i == end.cfg.maxSubs
    ensures end.pubs[p].pc == if end.pubs[p].excess > 0 then PExcess else PIdle
    decreases mid.cfg.maxSubs - mid.pubs[p].i
  {
    var next := Serves(st, mid, p, sample);
    hide Midway, TagsBehind, Leads;
    if mid.pubs[p].i + 1 < mid.cfg.maxSubs {
      end := Loops(st, next, p, sample);
      LeadsOn(mid, p, next, end);
    } else {
      end := next;
    }
  }

  lemma AtNext(st: State, mid: State, p: nat, sample: Sample)
    requires Sized(st) && TagsBehind(st) && Here(mid, p, PCheck) && Published(st, mid, p, mid.pubs[p].i, sample)
    ensures AtRing(mid, p) && mid.cfg == st.cfg && mid.pubs[p].i < st.cfg.maxSubs
  {
    hide Shape, After, Lockable;
    var k := mid.pubs[p].i;
    assert mid.ents.metas[k] == st.ents.metas[k] && mid.rings.wpos[k] == st.rings.wpos[k];
  }

  lemma OfferKept(mid: State, next: State, p: nat)
    requires Sized(mid) && Sized(next) && Around(mid, next, p) && Beyond(mid.cfg, mid.pubs[p], next.pubs[p])
    requires mid.pubs[p].slot < mid.cfg.pool
    ensures Offer(next, p, next.pubs[p]) == Offer(mid, p, mid.pubs[p])
  {
  }

  /** The references nobody took are dropped. */
  lemma Drops(st: State, p: nat) returns (end: State)
    requires Ready(st, p) && (st.pubs[p].pc == PExcess || st.pubs[p].pc == PIdle)
    ensures Ready(end, p) && Leads(st, p, end) && Around(st, end, p) && end.rings == st.rings && end.ents == st.ents
    ensures end.pubs[p] == st.pubs[p].(pc := PIdle)
  {
    if st.pubs[p].pc == PIdle {
      end := st;
      LeadsNowhere(st, p);
    } else {
      var a := Subtracts(st, p);
      end := a;
      LeadsNowhere(a, p);
      if a.pubs[p].pc == PExcessPush { end := PushesBack(a, p); }
      LeadsOn(st, p, a, end);
    }
    hide Leads, Shape;
  }

  lemma Subtracts(st: State, p: nat) returns (end: State)
    requires Here(st, p, PExcess)
    ensures Ready(end, p) && Leads(st, p, end) && Around(st, end, p) && end.rings == st.rings && end.ents == st.ents
    ensures end.pubs[p] == st.pubs[p].(pc := PIdle) || end.pubs[p] == st.pubs[p].(pc := PExcessPush)
  {
    var u := st.pubs[p];
    var next := if st.pool.rc[u.slot] == u.excess then PExcessPush else PIdle;
    hide Leads, Shape;
    end := Moves(st, p, u.(pc := next), PutRc(u.slot, Sub32(st.pool.rc[u.slot], u.excess)));
  }

  lemma PushesBack(st: State, p: nat) returns (end: State)
    requires Here(st, p, PExcessPush)
    ensures Ready(end, p) && Leads(st, p, end) && Around(st, end, p) && end.rings == st.rings && end.ents == st.ents
    ensures end.pubs[p] == st.pubs[p].(pc := PIdle)
  {
    var u := st.pubs[p];
    hide Leads, Shape;
    end := Moves(st, p, u.(pc := PIdle), Push(u.slot));
  }

  lemma DropsNothing(st: State, mid: State, end: State, p: nat, k: nat, sample: Sample)
    requires Published(st, mid, p, k, sample) && Around(mid, end, p) && Sized(end) && end.rings == mid.rings && end.ents == mid.ents
    ensures Published(st, end, p, k, sample)
  {
    hide Hits, Reached, WordsLeft, ClaimsLeft;
  }

  /** The start of publish(): the refcount preset. */
  lemma Begins(st: State, p: nat) returns (end: State)
    requires Here(st, p, PFilled)
    ensures Ready(end, p) && Leads(st, p, end) && Around(st, end, p) && end.rings == st.rings && end.ents == st.ents
    ensures end.pubs[p] == st.pubs[p].(pc := PCheck, i := 0, excess := 0, n := st.pubs[p].n + 1)
  {
    var u := st.pubs[p];
    assert Sized(st);
    hide Leads, Shape;
    end := Moves(st, p, u.(pc := PCheck, i := 0, excess := 0, n := u.n + 1), PutRc(u.slot, st.cfg.maxSubs));
  }

  lemma NothingPublished(st: State, mid: State, p: nat, sample: Sample)
    requires Sized(st) && Sized(mid) && Around(st, mid, p) && mid.rings == st.rings && mid.ents == st.ents
    ensures Published(st, mid, p, 0, sample)
  {
    hide Lockable, Idx;
  }

  lemma TagsAreBehind(st: State)
    requires Sized(st) && Tagged(st)
    ensures TagsBehind(st)
  {
    forall r | 0 <= r < st.cfg.maxSubs ensures MetaAt(st, r, st.rings.wpos[r]).tag <= st.rings.wpos[r] {
      var m := st.ents.metas[r][Idx(st.cfg, st.rings.wpos[r])];
      assert m.tag > 0 ==> m.tag <= st.rings.wpos[r];
    }
  }

  /** A publisher with a filled slot, left alone. */
  lemma Publishes(st: State, p: nat) returns (end: State)
    requires Here(st, p, PFilled) && Sized(st) && TagsBehind(st)
    ensures st.pubs[p].slot < st.cfg.pool && Leads(st, p, end) && p < |end.pubs| && end.pubs[p].pc == PIdle
    ensures var u := st.pubs[p]; Published(st, end, p, st.cfg.maxSubs, Offer(st, p, u.(n := u.n + 1)))
  {
    var sample := Offer(st, p, st.pubs[p].(n := st.pubs[p].n + 1));
    var a := Begins(st, p);
    NothingPublished(st, a, p, sample);
    hide Published, Leads, Shape, TagsBehind;
    var b := Loops(st, a, p, sample);
    end := Drops(b, p);
    DropsNothing(st, b, end, p, st.cfg.maxSubs, sample);
    LeadsOn(st, p, a, b);
    LeadsOn(st, p, b, end);
  }

  /**
  From every reachable state a publisher that is left alone with a filled slot finishes, and has
  taken one position of every Live ring: where the entry was as its predecessor left it, the
  position is committed with the slot, its length and payload, and recorded as this publication;
  where it held residue, the position is a skip marker the next wrap can lock; and no other entry,
  ring word or participant has changed.
  */
  lemma PublishReachesEveryRing(states: seq<State>, steps: seq<Step>, p: nat)
      returns (longer: seq<State>, more: seq<Step>)
    requires |states| == |steps| + 1 && Run(states, steps)
    requires p < |states[|steps|].pubs| && states[|steps|].pubs[p].pc == PFilled
    ensures |longer| == |more| + 1 && Run(longer, more) && steps <= more && forall i :: |steps| <= i < |more| ==> more[i].PubStep? && more[i].p == p
    ensures var st, end := states[|steps|], longer[|more|];
            var u := st.pubs[p];
      && p < |end.pubs| && end.pubs[p].pc == PIdle && Sized(st) && u.slot < st.cfg.pool
      && Published(st, end, p, st.cfg.maxSubs, Offer(st, p, u.(n := u.n + 1)))
  {
    hide *;
    var st := states[|steps|];
    InReachable(states, steps, p);
    var end := Publishes(st, p);
    var n := StepsTo(st, p, end);
    longer, more := AloneRuns(states, steps, p, n, end);
  }

  lemma InReachable(states: seq<State>, steps: seq<Step>, p: nat)
    requires Run(states, steps) && p < |states[|steps|].pubs|
    ensures var st := states[|steps|]; Sized(st) && Ready(st, p) && TagsBehind(st)
  {
    RunKeepsInv(states, steps, |steps|);
    TagsAreBehind(states[|steps|]);
  }

  lemma StepsTo(st: State, p: nat, end: State) returns (n: nat)
    requires Leads(st, p, end)
    ensures Alone(st, p, n, end)
  {
    n :| Alone(st, p, n, end);
  }

  /** In particular, an entry that was lockable holds the committed position and the claim of the slot. */
  lemma CommittedEverywhere(st: State, end: State, p: nat, sample: Sample, r: nat)
    requires Published(st, end, p, st.cfg.maxSubs, sample) && r < st.cfg.maxSubs && st.rings.state[r] == Live
    ensures var pos := st.rings.wpos[r];
            var w := WordAt(st, r, pos);
      && end.rings.wpos[r] == pos + 1
      && (Lockable(st.cfg, w, pos) ==>
            && WordAt(end, r, pos) == Plain(pos + 1) && MetaAt(end, r, pos) == Meta(pos + 1, Some(sample.slot))
            && Place(r, pos) in end.ents.log && end.ents.log[Place(r, pos)] == sample)
      && (!Lockable(st.cfg, w, pos) && Mendable(st.cfg, w, pos) ==>
            WordAt(end, r, pos) == Word.Skip(pos + 1) && Lockable(st.cfg, WordAt(end, r, pos), pos + st.cfg.cap))
  {
    var pos := st.rings.wpos[r];
    assert end.ents.seqs[r] == WordsLeft(st, st.cfg.maxSubs, r) && end.ents.metas[r] == ClaimsLeft(st, st.cfg.maxSubs, r, sample.slot);
    assert Hits(st, st.cfg.maxSubs, Place(r, pos)) <==> Lockable(st.cfg, WordAt(st, r, pos), pos);
  }
}
