/**
View integrity.  An entry's claim always names a slot that still carries what the claiming
publisher put there.  Under (H), the side condition that a thief's two writes never move a
sequence word back, a committed word p + 1 means the claim of p is in the entry, so a view
that passed the second sequence check pins exactly the sample committed at its position.
*/
module ChannelViews {
  import opened ChannelModel
  import opened ChannelShape
  import opened ChannelRefs
  import opened ChannelRings
  import opened ChannelLocks
  import opened Sums

  /** The slot of x still holds what was published as x. */
  predicate Carries(pool: Pool, x: Sample) {
    && x.slot < |pool.rc| && x.slot < |pool.len| && x.slot < |pool.data|
    && pool.len[x.slot] == x.len && pool.data[x.slot] == x.data
  }

  predicate ClaimOk(st: State, r: nat, i: nat, m: Meta)
    requires Sized(st)
  {
    && (m.slot.Some? ==> m.tag > 0)
    && (m.tag > 0 ==>
          && (m.tag - 1) % st.cfg.cap == i
          && Place(r, m.tag - 1) in st.ents.log
          && (m.slot.Some? ==>
                && st.ents.log[Place(r, m.tag - 1)].slot == m.slot.value
                && Carries(st.pool, st.ents.log[Place(r, m.tag - 1)])))
  }

  ghost predicate ClaimsOk(st: State)
    requires Sized(st)
  {
    forall r, i {:trigger st.ents.metas[r][i]} :: 0 <= r < st.cfg.maxSubs && 0 <= i < st.cfg.cap ==>
      ClaimOk(st, r, i, st.ents.metas[r][i])
  }

  /** Position x was committed, by the publication the log records, and slot s still carries it. */
  predicate Shows(st: State, x: Place, s: nat) {
    x in st.ents.log && x in st.ents.committed && st.ents.log[x].slot == s && Carries(st.pool, st.ents.log[x])
  }

  /** What a view was made of, and, until it is released, what its slot still holds. */
  predicate ViewOk(st: State, v: View) {
    var x := Place(v.ring, v.pos);
    && x in st.ents.log && x in st.ents.committed
    && st.ents.log[x].slot == v.slot && st.ents.log[x].len == v.len
    && (v.pc.VHeld? ==> Carries(st.pool, st.ents.log[x]))
  }

  predicate ReadOk(st: State, u: Sub)
    requires Sized(st) && SubShape(st.cfg, u)
  {
    && (u.pc.SMeta? || u.pc.SPin? || u.pc.SCheck? ==> Place(u.ring, u.read) in st.ents.committed)
    && (u.pc.SPin? || u.pc.SCheck? ==>
          && Place(u.ring, u.read) in st.ents.log
          && (MetaAt(st, u.ring, u.read).tag == u.read + 1 ==>
                MetaAt(st, u.ring, u.read).slot == Some(u.slot)))
    && (u.pc.SLen? ==> Shows(st, Place(u.ring, u.read), u.slot))
  }

  ghost predicate ReadsOk(st: State)
    requires SubsShape(st)
  {
    && (forall v :: 0 <= v < |st.views| ==> ViewOk(st, st.views[v]))
    && (forall a: nat :: LivingOwner(st, a) ==> ReadOk(st, st.subs[a]))
  }

  // ----- (H): sequence words do not move back -----

  /** (H) for one access: a repair lock or a skip marker is not behind the word it replaces. */
  predicate ForwardAcc(st: State, acc: Access)
    requires Sized(st) && InRange(st.cfg, acc)
  {
    acc.PutWord? && (acc.w.Repair? || acc.w.Skip?) ==> st.ents.seqs[acc.r][acc.i].Top() <= acc.w.Top()
  }

  predicate FrontOk(w: Word, m: Meta) {
    m.tag <= w.Top() && (w.Plain? && w.v > 0 ==> m.tag == w.v)
  }

  /** No claim is ahead of its sequence word, and a committed word is the claim's own. */
  ghost predicate Fronts(st: State)
    requires Sized(st)
  {
    forall r, i {:trigger st.ents.seqs[r][i]} {:trigger st.ents.metas[r][i]} ::
      0 <= r < st.cfg.maxSubs && 0 <= i < st.cfg.cap ==> FrontOk(st.ents.seqs[r][i], st.ents.metas[r][i])
  }

  predicate TagOk(st: State, u: Pub)
    requires Sized(st) && PubShape(st.cfg, u)
  {
    && (PastLock(u) ==> u.pos + 1 <= WordAt(st, u.i, u.pos).Top())
    && (PastTake(u) ==> u.pos + 1 <= MetaAt(st, u.i, u.pos).tag)
  }

  ghost predicate TagsOk(st: State)
    requires PubsShape(st)
  {
    forall p :: 0 <= p < |st.pubs| ==> TagOk(st, st.pubs[p])
  }

  // ----- what moves and accesses do to them -----

  /** A reference anywhere keeps the refcount off zero. */
  lemma ClaimPins(st: State, r: nat, i: nat, s: nat)
    requires Sized(st) && Conserved(st) && r < st.cfg.maxSubs && i < st.cfg.cap && s < st.cfg.pool
    requires st.ents.metas[r][i].slot == Some(s)
    ensures st.pool.rc[s] > 0
  {
    SumMember(st.ents.metas[r], i, MetaF(s));
    SumMember(st.ents.metas, r, RowF(s));
    assert SlotConserved(st, s);
  }

  lemma ViewPins(st: State, v: nat)
    requires Sized(st) && Conserved(st) && v < |st.views| && st.views[v].pc.VHeld? && st.views[v].slot < st.cfg.pool
    ensures st.pool.rc[st.views[v].slot] > 0
  {
    SumMember(st.views, v, ViewF(st.views[v].slot));
    assert SlotConserved(st, st.views[v].slot);
  }

  lemma SubPins(st: State, a: nat)
    requires Sized(st) && Conserved(st) && a < |st.subs| && SubShape(st.cfg, st.subs[a]) && SubHolds(st.subs[a])
    ensures st.pool.rc[st.subs[a].slot] > 0
  {
    SumMember(st.subs, a, SubF(st.subs[a].slot));
    assert SlotConserved(st, st.subs[a].slot);
  }

  /** A slot is rewritten only without references, and a claim is logged as it is made. */
  predicate Careful(st: State, acc: Access)
    requires Sized(st) && InRange(st.cfg, acc)
  {
    && (acc.PutData? || acc.PutLen? ==> st.pool.rc[acc.s] == 0)
    && (acc.Claim? ==>
          && ClaimWrite(st, acc) && Place(acc.r, acc.pos) !in st.ents.log
          && Carries(st.pool, acc.sample))
  }

  lemma AccessKeepsClaims(st: State, acc: Access)
    requires Sized(st) && InRange(st.cfg, acc) && Conserved(st) && MetaShape(st)
    requires ClaimsOk(st) && Careful(st, acc)
    ensures Sized(Perform(st, acc)) && ClaimsOk(Perform(st, acc))
  {
    var st' := Perform(st, acc);
    forall r, i | 0 <= r < st.cfg.maxSubs && 0 <= i < st.cfg.cap
      ensures ClaimOk(st', r, i, st'.ents.metas[r][i])
    {
      var m := st.ents.metas[r][i];
      assert ClaimOk(st, r, i, m);
      if m.slot.Some? { ClaimPins(st, r, i, m.slot.value); }
    }
  }

  /** What was shown stays shown while the slot has a reference. */
  lemma AccessKeepsShown(st: State, acc: Access, x: Place, s: nat)
    requires Sized(st) && InRange(st.cfg, acc) && Careful(st, acc)
    requires Shows(st, x, s) && st.pool.rc[s] > 0
    ensures Shows(Perform(st, acc), x, s)
    ensures Perform(st, acc).ents.log[x] == st.ents.log[x]
  {
  }

  lemma AccessKeepsLog(st: State, acc: Access, x: Place)
    requires Sized(st) && InRange(st.cfg, acc) && Careful(st, acc) && x in st.ents.log
    ensures x in Perform(st, acc).ents.log && Perform(st, acc).ents.log[x] == st.ents.log[x]
    ensures x in st.ents.committed ==> x in Perform(st, acc).ents.committed
  {
  }

  lemma AccessKeepsFronts(st: State, acc: Access)
    requires Sized(st) && InRange(st.cfg, acc) && Fronts(st) && ForwardAcc(st, acc)
    requires acc.PutWord? ==>
               && WordWrite(st, acc)
               && (acc.w.Lock? ==> st.ents.seqs[acc.r][acc.i].Top() <= acc.w.Top())
               && (acc.w.Plain? ==> acc.w.v <= st.ents.metas[acc.r][acc.i].tag)
    requires acc.Claim? ==> ClaimWrite(st, acc) && acc.pos + 1 <= st.ents.seqs[acc.r][acc.i].Top()
    ensures Sized(Perform(st, acc)) && Fronts(Perform(st, acc))
  {
  }

  /** Sequence words and tags do not go back at this access. */
  lemma AccessGoesOn(st: State, acc: Access, r: nat, pos: nat)
    requires Sized(st) && InRange(st.cfg, acc) && ForwardAcc(st, acc) && r < st.cfg.maxSubs
    requires acc.PutWord? ==>
               && WordWrite(st, acc)
               && (acc.w.Lock? ==> st.ents.seqs[acc.r][acc.i].Top() <= acc.w.Top())
    requires acc.Claim? ==> ClaimWrite(st, acc)
    ensures Sized(Perform(st, acc)) && Perform(st, acc).cfg == st.cfg
    ensures WordAt(st, r, pos).Top() <= WordAt(Perform(st, acc), r, pos).Top()
    ensures MetaAt(st, r, pos).tag <= MetaAt(Perform(st, acc), r, pos).tag
  {
  }

  ghost predicate ShapeParts(st: State) {
    PubsShape(st) && SubsShape(st) && MetaShape(st)
    && forall v :: 0 <= v < |st.views| ==> st.views[v].slot < st.cfg.pool
  }

  /** Everything the proofs above keep without (H). */
  ghost predicate Sound(st: State)
    requires ShapeParts(st)
  {
    Kept(st) && Owned(st) && Counted(st) && QuietOk(st) && LocksOk(st)
  }

  /** What (H) adds. */
  ghost predicate Integral(st: State)
    requires ShapeParts(st)
  {
    ClaimsOk(st) && Fronts(st) && TagsOk(st) && ReadsOk(st)
  }

  // ----- publishers -----

  predicate DataMove(st: State, p: nat, u: Pub, v: Pub, acc: Access)
    requires Sized(st) && PubShape(st.cfg, u) && InRange(st.cfg, acc)
  {
    && (acc.PutData? || acc.PutLen? ==> u.pc.PReserved? && acc.s == u.slot)
    && (acc.Claim? ==>
          && u.pc.PTake?
          && acc.sample == Sample(p, u.n, u.slot, st.pool.len[u.slot], st.pool.data[u.slot]))
    && (acc.PutWord? && acc.w.Lock? ==> st.ents.seqs[acc.r][acc.i].Top() <= acc.w.Top())
    && (acc.PutWord? && acc.w.Plain? ==> u.pc.PCommit?)
    && (PastLock(v) ==>
          && v.i == u.i && v.pos == u.pos
          && (PastLock(u) || acc == PutWord(u.i, Idx(st.cfg, u.pos), Lock(u.pos))))
    && (PastTake(v) ==> v.i == u.i && v.pos == u.pos && (PastTake(u) || acc.Claim?))
  }

  lemma PubDataMove(st: State, p: nat, c: Choice)
    requires PubReady(st, p, c)
    ensures DataMove(st, p, st.pubs[p], PubNext(st, p, c).u, PubNext(st, p, c).acc)
  {
  }

  /** A publisher's access is careful: it rewrites only its own reserved, unreferenced slot. */
  lemma PubCareful(st: State, p: nat, c: Choice)
    requires PubReady(st, p, c) && ShapeParts(st) && Sound(st)
    ensures Careful(st, PubNext(st, p, c).acc)
  {
    hide PubNext;
    var u, acc := st.pubs[p], PubNext(st, p, c).acc;
    PubDataMove(st, p, c);
    PubLockMove(st, p, c);
    assert PosOk(st, u);
    if acc.PutData? || acc.PutLen? { PubShare(st, p, u.slot); }
  }

  /** A publisher's tag facts survive words and tags that only rise. */
  lemma TagStays(st: State, st': State, u: Pub)
    requires Sized(st) && Sized(st') && st'.cfg == st.cfg && PubShape(st.cfg, u) && TagOk(st, u)
    requires HasPos(u) ==>
               && WordAt(st, u.i, u.pos).Top() <= WordAt(st', u.i, u.pos).Top()
               && MetaAt(st, u.i, u.pos).tag <= MetaAt(st', u.i, u.pos).tag
    ensures TagOk(st', u)
  {
    hide WordAt, MetaAt;
  }

  lemma OwnTag(st: State, st': State, p: nat, u: Pub, v: Pub, acc: Access)
    requires Sized(st) && InRange(st.cfg, acc) && PubShape(st.cfg, u) && PubShape(st.cfg, v) && TagOk(st, u)
    requires Sized(st') && st'.cfg == st.cfg && st'.ents == Perform(st, acc).ents
    requires DataMove(st, p, u, v, acc) && (acc.Claim? ==> ClaimWrite(st, acc) && acc.r == u.i && acc.pos == u.pos)
    requires HasPos(u) ==>
               && WordAt(st, u.i, u.pos).Top() <= WordAt(st', u.i, u.pos).Top()
               && MetaAt(st, u.i, u.pos).tag <= MetaAt(st', u.i, u.pos).tag
    ensures TagOk(st', v)
  {
  }

  lemma PubKeepsTags(st: State, p: nat, c: Choice)
    requires PubReady(st, p, c) && ShapeParts(st) && Sound(st) && Integral(st)
    requires ForwardAcc(st, PubNext(st, p, c).acc) && PubsShape(PubTo(st, p, c))
    ensures TagsOk(PubTo(st, p, c))
  {
    hide PubNext, PubTo, AccessPool, AccessRings, AccessEnts, Perform, Kept, Owned, Counted, QuietOk, ReadsOk, Fronts,
      ClaimsOk;
    var u, v, acc, st' := st.pubs[p], PubNext(st, p, c).u, PubNext(st, p, c).acc, PubTo(st, p, c);
    PubDataMove(st, p, c);
    PubLockMove(st, p, c);
    PubParts(st, p, c);
    assert PosOk(st, u) && st'.pubs[p] == v;
    forall q | 0 <= q < |st'.pubs| ensures TagOk(st', st'.pubs[q]) {
      var w := st.pubs[q];
      assert TagOk(st, w);
      if HasPos(w) { AccessGoesOn(st, acc, w.i, w.pos); }
      if q == p { OwnTag(st, st', p, u, v, acc); } else { TagStays(st, st', w); }
    }
  }

  lemma PubKeepsFronts(st: State, p: nat, c: Choice)
    requires PubReady(st, p, c) && ShapeParts(st) && Sound(st) && Integral(st)
    requires ForwardAcc(st, PubNext(st, p, c).acc) && Sized(PubTo(st, p, c))
    ensures Fronts(PubTo(st, p, c))
  {
    hide PubNext;
    var u, acc := st.pubs[p], PubNext(st, p, c).acc;
    PubDataMove(st, p, c);
    PubLockMove(st, p, c);
    assert PosOk(st, u) && TagOk(st, u);
    AccessKeepsFronts(st, acc);
    assert PubTo(st, p, c).ents == Perform(st, acc).ents;
  }

  lemma PubKeepsReads(st: State, p: nat, c: Choice)
    requires PubReady(st, p, c) && ShapeParts(st) && Sound(st) && Integral(st)
    requires SubsShape(PubTo(st, p, c)) && Careful(st, PubNext(st, p, c).acc)
    ensures ReadsOk(PubTo(st, p, c))
  {
    hide PubNext;
    var acc := PubNext(st, p, c).acc;
    var mid, st' := st.(pubs := st.pubs[p := PubNext(st, p, c).u]), PubTo(st, p, c);
    PubKinds(st, p, c);
    forall v | 0 <= v < |st'.views| ensures ViewOk(st', st'.views[v]) {
      var w := st.views[v];
      assert ViewOk(st, w);
      AccessKeepsLog(mid, acc, Place(w.ring, w.pos));
      if w.pc.VHeld? {
        ViewPins(st, v);
        AccessKeepsShown(mid, acc, Place(w.ring, w.pos), w.slot);
      }
    }
    forall a: nat | LivingOwner(st', a) ensures ReadOk(st', st'.subs[a]) {
      assert LivingOwner(st, a) && ReadOk(st, st.subs[a]);
      if st.subs[a].pc.SLen? {
        SubPins(st, a);
        AccessKeepsShown(mid, acc, Place(st.subs[a].ring, st.subs[a].read), st.subs[a].slot);
      }
    }
  }

  lemma PubKeepsIntegral(st: State, p: nat, c: Choice)
    requires PubReady(st, p, c) && ShapeParts(st) && Sound(st) && Integral(st)
    requires ForwardAcc(st, PubNext(st, p, c).acc) && ShapeParts(PubTo(st, p, c))
    ensures Integral(PubTo(st, p, c))
  {
    hide PubNext;
    PubCareful(st, p, c);
    var acc := PubNext(st, p, c).acc;
    AccessKeepsClaims(st, acc);
    assert PubTo(st, p, c).ents == Perform(st, acc).ents && PubTo(st, p, c).pool == Perform(st, acc).pool;
    PubKeepsTags(st, p, c);
    PubKeepsFronts(st, p, c);
    PubKeepsReads(st, p, c);
  }

  // ----- subscribers -----

  /** A subscriber's move through the receive loop, as the entry at read_pos sees it. */
  predicate ReadMove(st: State, a: nat, u: Sub, v: Sub, acc: Access)
    requires Sized(st) && SubShape(st.cfg, u)
  {
    && !acc.PutWord? && !acc.Claim? && !acc.PutData? && !acc.PutLen?
    && (v.pc.SMeta? || v.pc.SPin? || v.pc.SCheck? || v.pc.SLen? ==>
          u.ring < st.cfg.maxSubs && v.ring == u.ring && v.read == u.read && !acc.Unclaim?)
    && (v.pc.SMeta? ==> u.pc.SSeq? && WordAt(st, u.ring, u.read) == Plain(u.read + 1))
    && (v.pc.SPin? ==> u.pc.SMeta? && MetaAt(st, u.ring, u.read) == Meta(u.read + 1, Some(v.slot)))
    && (v.pc.SCheck? ==> u.pc.SPin? && v.slot == u.slot)
    && (v.pc.SLen? ==> u.pc.SCheck? && v.slot == u.slot && WordAt(st, u.ring, u.read) == Plain(u.read + 1))
    && (acc.NewView? ==>
          && u.pc.SLen?
          && u.slot < |st.pool.len|
          && acc.v == View(VHeld, a, u.ring, u.read, u.slot, st.pool.len[u.slot]))
    && (acc.Unclaim? ==> Owns(u) && Leaving(u) && acc.r == u.ring)
  }

  lemma SubReadMove(st: State, a: nat, c: Choice)
    requires SubReady(st, a, c)
    ensures ReadMove(st, a, st.subs[a], SubNext(st, a, c).u, SubNext(st, a, c).acc)
  {
  }

  lemma SubKeepsViews(st: State, a: nat, c: Choice)
    requires SubReady(st, a, c) && ShapeParts(st) && Sound(st) && Integral(st)
    ensures forall w :: 0 <= w < |SubTo(st, a, c).views| ==> ViewOk(SubTo(st, a, c), SubTo(st, a, c).views[w])
  {
    hide SubNext, SubTo, Kept, Owned, Counted, QuietOk, Fronts, TagsOk, ClaimsOk, LocksOk, AccessRings;
    var acc, st' := SubNext(st, a, c).acc, SubTo(st, a, c);
    SubReadMove(st, a, c);
    SubParts(st, a, c);
    assert LivingOwner(st, a) ==> ReadOk(st, st.subs[a]);
    forall w | 0 <= w < |st'.views| ensures ViewOk(st', st'.views[w]) {
      if w < |st.views| { assert ViewOk(st, st.views[w]); }
    }
  }

  lemma SubKeepsReads(st: State, a: nat, c: Choice)
    requires SubReady(st, a, c) && ShapeParts(st) && Sound(st) && Integral(st)
    requires SubsShape(SubTo(st, a, c))
    ensures ReadsOk(SubTo(st, a, c))
  {
    hide SubNext, SubTo, Kept, Counted, QuietOk, TagsOk, AccessRings;
    var u, v, acc, st' := st.subs[a], SubNext(st, a, c).u, SubNext(st, a, c).acc, SubTo(st, a, c);
    SubKeepsViews(st, a, c);
    SubReadMove(st, a, c);
    SubOwnMove(st, a, c);
    SubParts(st, a, c);
    assert LivingOwner(st, a) ==> ReadOk(st, u);
    if u.ring < st.cfg.maxSubs {
      assert FrontOk(WordAt(st, u.ring, u.read), MetaAt(st, u.ring, u.read));
      assert ClaimOk(st, u.ring, Idx(st.cfg, u.read), MetaAt(st, u.ring, u.read));
      assert WordOk(st.ents, st.cfg.cap, u.ring, Idx(st.cfg, u.read), WordAt(st, u.ring, u.read));
    }
    hide ViewOk, Fronts, ClaimsOk, LocksOk;
    forall b: nat | LivingOwner(st', b) ensures ReadOk(st', st'.subs[b]) {
      if b != a { assert LivingOwner(st, b) && ReadOk(st, st.subs[b]); }
    }
  }

  lemma SubKeepsIntegral(st: State, a: nat, c: Choice)
    requires SubReady(st, a, c) && ShapeParts(st) && Sound(st) && Integral(st)
    requires ShapeParts(SubTo(st, a, c))
    ensures Integral(SubTo(st, a, c))
  {
    hide SubNext;
    var acc := SubNext(st, a, c).acc;
    SubReadMove(st, a, c);
    AccessKeepsClaims(st, acc);
    AccessKeepsFronts(st, acc);
    assert SubTo(st, a, c).ents == Perform(st, acc).ents && SubTo(st, a, c).pool == Perform(st, acc).pool;
    var st' := SubTo(st, a, c);
    forall q | 0 <= q < |st'.pubs| ensures TagOk(st', st'.pubs[q]) {
      assert TagOk(st, st.pubs[q]);
      if HasPos(st.pubs[q]) { AccessGoesOn(st, acc, st.pubs[q].i, st.pubs[q].pos); }
    }
    SubKeepsReads(st, a, c);
  }

  // ----- views, repairers, the reclaimer, crashes -----

  /** A step of another kind: its access writes neither slots nor claims, and (H) covers its words. */
  lemma RestKeepsIntegral(st: State, st': State, acc: Access)
    requires ShapeParts(st) && Sound(st) && Integral(st) && InRange(st.cfg, acc) && ShapeParts(st')
    requires ForwardAcc(st, acc) && !acc.PutData? && !acc.PutLen? && !acc.Claim? && !acc.Unclaim? && !acc.NewView?
    requires acc.PutWord? ==> acc.w.Repair? || acc.w.Skip?
    requires st'.cfg == st.cfg && st'.pubs == st.pubs && st'.subs == st.subs && st'.dead >= st.dead
    requires st'.ents == Perform(st, acc).ents && st'.pool == Perform(st, acc).pool
    requires |st'.views| == |st.views|
    requires forall v :: 0 <= v < |st.views| ==>
               st'.views[v] == st.views[v].(pc := st'.views[v].pc) && (st'.views[v].pc.VHeld? ==> st.views[v].pc.VHeld?)
    ensures Integral(st')
  {
    AccessKeepsClaims(st, acc);
    AccessKeepsFronts(st, acc);
    forall q | 0 <= q < |st'.pubs| ensures TagOk(st', st'.pubs[q]) {
      assert TagOk(st, st.pubs[q]);
      if HasPos(st.pubs[q]) { AccessGoesOn(st, acc, st.pubs[q].i, st.pubs[q].pos); }
    }
    forall v | 0 <= v < |st'.views| ensures ViewOk(st', st'.views[v]) { assert ViewOk(st, st.views[v]); }
    forall a: nat | LivingOwner(st', a) ensures ReadOk(st', st'.subs[a]) {
      assert LivingOwner(st, a) && ReadOk(st, st.subs[a]);
    }
  }
}
