/**
Theft safety: each position has one publisher, which locks it at most once; once its lock is
stolen the committed value is never written, every committed value is written at most once,
and an entry's claim only moves forward.
*/
module ChannelLocks {
  import opened ChannelModel
  import opened ChannelShape

  predicate Fresh(u: Pub) { u.pc.PWait? || u.pc.PTry? }

  /** The claim of the publisher's position has been taken. */
  predicate Taken(u: Pub) { PastTake(u) || u.pc.PRelease? }

  ghost predicate PubsShape(st: State) {
    Sized(st) && forall p :: 0 <= p < |st.pubs| ==> PubShape(st.cfg, st.pubs[p])
  }

  /** A publisher's position was handed out, not locked before its lock CAS, not claimed before its claim CAS. */
  predicate PosOk(st: State, u: Pub)
    requires Sized(st) && PubShape(st.cfg, u)
  {
    HasPos(u) ==>
      && u.pos < st.rings.wpos[u.i]
      && (Fresh(u) ==> Place(u.i, u.pos) !in st.ents.locked)
      && (Place(u.i, u.pos) in st.ents.log <==> Taken(u))
  }

  predicate SamePlace(u: Pub, v: Pub) { HasPos(u) && HasPos(v) && u.i == v.i && u.pos == v.pos }

  /** Each position has one publisher. */
  ghost predicate Positions(st: State)
    requires PubsShape(st)
  {
    && (forall p :: 0 <= p < |st.pubs| ==> PosOk(st, st.pubs[p]))
    && (forall p, q :: 0 <= p < |st.pubs| && 0 <= q < |st.pubs| && p != q ==>
          !SamePlace(st.pubs[p], st.pubs[q]))
  }

  predicate HandedOut(st: State, x: Place)
    requires Sized(st)
  {
    x.ring < st.cfg.maxSubs && x.pos < st.rings.wpos[x.ring]
  }

  ghost predicate Histories(st: State)
    requires Sized(st)
  {
    && (forall x :: x in st.ents.locked ==> HandedOut(st, x))
    && (forall x :: x in st.ents.log ==> HandedOut(st, x))
    && st.ents.stolen <= st.ents.locked && st.ents.committed <= st.ents.locked
    && st.ents.stolen !! st.ents.committed
  }

  predicate WordOk(e: Ents, cap: nat, r: nat, i: nat, w: Word)
    requires cap > 0
  {
    match w
    case Lock(p) =>
      p % cap == i && Place(r, p) in e.locked && Place(r, p) !in e.stolen && Place(r, p) !in e.committed
    case Plain(v) => v > 0 ==> (v - 1) % cap == i && Place(r, v - 1) in e.committed
    case _ => true
  }

  ghost predicate Words(st: State)
    requires Sized(st)
  {
    forall r, i {:trigger st.ents.seqs[r][i]} :: 0 <= r < st.cfg.maxSubs && 0 <= i < st.cfg.cap ==>
      WordOk(st.ents, st.cfg.cap, r, i, st.ents.seqs[r][i])
  }

  ghost predicate LocksOk(st: State)
    requires PubsShape(st)
  {
    Positions(st) && Histories(st) && Words(st)
  }

  /** The writes the protocol makes to a sequence word. */
  predicate WordWrite(st: State, acc: Access)
    requires Sized(st) && InRange(st.cfg, acc) && acc.PutWord?
  {
    var was := st.ents.seqs[acc.r][acc.i];
    match acc.w
    case Lock(p) =>
      && !was.Locked() && p % st.cfg.cap == acc.i && HandedOut(st, Place(acc.r, p))
      && Place(acc.r, p) !in st.ents.locked
    case Plain(v) => v > 0 && was == Lock(v - 1)
    case _ => true
  }

  predicate ClaimWrite(st: State, acc: Access)
    requires Sized(st) && InRange(st.cfg, acc) && acc.Claim?
  {
    && acc.i == Idx(st.cfg, acc.pos) && HandedOut(st, Place(acc.r, acc.pos))
    && st.ents.metas[acc.r][acc.i].tag < acc.pos + 1
  }

  lemma WriteKeeps(st: State, acc: Access)
    requires Sized(st) && InRange(st.cfg, acc) && Histories(st) && Words(st)
    requires acc.PutWord? ==> WordWrite(st, acc)
    requires acc.Claim? ==> ClaimWrite(st, acc)
    ensures Sized(Perform(st, acc)) && Histories(Perform(st, acc)) && Words(Perform(st, acc))
  {
  }

  /** A publisher's move, as its position sees it. */
  predicate LockMove(st: State, u: Pub, v: Pub, acc: Access)
    requires Sized(st) && PubShape(st.cfg, u) && InRange(st.cfg, acc)
  {
    && (HasPos(v) && HasPos(u) ==> v.i == u.i && v.pos == u.pos)
    && (HasPos(v) && !HasPos(u) ==>
          u.pc.PClaim? && Fresh(v) && v.i == u.i && v.pos == st.rings.wpos[u.i])
    && (acc.FetchPos? <==> u.pc.PClaim?)
    && (acc.FetchPos? ==> acc.r == u.i)
    && (Fresh(v) && HasPos(u) ==> Fresh(u) && acc.Load?)
    && (acc.PutWord? ==>
          && HasPos(u) && HasPos(v) && acc.r == u.i && acc.i == Idx(st.cfg, u.pos)
          && (acc.w == Repair(u.pos) || acc.w == Word.Skip(u.pos + 1)
              || (acc.w == Lock(u.pos) && Fresh(u) && !st.ents.seqs[acc.r][acc.i].Locked())
              || (acc.w == Plain(u.pos + 1) && st.ents.seqs[acc.r][acc.i] == Lock(u.pos))))
    && (acc.Claim? ==>
          && HasPos(u) && !Taken(u) && HasPos(v) && acc.r == u.i && acc.pos == u.pos
          && acc.i == Idx(st.cfg, u.pos) && st.ents.metas[acc.r][acc.i].tag < u.pos + 1)
    && (HasPos(v) && HasPos(u) ==> (Taken(v) <==> Taken(u) || acc.Claim?))
  }

  lemma PubLockMove(st: State, p: nat, c: Choice)
    requires PubReady(st, p, c)
    ensures LockMove(st, st.pubs[p], PubNext(st, p, c).u, PubNext(st, p, c).acc)
  {
  }

  lemma PubKeepsLocks(st: State, p: nat, c: Choice)
    requires PubsShape(st) && PubReady(st, p, c) && LocksOk(st) && PubsShape(PubTo(st, p, c))
    ensures LocksOk(PubTo(st, p, c))
  {
    hide PubNext;
    PubLockMove(st, p, c);
    var u, v, acc, st' := st.pubs[p], PubNext(st, p, c).u, PubNext(st, p, c).acc, PubTo(st, p, c);
    assert PosOk(st, u);
    WriteKeeps(st.(pubs := st.pubs[p := v]), acc);
    forall q | 0 <= q < |st'.pubs| ensures PosOk(st', st'.pubs[q]) { assert PosOk(st, st.pubs[q]); }
    forall q, q' | 0 <= q < |st'.pubs| && 0 <= q' < |st'.pubs| && q != q'
      ensures !SamePlace(st'.pubs[q], st'.pubs[q'])
    {
      assert PosOk(st, st.pubs[q]) && PosOk(st, st.pubs[q']);
      assert !SamePlace(st.pubs[q], st.pubs[q']);
    }
  }

  lemma RepKeepsLocks(st: State, k: nat, r: nat, pos: nat)
    requires PubsShape(st) && RepReady(st, k, r, pos) && LocksOk(st) && PubsShape(RepTo(st, k, r, pos))
    ensures LocksOk(RepTo(st, k, r, pos))
  {
    WriteKeeps(st.(reps := st.reps[k := RepNext(st, k, r, pos).u]), RepNext(st, k, r, pos).acc);
    var st' := RepTo(st, k, r, pos);
    forall q | 0 <= q < |st'.pubs| ensures PosOk(st', st'.pubs[q]) { assert PosOk(st, st.pubs[q]); }
  }

  /** Steps that write no sequence word, make no claim and hand out no position. */
  lemma UnaffectedLocks(st: State, st': State)
    requires PubsShape(st) && LocksOk(st) && PubsShape(st') && st'.cfg == st.cfg && st'.pubs == st.pubs
    requires st'.rings.wpos == st.rings.wpos
    requires st'.ents == st.ents.(metas := st'.ents.metas)
    ensures LocksOk(st')
  {
    forall q | 0 <= q < |st'.pubs| ensures PosOk(st', st'.pubs[q]) { assert PosOk(st, st.pubs[q]); }
  }
}
