/**
The channel protocol: publishers, subscribers, sample views, repairers and the ring
reclaimer over shared rings, entries and slots.

One step is one atomic access of the shared region by one participant: the participant
computes its next local state and the access (`PubMove`, `SubMove`, ...), and `Perform`
carries the access out.  Participants are
interleaved arbitrarily, and a participant that never steps again is a crashed one.
Timeouts and retry budgets are nondeterministic choices.  A compare-and-swap loop whose
failed attempts only reload is one step that reads and writes at the successful attempt.

Positions, claim tags and counters are unbounded here; module ClaimWord relates the tags
to the 40-bit field.  `log`, `locked`, `stolen`, `committed`, `clean` and the publication
numbers are history: no step of the protocol reads them.
*/
module ChannelModel {

  datatype Option<+T> = None | Some(value: T)

  newtype byte = x: int | 0 <= x < 256
  type Bytes = seq<byte>

  const UINT32_MAX: nat := 0xFFFF_FFFF
  const MAX_SUBSCRIBERS: nat := 65535
  const LOCK_ATTEMPTS: nat := 64
  const RECEIVE_ATTEMPTS: nat := 64

  /** The validated geometry copy every participant works from. */
  datatype Config = Config(maxSubs: nat, cap: nat, pool: nat, dataSize: nat)
  {
    predicate Valid() {
      0 < maxSubs <= MAX_SUBSCRIBERS && 0 < cap && 0 < pool
    }
  }

  /** Entry::sequence: committed v, skip marker v, publisher lock at p, repairer lock at p. */
  datatype Word = Plain(v: nat) | Skip(v: nat) | Lock(p: nat) | Repair(p: nat)
  {
    predicate Locked() { Lock? || Repair? }

    /** The position field of the word. */
    function Pos(): nat {
      match this
      case Plain(v) => v
      case Skip(v) => v
      case Lock(p) => p
      case Repair(p) => p
    }

    /** The committed value the word holds or is working towards. */
    function Top(): nat {
      if Locked() then Pos() + 1 else Pos()
    }
  }

  /** Entry::meta: the claiming position plus one, and the claimed slot if any. */
  datatype Meta = Meta(tag: nat, slot: Option<nat>)

  datatype RState = Free | Live | Draining | Reclaiming

  /** A position of a ring. */
  datatype Place = Place(ring: nat, pos: nat)

  /** What the publisher of a position put behind it: the n-th publication of `pub`. */
  datatype Sample = Sample(pub: nat, n: nat, slot: nat, len: nat, data: Bytes)

  // ----- participants -----

  datatype PubPc =
    | PIdle | PReserved | PFilled | PCheck | PAdmit | PClaim | PWait | PTry
    | PHeal | PHealCas | PHealStore | PAbandon | PRecheck | PTake
    | PEvict | PEvictPush | PCommit | PRelease | PExcess | PExcessPush

  datatype Pub = Pub(pc: PubPc, slot: nat, i: nat, excess: nat, pos: nat,
                     seen: Word, last: Word, stable: bool, tries: nat, prev: nat, n: nat)

  datatype SubPc =
    | SDetached | SClaimLoad | SClaimCas | SOwner | SFloor | SReady
    | SRx | SSeq | SMeta | SPin | SCheck | SLen | SUnpin | SPush
    | SLeave | SQuiesce | SClearQuiesced | SClearTimeout
    | SDrainLoad | SDrainMeta | SDrainCas | SDrainDrop | SDrainPush
    | SSetFree | STimeoutFree | SGone

  /** One Subscriber object: attached at most once, gone after release_ring. */
  datatype Sub = Sub(pc: SubPc, ring: nat, start: nat, read: nat, lost: nat,
                     first: nat, got: nat, tries: nat, callLost: nat,
                     slot: nat, cur: Meta, at: nat, wp: nat)

  /** A SampleView: holding its pin, past the decrement that reached zero, or released. */
  datatype ViewPc = VHeld | VPush | VGone

  datatype View = View(pc: ViewPc, sub: nat, ring: nat, pos: nat, slot: nat, len: nat)

  /** A pass of repair_locked_entries at one entry. */
  datatype Rep = RIdle | RHave(ring: nat, pos: nat, seen: Word) | RMark(ring: nat, pos: nat)

  /** The one pass of reclaim_dead_rings. */
  datatype Rec =
    | CIdle
    | CSeen(ring: nat, was: RState)
    | CHeld(ring: nat, was: RState)
    | CClear(ring: nat)
    | CFree(ring: nat)
    | CRestore(ring: nat, was: RState)

  /** The slot pool: Slot headers, payloads and the set of slots on the free stack. */
  datatype Pool = Pool(rc: seq<nat>, len: seq<nat>, data: seq<Bytes>, free: set<nat>)

  /** The ring headers. */
  datatype Rings = Rings(state: seq<RState>, flight: seq<nat>, wpos: seq<nat>,
                         owner: seq<Option<nat>>, clean: seq<bool>)

  /** The ring entries, and the history of what was written to them. */
  datatype Ents = Ents(seqs: seq<seq<Word>>, metas: seq<seq<Meta>>, log: map<Place, Sample>,
                       locked: set<Place>, stolen: set<Place>, committed: set<Place>)

  datatype State = State(cfg: Config, pool: Pool, rings: Rings, ents: Ents,
                         pubs: seq<Pub>, subs: seq<Sub>, views: seq<View>,
                         reps: seq<Rep>, rec: Rec, dead: set<nat>)

  // ----- accesses of the shared region -----

  datatype Access =
    | Load
    | Pop(s: nat) | Push(s: nat)
    | PutData(s: nat, d: Bytes) | PutLen(s: nat, l: nat) | PutRc(s: nat, n: nat)
    | PutState(r: nat, x: RState) | PutFlight(r: nat, n: nat) | FetchPos(r: nat)
    | PutOwner(r: nat, o: Option<nat>)
    | PutFree(r: nat)                                  // plain store of (Free, 0)
    | Strand(r: nat)                                   // Free by CAS, entries not drained
    | PutWord(r: nat, i: nat, w: Word)
    | Claim(r: nat, i: nat, pos: nat, sample: Sample)  // claim CAS on Entry::meta
    | Unclaim(r: nat, i: nat)                          // clear the slot field of Entry::meta
    | NewView(v: View)

  function Idx(cfg: Config, pos: nat): (i: nat)
    requires cfg.cap > 0
    ensures i < cfg.cap
  {
    pos % cfg.cap
  }

  predicate Sized(st: State) {
    && st.cfg.Valid()
    && |st.pool.rc| == |st.pool.len| == |st.pool.data| == st.cfg.pool
    && |st.rings.state| == |st.rings.flight| == |st.rings.wpos| == |st.rings.owner|
       == |st.rings.clean| == st.cfg.maxSubs
    && |st.ents.seqs| == |st.ents.metas| == st.cfg.maxSubs
    && (forall r :: 0 <= r < st.cfg.maxSubs ==> |st.ents.seqs[r]| == st.cfg.cap)
    && (forall r :: 0 <= r < st.cfg.maxSubs ==> |st.ents.metas[r]| == st.cfg.cap)
  }

  function WordAt(st: State, r: nat, pos: nat): Word
    requires Sized(st) && r < st.cfg.maxSubs
  {
    st.ents.seqs[r][Idx(st.cfg, pos)]
  }

  function MetaAt(st: State, r: nat, pos: nat): Meta
    requires Sized(st) && r < st.cfg.maxSubs
  {
    st.ents.metas[r][Idx(st.cfg, pos)]
  }

  predicate InRange(cfg: Config, acc: Access) {
    match acc
    case Load => true
    case Pop(s) => s < cfg.pool
    case Push(s) => s < cfg.pool
    case PutData(s, _) => s < cfg.pool
    case PutLen(s, _) => s < cfg.pool
    case PutRc(s, _) => s < cfg.pool
    case PutState(r, _) => r < cfg.maxSubs
    case PutFlight(r, _) => r < cfg.maxSubs
    case FetchPos(r) => r < cfg.maxSubs
    case PutOwner(r, _) => r < cfg.maxSubs
    case PutFree(r) => r < cfg.maxSubs
    case Strand(r) => r < cfg.maxSubs
    case PutWord(r, i, _) => r < cfg.maxSubs && i < cfg.cap
    case Claim(r, i, _, x) => r < cfg.maxSubs && i < cfg.cap && x.slot < cfg.pool
    case Unclaim(r, i) => r < cfg.maxSubs && i < cfg.cap
    case NewView(v) => v.slot < cfg.pool
  }

  /** Write word w, recording a lock taken, a lock stolen or a position committed. */
  function WriteWord(e: Ents, r: nat, i: nat, w: Word): Ents
    requires r < |e.seqs| && i < |e.seqs[r]|
  {
    var was := e.seqs[r][i];
    e.(seqs := e.seqs[r := e.seqs[r][i := w]],
       locked := if w.Lock? then e.locked + {Place(r, w.p)} else e.locked,
       stolen := if was.Lock? && w != Plain(was.p + 1) then e.stolen + {Place(r, was.p)} else e.stolen,
       committed := if w.Plain? && w.v > 0 then e.committed + {Place(r, w.v - 1)} else e.committed)
  }

  function WriteMeta(e: Ents, r: nat, i: nat, m: Meta): Ents
    requires r < |e.metas| && i < |e.metas[r]|
  {
    e.(metas := e.metas[r := e.metas[r][i := m]])
  }

  function AccessPool(p: Pool, acc: Access): Pool
    requires (acc.PutData? ==> acc.s < |p.data|) && (acc.PutLen? ==> acc.s < |p.len|)
    requires acc.PutRc? ==> acc.s < |p.rc|
  {
    match acc
    case Pop(s) => p.(free := p.free - {s})
    case Push(s) => p.(free := p.free + {s})
    case PutData(s, d) => p.(data := p.data[s := d])
    case PutLen(s, l) => p.(len := p.len[s := l])
    case PutRc(s, n) => p.(rc := p.rc[s := n])
    case _ => p
  }

  function AccessRings(g: Rings, acc: Access): Rings
    requires |g.state| == |g.flight| == |g.wpos| == |g.owner| == |g.clean|
    requires acc.PutState? || acc.PutFlight? || acc.FetchPos? || acc.PutOwner? || acc.PutFree? || acc.Strand? ==>
               acc.r < |g.state|
  {
    match acc
    case PutState(r, x) => g.(state := g.state[r := x])
    case PutFlight(r, n) => g.(flight := g.flight[r := n])
    case FetchPos(r) => g.(wpos := g.wpos[r := g.wpos[r] + 1])
    case PutOwner(r, o) => g.(owner := g.owner[r := o])
    case PutFree(r) => g.(state := g.state[r := Free], flight := g.flight[r := 0])
    case Strand(r) => g.(state := g.state[r := Free], clean := g.clean[r := false])
    case _ => g
  }

  function AccessEnts(e: Ents, acc: Access): Ents
    requires |e.seqs| == |e.metas|
    requires acc.PutWord? ==> acc.r < |e.seqs| && acc.i < |e.seqs[acc.r]|
    requires acc.Claim? || acc.Unclaim? ==> acc.r < |e.metas| && acc.i < |e.metas[acc.r]|
  {
    match acc
    case PutWord(r, i, w) => WriteWord(e, r, i, w)
    case Claim(r, i, pos, x) =>
      WriteMeta(e, r, i, Meta(pos + 1, Some(x.slot))).(log := e.log[Place(r, pos) := x])
    case Unclaim(r, i) => WriteMeta(e, r, i, Meta(e.metas[r][i].tag, None))
    case _ => e
  }

  function Perform(st: State, acc: Access): State
    requires Sized(st) && InRange(st.cfg, acc)
  {
    st.(pool := AccessPool(st.pool, acc),
        rings := AccessRings(st.rings, acc),
        ents := AccessEnts(st.ents, acc),
        views := if acc.NewView? then st.views + [acc.v] else st.views)
  }

  /** fetch_sub on a 32-bit counter. */
  function Sub32(n: nat, k: nat): nat {
    if k <= n then n - k else (n + 0x1_0000_0000 - (k % 0x1_0000_0000)) % 0x1_0000_0000
  }

  /** References a publisher has preset and not yet handed to an entry or dropped. */
  function Held(cfg: Config, u: Pub): nat {
    match u.pc
    case PIdle => 0
    case PReserved => 0
    case PFilled => 0
    case PEvict => Rest(cfg, u)
    case PEvictPush => Rest(cfg, u)
    case PCommit => Rest(cfg, u)
    case PRelease => Rest(cfg, u)
    case PExcess => u.excess
    case PExcessPush => 0
    case _ => Rest(cfg, u) + 1
  }

  function Rest(cfg: Config, u: Pub): nat {
    (if u.i < cfg.maxSubs then cfg.maxSubs - u.i - 1 else 0) + u.excess
  }

  /** The publisher is between its admission to ring u.i and the release of it. */
  predicate Admitted(u: Pub) {
    match u.pc
    case PClaim => true
    case PWait => true
    case PTry => true
    case PHeal => true
    case PHealCas => true
    case PHealStore => true
    case PAbandon => true
    case PRecheck => true
    case PTake => true
    case PEvict => true
    case PEvictPush => true
    case PCommit => true
    case PRelease => true
    case _ => false
  }

  predicate InLoop(u: Pub) { Admitted(u) || u.pc.PCheck? || u.pc.PAdmit? }

  /** The publisher holds a position of ring u.i. */
  predicate HasPos(u: Pub) { Admitted(u) && !u.pc.PClaim? }

  /** The publisher's lock CAS on its position has succeeded. */
  predicate PastLock(u: Pub) {
    u.pc.PRecheck? || u.pc.PTake? || PastTake(u)
  }

  /** The publisher's claim CAS on its position has succeeded. */
  predicate PastTake(u: Pub) {
    u.pc.PEvict? || u.pc.PEvictPush? || u.pc.PCommit?
  }

  /** The subscriber is the owner of ring `ring`. */
  predicate Owns(u: Sub) {
    !u.pc.SDetached? && !u.pc.SClaimLoad? && !u.pc.SClaimCas? && !u.pc.SGone?
  }

  /** ... and has not begun to leave it. */
  predicate Receiving(u: Sub) {
    match u.pc
    case SReady => true
    case SRx => true
    case SSeq => true
    case SMeta => true
    case SPin => true
    case SCheck => true
    case SLen => true
    case SUnpin => true
    case SPush => true
    case SLeave => true
    case _ => false
  }

  /** The subscriber holds one reference of u.slot itself. */
  predicate SubHolds(u: Sub) {
    u.pc.SCheck? || u.pc.SLen? || u.pc.SUnpin? || u.pc.SDrainDrop?
  }

  predicate SubPushes(u: Sub) { u.pc.SPush? || u.pc.SDrainPush? }

  predicate InDrain(u: Sub) {
    u.pc.SDrainMeta? || u.pc.SDrainCas? || u.pc.SDrainDrop? || u.pc.SDrainPush?
  }

  // ----- shape: every index a participant carries is in range -----

  predicate PubShape(cfg: Config, u: Pub) {
    && (!u.pc.PIdle? ==> u.slot < cfg.pool)
    && (InLoop(u) ==> u.i < cfg.maxSubs && u.excess <= u.i)
    && (u.pc.PExcess? ==> 0 < u.excess <= cfg.maxSubs)
    && (u.pc.PEvict? || u.pc.PEvictPush? ==> u.prev < cfg.pool)
  }

  predicate SubShape(cfg: Config, u: Sub) {
    && (!u.pc.SDetached? ==> u.ring < cfg.maxSubs)
    && (SubHolds(u) || SubPushes(u) || u.pc.SPin? ==> u.slot < cfg.pool)
    && (u.pc.SDrainCas? ==> u.cur.slot.Some? && u.cur.slot.value < cfg.pool)
  }

  predicate RepShape(cfg: Config, k: Rep) { k.RIdle? || k.ring < cfg.maxSubs }

  predicate RecShape(cfg: Config, k: Rec) { k.CIdle? || k.ring < cfg.maxSubs }

  ghost predicate MetaShape(st: State)
    requires Sized(st)
  {
    forall r, i {:trigger st.ents.metas[r][i]} ::
      0 <= r < st.cfg.maxSubs && 0 <= i < st.cfg.cap && st.ents.metas[r][i].slot.Some? ==>
        st.ents.metas[r][i].slot.value < st.cfg.pool
  }

  ghost predicate Shape(st: State) {
    && Sized(st)
    && MetaShape(st)
    && (forall s :: s in st.pool.free ==> s < st.cfg.pool)
    && (forall p :: 0 <= p < |st.pubs| ==> PubShape(st.cfg, st.pubs[p]))
    && (forall a :: 0 <= a < |st.subs| ==> SubShape(st.cfg, st.subs[a]))
    && (forall v :: 0 <= v < |st.views| ==> st.views[v].slot < st.cfg.pool)
    && (forall k :: 0 <= k < |st.reps| ==> RepShape(st.cfg, st.reps[k]))
    && RecShape(st.cfg, st.rec)
  }

  // ----- publishers -----

  /** Nondeterminism of a step: the plain course, the alternative one, or a parameter. */
  datatype Choice = Go | Alt | Take(s: nat) | Fill(d: Bytes) | Length(l: nat)

  /** The next local state of a participant, and its access. */
  datatype PubMove = PubMove(u: Pub, acc: Access)
  datatype SubMove = SubMove(u: Sub, acc: Access)
  datatype ViewMove = ViewMove(u: View, acc: Access)
  datatype RepMove = RepMove(u: Rep, acc: Access)
  datatype RecMove = RecMove(u: Rec, acc: Access)

  /** On to the next ring of the publish loop, or past the loop. */
  function NextRing(cfg: Config, u: Pub): Pub {
    u.(i := u.i + 1,
       pc := if u.i + 1 < cfg.maxSubs then PCheck else if u.excess > 0 then PExcess else PIdle)
  }

  /** The word a publisher at `pos` must find to lock its entry. */
  function PrevSeq(cfg: Config, pos: nat): nat {
    if pos >= cfg.cap then pos - cfg.cap + 1 else 0
  }

  predicate PubEnabled(st: State, u: Pub, c: Choice) {
    match u.pc
    case PIdle => c.Take? && c.s in st.pool.free
    case PReserved => c.Fill? || (c.Length? && c.l <= st.cfg.dataSize) || c.Alt?
    case PWait => c.Go? || c.Alt?
    case _ => c.Go?
  }

  /** allocate, write, the start of publish, and its final release of unused references. */
  function PubOutside(st: State, u: Pub, c: Choice): PubMove
    requires Sized(st) && PubShape(st.cfg, u) && PubEnabled(st, u, c)
  {
    match u.pc
    case PIdle => PubMove(u.(pc := PReserved, slot := c.s, excess := 0), Pop(c.s))
    case PReserved =>
      if c.Fill? then PubMove(u, PutData(u.slot, c.d))
      else if c.Length? then PubMove(u.(pc := PFilled), PutLen(u.slot, c.l))
      else PubMove(u.(pc := PIdle), Push(u.slot))
    case PFilled =>
      PubMove(u.(pc := PCheck, i := 0, excess := 0, n := u.n + 1), PutRc(u.slot, st.cfg.maxSubs))
    case PExcess =>
      PubMove(u.(pc := if st.pool.rc[u.slot] == u.excess then PExcessPush else PIdle),
              PutRc(u.slot, Sub32(st.pool.rc[u.slot], u.excess)))
    case PExcessPush => PubMove(u.(pc := PIdle), Push(u.slot))
    case _ => PubMove(u, Load)
  }

  /** One ring of the publish loop: admission, position, the wait and the lock. */
  function PubLock(st: State, u: Pub, c: Choice): PubMove
    requires Sized(st) && PubShape(st.cfg, u) && InLoop(u)
  {
    var r, i := u.i, Idx(st.cfg, u.pos);
    match u.pc
    case PCheck =>
      if st.rings.state[r] == Live then PubMove(u.(pc := PAdmit), Load)
      else PubMove(NextRing(st.cfg, u.(excess := u.excess + 1)), Load)
    case PAdmit =>
      if st.rings.state[r] == Live
      then PubMove(u.(pc := PClaim), PutFlight(r, st.rings.flight[r] + 1))
      else PubMove(NextRing(st.cfg, u.(excess := u.excess + 1)), Load)
    case PClaim =>
      PubMove(u.(pos := st.rings.wpos[r], seen := Plain(0), last := Plain(0), stable := false, tries := 0,
                 pc := if st.rings.wpos[r] >= st.cfg.cap then PWait else PTry),
              FetchPos(r))
    // wait_for_commit: returns on a committed predecessor, or times out on anything
    case PWait =>
      var w := st.ents.seqs[r][i];
      PubMove(u.(pc := PTry, seen := w, last := w, stable := c.Alt? && w.Locked()), Load)
    case PTry =>
      var w := st.ents.seqs[r][i];
      if u.tries >= LOCK_ATTEMPTS then PubMove(u.(pc := PHeal), Load)
      else if !u.seen.Locked() && u.seen.Pos() == PrevSeq(st.cfg, u.pos) then
        if w == u.seen then PubMove(u.(pc := PRecheck), PutWord(r, i, Lock(u.pos)))
        else PubMove(u.(seen := w, tries := u.tries + 1), Load)
      else if !u.seen.Locked() then PubMove(u.(pc := PHeal), Load)
      else PubMove(u.(seen := w, tries := u.tries + 1), Load)
    case _ => PubMove(u, Load)
  }

  /** self_repair and abandon_delivery. */
  function PubHeal(st: State, u: Pub): PubMove
    requires Sized(st) && PubShape(st.cfg, u) && InLoop(u)
  {
    var r, i := u.i, Idx(st.cfg, u.pos);
    match u.pc
    case PHeal =>
      var w := st.ents.seqs[r][i];
      var steal := if w.Locked() then u.stable && w == u.last else w.Pos() + st.cfg.cap < u.pos + 1;
      PubMove(u.(seen := w, pc := if steal then PHealCas else PAbandon), Load)
    case PHealCas =>
      if st.ents.seqs[r][i] == u.seen then PubMove(u.(pc := PHealStore), PutWord(r, i, Repair(u.pos)))
      else PubMove(u.(pc := PAbandon), Load)
    case PHealStore => PubMove(u.(pc := PAbandon), PutWord(r, i, Skip(u.pos + 1)))
    // the admission goes, the reference joins the excess
    case PAbandon =>
      PubMove(NextRing(st.cfg, u.(excess := u.excess + 1)), PutFlight(r, Sub32(st.rings.flight[r], 1)))
    case _ => PubMove(u, Load)
  }

  /** The claim, the release of the evicted claim, and the commit. */
  function PubCommit(st: State, p: nat, u: Pub): PubMove
    requires Sized(st) && PubShape(st.cfg, u) && InLoop(u)
  {
    var r, i := u.i, Idx(st.cfg, u.pos);
    match u.pc
    case PRecheck =>
      PubMove(u.(pc := if st.ents.seqs[r][i] == Lock(u.pos) then PTake else PAbandon), Load)
    case PTake =>
      var m := st.ents.metas[r][i];
      if m.tag < u.pos + 1
      then PubMove(if m.slot.Some? then u.(pc := PEvict, prev := m.slot.value) else u.(pc := PCommit),
                   Claim(r, i, u.pos, Sample(p, u.n, u.slot, st.pool.len[u.slot], st.pool.data[u.slot])))
      else PubMove(u.(pc := PAbandon), Load)
    case PEvict =>
      PubMove(u.(pc := if st.pool.rc[u.prev] == 1 then PEvictPush else PCommit),
              PutRc(u.prev, Sub32(st.pool.rc[u.prev], 1)))
    case PEvictPush => PubMove(u.(pc := PCommit), Push(u.prev))
    case PCommit =>
      if st.ents.seqs[r][i] == Lock(u.pos)
      then PubMove(u.(pc := PRelease), PutWord(r, i, Plain(u.pos + 1)))
      else PubMove(u.(pc := PRelease), Load)
    // after a commit and after a failed commit alike: the entry keeps the reference
    case PRelease => PubMove(NextRing(st.cfg, u), PutFlight(r, Sub32(st.rings.flight[r], 1)))
    case _ => PubMove(u, Load)
  }

  predicate Locking(u: Pub) { u.pc.PCheck? || u.pc.PAdmit? || u.pc.PClaim? || u.pc.PWait? || u.pc.PTry? }

  predicate Healing(u: Pub) { u.pc.PHeal? || u.pc.PHealCas? || u.pc.PHealStore? || u.pc.PAbandon? }

  function PubNext(st: State, p: nat, c: Choice): PubMove
    requires Sized(st) && p < |st.pubs|
    requires PubShape(st.cfg, st.pubs[p]) && PubEnabled(st, st.pubs[p], c)
  {
    var u := st.pubs[p];
    if Locking(u) then PubLock(st, u, c)
    else if Healing(u) then PubHeal(st, u)
    else if InLoop(u) then PubCommit(st, p, u)
    else PubOutside(st, u, c)
  }

  // ----- subscribers -----

  /** The position at read_pos is counted lost and the receive loop goes round. */
  function Skipped(u: Sub): Sub {
    u.(pc := SRx, lost := u.lost + 1, read := u.read + 1, tries := u.tries + 1)
  }

  function NextDrain(u: Sub): Sub {
    u.(at := u.at + 1, pc := if u.at + 1 < u.wp then SDrainMeta else SSetFree)
  }

  predicate SubEnabled(st: State, u: Sub, c: Choice)
    requires Sized(st) && SubShape(st.cfg, u)
  {
    match u.pc
    case SDetached => c.Take? && c.s < st.cfg.maxSubs
    case SReady => c.Go? || c.Alt?
    // leaves the spin on a zero count, or by the deadline on a nonzero one
    case SQuiesce => if st.rings.flight[u.ring] == 0 then c.Go? else c.Alt?
    case SGone => false
    case _ => c.Go?
  }

  predicate Attaching(u: Sub) {
    u.pc.SDetached? || u.pc.SClaimLoad? || u.pc.SClaimCas? || u.pc.SOwner? || u.pc.SFloor?
  }

  /** The constructor: claim a Free ring with no admitted publisher. */
  function SubAttach(st: State, a: nat, u: Sub, c: Choice): SubMove
    requires Sized(st) && SubShape(st.cfg, u) && SubEnabled(st, u, c) && Attaching(u)
  {
    match u.pc
    case SDetached => SubMove(u.(pc := SClaimLoad, ring := c.s), Load)
    case SClaimLoad => SubMove(u.(pc := SClaimCas, wp := st.rings.wpos[u.ring]), Load)
    case SClaimCas =>
      if st.rings.state[u.ring] == Free && st.rings.flight[u.ring] == 0
      then SubMove(u.(pc := SOwner, start := u.wp, read := u.wp), PutState(u.ring, Live))
      else SubMove(u.(pc := SDetached), Load)
    case SOwner => SubMove(u.(pc := SFloor), PutOwner(u.ring, Some(a)))
    case SFloor =>
      var read := if st.rings.wpos[u.ring] > u.start then st.rings.wpos[u.ring] else u.start;
      SubMove(u.(pc := SReady, read := read, first := read, lost := 0, got := 0), Load)
    case _ => SubMove(u, Load)
  }

  /** try_receive_view, and the first store of release_ring. */
  function SubReceive(st: State, a: nat, u: Sub, c: Choice): SubMove
    requires Sized(st) && SubShape(st.cfg, u) && Receiving(u)
  {
    var r, i := u.ring, Idx(st.cfg, u.read);
    match u.pc
    case SReady =>
      if c.Go? then SubMove(u.(pc := SRx, tries := 0, callLost := u.lost), Load)
      else SubMove(u.(pc := SLeave), Load)
    case SRx =>
      var wp := st.rings.wpos[r];
      if u.tries >= RECEIVE_ATTEMPTS || wp <= u.read then SubMove(u.(pc := SReady), Load)
      else if wp - u.read > st.cfg.cap then
        SubMove(u.(pc := SSeq, lost := u.lost + (wp - u.read - st.cfg.cap), read := wp - st.cfg.cap), Load)
      else SubMove(u.(pc := SSeq), Load)
    case SSeq =>
      var w := st.ents.seqs[r][i];
      if w == Plain(u.read + 1) then SubMove(u.(pc := SMeta), Load)
      else if w == Word.Skip(u.read + 1) then SubMove(Skipped(u), Load)
      else if w.Locked() || w.Pos() < u.read + 1 then SubMove(u.(pc := SReady), Load)
      else SubMove(Skipped(u), Load)
    case SMeta =>
      var m := st.ents.metas[r][i];
      if m.tag == u.read + 1 && m.slot.Some? && m.slot.value < st.cfg.pool
      then SubMove(u.(pc := SPin, slot := m.slot.value), Load)
      else SubMove(Skipped(u), Load)
    case SPin =>
      if st.pool.rc[u.slot] == 0 || st.pool.rc[u.slot] == UINT32_MAX then SubMove(Skipped(u), Load)
      else SubMove(u.(pc := SCheck), PutRc(u.slot, st.pool.rc[u.slot] + 1))
    case SCheck =>
      SubMove(u.(pc := if st.ents.seqs[r][i] == Plain(u.read + 1) then SLen else SUnpin), Load)
    case SLen =>
      if st.pool.len[u.slot] > st.cfg.dataSize then SubMove(u.(pc := SUnpin), Load)
      else SubMove(u.(pc := SReady, read := u.read + 1, got := u.got + 1),
                   NewView(View(VHeld, a, r, u.read, u.slot, st.pool.len[u.slot])))
    case SUnpin =>
      SubMove(if st.pool.rc[u.slot] == 1 then u.(pc := SPush) else Skipped(u),
              PutRc(u.slot, Sub32(st.pool.rc[u.slot], 1)))
    case SPush => SubMove(Skipped(u), Push(u.slot))
    case SLeave => SubMove(u.(pc := SQuiesce), PutState(r, RState.Draining))
    case _ => SubMove(u, Load)
  }

  /** The rest of release_ring, with drain_unconsumed inside it. */
  function SubTeardown(st: State, u: Sub): SubMove
    requires Sized(st) && SubShape(st.cfg, u) && Owns(u)
  {
    var r, i := u.ring, Idx(st.cfg, u.at);
    match u.pc
    case SQuiesce =>
      SubMove(u.(pc := if st.rings.flight[r] == 0 then SClearQuiesced else SClearTimeout), Load)
    case SClearQuiesced => SubMove(u.(pc := SDrainLoad), PutOwner(r, None))
    case SClearTimeout => SubMove(u.(pc := STimeoutFree), PutOwner(r, None))
    case SDrainLoad =>
      var wp := st.rings.wpos[r];
      var oldest := if wp > st.cfg.cap then wp - st.cfg.cap else 0;
      var from := if oldest < u.start then u.start else oldest;
      SubMove(u.(wp := wp, at := from, pc := if from < wp then SDrainMeta else SSetFree), Load)
    case SDrainMeta =>
      var m := st.ents.metas[r][i];
      if m.slot.None? || m.slot.value >= st.cfg.pool then SubMove(NextDrain(u), Load)
      else SubMove(u.(pc := SDrainCas, cur := m), Load)
    case SDrainCas =>
      if st.ents.metas[r][i] == u.cur
      then SubMove(u.(pc := SDrainDrop, slot := u.cur.slot.value), Unclaim(r, i))
      else SubMove(NextDrain(u), Load)
    case SDrainDrop =>
      SubMove(if st.pool.rc[u.slot] == 1 then u.(pc := SDrainPush) else NextDrain(u),
              PutRc(u.slot, Sub32(st.pool.rc[u.slot], 1)))
    case SDrainPush => SubMove(NextDrain(u), Push(u.slot))
    case SSetFree => SubMove(u.(pc := SGone), PutFree(r))
    case STimeoutFree => SubMove(u.(pc := SGone), Strand(r))
    case _ => SubMove(u, Load)
  }

  function SubNext(st: State, a: nat, c: Choice): SubMove
    requires Sized(st) && a < |st.subs|
    requires SubShape(st.cfg, st.subs[a]) && SubEnabled(st, st.subs[a], c)
  {
    var u := st.subs[a];
    if Attaching(u) then SubAttach(st, a, u, c)
    else if Receiving(u) then SubReceive(st, a, u, c)
    else SubTeardown(st, u)
  }

  // ----- sample views, repairers, the reclaimer -----

  /** ~SampleView: drop the pin; whoever reaches zero pushes the slot. */
  function ViewNext(st: State, v: nat): ViewMove
    requires Sized(st) && v < |st.views| && st.views[v].slot < st.cfg.pool
  {
    var u := st.views[v];
    match u.pc
    case VHeld =>
      ViewMove(u.(pc := if st.pool.rc[u.slot] == 1 then VPush else VGone),
               PutRc(u.slot, Sub32(st.pool.rc[u.slot], 1)))
    case VPush => ViewMove(u.(pc := VGone), Push(u.slot))
    case VGone => ViewMove(u, Load)
  }

  predicate RepEnabled(st: State, u: Rep, r: nat, pos: nat)
    requires Sized(st)
  {
    u.RIdle? ==>
      && r < st.cfg.maxSubs && pos < st.rings.wpos[r]
      && (WordAt(st, r, pos).Locked() || WordAt(st, r, pos).Pos() + st.cfg.cap < pos + 1)
  }

  /** repair_locked_entries at one entry: observe, steal after the grace period, mark. */
  function RepNext(st: State, k: nat, r: nat, pos: nat): RepMove
    requires Sized(st) && k < |st.reps| && RepShape(st.cfg, st.reps[k]) && RepEnabled(st, st.reps[k], r, pos)
  {
    match st.reps[k]
    case RIdle => RepMove(RHave(r, pos, WordAt(st, r, pos)), Load)
    case RHave(q, at, w) =>
      if WordAt(st, q, at) == w then RepMove(RMark(q, at), PutWord(q, Idx(st.cfg, at), Repair(at)))
      else RepMove(RIdle, Load)
    case RMark(q, at) => RepMove(RIdle, PutWord(q, Idx(st.cfg, at), Word.Skip(at + 1)))
  }

  /** The death oracle: truthful and stable, and false while no owner is recorded. */
  predicate OwnerDead(st: State, r: nat)
    requires Sized(st) && r < st.cfg.maxSubs
  {
    st.rings.owner[r].Some? && st.rings.owner[r].value in st.dead
  }

  predicate RecEnabled(st: State, r: nat, c: Choice)
    requires Sized(st)
  {
    && (st.rec.CIdle? ==> c.Go? && r < st.cfg.maxSubs && st.rings.state[r] != Free && OwnerDead(st, r))
    && (c.Go? || c.Alt?)
  }

  /**
  reclaim_dead_rings at one ring.  Alt gives the ring up: its single CAS lost to a change
  of the count, or the pass died here and the next one starts over.
  */
  function RecNext(st: State, r: nat, c: Choice): RecMove
    requires Sized(st) && RecShape(st.cfg, st.rec) && RecEnabled(st, r, c)
  {
    if c.Alt? then RecMove(CIdle, Load)
    else match st.rec
      case CIdle => RecMove(CSeen(r, st.rings.state[r]), Load)
      case CSeen(q, was) =>
        if st.rings.state[q] == was then RecMove(CHeld(q, was), PutState(q, Reclaiming))
        else RecMove(CIdle, Load)
      case CHeld(q, was) => RecMove(if OwnerDead(st, q) then CClear(q) else CRestore(q, was), Load)
      case CClear(q) => RecMove(CFree(q), PutOwner(q, None))
      case CFree(q) =>
        if st.rings.state[q] == Reclaiming then RecMove(CIdle, Strand(q)) else RecMove(CIdle, Load)
      case CRestore(q, was) =>
        if st.rings.state[q] == Reclaiming then RecMove(CIdle, PutState(q, was)) else RecMove(CIdle, Load)
  }

  // ----- the step relation -----

  datatype Step =
    | PubStep(p: nat, c: Choice)
    | SubStep(a: nat, c: Choice)
    | ViewStep(v: nat)
    | RepStep(k: nat, r: nat, pos: nat)
    | RecStep(q: nat, c: Choice)
    | CrashStep(a: nat)

  ghost predicate Enabled(st: State, step: Step)
    requires Shape(st)
  {
    match step
    case PubStep(p, c) => p < |st.pubs| && PubEnabled(st, st.pubs[p], c)
    case SubStep(a, c) => a < |st.subs| && a !in st.dead && SubEnabled(st, st.subs[a], c)
    case ViewStep(v) => v < |st.views|
    case RepStep(k, r, pos) => k < |st.reps| && RepEnabled(st, st.reps[k], r, pos)
    case RecStep(q, c) => RecEnabled(st, q, c)
    case CrashStep(a) => a < |st.subs|
  }

  /** The access of a step. */
  ghost function Acc(st: State, step: Step): Access
    requires Shape(st) && Enabled(st, step)
  {
    match step
    case PubStep(p, c) => PubNext(st, p, c).acc
    case SubStep(a, c) => SubNext(st, a, c).acc
    case ViewStep(v) => ViewNext(st, v).acc
    case RepStep(k, r, pos) => RepNext(st, k, r, pos).acc
    case RecStep(q, c) => RecNext(st, q, c).acc
    case CrashStep(_) => Load
  }

  /** The state with the stepping participant moved on, before its access. */
  ghost function Moved(st: State, step: Step): State
    requires Shape(st) && Enabled(st, step)
  {
    match step
    case PubStep(p, c) => st.(pubs := st.pubs[p := PubNext(st, p, c).u])
    case SubStep(a, c) => st.(subs := st.subs[a := SubNext(st, a, c).u])
    case ViewStep(v) => st.(views := st.views[v := ViewNext(st, v).u])
    case RepStep(k, r, pos) => st.(reps := st.reps[k := RepNext(st, k, r, pos).u])
    case RecStep(q, c) => st.(rec := RecNext(st, q, c).u)
    case CrashStep(a) => st.(dead := st.dead + {a})
  }

  ghost predicate Next(st: State, step: Step, st': State) {
    && Shape(st) && Enabled(st, step)
    && InRange(st.cfg, Acc(st, step))
    && st' == Perform(Moved(st, step), Acc(st, step))
  }

  // The state after a step, participant by participant.

  ghost predicate PubReady(st: State, p: nat, c: Choice) {
    && Sized(st) && p < |st.pubs| && PubShape(st.cfg, st.pubs[p]) && PubEnabled(st, st.pubs[p], c)
    && InRange(st.cfg, PubNext(st, p, c).acc)
  }

  ghost function PubTo(st: State, p: nat, c: Choice): State
    requires PubReady(st, p, c)
  {
    Perform(st.(pubs := st.pubs[p := PubNext(st, p, c).u]), PubNext(st, p, c).acc)
  }

  ghost predicate SubReady(st: State, a: nat, c: Choice) {
    && Sized(st) && a < |st.subs| && a !in st.dead
    && SubShape(st.cfg, st.subs[a]) && SubEnabled(st, st.subs[a], c)
    && InRange(st.cfg, SubNext(st, a, c).acc)
  }

  ghost function SubTo(st: State, a: nat, c: Choice): State
    requires SubReady(st, a, c)
  {
    Perform(st.(subs := st.subs[a := SubNext(st, a, c).u]), SubNext(st, a, c).acc)
  }

  ghost predicate ViewReady(st: State, v: nat) {
    && Sized(st) && v < |st.views| && st.views[v].slot < st.cfg.pool
    && InRange(st.cfg, ViewNext(st, v).acc)
  }

  ghost function ViewTo(st: State, v: nat): State
    requires ViewReady(st, v)
  {
    Perform(st.(views := st.views[v := ViewNext(st, v).u]), ViewNext(st, v).acc)
  }

  ghost predicate RepReady(st: State, k: nat, r: nat, pos: nat) {
    && Sized(st) && k < |st.reps| && RepShape(st.cfg, st.reps[k]) && RepEnabled(st, st.reps[k], r, pos)
    && InRange(st.cfg, RepNext(st, k, r, pos).acc)
  }

  ghost function RepTo(st: State, k: nat, r: nat, pos: nat): State
    requires RepReady(st, k, r, pos)
  {
    Perform(st.(reps := st.reps[k := RepNext(st, k, r, pos).u]), RepNext(st, k, r, pos).acc)
  }

  ghost predicate RecReady(st: State, q: nat, c: Choice) {
    && Sized(st) && RecShape(st.cfg, st.rec) && RecEnabled(st, q, c)
    && InRange(st.cfg, RecNext(st, q, c).acc)
  }

  ghost function RecTo(st: State, q: nat, c: Choice): State
    requires RecReady(st, q, c)
  {
    Perform(st.(rec := RecNext(st, q, c).u), RecNext(st, q, c).acc)
  }

  /** A freshly stamped region with its participants at rest. */
  ghost predicate Init(st: State) {
    && Shape(st)
    && (forall s :: 0 <= s < st.cfg.pool ==> st.pool.rc[s] == 0)
    && (forall s: nat :: s in st.pool.free <==> s < st.cfg.pool)
    && (forall r :: 0 <= r < st.cfg.maxSubs ==>
          && st.rings.state[r] == Free && st.rings.flight[r] == 0 && st.rings.wpos[r] == 0
          && st.rings.owner[r] == None && st.rings.clean[r])
    && (forall r, i {:trigger st.ents.seqs[r][i]} ::
          0 <= r < st.cfg.maxSubs && 0 <= i < st.cfg.cap ==> st.ents.seqs[r][i] == Plain(0))
    && (forall r, i {:trigger st.ents.metas[r][i]} ::
          0 <= r < st.cfg.maxSubs && 0 <= i < st.cfg.cap ==> st.ents.metas[r][i] == Meta(0, None))
    && st.ents.log == map[] && st.ents.locked == {} && st.ents.stolen == {} && st.ents.committed == {}
    && (forall p :: 0 <= p < |st.pubs| ==> st.pubs[p].pc == PIdle && st.pubs[p].n == 0)
    && (forall a :: 0 <= a < |st.subs| ==> st.subs[a].pc == SDetached)
    && (forall k :: 0 <= k < |st.reps| ==> st.reps[k] == RIdle)
    && st.rec == CIdle && st.views == [] && st.dead == {}
  }

  /** A run: states[i + 1] is reached from states[i] by steps[i]. */
  ghost predicate Run(states: seq<State>, steps: seq<Step>) {
    && |states| == |steps| + 1
    && Init(states[0])
    && forall i :: 0 <= i < |steps| ==> Next(states[i], steps[i], states[i + 1])
  }
}
