/**
The Blackboard: keepers (declare, write, release, sweep) and readers over an array of
entries with two value cells each, and a board lock that passes from dead holders.

One step is one atomic access; key and payload bytes move one word at a time.  Fields that
only the lock holder writes are examined by the holder in one step.  A keeper whose process
is dead takes no further step, so a run may lose a process between any two stores.
*/
module BoardModel {
  import Bits

  datatype Option<+T> = None | Some(value: T)

  type Word = nat

  /**
  Key and payload capacities in words, the value limit in bytes, the text that key words
  hold up to their terminator, and the fingerprint of a text.
  */
  datatype Config = Config(keyWords: nat, cellWords: nat, maxLen: nat, text: seq<Word> -> string,
                           hash: string -> nat)
  {
    /** A key never hashes to the "no key" sentinel. */
    ghost predicate Valid() {
      forall k: string :: hash(k) != 0
    }

    predicate SameKey(a: seq<Word>, b: seq<Word>) { text(a) == text(b) }

    function Print(key: seq<Word>): nat { hash(text(key)) }
  }

  /** Whole 64-bit words that `len` bytes occupy. */
  function WordsFor(len: nat): nat { (len + 7) / 8 }

  const CELLS_PER_KEY: nat := 2

  datatype KeyState = Free | Claiming | Active

  /** A value as written: payload words, length in bytes, time stamp. */
  datatype Value = Value(words: seq<Word>, len: nat, stamp: nat)

  datatype Cell = Cell(words: seq<Word>, len: nat, stamp: nat)

  /**
  An entry.  `epoch` counts the resets of `publish` and `base` is the tenancy at the last
  one; both are history.
  */
  datatype Entry = Entry(state: KeyState, publish: nat, tenancy: nat, owner: nat, hash: nat,
                         key: seq<Word>, cells: seq<Cell>, epoch: nat, base: nat)

  datatype Op = DeclareOp | SweepOp | ReleaseOp

  datatype NormPc = NHash | NOwner | NState
  datatype TakePc = TOwner | TTenancy | TDone
  datatype ClaimPc = CState | CReset | CKey | COwner | CHash | CTenancy | CActive | CDone
  datatype SweepPc = STenancy | SHash | SOwner | SState
  datatype ReleasePc = LCheck | LOwner | LTenancy
  datatype WritePc = WState | WTenancy | WOpen | WWords | WLen | WStamp | WClose

  datatype KeeperPc =
    | KIdle | KLoad | KCas                         // outside the lock, waiting for it, taking it
    | KRepair | KScan | KFind | KSweep | KUnlock   // holding it
    | KNorm(norm: NormPc) | KTake(take: TakePc) | KClaim(claim: ClaimPc) | KSw(sw: SweepPc) | KRel(rel: ReleasePc)
    | KWrite(wr: WritePc)

  /** One thread of process `proc` with at most one Writer handle (idx, ten, writes). */
  datatype Keeper = Keeper(proc: nat, pc: KeeperPc, op: Op, seen: Option<nat>, i: nat, j: nat,
                           key: seq<Word>, finish: bool, inSweep: bool, swept: bool, count: nat,
                           has: bool, idx: nat, ten: nat, writes: nat, val: Value)

  datatype ReaderPc =
    | RIdle | RCached | RCached2 | RState | RHash | RTenancy | RKey | RMatch | RCheck | RPublish | RLen | RWords | RStamp
    | RPublish2 | RTenancy2

  /** What a read into `room` bytes returned, the words only if they fit; `epoch` is history. */
  datatype Outcome = Outcome(i: nat, key: seq<Word>, room: nat, len: nat, words: Option<seq<Word>>, stamp: nat,
                             count: nat, epoch: nat)

  /** The error code of the last read; `Pending` while it runs. */
  datatype Ec = Pending | NoSuchKey | NoMessage | TryAgain | TooLarge | Success

  /** A read of `key` into `room` bytes; `hit` is the cached resolution (i, ten). */
  datatype Reader = Reader(pc: ReaderPc, key: seq<Word>, room: nat, hit: bool, i: nat, j: nat, ten: nat,
                           kbuf: seq<Word>, before: nat, after: nat, buf: seq<Word>, len: nat, stamp: nat,
                           epoch: nat, got: Option<Outcome>, ec: Ec)

  datatype Slot = Slot(i: nat, epoch: nat)
  datatype Write = Write(i: nat, epoch: nat, w: nat)
  datatype Tenure = Tenure(i: nat, ten: nat)

  /** `hist`, `keyOf` and `issued` record the completed writes, the key of each epoch, the tenancies handed out. */
  datatype State = State(cfg: Config, lock: Option<nat>, ents: seq<Entry>,
                         keepers: seq<Keeper>, readers: seq<Reader>, dead: set<nat>,
                         hist: map<Write, Value>, keyOf: map<Slot, seq<Word>>, issued: set<Tenure>)

  // ----- accesses -----

  datatype Access =
    | Load
    | PutLock(holder: Option<nat>)
    | PutState(i: nat, x: KeyState)
    | Reset(i: nat)                          // publish := 0
    | PutKeyWord(i: nat, j: nat, w: Word)
    | PutOwner(i: nat, o: nat)
    | PutHash(i: nat, h: nat)
    | Bump(i: nat)                           // tenancy.fetch_add(1)
    | Open(i: nat, w: nat)                   // publish := 2w - 1
    | PutWord(i: nat, c: nat, j: nat, w: Word)
    | PutLen(i: nat, c: nat, n: nat)
    | PutStamp(i: nat, c: nat, t: nat)
    | Close(i: nat, w: nat, v: Value)        // publish := 2w
    | Issue(i: nat, ten: nat)                // construct a Writer: no shared access

  predicate CellsShape(cfg: Config, e: Entry) {
    && |e.key| == cfg.keyWords
    && |e.cells| == CELLS_PER_KEY
    && |e.cells[0].words| == cfg.cellWords && |e.cells[1].words| == cfg.cellWords
  }

  predicate InRange(cfg: Config, n: nat, acc: Access) {
    match acc
    case Load => true
    case PutLock(_) => true
    case PutState(i, _) => i < n
    case Reset(i) => i < n
    case PutKeyWord(i, j, _) => i < n && j < cfg.keyWords
    case PutOwner(i, _) => i < n
    case PutHash(i, _) => i < n
    case Bump(i) => i < n
    case Open(i, w) => i < n && w > 0
    case PutWord(i, c, j, _) => i < n && c < CELLS_PER_KEY && j < cfg.cellWords
    case PutLen(i, c, _) => i < n && c < CELLS_PER_KEY
    case PutStamp(i, c, _) => i < n && c < CELLS_PER_KEY
    case Close(i, _, _) => i < n
    case Issue(i, _) => i < n
  }

  /** The one entry an access touches. */
  predicate On(acc: Access, i: nat) { !acc.Load? && !acc.PutLock? && acc.i == i }

  function Written(cfg: Config, e: Entry, acc: Access): Entry
    requires CellsShape(cfg, e) && !acc.Load? && !acc.PutLock? && InRange(cfg, acc.i + 1, acc)
  {
    match acc
    case PutState(_, x) => e.(state := x)
    case Reset(_) => e.(publish := 0, epoch := e.epoch + 1, base := e.tenancy)
    case PutKeyWord(_, j, w) => e.(key := e.key[j := w])
    case PutOwner(_, o) => e.(owner := o)
    case PutHash(_, h) => e.(hash := h)
    case Bump(_) => e.(tenancy := e.tenancy + 1)
    case Open(_, w) => e.(publish := 2 * w - 1)
    case PutWord(_, c, j, w) => e.(cells := e.cells[c := e.cells[c].(words := e.cells[c].words[j := w])])
    case PutLen(_, c, n) => e.(cells := e.cells[c := e.cells[c].(len := n)])
    case PutStamp(_, c, t) => e.(cells := e.cells[c := e.cells[c].(stamp := t)])
    case Close(_, w, _) => e.(publish := 2 * w)
    case Issue(_, _) => e
  }

  predicate Sized(st: State) {
    WordsFor(st.cfg.maxLen) <= st.cfg.cellWords && forall i :: 0 <= i < |st.ents| ==> CellsShape(st.cfg, st.ents[i])
  }

  ghost function HistAfter(st: State, acc: Access): map<Write, Value>
    requires InRange(st.cfg, |st.ents|, acc)
  {
    match acc
    case Close(i, w, v) => st.hist[Write(i, st.ents[i].epoch, w) := v]
    case _ => st.hist
  }

  ghost function KeysAfter(st: State, acc: Access): map<Slot, seq<Word>>
    requires InRange(st.cfg, |st.ents|, acc)
  {
    match acc
    case Bump(i) =>
      var e := st.ents[i];
      if e.tenancy == e.base then st.keyOf[Slot(i, e.epoch) := e.key] else st.keyOf
    case _ => st.keyOf
  }

  ghost function IssuedAfter(st: State, acc: Access): set<Tenure> {
    match acc
    case Issue(i, ten) => st.issued + {Tenure(i, ten)}
    case _ => st.issued
  }

  ghost function Perform(st: State, acc: Access): State
    requires Sized(st) && InRange(st.cfg, |st.ents|, acc)
  {
    match acc
    case Load => st
    case PutLock(h) => st.(lock := h)
    case _ =>
      st.(ents := st.ents[acc.i := Written(st.cfg, st.ents[acc.i], acc)],
          hist := HistAfter(st, acc), keyOf := KeysAfter(st, acc), issued := IssuedAfter(st, acc))
  }

  // ----- keepers -----

  /** normalize_entry's test: residue of a holder that died, or a phantom. */
  predicate NeedsNorm(e: Entry) {
    || e.state == Claiming
    || (e.state == Active && e.hash == 0)
    || (e.state == Free && (e.hash != 0 || e.owner != 0))
  }

  predicate Takeable(st: State, e: Entry) { e.owner == 0 || e.owner in st.dead }

  predicate InSection(k: Keeper) { !(k.pc.KIdle? || k.pc.KLoad? || k.pc.KCas? || k.pc.KWrite?) }

  datatype Choice = Go | Alt | Declare(key: seq<Word>) | Sweep | Release | Put(v: Value)

  datatype KeeperMove = KeeperMove(k: Keeper, acc: Access)

  /** First state of the operation once the lock is held and the board repaired. */
  function Start(k: Keeper): Keeper {
    match k.op
    case DeclareOp => k.(pc := KScan, i := 0, swept := false)
    case SweepOp => k.(pc := KSweep, i := 0, count := 0)
    case ReleaseOp => k.(pc := KRel(LCheck), i := k.idx)
  }

  predicate ValueShape(cfg: Config, v: Value) { v.len <= cfg.maxLen && |v.words| == WordsFor(v.len) }

  predicate KeeperEnabled(st: State, k: Keeper, c: Choice) {
    match c
    case Go => !k.pc.KIdle?
    case Alt => k.pc.KLoad?
    case Declare(key) => k.pc.KIdle? && !k.has && |key| == st.cfg.keyWords
    case Sweep => k.pc.KIdle?
    case Release => k.pc.KIdle? && k.has
    case Put(v) => k.pc.KIdle? && k.has && ValueShape(st.cfg, v)
  }

  /** PCs that walk the whole board, and PCs at one entry. */
  predicate Walking(k: Keeper) { k.pc.KRepair? || k.pc.KScan? || k.pc.KFind? || k.pc.KSweep? }
  predicate AtEntry(k: Keeper) { k.pc.KNorm? || k.pc.KTake? || k.pc.KClaim? || k.pc.KSw? || k.pc.KRel? }

  /** PCs of a declare, sweep or release not yet done. */
  predicate Busy(k: Keeper) { k.pc.KLoad? || k.pc.KCas? || Walking(k) || AtEntry(k) }

  predicate OpShape(cfg: Config, k: Keeper) {
    && (Busy(k) && k.op.DeclareOp? ==> !k.has && |k.key| == cfg.keyWords)
    && (Busy(k) && k.op.ReleaseOp? ==> k.has || k.pc == KRel(LTenancy))
    && (k.pc.KScan? || k.pc.KTake? || k.pc.KClaim? || k.pc.KFind? ==> k.op.DeclareOp?)
    && (k.pc.KSw? || k.pc.KSweep? || (k.pc.KNorm? && k.inSweep) ==> !k.op.ReleaseOp?)
    && (k.pc.KRel? ==> k.op.ReleaseOp? && k.i == k.idx)
    && (k.pc.KRepair? ==> !k.inSweep)
  }

  predicate KeeperShape(st: State, k: Keeper) {
    && k.proc != 0
    && (k.has ==> k.idx < |st.ents|)
    && (Walking(k) ==> k.i <= |st.ents|)
    && (AtEntry(k) ==> k.i < |st.ents|)
    && (k.pc == KClaim(CKey) ==> k.j <= st.cfg.keyWords)
    && OpShape(st.cfg, k)
    && (k.pc.KWrite? ==> k.has && ValueShape(st.cfg, k.val) && (k.pc.wr.WWords? ==> k.j <= |k.val.words|))
  }

  /** Choosing an operation, and waiting for the board lock. */
  function KeeperStart(k: Keeper, c: Choice): Keeper {
    match c
    case Declare(key) => k.(pc := KLoad, op := DeclareOp, key := key)
    case Sweep => k.(pc := KLoad, op := SweepOp)
    case Release => k.(pc := KLoad, op := ReleaseOp)
    case Put(v) => k.(pc := KWrite(WState), val := v)
    case Go => k
    case Alt => k
  }

  function KeeperWait(st: State, k: Keeper, c: Choice): Keeper {
    if c.Alt? then k.(pc := KIdle, has := k.has && !k.op.ReleaseOp?)
    else if st.lock.None? || st.lock.value in st.dead then k.(pc := KCas, seen := st.lock)
    else k
  }

  /** A dead holder's token is replaced, never cleared, and the board repaired before anything else. */
  function KeeperCas(st: State, k: Keeper): KeeperMove {
    if st.lock != k.seen then KeeperMove(k.(pc := KLoad), Load)
    else if k.seen.None? then KeeperMove(Start(k), PutLock(Some(k.proc)))
    else KeeperMove(k.(pc := KRepair, i := 0, inSweep := false), PutLock(Some(k.proc)))
  }

  function ToNorm(k: Keeper, e: Entry, inSweep: bool): Keeper {
    k.(pc := KNorm(NHash), finish := e.state != Free, inSweep := inSweep)
  }

  function KeeperRepair(st: State, k: Keeper): Keeper
    requires k.i <= |st.ents|
  {
    if k.i == |st.ents| then Start(k)
    else if NeedsNorm(st.ents[k.i]) then ToNorm(k, st.ents[k.i], false)
    else k.(i := k.i + 1)
  }

  function NormDone(k: Keeper): Keeper {
    if k.inSweep then k.(pc := KSweep, i := k.i + 1, count := k.count + 1, inSweep := false)
    else k.(pc := KRepair, i := k.i + 1)
  }

  /** normalize_entry: identity before state. */
  function KeeperNorm(k: Keeper, pc: NormPc): KeeperMove {
    match pc
    case NHash => KeeperMove(k.(pc := KNorm(NOwner)), PutHash(k.i, 0))
    case NOwner => KeeperMove(if k.finish then k.(pc := KNorm(NState)) else NormDone(k), PutOwner(k.i, 0))
    case NState => KeeperMove(NormDone(k), PutState(k.i, Free))
  }

  /** declare(), first pass and takeover. */
  function KeeperScan(st: State, k: Keeper): Keeper
    requires k.i <= |st.ents|
  {
    if k.i == |st.ents| then k.(pc := KFind, i := 0)
    else
      var e := st.ents[k.i];
      if e.state == Active && e.hash == st.cfg.Print(k.key) && st.cfg.SameKey(e.key, k.key)
      then k.(pc := if Takeable(st, e) then KTake(TOwner) else KUnlock)
      else k.(i := k.i + 1)
  }

  function KeeperTake(st: State, k: Keeper, pc: TakePc): KeeperMove
    requires k.i < |st.ents|
  {
    match pc
    case TOwner => KeeperMove(k.(pc := KTake(TTenancy)), PutOwner(k.i, k.proc))
    case TTenancy => KeeperMove(k.(pc := KTake(TDone), ten := st.ents[k.i].tenancy + 1), Bump(k.i))
    case TDone =>
      KeeperMove(k.(pc := KUnlock, has := true, idx := k.i, writes := st.ents[k.i].publish / 2), Issue(k.i, k.ten))
  }

  /** declare(), second pass: claim a Free entry, sweeping once if there is none. */
  function KeeperFind(st: State, k: Keeper): Keeper
    requires k.i <= |st.ents|
  {
    if k.i == |st.ents| then
      if k.swept then k.(pc := KUnlock) else k.(pc := KSweep, i := 0, count := 0, swept := true)
    else if st.ents[k.i].state == Free then k.(pc := KClaim(CState))
    else k.(i := k.i + 1)
  }

  function KeeperClaim(st: State, k: Keeper, pc: ClaimPc): KeeperMove
    requires k.i < |st.ents|
  {
    match pc
    case CState => KeeperMove(k.(pc := KClaim(CReset)), PutState(k.i, Claiming))
    case CReset => KeeperMove(k.(pc := KClaim(CKey), j := 0), Reset(k.i))
    case CKey =>
      if k.j >= |k.key| then KeeperMove(k.(pc := KClaim(COwner)), Load)
      else KeeperMove(k.(j := k.j + 1), PutKeyWord(k.i, k.j, k.key[k.j]))
    case COwner => KeeperMove(k.(pc := KClaim(CHash)), PutOwner(k.i, k.proc))
    case CHash => KeeperMove(k.(pc := KClaim(CTenancy)), PutHash(k.i, st.cfg.Print(k.key)))
    case CTenancy => KeeperMove(k.(pc := KClaim(CActive)), Bump(k.i))
    case CActive => KeeperMove(k.(pc := KClaim(CDone)), PutState(k.i, Active))
    case CDone =>
      var ten := st.ents[k.i].tenancy;
      KeeperMove(k.(pc := KUnlock, has := true, idx := k.i, ten := ten, writes := 0), Issue(k.i, ten))
  }

  /** sweep_locked(), alone or inside declare(). */
  function KeeperSweep(st: State, k: Keeper): Keeper
    requires k.i <= |st.ents|
  {
    if k.i == |st.ents| then
      if k.op.DeclareOp? && k.count > 0 then k.(pc := KFind, i := 0) else k.(pc := KUnlock)
    else
      var e := st.ents[k.i];
      if NeedsNorm(e) then ToNorm(k, e, true)
      else if e.owner != 0 && e.owner in st.dead then k.(pc := KSw(STenancy))
      else k.(i := k.i + 1)
  }

  function KeeperReclaim(k: Keeper, pc: SweepPc): KeeperMove {
    match pc
    case STenancy => KeeperMove(k.(pc := KSw(SHash)), Bump(k.i))
    case SHash => KeeperMove(k.(pc := KSw(SOwner)), PutHash(k.i, 0))
    case SOwner => KeeperMove(k.(pc := KSw(SState)), PutOwner(k.i, 0))
    case SState => KeeperMove(k.(pc := KSweep, i := k.i + 1, count := k.count + 1), PutState(k.i, Free))
  }

  /** Writer::release(): the entry stays Active with its value. */
  function KeeperRelease(st: State, k: Keeper, pc: ReleasePc): KeeperMove
    requires k.i < |st.ents|
  {
    match pc
    case LCheck =>
      var e := st.ents[k.i];
      if e.state == Active && e.tenancy == k.ten then KeeperMove(k.(pc := KRel(LOwner)), Load)
      else KeeperMove(k.(pc := KUnlock, has := false), Load)
    case LOwner => KeeperMove(k.(pc := KRel(LTenancy), has := false), PutOwner(k.i, 0))
    case LTenancy => KeeperMove(k.(pc := KUnlock), Bump(k.i))
  }

  /** Writer::write(). */
  function KeeperWrite(st: State, k: Keeper, pc: WritePc): KeeperMove
    requires k.idx < |st.ents| && (pc.WWords? ==> k.j <= |k.val.words|)
  {
    var e, w := st.ents[k.idx], k.writes + 1;
    match pc
    case WState => KeeperMove(k.(pc := if e.state == Active then KWrite(WTenancy) else KIdle), Load)
    case WTenancy => KeeperMove(k.(pc := if e.tenancy == k.ten then KWrite(WOpen) else KIdle), Load)
    case WOpen => KeeperMove(k.(pc := KWrite(WWords), j := 0), Open(k.idx, w))
    case WWords =>
      if k.j == |k.val.words| then KeeperMove(k.(pc := KWrite(WLen)), Load)
      else KeeperMove(k.(j := k.j + 1), PutWord(k.idx, w % CELLS_PER_KEY, k.j, k.val.words[k.j]))
    case WLen => KeeperMove(k.(pc := KWrite(WStamp)), PutLen(k.idx, w % CELLS_PER_KEY, k.val.len))
    case WStamp => KeeperMove(k.(pc := KWrite(WClose)), PutStamp(k.idx, w % CELLS_PER_KEY, k.val.stamp))
    case WClose => KeeperMove(k.(pc := KIdle, writes := w), Close(k.idx, w, k.val))
  }

  function KeeperNext(st: State, k: Keeper, c: Choice): KeeperMove
    requires KeeperShape(st, k) && KeeperEnabled(st, k, c)
  {
    match k.pc
    case KIdle => KeeperMove(KeeperStart(k, c), Load)
    case KLoad => KeeperMove(KeeperWait(st, k, c), Load)
    case KCas => KeeperCas(st, k)
    case KRepair => KeeperMove(KeeperRepair(st, k), Load)
    case KScan => KeeperMove(KeeperScan(st, k), Load)
    case KFind => KeeperMove(KeeperFind(st, k), Load)
    case KSweep => KeeperMove(KeeperSweep(st, k), Load)
    case KUnlock => KeeperMove(k.(pc := KIdle), PutLock(None))
    case KNorm(pc) => KeeperNorm(k, pc)
    case KTake(pc) => KeeperTake(st, k, pc)
    case KClaim(pc) => KeeperClaim(st, k, pc)
    case KSw(pc) => KeeperReclaim(k, pc)
    case KRel(pc) => KeeperRelease(st, k, pc)
    case KWrite(pc) => KeeperWrite(st, k, pc)
  }

  // ----- readers -----

  predicate Looking(u: Reader) { u.pc.RState? || u.pc.RHash? || u.pc.RTenancy? || u.pc.RKey? || u.pc.RMatch? }
  predicate Cached(u: Reader) { u.pc.RCached? || u.pc.RCached2? }
  predicate Copying(u: Reader) {
    u.pc.RLen? || u.pc.RWords? || u.pc.RStamp? || u.pc.RPublish2? || u.pc.RTenancy2?
  }

  predicate ReaderShape(st: State, u: Reader) {
    && |u.key| == st.cfg.keyWords
    && (u.hit ==> u.i < |st.ents|)
    && (u.pc.RState? ==> u.i <= |st.ents|)
    && (Looking(u) && !u.pc.RState? ==> u.i < |st.ents|)
    && (u.pc.RKey? ==> |u.kbuf| <= st.cfg.keyWords)
    && (Looking(u) ==> !u.hit)
    && (!Looking(u) && !u.pc.RIdle? ==> u.hit)
    && (Copying(u) ==> u.before >= 2)
    && (u.pc.RWords? ==> u.len <= st.cfg.maxLen && |u.buf| <= WordsFor(u.len))
  }

  /** Unsigned 64-bit subtraction. */
  function Sub64(a: nat, b: nat): nat { if b <= a then a - b else (a + Bits.T64 - b % Bits.T64) % Bits.T64 }

  datatype ReadChoice = Step | Begin(key: seq<Word>, room: nat) | Quit

  predicate ReaderEnabled(st: State, u: Reader, c: ReadChoice) {
    // a Reader keeps its key, and with it its cached resolution
    if u.pc.RIdle? then c.Begin? && |c.key| == st.cfg.keyWords && (u.hit ==> c.key == u.key)
    else c.Step? || c.Quit?
  }

  /** Reader::resolve(): the cached entry if it still stands, else a scan for the key. */
  function ReaderResolve(st: State, u: Reader, c: ReadChoice): Reader
    requires Sized(st) && ReaderShape(st, u) && ReaderEnabled(st, u, c)
  {
    match u.pc
    case RIdle =>
      if !c.Begin? then u
      else if u.hit then u.(pc := RCached, room := c.room, ec := Pending)
      else u.(pc := RState, key := c.key, room := c.room, i := 0, ec := Pending)
    case RCached =>
      if st.ents[u.i].state == Active then u.(pc := RCached2) else u.(pc := RState, hit := false, i := 0)
    case RCached2 =>
      if st.ents[u.i].tenancy == u.ten then u.(pc := RCheck) else u.(pc := RState, hit := false, i := 0)
    case RState =>
      if u.i == |st.ents| then u.(pc := RIdle, ec := NoSuchKey)
      else if st.ents[u.i].state == Active then u.(pc := RHash)
      else u.(i := u.i + 1)
    case RHash =>
      if st.ents[u.i].hash == st.cfg.Print(u.key) then u.(pc := RTenancy) else u.(pc := RState, i := u.i + 1)
    case RTenancy => u.(pc := RKey, ten := st.ents[u.i].tenancy, kbuf := [])
    case RKey =>
      if |u.kbuf| == st.cfg.keyWords then u.(pc := RMatch)
      else u.(kbuf := u.kbuf + [st.ents[u.i].key[|u.kbuf|]])
    case RMatch =>
      if st.cfg.SameKey(u.kbuf, u.key) then u.(pc := RCheck, hit := true) else u.(pc := RState, i := u.i + 1)
    case _ => u
  }

  function Answer(u: Reader, count: nat): Outcome {
    Outcome(u.i, u.key, u.room, u.len, if u.len <= u.room then Some(u.buf) else None, u.stamp, count, u.epoch)
  }

  /** Reader::read(): the two-cell seqlock. */
  function ReaderCopy(st: State, u: Reader): Reader
    requires Sized(st) && ReaderShape(st, u) && u.hit
  {
    var e, w := st.ents[u.i], u.before / 2;
    var cell := e.cells[w % CELLS_PER_KEY];
    match u.pc
    case RCheck =>
      u.(pc := if e.tenancy == u.ten then RPublish else RCached)
    case RPublish =>
      if e.publish / 2 == 0 then u.(pc := RIdle, ec := NoMessage) else u.(pc := RLen, before := e.publish, epoch := e.epoch)
    case RLen =>
      var len := if cell.len > st.cfg.maxLen then st.cfg.maxLen else cell.len;
      u.(len := len, buf := [], pc := if len <= u.room then RWords else RStamp)
    case RWords =>
      if |u.buf| == WordsFor(u.len) then u.(pc := RStamp)
      else u.(buf := u.buf + [cell.words[|u.buf|]])
    case RStamp => u.(pc := RPublish2, stamp := cell.stamp)
    case RPublish2 => u.(pc := RTenancy2, after := e.publish)
    case RTenancy2 =>
      if e.tenancy != u.ten || Sub64(u.after, 2 * w) >= 2 * CELLS_PER_KEY - 1
      then u.(pc := RCached)
      else u.(pc := RIdle, got := Some(Answer(u, w)), ec := if u.len <= u.room then Success else TooLarge)
    case _ => u
  }

  function ReaderNext(st: State, u: Reader, c: ReadChoice): Reader
    requires Sized(st) && ReaderShape(st, u) && ReaderEnabled(st, u, c)
  {
    // the retry budget is spent: the call returns an error
    if c.Quit? then u.(pc := RIdle, ec := TryAgain)
    else if u.pc.RIdle? || Looking(u) || Cached(u) then ReaderResolve(st, u, c)
    else ReaderCopy(st, u)
  }

  // ----- the step relation -----

  ghost predicate Shape(st: State) {
    && Sized(st) && st.cfg.Valid()
    && (forall k :: 0 <= k < |st.keepers| ==> KeeperShape(st, st.keepers[k]))
    && (forall r :: 0 <= r < |st.readers| ==> ReaderShape(st, st.readers[r]))
  }

  datatype Step = KeeperStep(k: nat, c: Choice) | ReaderStep(r: nat, rc: ReadChoice) | Die(proc: nat)

  ghost predicate KeeperReady(st: State, k: nat, c: Choice) {
    && Shape(st) && k < |st.keepers| && st.keepers[k].proc !in st.dead
    && KeeperEnabled(st, st.keepers[k], c)
  }

  ghost predicate ReaderReady(st: State, r: nat, c: ReadChoice) {
    Shape(st) && r < |st.readers| && ReaderEnabled(st, st.readers[r], c)
  }

  /** What keeper `k` does next. */
  ghost function KeeperDoes(st: State, k: nat, c: Choice): (mv: KeeperMove)
    requires KeeperReady(st, k, c)
    ensures InRange(st.cfg, |st.ents|, mv.acc)
  {
    KeeperInRange(st, st.keepers[k], c);
    KeeperNext(st, st.keepers[k], c)
  }

  lemma KeeperInRange(st: State, k: Keeper, c: Choice)
    requires Sized(st) && KeeperShape(st, k) && KeeperEnabled(st, k, c)
    ensures InRange(st.cfg, |st.ents|, KeeperNext(st, k, c).acc)
  {
  }

  ghost function KeeperTo(st: State, k: nat, c: Choice): State
    requires KeeperReady(st, k, c)
  {
    var mv := KeeperDoes(st, k, c);
    Perform(st, mv.acc).(keepers := st.keepers[k := mv.k])
  }

  ghost function ReaderTo(st: State, r: nat, c: ReadChoice): State
    requires ReaderReady(st, r, c)
  {
    st.(readers := st.readers[r := ReaderNext(st, st.readers[r], c)])
  }

  ghost predicate Next(st: State, step: Step, st': State) {
    match step
    case KeeperStep(k, c) => KeeperReady(st, k, c) && st' == KeeperTo(st, k, c)
    case ReaderStep(r, c) => ReaderReady(st, r, c) && st' == ReaderTo(st, r, c)
    case Die(proc) => Shape(st) && proc != 0 && st' == st.(dead := st.dead + {proc})
  }

  predicate Blank(cfg: Config, e: Entry) {
    && CellsShape(cfg, e)
    && e.state == Free && e.publish == e.tenancy == e.owner == e.hash == e.epoch == e.base == 0
  }

  ghost predicate Init(st: State) {
    && Shape(st) && st.lock.None? && st.dead == {} && st.hist == map[] && st.keyOf == map[] && st.issued == {}
    && (forall i :: 0 <= i < |st.ents| ==> Blank(st.cfg, st.ents[i]))
    && (forall k :: 0 <= k < |st.keepers| ==> st.keepers[k].pc.KIdle? && !st.keepers[k].has)
    && (forall r :: 0 <= r < |st.readers| ==> st.readers[r].pc.RIdle? && !st.readers[r].hit && st.readers[r].got.None?)
  }

  ghost predicate Run(states: seq<State>, steps: seq<Step>) {
    && |states| == |steps| + 1 && Init(states[0])
    && forall n :: 0 <= n < |steps| ==> Next(states[n], steps[n], states[n + 1])
  }
}
