/** Every step of every keeper keeps the lock, the keys and the Writers in order. */
module BoardLockKept {
  import opened BoardModel
  import opened BoardKeys
  import opened BoardHolder

  // ----- the four kinds of step -----

  /** A Writer's own stores: publish and the cell the last value is not in. */
  predicate Stores(k: Keeper, acc: Access) {
    match acc
    case Open(i, w) => i == k.idx && w == k.writes + 1
    case PutWord(i, c, _, _) => i == k.idx && c == (k.writes + 1) % CELLS_PER_KEY
    case PutLen(i, c, _) => i == k.idx && c == (k.writes + 1) % CELLS_PER_KEY
    case PutStamp(i, c, _) => i == k.idx && c == (k.writes + 1) % CELLS_PER_KEY
    case Close(i, w, _) => i == k.idx && w == k.writes + 1
    case _ => false
  }

  ghost predicate Works(st: State, k: Keeper, mv: KeeperMove)
    requires Sized(st)
  {
    InSection(k) && Holds(st, k, mv)
  }

  predicate Unlocks(st: State, k: Keeper, mv: KeeperMove) {
    Hands(st, k, mv) && k.pc == KUnlock && mv.k.pc == KIdle && mv.acc == PutLock(None)
  }

  ghost predicate Enters(st: State, k: Keeper, mv: KeeperMove) {
    && Hands(st, k, mv) && !InSection(k) && CasOk(st, k) && k.pc == KCas && st.lock == k.seen && mv.acc == PutLock(Some(k.proc))
    && InSection(mv.k) && HolderOk(st, mv.k)
  }

  predicate Outside(st: State, k: Keeper, mv: KeeperMove) {
    && Hands(st, k, mv) && !InSection(k) && !InSection(mv.k) && CasOk(st, mv.k)
    && (mv.acc.Load? || (k.pc.KWrite? && k.has && mv.k.has && Stores(k, mv.acc)))
    && (mv.k.pc.KWrite? ==> k.pc.KWrite? || mv.k.pc == KWrite(WState))
  }

  ghost predicate Kinds(st: State, k: Keeper, mv: KeeperMove)
    requires Sized(st)
  {
    Works(st, k, mv) || Unlocks(st, k, mv) || Enters(st, k, mv) || Outside(st, k, mv)
  }

  lemma CasKind(st: State, k: Keeper)
    requires Sized(st) && KeeperShape(st, k) && k.pc == KCas && CasOk(st, k) && (st.lock.None? ==> NoResidue(st))
    ensures Kinds(st, k, KeeperCas(st, k))
  {
    hide Works;
  }

  lemma WriteKind(st: State, k: Keeper, pc: WritePc)
    requires KeeperShape(st, k) && k.pc == KWrite(pc)
    ensures Outside(st, k, KeeperWrite(st, k, pc))
  {
  }

  lemma WaitKind(st: State, k: Keeper, c: Choice)
    requires KeeperShape(st, k) && KeeperEnabled(st, k, c) && (k.pc == KIdle || k.pc == KLoad)
    ensures Outside(st, k, KeeperMove(if k.pc == KIdle then KeeperStart(k, c) else KeeperWait(st, k, c), Load))
  {
  }

  lemma KeeperKind(st: State, k: Keeper, c: Choice)
    requires Sized(st) && st.cfg.Valid() && EntriesOk(st) && KeeperShape(st, k) && KeeperEnabled(st, k, c)
    requires CasOk(st, k) && (InSection(k) ==> HolderOk(st, k)) && (k.has ==> HandleOk(st, k))
    requires st.lock.None? ==> NoResidue(st)
    ensures Kinds(st, k, KeeperNext(st, k, c))
  {
    hide KeeperStart, KeeperWait, KeeperCas, KeeperRepair, KeeperScan, KeeperFind, KeeperSweep, KeeperNorm, KeeperTake,
      KeeperClaim, KeeperReclaim, KeeperRelease, KeeperWrite, HolderOk, Holds, KeeperShape, EntriesOk;
    match k.pc
    case KIdle => WaitKind(st, k, c);
    case KLoad => WaitKind(st, k, c);
    case KCas => CasKind(st, k);
    case KRepair => RepairHolds(st, k);
    case KScan => ScanHolds(st, k);
    case KFind => FindHolds(st, k);
    case KSweep => SweepHolds(st, k);
    case KUnlock =>
    case KNorm(pc) => NormHolds(st, k, pc);
    case KTake(pc) => TakeHolds(st, k, pc);
    case KClaim(pc) => ClaimHolds(st, k, pc);
    case KSw(pc) => ReclaimHolds(st, k, pc);
    case KRel(pc) => ReleaseHolds(st, k, pc);
    case KWrite(pc) => WriteKind(st, k, pc);
  }

  // ----- the state after a keeper's move -----

  ghost function After(st: State, k: nat, mv: KeeperMove): State
    requires Sized(st) && k < |st.keepers| && InRange(st.cfg, |st.ents|, mv.acc)
  {
    Perform(st, mv.acc).(keepers := st.keepers[k := mv.k])
  }

  /** The setting of a living keeper's step. */
  ghost predicate Moves(st: State, k: nat, mv: KeeperMove) {
    && KeysOk(st) && Living(st, k) && InRange(st.cfg, |st.ents|, mv.acc) && Kinds(st, st.keepers[k], mv)
  }

  lemma AfterFrame(st: State, k: nat, mv: KeeperMove)
    requires Sized(st) && k < |st.keepers| && InRange(st.cfg, |st.ents|, mv.acc)
    ensures var st' := After(st, k, mv);
      && st'.cfg == st.cfg && |st'.ents| == |st.ents| && st'.dead == st.dead && Sized(st')
      && st'.keepers == st.keepers[k := mv.k] && st'.readers == st.readers
      && st'.ents == Perform(st, mv.acc).ents && st'.lock == (if mv.acc.PutLock? then mv.acc.holder else st.lock)
      && st'.issued == IssuedAfter(st, mv.acc)
      && (!Touches(mv.acc) ==> st'.ents == st.ents)
      && (forall i :: 0 <= i < |st.ents| && (Touches(mv.acc) ==> mv.acc.i != i) ==> st'.ents[i] == st.ents[i])
  {
  }

  /** Nobody else is in the section when a keeper works in it, leaves it or enters it. */
  lemma Alone(st: State, k: nat, mv: KeeperMove, h: nat)
    requires Moves(st, k, mv) && Living(st, h) && h != k && InSection(st.keepers[h])
    ensures Outside(st, st.keepers[k], mv)
  {
    hide EntriesOk, Unique, HoldersOk, HandlesOk, Apart, IssuesOk, TakingOk, Holds, NoResidue, Hands, Shape;
    assert CasOk(st, st.keepers[k]);
  }

  lemma LockedKept(st: State, k: nat, mv: KeeperMove)
    requires Moves(st, k, mv)
    ensures Locked(After(st, k, mv))
  {
    AfterFrame(st, k, mv);
    forall h: nat | Living(st, h) && h != k && InSection(st.keepers[h]) ensures Outside(st, st.keepers[k], mv) {
      Alone(st, k, mv, h);
    }
    hide After, EntriesOk, Unique, HoldersOk, HandlesOk, Apart, IssuesOk, TakingOk, HolderOk, NoResidue, Shape, Safe, Careful;
  }

  // ----- entries -----

  /** What a Writer's stores leave alone. */
  predicate Alike(a: Entry, b: Entry) {
    && b.state == a.state && b.owner == a.owner && b.hash == a.hash && b.key == a.key
    && b.tenancy == a.tenancy && b.base == a.base && b.epoch == a.epoch
  }

  lemma StoresAlike(st: State, k: Keeper, acc: Access)
    requires Sized(st) && InRange(st.cfg, |st.ents|, acc) && Stores(k, acc)
    ensures Touches(acc) && acc.i == k.idx && Alike(st.ents[k.idx], Perform(st, acc).ents[k.idx])
  {
  }

  lemma MoveSafe(st: State, k: nat, mv: KeeperMove)
    requires Moves(st, k, mv)
    ensures Safe(st, mv.acc)
  {
    hide Locked, Unique, HoldersOk, Apart, IssuesOk, TakingOk, HolderOk, NoResidue, Shape, Careful, Hands;
  }

  lemma EntriesKept(st: State, k: nat, mv: KeeperMove)
    requires Moves(st, k, mv)
    ensures EntriesOk(After(st, k, mv)) && Unique(After(st, k, mv))
  {
    MoveSafe(st, k, mv);
    SafeKeepsEntries(st, mv.acc);
    AfterFrame(st, k, mv);
    hide After, Perform, EntryOk, Rivals, Safe, Kinds, Locked, HoldersOk, HandlesOk, Apart, IssuesOk, TakingOk, NoResidue, Shape;
  }

  // ----- what the holder knows -----

  lemma HolderAlike(st: State, st': State, h: Keeper)
    requires Sized(st) && Sized(st') && HolderOk(st, h) && st'.cfg == st.cfg && st'.dead >= st.dead
    requires |st'.ents| == |st.ents| && forall i :: 0 <= i < |st.ents| ==> Alike(st.ents[i], st'.ents[i])
    requires h.pc.KClaim? && h.i < |st.ents| ==> st'.ents[h.i].publish == st.ents[h.i].publish
    ensures HolderOk(st', h)
  {
  }

  /** A Writer stores to an entry nobody is claiming. */
  lemma NotClaimed(st: State, k: nat, h: nat)
    requires KeysOk(st) && Living(st, k) && st.keepers[k].has && Living(st, h)
    requires st.keepers[h].pc.KClaim?
    ensures st.keepers[h].i != st.keepers[k].idx
  {
    hide Locked, EntriesOk, Unique, Apart, TakingOk, NoResidue, Clean, Absent, KeyCopied;
    var u, w := st.keepers[h], st.keepers[k];
    assert HandleOk(st, w) && Tenure(w.idx, w.ten) in st.issued;
    assert HolderOk(st, u);
  }

  lemma OtherHolders(st: State, k: nat, mv: KeeperMove, h: nat)
    requires Moves(st, k, mv) && Living(st, h) && h != k && InSection(st.keepers[h])
    ensures HolderOk(After(st, k, mv), st.keepers[h])
  {
    Alone(st, k, mv, h);
    AfterFrame(st, k, mv);
    var u, w, st' := st.keepers[h], st.keepers[k], After(st, k, mv);
    assert HolderOk(st, u);
    if !mv.acc.Load? {
      StoresAlike(st, w, mv.acc);
      if u.pc.KClaim? { NotClaimed(st, k, h); }
      hide Stores;
    }
    hide After, Perform, Kinds, Hands, Locked, EntriesOk, Unique, HoldersOk, HandlesOk, Apart, IssuesOk, TakingOk, NoResidue,
      Shape, HolderOk;
    forall i | 0 <= i < |st.ents| ensures Alike(st.ents[i], st'.ents[i]) {
    }
    HolderAlike(st, st', u);
  }

  lemma OwnHolder(st: State, k: nat, mv: KeeperMove)
    requires Moves(st, k, mv) && InSection(mv.k)
    ensures HolderOk(After(st, k, mv), mv.k)
  {
    AfterFrame(st, k, mv);
    hide After, Locked, EntriesOk, Unique, HoldersOk, HandlesOk, Apart, IssuesOk, TakingOk, NoResidue,
      Shape, HolderOk, Safe, Careful, Hands;
    var st1, st' := Perform(st, mv.acc), After(st, k, mv);
    assert HolderOk(st1, mv.k);
    hide Perform;
    HolderAlike(st1, st', mv.k);
  }

  lemma HoldersKept(st: State, k: nat, mv: KeeperMove)
    requires Moves(st, k, mv)
    ensures HoldersOk(After(st, k, mv))
  {
    AfterFrame(st, k, mv);
    hide After, Kinds, Locked, EntriesOk, Unique, HandlesOk, Apart, IssuesOk, TakingOk, NoResidue, HolderOk;
    var st' := After(st, k, mv);
    forall h: nat | Living(st', h) && InSection(st'.keepers[h]) ensures HolderOk(st', st'.keepers[h]) {
      if h == k { OwnHolder(st, k, mv); } else { OtherHolders(st, k, mv, h); }
    }
  }

  lemma ResidueKept(st: State, k: nat, mv: KeeperMove)
    requires Moves(st, k, mv)
    ensures After(st, k, mv).lock.None? ==> NoResidue(After(st, k, mv))
  {
    var w, st' := st.keepers[k], After(st, k, mv);
    AfterFrame(st, k, mv);
    if Unlocks(st, w, mv) {
      assert HolderOk(st, w);
    } else if Outside(st, w, mv) && !mv.acc.Load? {
      StoresAlike(st, w, mv.acc);
      hide Stores;
    }
    hide After, Perform, EntriesOk, Unique, HandlesOk, Apart, IssuesOk, TakingOk, Absent, Safe, Careful, Hands;
  }
}
