/** Each step of the lock holder keeps what the holder knows, and touches no entry a living Writer holds. */
module BoardHolder {
  import opened BoardModel
  import opened BoardKeys

  ghost predicate Lone(st: State, i: nat, key: seq<Word>) {
    forall j: nat :: j < |st.ents| && j != i && Published(st.ents[j]) ==> !st.cfg.SameKey(st.ents[j].key, key)
  }

  /** What makes an access harmless to the entries. */
  ghost predicate Safe(st: State, acc: Access)
    requires InRange(st.cfg, |st.ents|, acc)
  {
    match acc
    case PutState(i, x) =>
      var e := st.ents[i];
      !Published(e) && (x == Active ==> EntryOk(st.cfg, e.(state := Active)) && Lone(st, i, e.key))
    case Reset(i) => !Published(st.ents[i])
    case PutKeyWord(i, _, _) => !Published(st.ents[i]) && st.ents[i].tenancy == st.ents[i].base
    case PutHash(i, h) => h == 0 || st.ents[i].state == Claiming
    case Open(i, _) => st.ents[i].tenancy > st.ents[i].base
    case Close(i, _, _) => st.ents[i].tenancy > st.ents[i].base
    case _ => true
  }

  lemma SafeKeepsEntries(st: State, acc: Access)
    requires Sized(st) && InRange(st.cfg, |st.ents|, acc) && Safe(st, acc) && EntriesOk(st) && Unique(st)
    ensures EntriesOk(Perform(st, acc)) && Unique(Perform(st, acc))
  {
    var st' := Perform(st, acc);
    forall i: nat, j: nat | i < j < |st.ents| ensures !Rivals(st.cfg, st'.ents[i], st'.ents[j]) {
      assert !Rivals(st.cfg, st.ents[i], st.ents[j]);
    }
  }

  /** No living Writer holds the entry: residue, unowned, or a dead owner's. */
  predicate Loose(st: State, e: Entry) { !Published(e) || Takeable(st, e) }

  predicate Touches(acc: Access) { !acc.Load? && !acc.PutLock? && !acc.Issue? }

  /** A holder touches only loose entries, the one it is taking over and the one it is releasing. */
  predicate Careful(st: State, k: Keeper, acc: Access)
    requires InRange(st.cfg, |st.ents|, acc)
  {
    Touches(acc) ==> acc.i == k.i && (Loose(st, st.ents[k.i]) || k.pc == KTake(TTenancy) || k.pc == KRel(LOwner))
  }

  /** A new Writer: the number was taken for it and the entry is its own. */
  predicate Handed(st: State, k: Keeper, mv: KeeperMove)
    requires k.i < |st.ents|
  {
    var e, h := st.ents[k.i], mv.k;
    && AboutToIssue(k) && !k.has && h.idx == k.i && mv.acc == Issue(k.i, h.ten)
    && Published(e) && e.owner == h.proc && e.tenancy == h.ten && e.publish / 2 == h.writes
  }

  /** A Writer's fields change only with its own writes. */
  predicate SameHandle(k: Keeper, mv: KeeperMove) {
    && k.has && mv.k.idx == k.idx && mv.k.ten == k.ten && k.pc != KRel(LOwner)
    && mv.k.writes == if mv.acc.Close? then k.writes + 1 else k.writes
  }

  /** What a step does to the Writer, the entry being taken over and the number about to be handed out. */
  predicate Hands(st: State, k: Keeper, mv: KeeperMove) {
    && mv.k.proc == k.proc
    && (mv.acc.Close? ==> k.pc == KWrite(WClose))
    && (mv.acc.Issue? ==> mv.k.has && k.i < |st.ents| && Handed(st, k, mv))
    && (mv.k.has && !mv.acc.Issue? ==> SameHandle(k, mv))
    && (mv.k.pc == KTake(TTenancy) ==> mv.k.i == k.i && k.pc == KTake(TOwner))
    && (AboutToIssue(mv.k) ==>
          mv.k.i == k.i && (mv.acc == Bump(k.i) || (AboutToIssue(k) && mv.acc.PutState?)))
  }

  /** A holder never touches the lock, publish counts beyond a reset, or cells. */
  predicate Clerical(acc: Access) {
    acc.Load? || acc.PutState? || acc.Reset? || acc.PutKeyWord? || acc.PutOwner? || acc.PutHash? || acc.Bump? || acc.Issue?
  }

  /** What a holder's step delivers. */
  ghost predicate Holds(st: State, k: Keeper, mv: KeeperMove)
    requires Sized(st)
  {
    && InRange(st.cfg, |st.ents|, mv.acc)
    && Safe(st, mv.acc) && Careful(st, k, mv.acc) && Hands(st, k, mv)
    && InSection(mv.k) && Clerical(mv.acc) && HolderOk(Perform(st, mv.acc), mv.k)
  }

  ghost predicate Held(st: State, k: Keeper) {
    Sized(st) && st.cfg.Valid() && EntriesOk(st) && KeeperShape(st, k) && HolderOk(st, k)
  }

  lemma NormSafe(st: State, k: Keeper, pc: NormPc)
    requires Held(st, k) && k.pc == KNorm(pc)
    ensures var mv := KeeperNorm(k, pc);
            && InRange(st.cfg, |st.ents|, mv.acc) && Safe(st, mv.acc) && Careful(st, k, mv.acc) && Hands(st, k, mv)
            && InSection(mv.k) && Clerical(mv.acc)
  {
    hide Clean, Absent;
  }

  lemma NormBoard(st: State, k: Keeper, pc: NormPc)
    requires Held(st, k) && k.pc == KNorm(pc) && InRange(st.cfg, |st.ents|, KeeperNorm(k, pc).acc)
    ensures HolderOk(Perform(st, KeeperNorm(k, pc).acc), KeeperNorm(k, pc).k)
  {
  }

  lemma NormHolds(st: State, k: Keeper, pc: NormPc)
    requires Held(st, k) && k.pc == KNorm(pc)
    ensures Holds(st, k, KeeperNorm(k, pc))
  {
    NormSafe(st, k, pc);
    NormBoard(st, k, pc);
    hide KeeperNorm, Perform, HolderOk, Safe, Careful, Hands;
  }

  lemma TakeHolds(st: State, k: Keeper, pc: TakePc)
    requires Held(st, k) && k.pc == KTake(pc)
    ensures Holds(st, k, KeeperTake(st, k, pc))
  {
  }

  lemma ClaimSafe(st: State, k: Keeper, pc: ClaimPc)
    requires Held(st, k) && k.pc == KClaim(pc)
    ensures var acc := KeeperClaim(st, k, pc).acc; InRange(st.cfg, |st.ents|, acc) && Safe(st, acc) && Careful(st, k, acc)
  {
    hide Clean;
  }

  lemma ClaimHands(st: State, k: Keeper, pc: ClaimPc)
    requires Held(st, k) && k.pc == KClaim(pc)
    ensures Hands(st, k, KeeperClaim(st, k, pc))
    ensures InSection(KeeperClaim(st, k, pc).k) && Clerical(KeeperClaim(st, k, pc).acc)
  {
    hide Clean, Absent;
  }

  lemma ClaimBoard(st: State, k: Keeper, pc: ClaimPc)
    requires Held(st, k) && k.pc == KClaim(pc) && InRange(st.cfg, |st.ents|, KeeperClaim(st, k, pc).acc)
    ensures var mv := KeeperClaim(st, k, pc); Clean(Perform(st, mv.acc), mv.k) && Absent(Perform(st, mv.acc), mv.k)
  {
  }

  lemma ClaimKey(st: State, k: Keeper)
    requires Held(st, k) && k.pc == KClaim(CKey) && InRange(st.cfg, |st.ents|, KeeperClaim(st, k, CKey).acc)
    ensures var mv, st' := KeeperClaim(st, k, CKey), Perform(st, KeeperClaim(st, k, CKey).acc);
            mv.k.pc.KClaim? && mv.k.i < |st'.ents| && AtOk(st', mv.k)
  {
    hide Clean, Absent, EntriesOk;
  }

  lemma ClaimEntry(st: State, k: Keeper, pc: ClaimPc)
    requires Held(st, k) && k.pc == KClaim(pc) && InRange(st.cfg, |st.ents|, KeeperClaim(st, k, pc).acc)
    ensures var mv, st' := KeeperClaim(st, k, pc), Perform(st, KeeperClaim(st, k, pc).acc);
            AtEntry(mv.k) ==> mv.k.i < |st'.ents| && AtOk(st', mv.k)
  {
    if pc.CKey? {
      ClaimKey(st, k);
      hide KeeperClaim, AtOk;
    } else {
      hide Clean, Absent;
    }
  }

  lemma ClaimHolds(st: State, k: Keeper, pc: ClaimPc)
    requires Held(st, k) && k.pc == KClaim(pc)
    ensures Holds(st, k, KeeperClaim(st, k, pc))
  {
    ClaimSafe(st, k, pc);
    ClaimHands(st, k, pc);
    ClaimBoard(st, k, pc);
    ClaimEntry(st, k, pc);
    hide KeeperClaim, Perform, Clean, Absent, AtOk, Safe, Careful, Hands;
  }

  lemma ReclaimHolds(st: State, k: Keeper, pc: SweepPc)
    requires Held(st, k) && k.pc == KSw(pc)
    ensures Holds(st, k, KeeperReclaim(k, pc))
  {
  }

  lemma ReleaseHolds(st: State, k: Keeper, pc: ReleasePc)
    requires Held(st, k) && k.pc == KRel(pc) && (k.has ==> HandleOk(st, k))
    ensures Holds(st, k, KeeperRelease(st, k, pc))
  {
  }

  lemma RepairHolds(st: State, k: Keeper)
    requires Held(st, k) && k.pc == KRepair
    ensures Holds(st, k, KeeperMove(KeeperRepair(st, k), Load))
  {
  }

  lemma ScanHolds(st: State, k: Keeper)
    requires Held(st, k) && k.pc == KScan
    ensures Holds(st, k, KeeperMove(KeeperScan(st, k), Load))
  {
  }

  lemma FindHolds(st: State, k: Keeper)
    requires Held(st, k) && k.pc == KFind
    ensures Holds(st, k, KeeperMove(KeeperFind(st, k), Load))
  {
  }

  lemma SweepHolds(st: State, k: Keeper)
    requires Held(st, k) && k.pc == KSweep
    ensures Holds(st, k, KeeperMove(KeeperSweep(st, k), Load))
  {
    assert k.i < |st.ents| ==> !NeedsNorm(st.ents[k.i]);
    assert AtEntry(KeeperSweep(st, k)) ==> KeeperSweep(st, k) == k.(pc := KSw(STenancy));
    hide Takeable, NeedsNorm;
  }
}
