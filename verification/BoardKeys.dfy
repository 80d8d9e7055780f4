/**
The board lock and what it protects: one living holder at a time, no residue behind it, every
key in at most one published entry, and at most one living Writer an entry.
*/
module BoardKeys {
  import opened BoardModel

  predicate Published(e: Entry) { e.state == Active && e.hash != 0 }

  predicate Living(st: State, k: nat) { k < |st.keepers| && st.keepers[k].proc !in st.dead }

  // ----- the lock -----

  predicate CasOk(st: State, k: Keeper) {
    k.pc.KCas? ==> k.seen.None? || k.seen.value in st.dead
  }

  ghost predicate Locked(st: State) {
    && (forall k: nat :: Living(st, k) ==> CasOk(st, st.keepers[k]))
    && (forall k: nat :: Living(st, k) && InSection(st.keepers[k]) ==> st.lock == Some(st.keepers[k].proc))
    && (forall k: nat, k': nat :: Living(st, k) && Living(st, k') && InSection(st.keepers[k]) && InSection(st.keepers[k'])
          ==> k == k')
  }

  // ----- entries -----

  predicate EntryOk(cfg: Config, e: Entry) {
    && e.base <= e.tenancy
    && (e.tenancy == e.base ==> e.publish == 0)
    && (Published(e) ==> e.hash == cfg.Print(e.key) && e.tenancy > e.base)
  }

  ghost predicate EntriesOk(st: State) { forall i: nat :: i < |st.ents| ==> EntryOk(st.cfg, st.ents[i]) }

  predicate Rivals(cfg: Config, a: Entry, b: Entry) { Published(a) && Published(b) && cfg.SameKey(a.key, b.key) }

  /** No two published entries hold the same key. */
  ghost predicate Unique(st: State) {
    forall i: nat, j: nat :: i < j < |st.ents| ==> !Rivals(st.cfg, st.ents[i], st.ents[j])
  }

  // ----- what the holder knows -----

  /** Entry `j` may still hold residue while `k` has the lock. */
  predicate MayNeedNorm(k: Keeper, j: nat) {
    || (k.pc.KRepair? && j >= k.i)
    || (k.pc.KNorm? && (if k.inSweep then j == k.i else j >= k.i))
    || (k.pc.KClaim? && !k.pc.claim.CState? && !k.pc.claim.CDone? && j == k.i)
    || (k.pc.KSw? && (k.pc.sw.SOwner? || k.pc.sw.SState?) && j == k.i)
  }

  ghost predicate Clean(st: State, k: Keeper) {
    forall j: nat :: j < |st.ents| && NeedsNorm(st.ents[j]) ==> MayNeedNorm(k, j)
  }

  /** `k` has found that no entry holds its key. */
  predicate Searched(k: Keeper) {
    k.op.DeclareOp? && (k.pc.KFind? || k.pc.KClaim? || k.pc.KSweep? || k.pc.KSw? || (k.pc.KNorm? && k.inSweep))
  }

  predicate Ruled(k: Keeper, j: nat) {
    (k.pc.KScan? && j < k.i) || (Searched(k) && !(k.pc == KClaim(CDone) && j == k.i))
  }

  ghost predicate Absent(st: State, k: Keeper) {
    forall j: nat :: j < |st.ents| && Ruled(k, j) && Published(st.ents[j]) ==> !st.cfg.SameKey(st.ents[j].key, k.key)
  }

  predicate NormOk(e: Entry, k: Keeper, pc: NormPc) {
    match pc
    case NHash => NeedsNorm(e) && k.finish == (e.state != Free)
    case NOwner => e.hash == 0 && k.finish == (e.state != Free)
    case NState => e.hash == 0 && e.owner == 0
  }

  predicate TakeOk(st: State, e: Entry, k: Keeper, pc: TakePc) {
    && Published(e) && st.cfg.SameKey(e.key, k.key)
    && match pc
       case TOwner => Takeable(st, e)
       case TTenancy => e.owner == k.proc
       case TDone => e.owner == k.proc && e.tenancy == k.ten
  }

  predicate KeyCopied(e: Entry, k: Keeper) {
    k.j <= |e.key| && k.j <= |k.key| && e.key[..k.j] == k.key[..k.j]
  }

  predicate ClaimedBy(cfg: Config, e: Entry, k: Keeper) {
    e.key == k.key && e.owner == k.proc && e.hash == cfg.Print(k.key)
  }

  predicate Bare(e: Entry) { e.state == Claiming && e.hash == 0 && e.tenancy == e.base }

  predicate ClaimOk(cfg: Config, e: Entry, k: Keeper, pc: ClaimPc) {
    match pc
    case CState => e.state == Free && e.hash == 0
    case CReset => e.state == Claiming && e.hash == 0
    case CKey => Bare(e) && KeyCopied(e, k)
    case COwner => Bare(e) && e.key == k.key
    case CHash => Bare(e) && e.key == k.key && e.owner == k.proc
    case CTenancy => e.state == Claiming && e.tenancy == e.base && ClaimedBy(cfg, e, k)
    case CActive => e.state == Claiming && e.tenancy > e.base && e.publish == 0 && ClaimedBy(cfg, e, k)
    case CDone => e.state == Active && e.publish == 0 && ClaimedBy(cfg, e, k)
  }

  predicate ReclaimOk(st: State, e: Entry, pc: SweepPc) {
    match pc
    case STenancy => Published(e) && e.owner in st.dead
    case SHash => Published(e) && e.owner in st.dead
    case SOwner => e.state == Active && e.hash == 0
    case SState => e.state == Active && e.hash == 0 && e.owner == 0
  }

  /** What the holder's program counter says of the entry it is working on. */
  predicate AtOk(st: State, k: Keeper)
    requires k.i < |st.ents|
  {
    var e := st.ents[k.i];
    match k.pc
    case KNorm(pc) => NormOk(e, k, pc)
    case KTake(pc) => TakeOk(st, e, k, pc)
    case KClaim(pc) => ClaimOk(st.cfg, e, k, pc)
    case KSw(pc) => ReclaimOk(st, e, pc)
    case KRel(pc) => pc.LTenancy? ==> Published(e) && e.owner == 0
    case _ => true
  }

  ghost predicate HolderOk(st: State, k: Keeper) {
    && Clean(st, k) && Absent(st, k)
    && (AtEntry(k) ==> k.i < |st.ents| && AtOk(st, k))
  }

  ghost predicate HoldersOk(st: State) {
    forall k: nat :: Living(st, k) && InSection(st.keepers[k]) ==> HolderOk(st, st.keepers[k])
  }

  /** A lock released normally leaves nothing to repair. */
  ghost predicate NoResidue(st: State) {
    forall j: nat :: j < |st.ents| ==> !NeedsNorm(st.ents[j])
  }

  // ----- Writers -----

  predicate HandleOk(st: State, k: Keeper)
    requires k.idx < |st.ents|
  {
    var e := st.ents[k.idx];
    Published(e) && e.owner == k.proc && e.tenancy == k.ten && e.publish / 2 == k.writes
  }

  ghost predicate HandlesOk(st: State) {
    forall k: nat :: Living(st, k) && st.keepers[k].has ==> st.keepers[k].idx < |st.ents| && HandleOk(st, st.keepers[k])
  }

  predicate Distinct(a: Keeper, b: Keeper) { a.has && b.has ==> a.idx != b.idx || a.ten != b.ten }

  /** Handles, dead ones too, have tenancies of their own. */
  ghost predicate Apart(st: State) {
    forall k: nat, k': nat :: k < k' < |st.keepers| ==> Distinct(st.keepers[k], st.keepers[k'])
  }

  /** A number not yet handed out, at the PCs that are about to. */
  predicate AboutToIssue(k: Keeper) { k.pc == KTake(TDone) || k.pc == KClaim(CActive) || k.pc == KClaim(CDone) }

  ghost predicate IssuesOk(st: State) {
    && (forall x :: x in st.issued ==> x.i < |st.ents| && x.ten <= st.ents[x.i].tenancy)
    && (forall k: nat :: k < |st.keepers| && st.keepers[k].has ==> Tenure(st.keepers[k].idx, st.keepers[k].ten) in st.issued)
    && (forall k: nat :: Living(st, k) && AboutToIssue(st.keepers[k]) ==>
          st.keepers[k].i < |st.ents| && Tenure(st.keepers[k].i, st.ents[st.keepers[k].i].tenancy) !in st.issued)
  }

  /** While an entry is being taken over nobody living writes to it. */
  ghost predicate TakingOk(st: State) {
    forall k: nat, k': nat :: Living(st, k) && Living(st, k') && st.keepers[k].pc == KTake(TTenancy) && st.keepers[k'].has
      ==> st.keepers[k'].idx != st.keepers[k].i
  }

  ghost predicate KeysOk(st: State) {
    && Shape(st) && Locked(st) && EntriesOk(st) && Unique(st) && HoldersOk(st)
    && (st.lock.None? ==> NoResidue(st))
    && HandlesOk(st) && Apart(st) && IssuesOk(st) && TakingOk(st)
  }

  // ----- shapes -----

  lemma AccessKeepsShape(st: State, acc: Access)
    requires Sized(st) && InRange(st.cfg, |st.ents|, acc)
    ensures Sized(Perform(st, acc)) && Perform(st, acc).cfg == st.cfg && |Perform(st, acc).ents| == |st.ents|
    ensures Perform(st, acc).keepers == st.keepers && Perform(st, acc).readers == st.readers
    ensures Perform(st, acc).dead == st.dead
  {
  }

  lemma UnlockShape(st: State, k: Keeper)
    requires KeeperShape(st, k) && k.pc == KUnlock
    ensures KeeperShape(st, k.(pc := KIdle)) && k.(pc := KIdle).proc == k.proc
  {
  }

  lemma StartShape(st: State, k: Keeper, c: Choice)
    requires KeeperShape(st, k) && k.pc == KIdle && KeeperEnabled(st, k, c)
    ensures KeeperShape(st, KeeperStart(k, c)) && KeeperStart(k, c).proc == k.proc
  {
  }

  lemma WaitShape(st: State, k: Keeper, c: Choice)
    requires KeeperShape(st, k) && k.pc == KLoad
    ensures KeeperShape(st, KeeperWait(st, k, c)) && KeeperWait(st, k, c).proc == k.proc
  {
  }

  lemma CasShape(st: State, k: Keeper)
    requires KeeperShape(st, k) && k.pc == KCas
    ensures KeeperShape(st, KeeperCas(st, k).k) && KeeperCas(st, k).k.proc == k.proc
  {
  }

  lemma RepairShape(st: State, k: Keeper)
    requires KeeperShape(st, k) && k.pc == KRepair
    ensures KeeperShape(st, KeeperRepair(st, k)) && KeeperRepair(st, k).proc == k.proc
  {
  }

  lemma ScanShape(st: State, k: Keeper)
    requires KeeperShape(st, k) && k.pc == KScan
    ensures KeeperShape(st, KeeperScan(st, k)) && KeeperScan(st, k).proc == k.proc
  {
  }

  lemma FindShape(st: State, k: Keeper)
    requires KeeperShape(st, k) && k.pc == KFind
    ensures KeeperShape(st, KeeperFind(st, k)) && KeeperFind(st, k).proc == k.proc
  {
  }

  lemma SweepShape(st: State, k: Keeper)
    requires KeeperShape(st, k) && k.pc == KSweep
    ensures KeeperShape(st, KeeperSweep(st, k)) && KeeperSweep(st, k).proc == k.proc
  {
    if k.i < |st.ents| && NeedsNorm(st.ents[k.i]) {
      assert KeeperSweep(st, k) == ToNorm(k, st.ents[k.i], true);
      hide KeeperSweep;
    }
  }

  lemma NormShape(st: State, k: Keeper, pc: NormPc)
    requires KeeperShape(st, k) && k.pc == KNorm(pc)
    ensures KeeperShape(st, KeeperNorm(k, pc).k) && KeeperNorm(k, pc).k.proc == k.proc
  {
  }

  lemma TakeShape(st: State, k: Keeper, pc: TakePc)
    requires KeeperShape(st, k) && k.pc == KTake(pc)
    ensures KeeperShape(st, KeeperTake(st, k, pc).k) && KeeperTake(st, k, pc).k.proc == k.proc
  {
  }

  lemma ClaimShape(st: State, k: Keeper, pc: ClaimPc)
    requires KeeperShape(st, k) && k.pc == KClaim(pc)
    ensures KeeperShape(st, KeeperClaim(st, k, pc).k) && KeeperClaim(st, k, pc).k.proc == k.proc
  {
  }

  lemma ReclaimShape(st: State, k: Keeper, pc: SweepPc)
    requires KeeperShape(st, k) && k.pc == KSw(pc)
    ensures KeeperShape(st, KeeperReclaim(k, pc).k) && KeeperReclaim(k, pc).k.proc == k.proc
  {
  }

  lemma ReleaseShape(st: State, k: Keeper, pc: ReleasePc)
    requires KeeperShape(st, k) && k.pc == KRel(pc)
    ensures KeeperShape(st, KeeperRelease(st, k, pc).k) && KeeperRelease(st, k, pc).k.proc == k.proc
  {
  }

  lemma WriteShape(st: State, k: Keeper, pc: WritePc)
    requires KeeperShape(st, k) && k.pc == KWrite(pc)
    ensures KeeperShape(st, KeeperWrite(st, k, pc).k) && KeeperWrite(st, k, pc).k.proc == k.proc
  {
  }

  lemma KeeperShapeMove(st: State, k: Keeper, c: Choice)
    requires KeeperShape(st, k) && KeeperEnabled(st, k, c)
    ensures KeeperShape(st, KeeperNext(st, k, c).k) && KeeperNext(st, k, c).k.proc == k.proc
  {
    hide KeeperStart, KeeperWait, KeeperCas, KeeperRepair, KeeperScan, KeeperFind, KeeperSweep, KeeperNorm, KeeperTake,
      KeeperClaim, KeeperReclaim, KeeperRelease, KeeperWrite, OpShape;
    match k.pc
    case KIdle => StartShape(st, k, c);
    case KLoad => WaitShape(st, k, c);
    case KCas => CasShape(st, k);
    case KRepair => RepairShape(st, k);
    case KScan => ScanShape(st, k);
    case KFind => FindShape(st, k);
    case KSweep => SweepShape(st, k);
    case KUnlock => UnlockShape(st, k);
    case KNorm(pc) => NormShape(st, k, pc);
    case KTake(pc) => TakeShape(st, k, pc);
    case KClaim(pc) => ClaimShape(st, k, pc);
    case KSw(pc) => ReclaimShape(st, k, pc);
    case KRel(pc) => ReleaseShape(st, k, pc);
    case KWrite(pc) => WriteShape(st, k, pc);
  }

  lemma KeeperKeepsShape(st: State, k: nat, c: Choice)
    requires KeeperReady(st, k, c)
    ensures var st' := KeeperTo(st, k, c);
            Shape(st') && st'.cfg == st.cfg && |st'.ents| == |st.ents| && |st'.keepers| == |st.keepers|
            && st'.dead == st.dead && st'.readers == st.readers
  {
    KeeperShapeMove(st, st.keepers[k], c);
    hide KeeperNext;
    AccessKeepsShape(st, KeeperDoes(st, k, c).acc);
    hide Perform;
  }

  lemma ReaderShapeMove(st: State, u: Reader, c: ReadChoice)
    requires Sized(st) && ReaderShape(st, u) && ReaderEnabled(st, u, c)
    ensures ReaderShape(st, ReaderNext(st, u, c))
  {
  }

  lemma KeepsShape(st: State, step: Step, st': State)
    requires Next(st, step, st')
    ensures Shape(st') && st'.cfg == st.cfg && |st'.ents| == |st.ents| && |st'.keepers| == |st.keepers|
    ensures |st'.readers| == |st.readers|
  {
    match step
    case KeeperStep(k, c) =>
      KeeperKeepsShape(st, k, c);
      hide KeeperTo, KeeperDoes;
    case ReaderStep(r, c) =>
      ReaderShapeMove(st, st.readers[r], c);
      hide ReaderNext;
    case Die(_) =>
  }

  // ----- looking a key up -----

  /** The entry a scan for `key` accepts. */
  predicate Match(cfg: Config, e: Entry, key: seq<Word>) {
    e.state == Active && e.hash == cfg.Print(key) && cfg.SameKey(e.key, key)
  }

  /** Entry `i` is published under the text of `key`. */
  predicate HasKey(st: State, i: nat, key: seq<Word>) {
    i < |st.ents| && Published(st.ents[i]) && st.cfg.SameKey(st.ents[i].key, key)
  }

  /** The fingerprint is only a filter: what a scan accepts is what is published under the key. */
  lemma MatchMeansHasKey(st: State, i: nat, key: seq<Word>)
    requires st.cfg.Valid() && EntriesOk(st) && i < |st.ents|
    ensures Match(st.cfg, st.ents[i], key) <==> HasKey(st, i, key)
  {
    assert EntryOk(st.cfg, st.ents[i]);
  }

  lemma OnlyHolder(st: State, i: nat, j: nat, key: seq<Word>)
    requires Unique(st) && HasKey(st, i, key) && HasKey(st, j, key)
    ensures i == j
  {
    assert i < j ==> !Rivals(st.cfg, st.ents[i], st.ents[j]);
    assert j < i ==> !Rivals(st.cfg, st.ents[j], st.ents[i]);
  }
}
