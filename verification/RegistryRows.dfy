/** Who holds a registry row, what its generations mean, and what sweeps and snapshots may conclude. */
module RegistryRows {
  import opened RegistryModel

  // ----- the row, by holder -----

  predicate Bears(row: Row, rec: Record) { row.pid == rec.who.pid && row.start == rec.who.start && row.desc == rec.desc }

  /** A settled generation that publishes nothing. */
  predicate Vacant(row: Row) { row.gen % 2 == 0 && row.gen !in row.regs && row.pid == 0 && row.start == 0 }

  /** A settled generation that publishes `rec`. */
  predicate Published(row: Row, rec: Record) {
    row.gen % 2 == 0 && row.gen in row.regs && row.regs[row.gen] == rec && Bears(row, rec)
  }

  predicate Held(row: Row) { row.gen % 2 == 1 }

  predicate Filled(row: Row, rec: Record, j: nat) {
    && row.pid == rec.who.pid && row.start == rec.who.start
    && j <= |row.desc| && j <= |rec.desc| && row.desc[..j] == rec.desc[..j]
  }

  predicate OwnOk(row: Row, o: Own) {
    match o.pc
    case OIdle => true
    case OOpenLoad => row.state == Claiming && Vacant(row)
    case OOpenStore => row.state == Claiming && Vacant(row) && o.g == row.gen
    case OStart => row.state == Claiming && Held(row)
    case OPid => row.state == Claiming && Held(row) && row.start == o.rec.who.start
    case ODesc => row.state == Claiming && Held(row) && Filled(row, o.rec, o.j)
    case OActive => row.state == Claiming && Held(row) && Bears(row, o.rec)
    case OSettleLoad => row.state == Active && Held(row) && Bears(row, o.rec)
    case OSettleStore => row.state == Active && Held(row) && Bears(row, o.rec) && o.g == row.gen
    case OHeld => row.state == Active && Published(row, o.rec)
    case DCas => row.state == Active && Published(row, o.rec)
    case DOpenLoad => row.state == Reclaiming && Published(row, o.rec)
    case DOpenStore => row.state == Reclaiming && Published(row, o.rec) && o.g == row.gen
    case DPid => row.state == Reclaiming && Held(row)
    case DStart => row.state == Reclaiming && Held(row) && row.pid == 0
    case DSettleLoad => row.state == Reclaiming && Held(row) && row.pid == 0 && row.start == 0
    case DSettleStore => row.state == Reclaiming && Held(row) && row.pid == 0 && row.start == 0 && o.g == row.gen
    case DFree => row.state == Reclaiming && Vacant(row)
  }

  /** A sweeper past the CAS holds the row. */
  predicate Sweeping(s: Sweep) {
    s.pc.SReclaim? || s.pc.SPid0? || s.pc.SStart0? || s.pc.SSettleLoad? || s.pc.SSettleStore? || s.pc.SFree?
  }

  predicate SweepHolds(row: Row, s: Sweep) {
    match s.pc
    case SReclaim => Held(row) && row.state != Free
    case SPid0 => Held(row) && row.state == Reclaiming
    case SStart0 => Held(row) && row.state == Reclaiming && row.pid == 0
    case SSettleLoad => Held(row) && row.state == Reclaiming && row.pid == 0 && row.start == 0
    case SSettleStore => Held(row) && row.state == Reclaiming && row.pid == 0 && row.start == 0 && s.g == row.gen
    case SFree => row.state == Reclaiming && Vacant(row)
    case _ => false
  }

  /** Exactly one holder, and what it knows. */
  predicate HolderOk(st: State) {
    match st.row.holder
    case Nobody => st.row.state == Free && Vacant(st.row)
    case Owner(k) => k < |st.owners| && !st.owners[k].pc.OIdle? && OwnOk(st.row, st.owners[k])
    case Sweeper(n) => n < |st.sweeps| && SweepHolds(st.row, st.sweeps[n])
  }

  predicate OwnerSound(width: nat, o: Own) { !o.pc.OIdle? ==> o.rec.who.pid != 0 && |o.rec.desc| == width }

  /** Between opening a generation and settling it. */
  predicate OwnerOdd(o: Own) {
    || o.pc.OStart? || o.pc.OPid? || o.pc.ODesc? || o.pc.OActive? || o.pc.OSettleLoad? || o.pc.OSettleStore?
    || o.pc.DPid? || o.pc.DStart? || o.pc.DSettleLoad? || o.pc.DSettleStore?
  }

  predicate SweepOdd(s: Sweep) { Sweeping(s) && !s.pc.SFree? }

  /** Living owners at work, owners dead in an odd generation, and sweepers past the CAS, are the holder. */
  ghost predicate Exclusive(st: State) {
    && (forall k: nat :: k < |st.owners| && OwnerOdd(st.owners[k]) ==> st.row.holder == Owner(k))
    && (forall k: nat :: k < |st.owners| && !st.owners[k].pc.OIdle? && st.owners[k].rec.who !in st.dead ==>
          st.row.holder == Owner(k))
    && (forall n: nat :: n < |st.sweeps| && Sweeping(st.sweeps[n]) ==> st.row.holder == Sweeper(n))
  }

  // ----- generations -----

  ghost predicate GensOk(row: Row) {
    && (forall g :: g in row.regs ==> g <= row.gen && row.regs[g].who.pid != 0)
    && (row.gen % 2 == 0 && row.pid != 0 ==> row.gen in row.regs && Bears(row, row.regs[row.gen]))
  }

  /** How the row moves: while a generation is settled its fields stand, and history only grows. */
  ghost predicate Goes(row: Row, row': Row) {
    && row'.gen >= row.gen
    && (row'.gen == row.gen && row.gen % 2 == 0 ==>
          row'.pid == row.pid && row'.start == row.start && row'.desc == row.desc)
    && (forall g :: g in row.regs ==> g in row'.regs && row'.regs[g] == row.regs[g])
    && |row'.desc| == |row.desc|
  }

  // ----- checks in progress -----

  predicate Was(row: Row, g: nat, who: Ident) { who.pid != 0 ==> g in row.regs && row.regs[g].who == who }

  predicate SweepOk(row: Row, s: Sweep, dead: set<Ident>) {
    match s.pc
    case SPid => s.g <= row.gen && s.g % 2 == 0
    case SStart => s.g <= row.gen && s.g % 2 == 0 && (row.gen == s.g ==> s.seen.pid == row.pid)
    case SRecheck =>
      s.g <= row.gen && s.g % 2 == 0 && (row.gen == s.g ==> s.seen.pid == row.pid && s.seen.start == row.start)
    case SVerdict => s.g <= row.gen && s.g % 2 == 0 && s.seen.pid != 0 && Was(row, s.g, s.seen)
    case SAcquire => s.g <= row.gen && s.g % 2 == 0 && s.seen.pid != 0 && Was(row, s.g, s.seen) && s.seen in dead
    case _ => true
  }

  predicate Snapped(row: Row, g: nat, rec: Record) { rec.who.pid != 0 ==> g in row.regs && row.regs[g] == rec }

  predicate ShotOk(row: Row, h: Shot) {
    match h.pc
    case HPid => h.g <= row.gen && h.g % 2 == 0
    case HStart => h.g <= row.gen && h.g % 2 == 0 && (row.gen == h.g ==> h.pid == row.pid)
    case HDesc =>
      && h.g <= row.gen && h.g % 2 == 0 && |h.desc| <= |row.desc|
      && (row.gen == h.g ==> h.pid == row.pid && h.start == row.start && h.desc <= row.desc)
    case HGen2 =>
      && h.g <= row.gen && h.g % 2 == 0
      && (row.gen == h.g ==> h.pid == row.pid && h.start == row.start && h.desc == row.desc)
    case HState2 => Snapped(row, h.g, Record(Ident(h.pid, h.start), h.desc))
    case _ => true
  }

  /** What a snapshot returned is a registration, unless its pid is 0. */
  ghost predicate OutOk(row: Row, h: Shot) {
    h.out.Some? && h.out.value.who.pid != 0 ==> exists g :: g in row.regs && row.regs[g] == h.out.value
  }

  ghost predicate Inv(st: State) {
    && |st.row.desc| == st.width && HolderOk(st) && Exclusive(st) && GensOk(st.row)
    && (forall k :: 0 <= k < |st.owners| ==> OwnerSound(st.width, st.owners[k]))
    && (forall n :: 0 <= n < |st.sweeps| ==> SweepOk(st.row, st.sweeps[n], st.dead))
    && (forall h :: 0 <= h < |st.shots| ==> ShotOk(st.row, st.shots[h]) && OutOk(st.row, st.shots[h]))
  }

  // ----- owners -----

  lemma FilledGrows(s: seq<nat>, t: seq<nat>, j: nat)
    requires j < |s| && j < |t| && s[..j] == t[..j]
    ensures s[j := t[j]][..j + 1] == t[..j + 1]
  {
    assert forall n :: 0 <= n < j ==> s[n] == s[..j][n] == t[..j][n] == t[n];
  }

  /** The setting of an owner's step on the row it holds. */
  ghost predicate OwnerAt(width: nat, row: Row, k: nat, o: Own, pc: OwnerPc) {
    && |row.desc| == width && GensOk(row) && OwnerSound(width, o) && o.pc == pc && pc != OIdle
    && OwnOk(row, o) && row.holder == Owner(k)
  }

  lemma OwnerGoes(width: nat, row: Row, k: nat, o: Own, rec: Record, pc: OwnerPc)
    requires OwnerAt(width, row, k, o, pc)
    ensures Goes(row, OwnStep(width, row, k, o, rec).row) && OwnerSound(width, OwnStep(width, row, k, o, rec).o)
  {
    hide Bears, Filled;
  }

  lemma OwnerGens(width: nat, row: Row, k: nat, o: Own, rec: Record, pc: OwnerPc)
    requires OwnerAt(width, row, k, o, pc)
    ensures GensOk(OwnStep(width, row, k, o, rec).row)
  {
    hide Filled;
  }

  lemma OwnerKnows(width: nat, row: Row, k: nat, o: Own, rec: Record, pc: OwnerPc)
    requires OwnerAt(width, row, k, o, pc)
    ensures var mv := OwnStep(width, row, k, o, rec);
            if mv.o.pc == OIdle then mv.row.holder == Nobody && mv.row.state == Free && Vacant(mv.row)
            else mv.row.holder == Owner(k) && OwnOk(mv.row, mv.o) && mv.o.rec == o.rec
  {
    if pc == ODesc {
      if o.j < |row.desc| {
        FilledGrows(row.desc, o.rec.desc, o.j);
      } else {
        assert row.desc == row.desc[..o.j] == o.rec.desc[..o.j] == o.rec.desc;
      }
    }
  }

  // ----- sweepers -----

  ghost predicate SweeperAt(row: Row, n: nat, s: Sweep) {
    GensOk(row) && Sweeping(s) && SweepHolds(row, s) && row.holder == Sweeper(n)
  }

  lemma SweeperGoes(row: Row, n: nat, s: Sweep, dead: set<Ident>)
    requires SweeperAt(row, n, s)
    ensures Goes(row, SweepStep(row, n, s, dead).row) && GensOk(SweepStep(row, n, s, dead).row)
  {
  }

  lemma SweeperKnows(row: Row, n: nat, s: Sweep, dead: set<Ident>)
    requires SweeperAt(row, n, s)
    ensures var mv := SweepStep(row, n, s, dead);
            && (if mv.s.pc == SIdle then mv.row.holder == Nobody && mv.row.state == Free && Vacant(mv.row)
                else mv.row.holder == Sweeper(n) && Sweeping(mv.s) && SweepHolds(mv.row, mv.s))
            && SweepOk(mv.row, mv.s, dead)
  {
  }

  /** Up to the CAS a sweeper only looks. */
  lemma SweeperLooks(row: Row, n: nat, s: Sweep, dead: set<Ident>)
    requires GensOk(row) && !Sweeping(s) && SweepOk(row, s, dead)
    ensures var mv := SweepStep(row, n, s, dead);
            && SweepOk(mv.row, mv.s, dead)
            && (if Sweeping(mv.s) then s.pc == SAcquire && row.gen == s.g && mv.s.pc == SReclaim
                                       && mv.row == row.(gen := s.g + 1, holder := Sweeper(n))
                else mv.row == row)
  {
  }

  /** The generation checked is still published, so it is the dead owner's. */
  lemma AcquiresFromTheDead(st: State, n: nat)
    requires Inv(st) && n < |st.sweeps| && st.sweeps[n].pc == SAcquire && st.row.gen == st.sweeps[n].g
    ensures st.row.holder.Owner? && st.row.holder.k < |st.owners|
    ensures var o := st.owners[st.row.holder.k];
            && Published(st.row, o.rec) && o.rec.who == st.sweeps[n].seen && o.rec.who in st.dead
            && !OwnerOdd(o) && st.row.state != Free
  {
    assert SweepOk(st.row, st.sweeps[n], st.dead);
  }

  // ----- snapshots -----

  lemma ShotSees(row: Row, h: Shot)
    requires GensOk(row) && ShotOk(row, h) && OutOk(row, h)
    ensures ShotOk(row, ShotStep(row, h)) && OutOk(row, ShotStep(row, h))
  {
  }

  // ----- checks in progress survive other participants -----

  lemma SweepUndisturbed(row: Row, row': Row, s: Sweep, dead: set<Ident>, dead': set<Ident>)
    requires Goes(row, row') && dead <= dead' && SweepOk(row, s, dead)
    ensures SweepOk(row', s, dead')
  {
  }

  lemma ShotUndisturbed(row: Row, row': Row, h: Shot)
    requires Goes(row, row') && ShotOk(row, h) && OutOk(row, h)
    ensures ShotOk(row', h) && OutOk(row', h)
  {
    if h.out.Some? && h.out.value.who.pid != 0 {
      var g :| g in row.regs && row.regs[g] == h.out.value;
      assert g in row'.regs;
    }
  }

  lemma ChecksUndisturbed(st: State, st': State)
    requires Inv(st) && Goes(st.row, st'.row) && st.dead <= st'.dead && |st'.shots| == |st.shots|
    requires st'.shots == st.shots
    ensures forall n :: 0 <= n < |st.sweeps| ==> SweepOk(st'.row, st.sweeps[n], st'.dead)
    ensures forall h :: 0 <= h < |st.shots| ==> ShotOk(st'.row, st.shots[h]) && OutOk(st'.row, st.shots[h])
  {
    forall n | 0 <= n < |st.sweeps| ensures SweepOk(st'.row, st.sweeps[n], st'.dead) {
      SweepUndisturbed(st.row, st'.row, st.sweeps[n], st.dead, st'.dead);
    }
    forall h | 0 <= h < |st.shots| ensures ShotOk(st'.row, st.shots[h]) && OutOk(st'.row, st.shots[h]) {
      ShotUndisturbed(st.row, st'.row, st.shots[h]);
    }
  }

  // ----- every step keeps the invariant -----

  lemma FreeRowHasNoHolder(st: State)
    requires Inv(st) && st.row.state == Free
    ensures st.row.holder == Nobody && Vacant(st.row)
  {
  }

  lemma ClaimKeepsInv(st: State, k: nat, rec: Record, st': State)
    requires Inv(st) && Next(st, OwnerStep(k, rec), st') && st.owners[k].pc == OIdle && st.row.state == Free
    ensures Inv(st')
  {
    FreeRowHasNoHolder(st);
    assert Goes(st.row, st'.row);
    ChecksUndisturbed(st, st');
    assert OwnerSound(st.width, st'.owners[k]);
    hide SweepOk, ShotOk, OutOk, Goes, SweepHolds;
  }

  lemma OwnerKeepsInv(st: State, k: nat, rec: Record, st': State)
    requires Inv(st) && Next(st, OwnerStep(k, rec), st') && st.owners[k].pc != OIdle
    ensures Inv(st')
  {
    var o := st.owners[k];
    assert OwnerAt(st.width, st.row, k, o, o.pc);
    OwnerGoes(st.width, st.row, k, o, rec, o.pc);
    OwnerGens(st.width, st.row, k, o, rec, o.pc);
    OwnerKnows(st.width, st.row, k, o, rec, o.pc);
    OddInside(o);
    OddInside(OwnStep(st.width, st.row, k, o, rec).o);
    ChecksUndisturbed(st, st');
    hide SweepOk, ShotOk, OutOk, SweepHolds, OwnStep, OwnOk, GensOk, Vacant, OwnerOdd;
  }

  lemma OddInside(o: Own)
    ensures OwnerOdd(o) ==> o.pc != OIdle
  {
  }

  lemma SweeperKeepsInv(st: State, n: nat, st': State)
    requires Inv(st) && Next(st, SweeperStep(n), st')
    ensures Inv(st')
  {
    var s := st.sweeps[n];
    if Sweeping(s) {
      SweeperGoes(st.row, n, s, st.dead);
      SweeperKnows(st.row, n, s, st.dead);
    } else {
      SweeperLooks(st.row, n, s, st.dead);
      if Sweeping(st'.sweeps[n]) { AcquiresFromTheDead(st, n); }
      assert Goes(st.row, st'.row) && GensOk(st'.row);
    }
    ChecksUndisturbed(st, st');
    hide SweepStep, ShotOk, OutOk, GensOk, Goes, SweepOk, Vacant, OwnerOdd;
  }

  lemma StepKeepsInv(st: State, step: Step, st': State)
    requires Inv(st) && Next(st, step, st')
    ensures Inv(st')
  {
    match step
    case OwnerStep(k, rec) =>
      if st.owners[k].pc != OIdle {
        OwnerKeepsInv(st, k, rec, st');
      } else if st.row.state == Free {
        ClaimKeepsInv(st, k, rec, st');
      } else {
        assert st' == st;
      }
      hide Inv, Next;
    case SweeperStep(n) =>
      SweeperKeepsInv(st, n, st');
      hide Inv, Next;
    case SnapStep(h) =>
      ShotSees(st.row, st.shots[h]);
      hide SweepOk, ShotOk, OutOk, ShotStep, OwnOk, SweepHolds, GensOk;
    case Die(who) =>
      ChecksUndisturbed(st, st');
      hide SweepOk, ShotOk, OutOk, OwnOk, SweepHolds, GensOk;
  }

  lemma {:induction false} RunKeepsInv(states: seq<State>, steps: seq<Step>, n: nat)
    requires Run(states, steps) && n <= |steps|
    ensures Inv(states[n])
  {
    if n > 0 {
      hide Inv, Next, Init;
      RunKeepsInv(states, steps, n - 1);
      StepKeepsInv(states[n - 1], steps[n - 1], states[n]);
    }
  }
}
