/** Every Active entry, residue included, has a key of its own: what a cached resolution relies on. */
module BoardActive {
  import opened BoardModel
  import opened BoardKeys
  import opened BoardGuarantees

  predicate Keyed(e: Entry) { e.state == Active ==> e.tenancy > e.base }

  predicate Clash(cfg: Config, a: Entry, b: Entry) { a.state == Active && b.state == Active && cfg.SameKey(a.key, b.key) }

  ghost predicate OneActive(st: State) {
    && (forall i: nat :: i < |st.ents| ==> Keyed(st.ents[i]))
    && (forall i: nat, j: nat :: i < j < |st.ents| ==> !Clash(st.cfg, st.ents[i], st.ents[j]))
  }

  /** The access makes no entry Active and rewrites no Active entry's identity. */
  predicate Tame(st: State, acc: Access)
    requires InRange(st.cfg, |st.ents|, acc)
  {
    && !(acc.PutState? && acc.x == Active)
    && (acc.Reset? || acc.PutKeyWord? ==> st.ents[acc.i].state != Active)
  }

  lemma TameKeeps(st: State, acc: Access)
    requires Sized(st) && InRange(st.cfg, |st.ents|, acc) && Tame(st, acc) && OneActive(st)
    ensures OneActive(Perform(st, acc))
  {
    var st' := Perform(st, acc);
    forall i: nat | i < |st.ents| ensures Keyed(st'.ents[i]) { assert Keyed(st.ents[i]); }
    forall i: nat, j: nat | i < j < |st.ents| ensures !Clash(st.cfg, st'.ents[i], st'.ents[j]) {
      assert !Clash(st.cfg, st.ents[i], st.ents[j]);
    }
  }

  /** The store of Active publishes a key no other Active entry has: repair and search came first. */
  lemma ActivatesAlone(st: State, k: Keeper)
    requires Sized(st) && KeeperShape(st, k) && HolderOk(st, k) && k.pc == KClaim(CActive) && OneActive(st)
    ensures OneActive(Perform(st, PutState(k.i, Active)))
  {
    var st' := Perform(st, PutState(k.i, Active));
    forall j: nat | j < |st.ents| && j != k.i && st.ents[j].state == Active
      ensures !st.cfg.SameKey(st.ents[j].key, st.ents[k.i].key)
    {
      assert !NeedsNorm(st.ents[j]);
      assert Published(st.ents[j]) && Ruled(k, j);
    }
    forall i: nat | i < |st.ents| ensures Keyed(st'.ents[i]) { assert Keyed(st.ents[i]); }
    forall i: nat, j: nat | i < j < |st.ents| ensures !Clash(st.cfg, st'.ents[i], st'.ents[j]) {
      assert !Clash(st.cfg, st.ents[i], st.ents[j]);
    }
  }

  lemma StepTame(st: State, k: Keeper, c: Choice)
    requires Sized(st) && KeeperShape(st, k) && KeeperEnabled(st, k, c) && k.pc != KClaim(CActive)
    requires k.pc.KClaim? ==> HolderOk(st, k)
    ensures InRange(st.cfg, |st.ents|, KeeperNext(st, k, c).acc) && Tame(st, KeeperNext(st, k, c).acc)
  {
    KeeperInRange(st, k, c);
    hide OpShape, Clean, Absent;
  }

  lemma KeeperKeepsActive(st: State, k: nat, c: Choice)
    requires KeysOk(st) && KeeperReady(st, k, c) && OneActive(st)
    ensures OneActive(KeeperTo(st, k, c))
  {
    var u := st.keepers[k];
    assert InSection(u) ==> HolderOk(st, u);
    if u.pc == KClaim(CActive) {
      ActivatesAlone(st, u);
      ActivePc(st, u, c);
    } else {
      StepTame(st, u, c);
      TameKeeps(st, KeeperNext(st, u, c).acc);
    }
    hide KeeperNext, Perform, KeysOk, Shape;
    SameBoard(Perform(st, KeeperDoes(st, k, c).acc), KeeperTo(st, k, c));
  }

  lemma ActivePc(st: State, u: Keeper, c: Choice)
    requires Sized(st) && KeeperShape(st, u) && KeeperEnabled(st, u, c) && u.pc == KClaim(CActive)
    ensures KeeperNext(st, u, c).acc == PutState(u.i, Active)
  {
  }

  lemma SameBoard(st: State, st': State)
    requires st'.ents == st.ents && st'.cfg == st.cfg && OneActive(st)
    ensures OneActive(st')
  {
  }

  lemma {:induction false} RunKeepsActive(states: seq<State>, steps: seq<Step>, n: nat)
    requires Run(states, steps) && n <= |steps|
    ensures OneActive(states[n])
  {
    if n == 0 {
      forall i: nat | i < |states[0].ents| ensures states[0].ents[i].state == Free { assert Blank(states[0].cfg, states[0].ents[i]); }
      hide Shape;
    } else {
      RunKeepsActive(states, steps, n - 1);
      RunKeepsInv(states, steps, n - 1);
      var st, step := states[n - 1], steps[n - 1];
      assert Next(st, step, states[n]);
      hide KeysOk, OneActive, Shape, KeeperTo, KeeperReady, Init, ReaderNext;
      match step
      case KeeperStep(k, c) => KeeperKeepsActive(st, k, c);
      case ReaderStep(_, _) => SameBoard(st, states[n]);
      case Die(_) => SameBoard(st, states[n]);
    }
  }
}
