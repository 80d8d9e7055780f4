/** What the Blackboard promises, stated on runs in which processes die between any two stores. */
module BoardGuarantees {
  import opened BoardModel
  import opened BoardKeys
  import opened BoardHolder
  import opened BoardLockKept
  import opened BoardWriters
  import opened BoardValues
  import opened BoardReads

  ghost predicate Inv(st: State) { KeysOk(st) && ValuesOk(st) && ReadersOk(st) }

  // ----- every step keeps the invariant -----

  lemma KeeperKeepsInv(st: State, k: nat, c: Choice)
    requires Inv(st) && KeeperReady(st, k, c)
    ensures Inv(KeeperTo(st, k, c))
  {
    var st' := KeeperTo(st, k, c);
    KeeperKeepsShape(st, k, c);
    KeeperKeepsKeys(st, k, c);
    KeeperKeepsValues(st, k, c);
    hide KeysOk, ValuesOk, KeeperTo, Recorded, Goes, ReaderOk, Shape;
    forall r: nat | r < |st'.readers| ensures ReaderOk(st', st'.readers[r]) {
      assert ReaderOk(st, st.readers[r]);
      ReaderUndisturbed(st, st', st.readers[r]);
    }
  }

  lemma ReaderKeepsInv(st: State, r: nat, c: ReadChoice)
    requires Inv(st) && ReaderReady(st, r, c)
    ensures Inv(ReaderTo(st, r, c))
  {
    var u, st' := st.readers[r], ReaderTo(st, r, c);
    ReaderShapeMove(st, u, c);
    assert BoardOk(st);
    ReaderNextOk(st, u, c);
    hide ReaderNext, ReaderOk, OpShape, HolderOk, EntryOk, WriteOk, CellsIn;
    BoardAlike(st, st');
    forall h: nat | h < |st'.readers| ensures ReaderOk(st', st'.readers[h]) {
      assert ReaderOk(st, st.readers[h]);
      ReaderElsewhere(st, st', if h == r then ReaderNext(st, u, c) else st.readers[h]);
    }
  }

  lemma ReaderElsewhere(st: State, st': State, u: Reader)
    requires st' == st.(readers := st'.readers) && ReaderOk(st, u)
    ensures ReaderOk(st', u)
  {
  }

  lemma BoardAlike(st: State, st': State)
    requires KeysOk(st) && ValuesOk(st) && Shape(st') && st' == st.(readers := st'.readers)
    ensures KeysOk(st') && ValuesOk(st')
  {
    assert st'.ents == st.ents && st'.keepers == st.keepers && st'.dead == st.dead && st'.lock == st.lock;
    ValuesAlike(st, st, st');
    hide OpShape, EntryOk, WriteOk, CellsIn, RecordsOk;
    forall k: nat | Living(st', k) && InSection(st'.keepers[k]) ensures HolderOk(st', st'.keepers[k]) {
      assert HolderOk(st, st.keepers[k]);
    }
  }

  /** Death only takes keepers away. */
  lemma DeathKeepsInv(st: State, proc: nat)
    requires Inv(st) && proc != 0
    ensures Inv(st.(dead := st.dead + {proc}))
  {
    var st' := st.(dead := st.dead + {proc});
    assert st'.ents == st.ents && st'.keepers == st.keepers && st'.readers == st.readers;
    assert forall k: nat :: Living(st', k) ==> Living(st, k);
    ValuesAlike(st, st, st');
    hide OpShape, EntryOk, WriteOk, CellsIn, RecordsOk, HolderOk, ReaderOk;
    forall k: nat | Living(st', k) && InSection(st'.keepers[k]) ensures HolderOk(st', st'.keepers[k]) {
      assert HolderOk(st, st.keepers[k]);
      HolderAlike(st, st', st.keepers[k]);
    }
    forall h: nat | h < |st'.readers| ensures ReaderOk(st', st'.readers[h]) {
      assert ReaderOk(st, st.readers[h]);
      ReaderUndisturbed(st, st', st.readers[h]);
    }
  }

  lemma StepKeepsInv(st: State, step: Step, st': State)
    requires Inv(st) && Next(st, step, st')
    ensures Inv(st')
  {
    hide Inv, KeeperTo, ReaderTo;
    match step
    case KeeperStep(k, c) => KeeperKeepsInv(st, k, c);
    case ReaderStep(r, c) => ReaderKeepsInv(st, r, c);
    case Die(proc) => DeathKeepsInv(st, proc);
  }

  lemma InitInv(st: State)
    requires Init(st)
    ensures Inv(st)
  {
    hide OpShape;
    forall i: nat | i < |st.ents| ensures EntryOk(st.cfg, st.ents[i]) && !NeedsNorm(st.ents[i]) && !Published(st.ents[i]) {
      assert Blank(st.cfg, st.ents[i]);
    }
    forall i: nat | i < |st.ents| ensures CellsOk(st, i) && KeyKnown(st, i) { assert Blank(st.cfg, st.ents[i]); }
  }

  lemma {:induction false} RunKeepsInv(states: seq<State>, steps: seq<Step>, n: nat)
    requires Run(states, steps) && n <= |steps|
    ensures Inv(states[n])
  {
    hide Init, Inv, Next;
    if n == 0 {
      InitInv(states[0]);
    } else {
      RunKeepsInv(states, steps, n - 1);
      StepKeepsInv(states[n - 1], steps[n - 1], states[n]);
    }
  }

  // ----- the lock and the keys -----

  /** Of the living, one keeper at most is inside the board lock, and the lock names its process. */
  lemma OneLivingHolder(states: seq<State>, steps: seq<Step>, n: nat, k: nat, h: nat)
    requires Run(states, steps) && n <= |steps|
    requires Living(states[n], k) && InSection(states[n].keepers[k])
    ensures states[n].lock == Some(states[n].keepers[k].proc)
    ensures Living(states[n], h) && InSection(states[n].keepers[h]) ==> h == k
  {
    RunKeepsInv(states, steps, n);
  }

  /** A keeper between entries has the lock and has finished repairing. */
  predicate Settled(k: Keeper) { k.pc.KScan? || k.pc.KFind? || k.pc.KSweep? || k.pc.KUnlock? }

  ghost predicate Whole(st: State) {
    forall i: nat :: i < |st.ents| && st.ents[i].state != Free ==>
      st.ents[i].state == Active && st.ents[i].hash == st.cfg.Print(st.ents[i].key)
  }

  /**
  Whenever the lock is free, or its living holder has repaired the board and is not in the middle
  of changing an entry, every entry in use is Active, carries its key's fingerprint, and no two hold
  one key; wherever earlier holders died.
  */
  lemma KeysStayUnique(states: seq<State>, steps: seq<Step>, n: nat, k: nat)
    requires Run(states, steps) && n <= |steps|
    requires states[n].lock.None? || (Living(states[n], k) && Settled(states[n].keepers[k]))
    ensures Whole(states[n])
    ensures var st := states[n];
            forall i: nat, j: nat :: i < j < |st.ents| && st.ents[i].state == Active && st.ents[j].state == Active ==>
              !st.cfg.SameKey(st.ents[i].key, st.ents[j].key)
  {
    RunKeepsInv(states, steps, n);
    var st := states[n];
    if st.lock.Some? { assert HolderOk(st, st.keepers[k]); }
    hide ValuesOk, ReadersOk, Shape, Absent, HandlesOk, Apart, IssuesOk, TakingOk, Locked;
    forall i: nat | i < |st.ents| ensures !NeedsNorm(st.ents[i]) && EntryOk(st.cfg, st.ents[i]) {
    }
    forall i: nat, j: nat | i < j < |st.ents| && st.ents[i].state == Active && st.ents[j].state == Active
      ensures !st.cfg.SameKey(st.ents[i].key, st.ents[j].key)
    {
      assert !NeedsNorm(st.ents[i]) && !NeedsNorm(st.ents[j]);
      assert !Rivals(st.cfg, st.ents[i], st.ents[j]);
    }
  }

  /** Even in the middle of a repair no two entries a reader could match hold one key. */
  lemma PublishedKeysUnique(states: seq<State>, steps: seq<Step>, n: nat)
    requires Run(states, steps) && n <= |steps|
    ensures Unique(states[n])
    ensures forall i: nat :: i < |states[n].ents| && Published(states[n].ents[i]) ==>
              states[n].ents[i].hash == states[n].cfg.Print(states[n].ents[i].key)
  {
    RunKeepsInv(states, steps, n);
    forall i: nat | i < |states[n].ents| ensures EntryOk(states[n].cfg, states[n].ents[i]) {}
  }

  // ----- Writers -----

  /** A tenancy number is handed out once. */
  lemma TenancyIssuedOnce(st: State, k: nat, c: Choice)
    requires Inv(st) && KeeperReady(st, k, c) && KeeperDoes(st, k, c).acc.Issue?
    ensures var acc := KeeperDoes(st, k, c).acc; Tenure(acc.i, acc.ten) !in st.issued
  {
    hide ValuesOk, ReadersOk;
    KeeperKeepsKeys(st, k, c);
    hide KeysOk, KeeperDoes;
    NewNumber(st, k, KeeperDoes(st, k, c));
  }

  /** No two handles, of the living or the dead, could both pass write()'s check. */
  lemma OneHandlePasses(states: seq<State>, steps: seq<Step>, n: nat, k: nat, h: nat, i: nat)
    requires Run(states, steps) && n <= |steps| && k < |states[n].keepers| && h < |states[n].keepers|
    requires i < |states[n].ents|
    requires var st, u := states[n], states[n].keepers[k]; u.has && u.idx == i && u.ten == st.ents[i].tenancy
    requires var st, u := states[n], states[n].keepers[h]; u.has && u.idx == i && u.ten == st.ents[i].tenancy
    ensures k == h
  {
    RunKeepsInv(states, steps, n);
    var a, b := states[n].keepers[k], states[n].keepers[h];
    assert k < h ==> Distinct(a, b);
    assert h < k ==> Distinct(b, a);
  }

  /** A living Writer's claim stands: its entry is Active, its own, at its tenancy and its count. */
  lemma ClaimStands(states: seq<State>, steps: seq<Step>, n: nat, k: nat)
    requires Run(states, steps) && n <= |steps| && Living(states[n], k) && states[n].keepers[k].has
    ensures var st, u := states[n], states[n].keepers[k];
      && u.idx < |st.ents| && st.ents[u.idx].state == Active && st.ents[u.idx].tenancy == u.ten
      && st.ents[u.idx].owner == u.proc && st.ents[u.idx].publish / 2 == u.writes
  {
    RunKeepsInv(states, steps, n);
    assert HandleOk(states[n], states[n].keepers[k]);
  }

  // ----- continuity -----

  lemma AccessContinues(st: State, acc: Access, i: nat)
    requires Sized(st) && InRange(st.cfg, |st.ents|, acc) && Orderly(st, acc) && i < |st.ents|
    requires acc.Reset? && acc.i == i ==> st.ents[i].state == Claiming
    requires st.ents[i].state == Active
    ensures var e, e' := st.ents[i], Perform(st, acc).ents[i];
      && e'.publish >= e.publish && e'.epoch == e.epoch
      && e'.cells[(e.publish / 2) % CELLS_PER_KEY] == e.cells[(e.publish / 2) % CELLS_PER_KEY]
  {
    Counters(st, acc, i);
    if acc.PutWord? || acc.PutLen? || acc.PutStamp? { SpareCells(st, acc); }
    hide Perform, Stored;
  }

  lemma ResetWhileClaiming(st: State, k: nat, c: Choice)
    requires KeysOk(st) && KeeperReady(st, k, c) && KeeperDoes(st, k, c).acc.Reset?
    ensures st.ents[KeeperDoes(st, k, c).acc.i].state == Claiming
  {
    var w := st.keepers[k];
    KeeperKeepsKeys(st, k, c);
    assert InSection(w) && HolderOk(st, w);
    ResetPc(st, w, c);
  }

  lemma ResetPc(st: State, w: Keeper, c: Choice)
    requires Sized(st) && KeeperShape(st, w) && KeeperEnabled(st, w, c) && KeeperNext(st, w, c).acc.Reset?
    ensures w.pc == KClaim(CReset) && KeeperNext(st, w, c).acc.i == w.i
  {
    hide OpShape;
  }

  /**
  While an entry is Active, through release, takeover and the death of writers, its publish word
  never goes back, and no step touches the cell of the last completed value.
  */
  lemma ValueContinues(st: State, step: Step, st': State, i: nat)
    requires Inv(st) && Next(st, step, st') && i < |st.ents| && st.ents[i].state == Active
    ensures |st'.ents| == |st.ents| && Sized(st')
    ensures var e, e' := st.ents[i], st'.ents[i];
      && e'.publish >= e.publish && e'.epoch == e.epoch
      && e'.cells[(e.publish / 2) % CELLS_PER_KEY] == e.cells[(e.publish / 2) % CELLS_PER_KEY]
  {
    KeepsShape(st, step, st');
    if step.KeeperStep? {
      KeeperOrderly(st, step.k, step.c);
      if KeeperDoes(st, step.k, step.c).acc.Reset? { ResetWhileClaiming(st, step.k, step.c); }
      hide KeeperDoes, Inv, Shape, Orderly;
      AccessContinues(st, KeeperDoes(st, step.k, step.c).acc, i);
    }
  }

  /** In every reachable state, so after a death at any store, the last completed value is whole in its cell. */
  lemma LastValueStands(states: seq<State>, steps: seq<Step>, n: nat, i: nat)
    requires Run(states, steps) && n <= |steps| && i < |states[n].ents| && states[n].ents[i].publish >= 2
    ensures var st := states[n];
            var e, c := st.ents[i], st.ents[i].publish / 2;
            && Sized(st) && Write(i, e.epoch, c) in st.hist
            && Stored(st.cfg, e.cells[c % CELLS_PER_KEY], st.hist[Write(i, e.epoch, c)])
  {
    RunKeepsInv(states, steps, n);
    assert CellsOk(states[n], i);
  }

  // ----- reads -----

  /**
  What a read returned, at whatever point of the run it did, is the length, the stamp and the words
  of the one completed write it is numbered for; writes, takeovers, sweeps and re-claims of the
  entry by another key may have run between any two words copied.
  */
  lemma ReadsAreCoherent(states: seq<State>, steps: seq<Step>, n: nat, r: nat)
    requires Run(states, steps) && n <= |steps| && r < |states[n].readers| && states[n].readers[r].got.Some?
    ensures var o := states[n].readers[r].got.value; Fits(o.count) ==> Completed(states[n], o)
  {
    RunKeepsInv(states, steps, n);
    assert ReaderOk(states[n], states[n].readers[r]);
  }

  /** A board as its creator stamps it is where every run may start. */
  lemma StampedBoard(cfg: Config, capacity: nat, keepers: seq<Keeper>, readers: seq<Reader>) returns (st: State)
    requires cfg.Valid() && WordsFor(cfg.maxLen) <= cfg.cellWords
    requires forall k :: 0 <= k < |keepers| ==> keepers[k].pc.KIdle? && !keepers[k].has && keepers[k].proc != 0
    requires forall r :: 0 <= r < |readers| ==>
               readers[r].pc.RIdle? && !readers[r].hit && readers[r].got.None? && |readers[r].key| == cfg.keyWords
    ensures Init(st) && st.cfg == cfg && |st.ents| == capacity && st.keepers == keepers && st.readers == readers
  {
    var cell := Cell(seq(cfg.cellWords, _ => 0), 0, 0);
    var entry := Entry(Free, 0, 0, 0, 0, seq(cfg.keyWords, _ => 0), [cell, cell], 0, 0);
    st := State(cfg, None, seq(capacity, _ => entry), keepers, readers, {}, map[], map[], {});
  }
}
