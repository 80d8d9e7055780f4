/** A keeper left alone: the board lock and its repair, and the operations but declare. */
module BoardAlone {
  import opened BoardModel
  import opened BoardKeys

  /** `n` steps of keeper `k` lead from `st` to `end`. */
  ghost predicate Alone(st: State, k: nat, n: nat, end: State)
    decreases n
  {
    if n == 0 then end == st
    else KeeperReady(st, k, Choice.Go) && Alone(KeeperTo(st, k, Choice.Go), k, n - 1, end)
  }

  ghost predicate Leads(st: State, k: nat, end: State) { exists n :: Alone(st, k, n, end) }

  lemma AloneAtRest(st: State, k: nat, end: State)
    requires Alone(st, k, 0, end)
    ensures end == st
  {
  }

  lemma AloneHead(st: State, k: nat, n: nat, end: State) returns (next: State)
    requires n > 0 && Alone(st, k, n, end)
    ensures Alone(next, k, n - 1, end)
    ensures forall m: nat, last: State :: Alone(next, k, m, last) ==> Alone(st, k, m + 1, last)
  {
    next := KeeperTo(st, k, Choice.Go);
    hide KeeperReady, KeeperTo;
  }

  lemma {:induction false} AloneOn(st: State, k: nat, n: nat, mid: State, m: nat, end: State)
    requires Alone(st, k, n, mid) && Alone(mid, k, m, end)
    ensures Alone(st, k, n + m, end)
    decreases n
  {
    hide *;
    if n == 0 {
      AloneAtRest(st, k, mid);
    } else {
      var next := AloneHead(st, k, n, mid);
      AloneOn(next, k, n - 1, mid, m, end);
    }
  }

  lemma LeadsOn(st: State, k: nat, mid: State, end: State)
    requires Leads(st, k, mid) && Leads(mid, k, end)
    ensures Leads(st, k, end)
  {
    var n :| Alone(st, k, n, mid);
    var m :| Alone(mid, k, m, end);
    AloneOn(st, k, n, mid, m, end);
  }

  lemma LeadsNowhere(st: State, k: nat)
    ensures Leads(st, k, st)
  {
    assert Alone(st, k, 0, st);
  }

  lemma RunOn(states: seq<State>, steps: seq<Step>, k: nat, n: nat, end: State) returns (longer: seq<State>, more: seq<Step>)
    requires Run(states, steps) && n > 0 && Alone(states[|steps|], k, n, end)
    ensures |longer| == |more| + 1 && Run(longer, more) && |more| == |steps| + 1 && steps <= more
    ensures more[|steps|] == KeeperStep(k, Choice.Go) && Alone(longer[|more|], k, n - 1, end)
  {
    var st := states[|steps|];
    var st' := KeeperTo(st, k, Choice.Go);
    assert Next(st, KeeperStep(k, Choice.Go), st') && Alone(st', k, n - 1, end);
    hide Next, Init, KeeperReady, KeeperTo, Alone;
    longer, more := states + [st'], steps + [KeeperStep(k, Choice.Go)];
    forall i | 0 <= i < |more| ensures Next(longer[i], more[i], longer[i + 1]) {
      if i < |steps| { assert Next(states[i], steps[i], states[i + 1]); }
    }
  }

  /** What a keeper does alone is a continuation of any run that leads there. */
  lemma {:induction false} AloneRuns(states: seq<State>, steps: seq<Step>, k: nat, n: nat, end: State)
      returns (longer: seq<State>, more: seq<Step>)
    requires |states| == |steps| + 1 && Run(states, steps) && Alone(states[|steps|], k, n, end)
    ensures |longer| == |more| + 1 && Run(longer, more) && longer[|more|] == end && steps <= more
    ensures forall i :: |steps| <= i < |more| ==> more[i] == KeeperStep(k, Choice.Go)
    decreases n
  {
    hide *;
    if n == 0 {
      AloneAtRest(states[|steps|], k, end);
      longer, more := states, steps;
    } else {
      longer, more := RunOn(states, steps, k, n, end);
      longer, more := AloneRuns(longer, more, k, n - 1, end);
    }
  }

  lemma StepsTo(st: State, k: nat, end: State) returns (n: nat)
    requires Leads(st, k, end)
    ensures Alone(st, k, n, end)
  {
    n :| Alone(st, k, n, end);
  }

  // ----- single steps -----

  /** Keeper `k` is alive in the middle of an operation. */
  ghost predicate Here(st: State, k: nat, u: Keeper) {
    && Shape(st) && Sized(st) && k < |st.keepers| && st.keepers[k] == u && KeeperShape(st, u)
    && u.proc !in st.dead && !u.pc.KIdle?
  }

  /** Keeper `k` becomes `v`. */
  function With(st: State, k: nat, v: Keeper): State
    requires k < |st.keepers|
  {
    st.(keepers := st.keepers[k := v])
  }

  lemma Acts(st: State, k: nat, u: Keeper, v: Keeper, acc: Access) returns (end: State)
    requires Here(st, k, u) && KeeperEnabled(st, u, Choice.Go) && KeeperNext(st, u, Choice.Go) == KeeperMove(v, acc)
    ensures InRange(st.cfg, |st.ents|, acc) && Leads(st, k, end) && (v.pc.KIdle? || Here(end, k, v)) && Shape(end) && Sized(end)
    ensures end == With(Perform(st, acc), k, v) && k < |Perform(st, acc).keepers|
  {
    assert KeeperReady(st, k, Choice.Go) && KeeperDoes(st, k, Choice.Go) == KeeperMove(v, acc);
    end := KeeperTo(st, k, Choice.Go);
    KeeperKeepsShape(st, k, Choice.Go);
    KeeperShapeMove(st, u, Choice.Go);
    assert Alone(end, k, 0, end);
    assert Alone(st, k, 1, end);
    AccessKeepsShape(st, acc);
    hide Perform, KeeperNext, Alone;
  }

  /** A step that only looks. */
  lemma Looks(st: State, k: nat, u: Keeper, v: Keeper) returns (end: State)
    requires Here(st, k, u) && KeeperEnabled(st, u, Choice.Go) && KeeperNext(st, u, Choice.Go) == KeeperMove(v, Load)
    ensures Leads(st, k, end) && end == With(st, k, v) && (v.pc.KIdle? || Here(end, k, v)) && Shape(end) && Sized(end)
  {
    hide KeeperNext, Shape, Leads, KeeperShape;
    end := Acts(st, k, u, v, Load);
  }

  /** What a keeper's operation leaves alone. */
  ghost predicate Aside(st: State, end: State, k: nat) {
    && end.cfg == st.cfg && end.readers == st.readers && end.dead == st.dead && |end.ents| == |st.ents|
    && k < |st.keepers| == |end.keepers| && end.keepers == st.keepers[k := end.keepers[k]]
  }

  /** The holder is done. */
  lemma Unlocks(st: State, k: nat, u: Keeper) returns (end: State)
    requires Here(st, k, u) && u.pc == KUnlock
    ensures Leads(st, k, end) && Shape(end) && end == With(st, k, u.(pc := KIdle)).(lock := None)
  {
    hide Shape, Leads;
    end := Acts(st, k, u, u.(pc := KIdle), PutLock(None));
  }

  // ----- sweep_locked -----

  predicate DeadOwned(st: State, e: Entry) { e.owner != 0 && e.owner in st.dead }

  /** A swept entry: nobody's handle or cached resolution fits it any more. */
  function Freed(e: Entry): Entry { e.(tenancy := e.tenancy + 1, hash := 0, owner := 0, state := Free) }

  /** The board after a sweep from entry `i` on. */
  ghost predicate SweptFrom(st: State, end: State, i: nat) {
    && |end.ents| == |st.ents|
    && forall j :: 0 <= j < |st.ents| ==>
         end.ents[j] == if j >= i && DeadOwned(st, st.ents[j]) then Freed(st.ents[j]) else st.ents[j]
  }

  /** How many entries from `i` on a sweep frees. */
  function SweepCount(st: State, i: nat): nat
    decreases |st.ents| - i
  {
    if i >= |st.ents| then 0 else (if DeadOwned(st, st.ents[i]) then 1 else 0) + SweepCount(st, i + 1)
  }

  ghost predicate Tidy(st: State) { forall j :: 0 <= j < |st.ents| ==> !NeedsNorm(st.ents[j]) }

  lemma SweepsOne(st: State, k: nat, u: Keeper) returns (end: State)
    requires Here(st, k, u) && u.pc == KSweep && u.i < |st.ents| && !NeedsNorm(st.ents[u.i])
    ensures var e := st.ents[u.i];
            var dead := DeadOwned(st, e);
            var v := u.(i := u.i + 1, count := if dead then u.count + 1 else u.count);
      && Leads(st, k, end) && Here(end, k, v) && Aside(st, end, k) && end.lock == st.lock
      && end.ents == if dead then st.ents[u.i := Freed(e)] else st.ents
  {
    var e := st.ents[u.i];
    if DeadOwned(st, e) {
      end := Frees(st, k, u);
    } else {
      hide Shape, Leads;
      end := Looks(st, k, u, u.(i := u.i + 1));
    }
  }

  lemma Frees(st: State, k: nat, u: Keeper) returns (end: State)
    requires Here(st, k, u) && u.pc == KSweep && u.i < |st.ents| && !NeedsNorm(st.ents[u.i]) && DeadOwned(st, st.ents[u.i])
    ensures Leads(st, k, end) && Here(end, k, u.(i := u.i + 1, count := u.count + 1)) && Aside(st, end, k) && end.lock == st.lock
    ensures end.ents == st.ents[u.i := Freed(st.ents[u.i])]
  {
    hide Shape, Leads, KeeperShape;
    var a := Looks(st, k, u, u.(pc := KSw(STenancy)));
    var b := Acts(a, k, u.(pc := KSw(STenancy)), u.(pc := KSw(SHash)), Bump(u.i));
    end := FreesRest(b, k, u.(pc := KSw(SHash)));
    LeadsOn(st, k, a, b);
    LeadsOn(st, k, b, end);
  }

  lemma FreesRest(st: State, k: nat, u: Keeper) returns (end: State)
    requires Here(st, k, u) && u.pc == KSw(SHash) && u.i < |st.ents|
    ensures Leads(st, k, end) && Here(end, k, u.(pc := KSweep, i := u.i + 1, count := u.count + 1)) && Aside(st, end, k)
    ensures end.lock == st.lock && end.ents == st.ents[u.i := st.ents[u.i].(hash := 0, owner := 0, state := Free)]
  {
    var d := FreesIdentity(st, k, u);
    hide Shape, Leads, KeeperShape;
    end := Acts(d, k, u.(pc := KSw(SState)), u.(pc := KSweep, i := u.i + 1, count := u.count + 1), PutState(u.i, Free));
    LeadsOn(st, k, d, end);
  }

  lemma FreesIdentity(st: State, k: nat, u: Keeper) returns (end: State)
    requires Here(st, k, u) && u.pc == KSw(SHash) && u.i < |st.ents|
    ensures Leads(st, k, end) && Here(end, k, u.(pc := KSw(SState))) && Aside(st, end, k)
    ensures end.lock == st.lock && end.ents == st.ents[u.i := st.ents[u.i].(hash := 0, owner := 0)]
  {
    hide Shape, Leads, KeeperShape;
    var c := Acts(st, k, u, u.(pc := KSw(SOwner)), PutHash(u.i, 0));
    end := Acts(c, k, u.(pc := KSw(SOwner)), u.(pc := KSw(SState)), PutOwner(u.i, 0));
    LeadsOn(st, k, c, end);
  }

  /** A sweep's state at its end, for an operation that counts `count` freed entries. */
  function SweepDone(u: Keeper, n: nat, count: nat): Keeper {
    if u.op.DeclareOp? && count > 0 then u.(pc := KFind, i := 0, count := count) else u.(pc := KUnlock, i := n, count := count)
  }

  /** A sweep to the end of a board without residue frees exactly the entries of dead owners. */
  lemma {:induction false} Sweeps(st: State, k: nat, u: Keeper) returns (end: State)
    requires Here(st, k, u) && u.pc == KSweep && u.i <= |st.ents| && Tidy(st)
    ensures Leads(st, k, end) && Aside(st, end, k) && end.lock == st.lock && SweptFrom(st, end, u.i) && Tidy(end)
    ensures Here(end, k, SweepDone(u, |st.ents|, u.count + SweepCount(st, u.i)))
    decreases |st.ents| - u.i
  {
    hide *;
    if u.i == |st.ents| {
      end := SweepEnds(st, k, u);
    } else {
      TidyAt(st, u.i);
      var mid := SweepsOne(st, k, u);
      var v := u.(i := u.i + 1, count := if DeadOwned(st, st.ents[u.i]) then u.count + 1 else u.count);
      SweptOne(st, mid, u.i, k);
      end := Sweeps(mid, k, v);
      LeadsOn(st, k, mid, end);
      SweptOn(st, mid, end, u.i, k);
      SameDone(u, v, |st.ents|, v.count + SweepCount(mid, v.i));
    }
  }

  lemma SameDone(u: Keeper, v: Keeper, n: nat, count: nat)
    requires v == u.(i := v.i, count := v.count)
    ensures SweepDone(v, n, count) == SweepDone(u, n, count)
  {
  }

  lemma TidyAt(st: State, i: nat)
    requires Tidy(st) && i < |st.ents|
    ensures !NeedsNorm(st.ents[i])
  {
  }

  lemma SweepEnds(st: State, k: nat, u: Keeper) returns (end: State)
    requires Here(st, k, u) && u.pc == KSweep && u.i == |st.ents| && Tidy(st)
    ensures Leads(st, k, end) && Aside(st, end, k) && end.lock == st.lock && SweptFrom(st, end, u.i) && Tidy(end)
    ensures Here(end, k, SweepDone(u, |st.ents|, u.count + SweepCount(st, u.i)))
  {
    hide Shape, Leads, KeeperShape, NeedsNorm;
    end := Looks(st, k, u, SweepDone(u, |st.ents|, u.count));
  }

  lemma SweptOne(st: State, mid: State, i: nat, k: nat)
    requires i < |st.ents| && Tidy(st) && Aside(st, mid, k)
    requires mid.ents == if DeadOwned(st, st.ents[i]) then st.ents[i := Freed(st.ents[i])] else st.ents
    ensures Tidy(mid) && |mid.ents| == |st.ents|
  {
  }

  lemma SweptOn(st: State, mid: State, end: State, i: nat, k: nat)
    requires i < |st.ents| == |mid.ents| && Aside(st, mid, k) && Aside(mid, end, k) && SweptFrom(mid, end, i + 1)
    requires mid.ents == if DeadOwned(st, st.ents[i]) then st.ents[i := Freed(st.ents[i])] else st.ents
    ensures Aside(st, end, k) && SweptFrom(st, end, i)
    ensures SweepCount(st, i) == (if DeadOwned(st, st.ents[i]) then 1 else 0) + SweepCount(mid, i + 1)
  {
    CountOn(st, mid, i);
    hide NeedsNorm;
  }

  lemma {:induction false} CountSame(st: State, mid: State, i: nat)
    requires |mid.ents| == |st.ents| && mid.dead == st.dead && forall j :: i <= j < |st.ents| ==> mid.ents[j] == st.ents[j]
    ensures SweepCount(mid, i) == SweepCount(st, i)
    decreases |st.ents| - i
  {
    if i < |st.ents| { CountSame(st, mid, i + 1); }
  }

  lemma CountOn(st: State, mid: State, i: nat)
    requires i < |st.ents| == |mid.ents| && mid.dead == st.dead && forall j :: i < j < |st.ents| ==> mid.ents[j] == st.ents[j]
    ensures SweepCount(st, i) == (if DeadOwned(st, st.ents[i]) then 1 else 0) + SweepCount(mid, i + 1)
  {
    CountSame(st, mid, i + 1);
  }

  // ----- the board lock -----

  /** What repair makes of an entry. */
  function Mended(e: Entry): Entry { if NeedsNorm(e) then e.(hash := 0, owner := 0, state := Free) else e }

  ghost predicate MendedFrom(st: State, end: State, i: nat) {
    && |end.ents| == |st.ents|
    && forall j :: 0 <= j < |st.ents| ==> end.ents[j] == if j >= i then Mended(st.ents[j]) else st.ents[j]
  }

  lemma Normalizes(st: State, k: nat, u: Keeper) returns (end: State)
    requires Here(st, k, u) && u.pc == KNorm(NHash) && u.i < |st.ents| && !u.inSweep && u.finish == (st.ents[u.i].state != Free)
    ensures Leads(st, k, end) && Here(end, k, u.(pc := KRepair, i := u.i + 1)) && Aside(st, end, k) && end.lock == st.lock
    ensures end.ents == st.ents[u.i := st.ents[u.i].(hash := 0, owner := 0, state := Free)]
  {
    hide Shape, Leads, KeeperShape, NeedsNorm;
    var b := Acts(st, k, u, u.(pc := KNorm(NOwner)), PutHash(u.i, 0));
    if u.finish {
      end := NormalizesState(b, k, u.(pc := KNorm(NOwner)));
      LeadsOn(st, k, b, end);
    } else {
      end := Acts(b, k, u.(pc := KNorm(NOwner)), u.(pc := KRepair, i := u.i + 1), PutOwner(u.i, 0));
      LeadsOn(st, k, b, end);
    }
  }

  lemma NormalizesState(st: State, k: nat, u: Keeper) returns (end: State)
    requires Here(st, k, u) && u.pc == KNorm(NOwner) && u.i < |st.ents| && !u.inSweep && u.finish
    ensures Leads(st, k, end) && Here(end, k, u.(pc := KRepair, i := u.i + 1)) && Aside(st, end, k) && end.lock == st.lock
    ensures end.ents == st.ents[u.i := st.ents[u.i].(owner := 0, state := Free)]
  {
    hide Shape, Leads, KeeperShape, NeedsNorm;
    var b := Acts(st, k, u, u.(pc := KNorm(NState)), PutOwner(u.i, 0));
    end := Acts(b, k, u.(pc := KNorm(NState)), u.(pc := KRepair, i := u.i + 1), PutState(u.i, Free));
    LeadsOn(st, k, b, end);
  }

  /** A repairer's state at entry `i`. */
  predicate Repairing(u: Keeper, v: Keeper, i: nat) {
    v.pc == KRepair && v.i == i && !v.inSweep && v == u.(pc := v.pc, i := v.i, finish := v.finish, inSweep := v.inSweep)
  }

  lemma MendsOne(st: State, k: nat, u: Keeper) returns (end: State, v: Keeper)
    requires Here(st, k, u) && u.pc == KRepair && u.i < |st.ents| && !u.inSweep
    ensures Leads(st, k, end) && Here(end, k, v) && Repairing(u, v, u.i + 1) && Aside(st, end, k) && end.lock == st.lock
    ensures end.ents == st.ents[u.i := Mended(st.ents[u.i])]
  {
    var e := st.ents[u.i];
    if NeedsNorm(e) {
      v := u.(pc := KRepair, i := u.i + 1, finish := e.state != Free, inSweep := false);
      end := Residue(st, k, u);
    } else {
      v := u.(i := u.i + 1);
      hide Shape, Leads;
      end := Looks(st, k, u, v);
    }
  }

  lemma Residue(st: State, k: nat, u: Keeper) returns (end: State)
    requires Here(st, k, u) && u.pc == KRepair && u.i < |st.ents| && !u.inSweep && NeedsNorm(st.ents[u.i])
    ensures Leads(st, k, end) && Aside(st, end, k) && end.lock == st.lock
    ensures Here(end, k, u.(pc := KRepair, i := u.i + 1, finish := st.ents[u.i].state != Free, inSweep := false))
    ensures end.ents == st.ents[u.i := st.ents[u.i].(hash := 0, owner := 0, state := Free)]
  {
    hide Shape, Leads, KeeperShape;
    var a := Looks(st, k, u, ToNorm(u, st.ents[u.i], false));
    end := Normalizes(a, k, ToNorm(u, st.ents[u.i], false));
    LeadsOn(st, k, a, end);
  }

  /** Repair leaves every entry as it was or Free, and goes on to the operation. */
  lemma {:induction false} Repairs(st: State, k: nat, u: Keeper) returns (end: State, v: Keeper)
    requires Here(st, k, u) && u.pc == KRepair && u.i <= |st.ents| && !u.inSweep
    ensures Leads(st, k, end) && Here(end, k, Start(v)) && Repairing(u, v, |st.ents|) && Aside(st, end, k) && end.lock == st.lock
    ensures MendedFrom(st, end, u.i)
    decreases |st.ents| - u.i
  {
    hide *;
    if u.i == |st.ents| {
      v := u;
      end := RepairEnds(st, k, u);
    } else {
      var mid, w := MendsOne(st, k, u);
      RepairingAt(u, w, u.i + 1);
      SameSize(st, mid, k);
      end, v := Repairs(mid, k, w);
      RepairingOn(u, w, v, u.i + 1, |st.ents|);
      LeadsOn(st, k, mid, end);
      MendedOn(st, mid, end, u.i, k);
    }
  }

  lemma SameSize(st: State, mid: State, k: nat)
    requires Aside(st, mid, k)
    ensures |mid.ents| == |st.ents|
  {
  }

  lemma RepairingAt(u: Keeper, w: Keeper, i: nat)
    requires Repairing(u, w, i)
    ensures w.pc == KRepair && w.i == i && !w.inSweep
  {
  }

  lemma RepairingOn(u: Keeper, w: Keeper, v: Keeper, i: nat, j: nat)
    requires Repairing(u, w, i) && Repairing(w, v, j)
    ensures Repairing(u, v, j)
  {
  }

  lemma RepairEnds(st: State, k: nat, u: Keeper) returns (end: State)
    requires Here(st, k, u) && u.pc == KRepair && u.i == |st.ents| && !u.inSweep
    ensures Leads(st, k, end) && Here(end, k, Start(u)) && Repairing(u, u, |st.ents|) && Aside(st, end, k) && end.lock == st.lock
    ensures MendedFrom(st, end, u.i)
  {
    hide Shape, Leads, KeeperShape;
    end := Looks(st, k, u, Start(u));
  }

  lemma MendedOn(st: State, mid: State, end: State, i: nat, k: nat)
    requires i < |st.ents| && Aside(st, mid, k) && Aside(mid, end, k) && MendedFrom(mid, end, i + 1)
    requires mid.ents == st.ents[i := Mended(st.ents[i])]
    ensures Aside(st, end, k) && MendedFrom(st, end, i)
  {
    hide Mended;
  }

  /** The operation `u` was waiting to start, with the lock. */
  predicate Begun(u: Keeper, v: Keeper) {
    && v == Start(v) && v.op == u.op && v.proc == u.proc && v.key == u.key
    && v.has == u.has && v.idx == u.idx && v.ten == u.ten && v.writes == u.writes
  }

  /**
  A keeper that finds the lock free, or held by the dead, and is left alone takes it, repairs what a
  dead holder left, and starts its operation on a board without residue.
  */
  lemma TakesTheLock(st: State, k: nat, u: Keeper) returns (end: State, v: Keeper)
    requires Here(st, k, u) && u.pc == KLoad && (st.lock.None? || st.lock.value in st.dead) && (st.lock.None? ==> Tidy(st))
    ensures Leads(st, k, end) && Here(end, k, v) && Begun(u, v) && Aside(st, end, k) && end.lock == Some(u.proc)
    ensures MendedFrom(st, end, 0) && Tidy(end)
  {
    hide Shape, Leads, KeeperShape, NeedsNorm, Mended;
    if st.lock.None? {
      end, v := TakesFreeLock(st, k, u);
      TidyMended(st);
    } else {
      var w := u.(pc := KRepair, seen := st.lock, i := 0, inSweep := false);
      var b := TakesDeadLock(st, k, u);
      end, v := RepairsFirst(b, k, w);
      LeadsOn(st, k, b, end);
    }
  }

  lemma TakesFreeLock(st: State, k: nat, u: Keeper) returns (end: State, v: Keeper)
    requires Here(st, k, u) && u.pc == KLoad && st.lock.None?
    ensures Leads(st, k, end) && Here(end, k, v) && Begun(u, v) && Aside(st, end, k) && end.lock == Some(u.proc) && end.ents == st.ents
  {
    hide Shape, Leads, KeeperShape;
    var a := Looks(st, k, u, u.(pc := KCas, seen := st.lock));
    v := Start(u.(pc := KCas, seen := st.lock));
    end := Acts(a, k, u.(pc := KCas, seen := st.lock), v, PutLock(Some(u.proc)));
    LeadsOn(st, k, a, end);
  }

  lemma TakesDeadLock(st: State, k: nat, u: Keeper) returns (end: State)
    requires Here(st, k, u) && u.pc == KLoad && st.lock.Some? && st.lock.value in st.dead
    ensures Leads(st, k, end) && Here(end, k, u.(pc := KRepair, seen := st.lock, i := 0, inSweep := false))
    ensures Aside(st, end, k) && end.lock == Some(u.proc) && end.ents == st.ents
  {
    hide Shape, Leads, KeeperShape;
    var a := Looks(st, k, u, u.(pc := KCas, seen := st.lock));
    end := Acts(a, k, u.(pc := KCas, seen := st.lock), u.(pc := KRepair, seen := st.lock, i := 0, inSweep := false),
                PutLock(Some(u.proc)));
    LeadsOn(st, k, a, end);
  }

  lemma RepairsFirst(st: State, k: nat, u: Keeper) returns (end: State, v: Keeper)
    requires Here(st, k, u) && u.pc == KRepair && u.i == 0 && !u.inSweep
    ensures Leads(st, k, end) && Here(end, k, v) && Begun(u, v) && Aside(st, end, k) && end.lock == st.lock
    ensures MendedFrom(st, end, 0) && Tidy(end)
  {
    hide Shape, Leads, KeeperShape, Here;
    end, v := Repairs(st, k, u);
    v := Start(v);
    MendedTidy(st, end);
    hide MendedFrom, Tidy;
  }

  lemma TidyMended(st: State)
    requires Tidy(st)
    ensures forall j :: 0 <= j < |st.ents| ==> Mended(st.ents[j]) == st.ents[j]
  {
  }

  lemma MendedTidy(st: State, end: State)
    requires MendedFrom(st, end, 0)
    ensures Tidy(end)
  {
  }

  // ----- release -----

  /** The Writer still has its entry. */
  predicate Mine(st: State, u: Keeper)
    requires u.i < |st.ents|
  {
    st.ents[u.i].state == Active && st.ents[u.i].tenancy == u.ten
  }

  /** Writer::release() of an entry the Writer still has: unowned, Active, at a tenancy no handle fits. */
  lemma Releases(st: State, k: nat, u: Keeper) returns (end: State)
    requires Here(st, k, u) && u.pc == KRel(LCheck) && u.i < |st.ents|
    ensures Leads(st, k, end) && Aside(st, end, k) && end.lock == None && end.keepers[k] == u.(pc := KIdle, has := false)
    ensures var e := st.ents[u.i];
            end.ents == if Mine(st, u) then st.ents[u.i := e.(owner := 0, tenancy := e.tenancy + 1)] else st.ents
  {
    hide Shape, Leads, KeeperShape;
    var b := LetsGo(st, k, u);
    end := Unlocks(b, k, u.(pc := KUnlock, has := false));
    LeadsOn(st, k, b, end);
  }

  lemma LetsGo(st: State, k: nat, u: Keeper) returns (end: State)
    requires Here(st, k, u) && u.pc == KRel(LCheck) && u.i < |st.ents|
    ensures Leads(st, k, end) && Here(end, k, u.(pc := KUnlock, has := false)) && Aside(st, end, k) && end.lock == st.lock
    ensures var e := st.ents[u.i];
            end.ents == if Mine(st, u) then st.ents[u.i := e.(owner := 0, tenancy := e.tenancy + 1)] else st.ents
  {
    hide Shape, Leads, KeeperShape;
    if Mine(st, u) {
      var a := Looks(st, k, u, u.(pc := KRel(LOwner)));
      end := GivesUp(a, k, u.(pc := KRel(LOwner)));
      LeadsOn(st, k, a, end);
    } else {
      end := Looks(st, k, u, u.(pc := KUnlock, has := false));
    }
  }

  lemma GivesUp(st: State, k: nat, u: Keeper) returns (end: State)
    requires Here(st, k, u) && u.pc == KRel(LOwner) && u.i < |st.ents|
    ensures Leads(st, k, end) && Here(end, k, u.(pc := KUnlock, has := false)) && Aside(st, end, k) && end.lock == st.lock
    ensures end.ents == st.ents[u.i := st.ents[u.i].(owner := 0, tenancy := st.ents[u.i].tenancy + 1)]
  {
    hide Shape, Leads, KeeperShape;
    var a := Acts(st, k, u, u.(pc := KRel(LTenancy), has := false), PutOwner(u.i, 0));
    end := Acts(a, k, u.(pc := KRel(LTenancy), has := false), u.(pc := KUnlock, has := false), Bump(u.i));
    LeadsOn(st, k, a, end);
  }
}
