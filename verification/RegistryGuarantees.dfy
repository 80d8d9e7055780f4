/** What the registry promises, stated on runs, and where its snapshot promises more than it keeps. */
module RegistryGuarantees {
  import opened RegistryModel
  import opened RegistryRows

  /** An odd generation has exactly one holder, an owner or a sweeper, and a settled one has none. */
  lemma OddHasOneHolder(states: seq<State>, steps: seq<Step>, n: nat)
    requires Run(states, steps) && n <= |steps|
    ensures var st := states[n];
      && (forall k: nat, h: nat :: k < |st.owners| && h < |st.owners| && OwnerOdd(st.owners[k]) && OwnerOdd(st.owners[h]) ==>
            k == h)
      && (forall k: nat, m: nat :: k < |st.sweeps| && m < |st.sweeps| && SweepOdd(st.sweeps[k]) && SweepOdd(st.sweeps[m]) ==>
            k == m)
      && (forall k: nat, m: nat :: k < |st.owners| && m < |st.sweeps| ==>
            !(OwnerOdd(st.owners[k]) && SweepOdd(st.sweeps[m])))
      && (st.row.gen % 2 == 1 <==>
            || (exists k: nat :: k < |st.owners| && OwnerOdd(st.owners[k]))
            || (exists m: nat :: m < |st.sweeps| && SweepOdd(st.sweeps[m])))
  {
    RunKeepsInv(states, steps, n);
    var st := states[n];
    assert HolderOk(st);
    if st.row.gen % 2 == 1 {
      match st.row.holder
      case Owner(k) => assert OwnerOdd(st.owners[k]);
      case Sweeper(m) => assert SweepOdd(st.sweeps[m]);
    }
  }

  /** The registration of a living owner stands until it deregisters, whatever sweeps run. */
  lemma RegistrationStands(states: seq<State>, steps: seq<Step>, n: nat, k: nat)
    requires Run(states, steps) && n <= |steps| && k < |states[n].owners|
    requires states[n].owners[k].pc.OHeld? && states[n].owners[k].rec.who !in states[n].dead
    ensures states[n].row.state == Active && Published(states[n].row, states[n].owners[k].rec)
  {
    RunKeepsInv(states, steps, n);
    assert HolderOk(states[n]);
  }

  /** A sweep that changes a row retires a registration whose process is dead. */
  lemma SweepsRetireTheDead(states: seq<State>, steps: seq<Step>, n: nat, m: nat)
    requires Run(states, steps) && n < |steps| && steps[n] == SweeperStep(m) && m < |states[n].sweeps|
    requires states[n + 1].row != states[n].row && !Sweeping(states[n].sweeps[m])
    ensures var st := states[n];
      && st.row.holder.Owner? && st.row.holder.k < |st.owners|
      && st.owners[st.row.holder.k].rec.who in st.dead
      && Published(st.row, st.owners[st.row.holder.k].rec)
      && states[n + 1].row == st.row.(gen := st.row.gen + 1, holder := Sweeper(m))
  {
    RunKeepsInv(states, steps, n);
    var st, s := states[n], states[n].sweeps[m];
    assert Next(st, steps[n], states[n + 1]);
    SweeperLooks(st.row, m, s, st.dead);
    AcquiresFromTheDead(st, m);
  }

  ghost predicate Registered(row: Row, rec: Record) { exists g :: g in row.regs && row.regs[g] == rec }

  /** A row that a snapshot returns is the whole of one registration exactly when its pid is not 0. */
  lemma SnapshotWholeUnlessRetired(states: seq<State>, steps: seq<Step>, n: nat, h: nat)
    requires Run(states, steps) && n <= |steps| && h < |states[n].shots| && states[n].shots[h].out.Some?
    ensures Registered(states[n].row, states[n].shots[h].out.value) <==> states[n].shots[h].out.value.who.pid != 0
  {
    RunKeepsInv(states, steps, n);
    assert OutOk(states[n].row, states[n].shots[h]);
  }

  // ----- a run that returns a retired row -----

  ghost predicate Reachable(st: State) {
    exists states, steps :: Run(states, steps) && states[|steps|] == st
  }

  lemma Reach(st: State, step: Step, st': State)
    requires Reachable(st) && Next(st, step, st')
    ensures Reachable(st')
  {
    var states, steps :| Run(states, steps) && states[|steps|] == st;
    var states', steps' := states + [st'], steps + [step];
    hide Next, Init;
    forall n | 0 <= n < |steps'| ensures Next(states'[n], steps'[n], states'[n + 1]) {
      if n < |steps| { assert Next(states[n], steps[n], states[n + 1]); }
    }
    assert Run(states', steps');
  }

  /** One owner and one snapshot, of rows with no descriptive words; nobody dies. */
  ghost predicate Pair(st: State) {
    Reachable(st) && st.width == 0 && st.row.desc == [] && |st.owners| == 1 && |st.shots| == 1 && st.dead == {}
  }

  const WHO: Ident := Ident(7, 1)

  function Turn(st: State): State
    requires |st.owners| == 1
  {
    var mv := OwnStep(st.width, st.row, 0, st.owners[0], Record(WHO, []));
    st.(row := mv.row, owners := [mv.o])
  }

  function Look(st: State): State
    requires |st.shots| == 1
  {
    st.(shots := [ShotStep(st.row, st.shots[0])])
  }

  lemma Turns(st: State)
    requires Pair(st)
    ensures Reachable(Turn(st))
  {
    assert Next(st, OwnerStep(0, Record(WHO, [])), Turn(st)) by { hide Reachable; }
    Reach(st, OwnerStep(0, Record(WHO, [])), Turn(st));
  }

  lemma Looks(st: State)
    requires Pair(st)
    ensures Reachable(Look(st))
  {
    assert Next(st, SnapStep(0), Look(st)) by { hide Reachable; }
    Reach(st, SnapStep(0), Look(st));
  }

  /** From a free row to the registration in force; its state turns Active before its generation settles. */
  lemma Registers(st: State) returns (act: State, end: State)
    requires Pair(st) && st.owners[0].pc == OIdle && st.row.state == Free && st.row.gen % 2 == 0
    ensures Pair(act) && act.shots == st.shots && act.row.state == Active
    ensures Pair(end) && end.shots == st.shots && end.row.state == Active && end.row.gen == st.row.gen + 2
    ensures end.owners[0].pc == OHeld
  {
    hide Reachable;
    var s := Turn(st); Turns(st); assert Pair(s) && s.owners[0].pc == OOpenLoad;
    var s2 := Turn(s); Turns(s); assert Pair(s2) && s2.owners[0].pc == OOpenStore;
    var s3 := Turn(s2); Turns(s2); assert Pair(s3) && s3.owners[0].pc == OStart;
    var s4 := Turn(s3); Turns(s3); assert Pair(s4) && s4.owners[0].pc == OPid;
    var s5 := Turn(s4); Turns(s4); assert Pair(s5) && s5.owners[0].pc == ODesc && s5.row.gen == st.row.gen + 1;
    var s6 := Turn(s5); Turns(s5); assert Pair(s6) && s6.owners[0].pc == OActive;
    act := Turn(s6); Turns(s6); assert Pair(act) && act.owners[0].pc == OSettleLoad;
    var s8 := Turn(act); Turns(act); assert Pair(s8) && s8.owners[0].pc == OSettleStore;
    end := Turn(s8); Turns(s8);
  }

  /** From the registration in force to its row held for retirement. */
  lemma Withdraws(st: State) returns (end: State)
    requires Pair(st) && st.owners[0].pc == OHeld && st.row.state == Active && st.row.gen % 2 == 0
    ensures Pair(end) && end.shots == st.shots && end.owners[0].pc == DPid && end.row.state == Reclaiming
    ensures end.row.gen == st.row.gen + 1
  {
    hide Reachable;
    var s := Turn(st); Turns(st); assert Pair(s) && s.owners[0].pc == DCas;
    var s2 := Turn(s); Turns(s); assert Pair(s2) && s2.owners[0].pc == DOpenLoad;
    var s3 := Turn(s2); Turns(s2); assert Pair(s3) && s3.owners[0].pc == DOpenStore;
    end := Turn(s3); Turns(s3);
  }

  /** From there to a vacant settled generation, not yet Free. */
  lemma Clears(st: State) returns (end: State)
    requires Pair(st) && st.owners[0].pc == DPid && st.row.state == Reclaiming && st.row.gen % 2 == 1
    ensures Pair(end) && end.shots == st.shots && end.owners[0].pc == DFree && end.row.state == Reclaiming
    ensures end.row.pid == 0 && end.row.gen == st.row.gen + 1
  {
    hide Reachable;
    var s := Turn(st); Turns(st); assert Pair(s) && s.owners[0].pc == DStart;
    var s2 := Turn(s); Turns(s); assert Pair(s2) && s2.owners[0].pc == DSettleLoad;
    var s3 := Turn(s2); Turns(s2); assert Pair(s3) && s3.owners[0].pc == DSettleStore;
    end := Turn(s3); Turns(s3);
  }

  /** The fields and both generation reads of a snapshot that found the state Active earlier. */
  lemma Copies(st: State) returns (end: State)
    requires Pair(st) && st.shots[0].pc == HGen && st.row.gen % 2 == 0
    ensures Pair(end) && end == st.(shots := end.shots) && end.shots[0].pc == HState2 && end.shots[0].pid == st.row.pid
  {
    hide Reachable;
    var s := Look(st); Looks(st); assert Pair(s) && s.shots[0].pc == HPid;
    var s2 := Look(s); Looks(s); assert Pair(s2) && s2.shots[0].pc == HStart;
    var s3 := Look(s2); Looks(s2); assert Pair(s3) && s3.shots[0].pc == HDesc;
    var s4 := Look(s3); Looks(s3); assert Pair(s4) && s4.shots[0].pc == HGen2;
    end := Look(s4); Looks(s4);
  }

  lemma Starts() returns (st: State)
    ensures Pair(st) && st.owners[0].pc == OIdle && st.shots[0].pc == HIdle && st.row.state == Free && st.row.gen == 0
  {
    st := State(0, Row(Free, 0, 0, 0, [], Nobody, map[]), [Own(OIdle, Record(WHO, []), 0, 0)], [],
                [Shot(HIdle, 0, 0, 0, [], None)], {});
    var none: seq<Step> := [];
    assert Run([st], none) && [st][|none|] == st;
  }

  /** The snapshot's first and last look at the state. */
  lemma Opens(st: State) returns (end: State)
    requires Pair(st) && st.shots[0].pc == HIdle && st.row.state == Active
    ensures Pair(end) && end == st.(shots := end.shots) && end.shots[0].pc == HGen
  {
    hide Reachable;
    var s := Look(st); Looks(st); assert Pair(s) && s.shots[0].pc == HState;
    end := Look(s); Looks(s);
  }

  lemma Closes(st: State) returns (end: State)
    requires Pair(st) && st.shots[0].pc == HState2 && st.row.state == Active
    ensures Pair(end) && end.shots[0].out.Some? && end.shots[0].out.value.who.pid == st.shots[0].pid
  {
    hide Reachable;
    end := Look(st); Looks(st);
  }

  lemma Frees(st: State) returns (end: State)
    requires Pair(st) && st.owners[0].pc == DFree && st.row.state == Reclaiming
    ensures Pair(end) && end.shots == st.shots && end.owners[0].pc == OIdle && end.row.state == Free
    ensures end.row.gen == st.row.gen
  {
    hide Reachable;
    end := Turn(st); Turns(st);
  }

  /**
  A snapshot may return a retired row: the state read before the row was retired, the generation,
  the fields and the generation again while it was vacant, the state once more after the next
  registration.
  */
  lemma RetiredRowReturned()
    ensures exists states: seq<State>, steps: seq<Step>, n: nat ::
              Run(states, steps) && n <= |steps| && |states[n].shots| == 1
              && states[n].shots[0].out.Some? && !Registered(states[n].row, states[n].shots[0].out.value)
  {
    hide Turn, Look, Reachable, Run, Registered;
    var first := Starts();
    var _, held := Registers(first);
    var seen := Opens(held);
    var going := Withdraws(seen);
    var vacant := Clears(going);
    var copied := Copies(vacant);
    var free := Frees(copied);
    var act, _ := Registers(free);
    var last := Closes(act);
    var states, steps := History(last);
    SnapshotWholeUnlessRetired(states, steps, |steps|, 0);
  }

  lemma History(st: State) returns (states: seq<State>, steps: seq<Step>)
    requires Reachable(st)
    ensures Run(states, steps) && states[|steps|] == st
  {
    states, steps :| Run(states, steps) && states[|steps|] == st;
  }
}
