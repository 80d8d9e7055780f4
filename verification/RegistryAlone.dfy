/** Registering, deregistering, sweeping and snapshotting a row with nobody racing. */
module RegistryAlone {
  import opened RegistryModel
  import opened RegistryRows
  import RegistryGuarantees

  /** `n` steps of owner `k`. */
  function OwnOn(width: nat, row: Row, k: nat, o: Own, rec: Record, n: nat): OwnMove
    decreases n
  {
    if n == 0 then OwnMove(o, row)
    else
      var mv := OwnStep(width, row, k, o, rec);
      OwnOn(width, mv.row, k, mv.o, rec, n - 1)
  }

  lemma {:induction false} OwnOnOn(width: nat, row: Row, k: nat, o: Own, rec: Record, n: nat, m: nat)
    ensures var mid := OwnOn(width, row, k, o, rec, n);
            OwnOn(width, row, k, o, rec, n + m) == OwnOn(width, mid.row, k, mid.o, rec, m)
    decreases n
  {
    hide OwnStep;
    if n > 0 {
      var mv := OwnStep(width, row, k, o, rec);
      OwnOnOn(width, mv.row, k, mv.o, rec, n - 1, m);
    }
  }

  /** The descriptive words, one after the other. */
  lemma {:induction false} StoresWords(width: nat, row: Row, k: nat, o: Own, rec: Record)
    requires o.pc == ODesc && o.j <= |o.rec.desc| == |row.desc| && row.desc[..o.j] == o.rec.desc[..o.j]
    ensures OwnOn(width, row, k, o, rec, |o.rec.desc| - o.j + 1)
            == OwnMove(o.(pc := OActive, j := |o.rec.desc|), row.(desc := o.rec.desc))
    decreases |o.rec.desc| - o.j
  {
    if o.j == |o.rec.desc| {
      assert row.desc == row.desc[..o.j] && o.rec.desc == o.rec.desc[..o.j];
      OwnSteps(width, row, k, o, rec);
    } else {
      var mv := OwnStep(width, row, k, o, rec);
      assert mv.row.desc[..o.j + 1] == o.rec.desc[..o.j + 1];
      StoresWords(width, mv.row, k, mv.o, rec);
    }
  }

  lemma OwnSteps(width: nat, row: Row, k: nat, o: Own, rec: Record)
    ensures OwnOn(width, row, k, o, rec, 1) == OwnStep(width, row, k, o, rec)
    ensures var a := OwnStep(width, row, k, o, rec);
            var b := OwnStep(width, a.row, k, a.o, rec);
            var c := OwnStep(width, b.row, k, b.o, rec);
            OwnOn(width, row, k, o, rec, 2) == b && OwnOn(width, row, k, o, rec, 3) == c
  {
    hide OwnStep;
    var a := OwnStep(width, row, k, o, rec);
    var b := OwnStep(width, a.row, k, a.o, rec);
    assert OwnOn(width, a.row, k, a.o, rec, 1) == b;
    assert OwnOn(width, b.row, k, b.o, rec, 1) == OwnStep(width, b.row, k, b.o, rec);
    assert OwnOn(width, a.row, k, a.o, rec, 2) == OwnStep(width, b.row, k, b.o, rec);
  }

  /** The row with a registration in force. */
  function InForce(row: Row, k: nat, rec: Record): Row {
    Row(Active, row.gen + 2, rec.who.pid, rec.who.start, rec.desc, Owner(k), row.regs[row.gen + 2 := rec])
  }

  /** Steps of a registration of `width` words. */
  function RegisterSteps(width: nat): nat { 9 + width }

  /** Claiming the row, opening its generation, and the identity. */
  lemma Claims(width: nat, row: Row, k: nat, o: Own, rec: Record)
    requires o.pc == OIdle && row.state == Free && row.gen % 2 == 0
    ensures OwnOn(width, row, k, o, rec, 5)
            == OwnMove(o.(pc := ODesc, rec := rec, g := row.gen, j := 0),
                       row.(state := Claiming, holder := Owner(k), gen := row.gen + 1, start := rec.who.start, pid := rec.who.pid))
  {
    OwnSteps(width, row, k, o, rec);
    var a := OwnOn(width, row, k, o, rec, 3);
    OwnSteps(width, a.row, k, a.o, rec);
    hide OwnOn;
    OwnOnOn(width, row, k, o, rec, 3, 2);
  }

  /** Activating the row and settling its generation. */
  lemma Settles(width: nat, row: Row, k: nat, o: Own, rec: Record)
    requires o.pc == OActive && row.gen % 2 == 1
    ensures OwnOn(width, row, k, o, rec, 3)
            == OwnMove(o.(pc := OHeld, g := row.gen), row.(state := Active, gen := row.gen + 1, regs := row.regs[row.gen + 1 := o.rec]))
  {
    OwnSteps(width, row, k, o, rec);
    hide OwnOn;
  }

  /** A Free row that nobody else wants becomes the whole registration, published by a new generation. */
  lemma RegisterAlone(width: nat, row: Row, k: nat, o: Own, rec: Record)
    requires o.pc == OIdle && row.state == Free && row.gen % 2 == 0 && |row.desc| == |rec.desc| == width
    ensures OwnOn(width, row, k, o, rec, RegisterSteps(width)).row == InForce(row, k, rec)
    ensures OwnOn(width, row, k, o, rec, RegisterSteps(width)).o.pc == OHeld
  {
    hide OwnOn, OwnStep;
    Claims(width, row, k, o, rec);
    var a := OwnOn(width, row, k, o, rec, 5);
    StoresWords(width, a.row, k, a.o, rec);
    var b := OwnOn(width, a.row, k, a.o, rec, width + 1);
    Settles(width, b.row, k, b.o, rec);
    OwnOnOn(width, row, k, o, rec, 5, width + 1);
    OwnOnOn(width, row, k, o, rec, 6 + width, 3);
  }

  /** A row whose registration was withdrawn: Free, no identity, the next even generation. */
  function Vacated(row: Row): Row { row.(state := Free, gen := row.gen + 2, pid := 0, start := 0, holder := Nobody) }

  /** Taking the row back and opening its generation. */
  lemma Withdraws(width: nat, row: Row, k: nat, o: Own, rec: Record)
    requires o.pc == OHeld && row.state == Active && row.gen % 2 == 0
    ensures OwnOn(width, row, k, o, rec, 4)
            == OwnMove(o.(pc := DPid, g := row.gen), row.(state := Reclaiming, gen := row.gen + 1))
  {
    OwnSteps(width, row, k, o, rec);
    var a := OwnOn(width, row, k, o, rec, 3);
    OwnSteps(width, a.row, k, a.o, rec);
    hide OwnOn;
    OwnOnOn(width, row, k, o, rec, 3, 1);
  }

  /** Clearing the identity, settling the generation and freeing the row. */
  lemma Clears(width: nat, row: Row, k: nat, o: Own, rec: Record)
    requires o.pc == DPid && row.state == Reclaiming && row.gen % 2 == 1
    ensures OwnOn(width, row, k, o, rec, 5)
            == OwnMove(o.(pc := OIdle, g := row.gen), row.(state := Free, gen := row.gen + 1, pid := 0, start := 0, holder := Nobody))
  {
    OwnSteps(width, row, k, o, rec);
    var a := OwnOn(width, row, k, o, rec, 3);
    OwnSteps(width, a.row, k, a.o, rec);
    hide OwnOn;
    OwnOnOn(width, row, k, o, rec, 3, 2);
  }

  /** A registration withdrawn by its owner. */
  lemma DeregisterAlone(width: nat, row: Row, k: nat, o: Own, rec: Record)
    requires o.pc == OHeld && row.state == Active && row.gen % 2 == 0
    ensures OwnOn(width, row, k, o, rec, 9).row == Vacated(row)
    ensures OwnOn(width, row, k, o, rec, 9).o.pc == OIdle
  {
    hide OwnOn, OwnStep;
    Withdraws(width, row, k, o, rec);
    var a := OwnOn(width, row, k, o, rec, 4);
    Clears(width, a.row, k, a.o, rec);
    OwnOnOn(width, row, k, o, rec, 4, 5);
  }

  // ----- sweeping -----

  function SweepOn(row: Row, m: nat, s: Sweep, dead: set<Ident>, n: nat): SweepMove
    decreases n
  {
    if n == 0 then SweepMove(s, row)
    else
      var mv := SweepStep(row, m, s, dead);
      SweepOn(mv.row, m, mv.s, dead, n - 1)
  }

  lemma {:induction false} SweepOnOn(row: Row, m: nat, s: Sweep, dead: set<Ident>, n: nat, k: nat)
    ensures var mid := SweepOn(row, m, s, dead, n);
            SweepOn(row, m, s, dead, n + k) == SweepOn(mid.row, m, mid.s, dead, k)
    decreases n
  {
    hide SweepStep;
    if n > 0 {
      var mv := SweepStep(row, m, s, dead);
      SweepOnOn(mv.row, m, mv.s, dead, n - 1, k);
    }
  }

  lemma SweepSteps(row: Row, m: nat, s: Sweep, dead: set<Ident>)
    ensures var a := SweepStep(row, m, s, dead);
            var b := SweepStep(a.row, m, a.s, dead);
            var c := SweepStep(b.row, m, b.s, dead);
            var d := SweepStep(c.row, m, c.s, dead);
            && SweepOn(row, m, s, dead, 3) == c && SweepOn(row, m, s, dead, 4) == d
  {
    hide SweepStep;
    var a := SweepStep(row, m, s, dead);
    var b := SweepStep(a.row, m, a.s, dead);
    var c := SweepStep(b.row, m, b.s, dead);
    assert SweepOn(c.row, m, c.s, dead, 1) == SweepStep(c.row, m, c.s, dead);
    assert SweepOn(b.row, m, b.s, dead, 2) == SweepOn(c.row, m, c.s, dead, 1);
    assert SweepOn(a.row, m, a.s, dead, 3) == SweepOn(b.row, m, b.s, dead, 2);
    assert SweepOn(b.row, m, b.s, dead, 1) == c;
    assert SweepOn(a.row, m, a.s, dead, 2) == c;
  }

  /** The looks before the acquisition. */
  lemma SweepLooks(row: Row, m: nat, s: Sweep, dead: set<Ident>)
    requires s.pc == SIdle && row.state == Active && row.gen % 2 == 0 && row.pid != 0
    ensures var who := Ident(row.pid, row.start);
            SweepOn(row, m, s, dead, 7) == SweepMove(s.(pc := if who in dead then SAcquire else SIdle, g := row.gen, seen := who), row)
  {
    SweepSteps(row, m, s, dead);
    var a := SweepOn(row, m, s, dead, 4);
    assert a == SweepMove(s.(pc := SStart, g := row.gen, seen := s.seen.(pid := row.pid)), row);
    SweepSteps(a.row, m, a.s, dead);
    hide SweepOn;
    SweepOnOn(row, m, s, dead, 4, 3);
  }

  /** Steps of a sweep that retires a row. */
  const SWEEP_STEPS: nat := 14

  /** A sweep alone retires a registration of the dead, and leaves one of the living alone. */
  lemma SweepAlone(row: Row, m: nat, s: Sweep, dead: set<Ident>)
    requires s.pc == SIdle && row.state == Active && row.gen % 2 == 0 && row.pid != 0
    ensures Ident(row.pid, row.start) in dead ==> SweepOn(row, m, s, dead, SWEEP_STEPS).row == Vacated(row)
    ensures Ident(row.pid, row.start) in dead ==> SweepOn(row, m, s, dead, SWEEP_STEPS).s.pc == SIdle
    ensures Ident(row.pid, row.start) !in dead ==> SweepOn(row, m, s, dead, 7).row == row && SweepOn(row, m, s, dead, 7).s.pc == SIdle
  {
    SweepLooks(row, m, s, dead);
    if Ident(row.pid, row.start) in dead {
      var a := SweepOn(row, m, s, dead, 7);
      SweepSteps(a.row, m, a.s, dead);
      var b := SweepOn(a.row, m, a.s, dead, 4);
      assert b.s.pc == SSettleLoad && b.row.gen == row.gen + 1 && b.row.state == Reclaiming;
      SweepSteps(b.row, m, b.s, dead);
      hide SweepOn;
      SweepOnOn(row, m, s, dead, 7, 4);
      SweepOnOn(row, m, s, dead, 11, 3);
    }
  }

  // ----- snapshots -----

  function ShotOn(row: Row, h: Shot, n: nat): Shot
    decreases n
  {
    if n == 0 then h else ShotOn(row, ShotStep(row, h), n - 1)
  }

  lemma {:induction false} ShotOnOn(row: Row, h: Shot, n: nat, m: nat)
    ensures ShotOn(row, h, n + m) == ShotOn(row, ShotOn(row, h, n), m)
    decreases n
  {
    hide ShotStep;
    if n > 0 { ShotOnOn(row, ShotStep(row, h), n - 1, m); }
  }

  lemma {:induction false} CopiesWords(row: Row, h: Shot)
    requires h.pc == HDesc && h.desc <= row.desc
    ensures ShotOn(row, h, |row.desc| - |h.desc| + 1) == h.(pc := HGen2, desc := row.desc)
    decreases |row.desc| - |h.desc|
  {
    if h.desc == row.desc {
      assert ShotOn(row, ShotStep(row, h), 0) == ShotStep(row, h);
    } else {
      assert |h.desc| < |row.desc|;
      assert h.desc + [row.desc[|h.desc|]] <= row.desc;
      CopiesWords(row, ShotStep(row, h));
    }
  }

  lemma ShotSteps(row: Row, h: Shot)
    ensures ShotOn(row, h, 2) == ShotStep(row, ShotStep(row, h))
    ensures ShotOn(row, h, 3) == ShotStep(row, ShotStep(row, ShotStep(row, h)))
  {
    hide ShotStep;
    var a := ShotStep(row, h);
    var b := ShotStep(row, a);
    assert ShotOn(row, b, 1) == ShotStep(row, b);
    assert ShotOn(row, a, 1) == b;
    assert ShotOn(row, a, 2) == ShotOn(row, b, 1);
  }

  /** Steps of a snapshot of a row of `width` words. */
  function ShotStepsFor(width: nat): nat { 8 + width }

  /** A snapshot alone returns an Active, settled row as it is. */
  lemma SnapshotAlone(row: Row, h: Shot)
    requires h.pc == HIdle && row.state == Active && row.gen % 2 == 0
    ensures ShotOn(row, h, ShotStepsFor(|row.desc|)).out == Some(Record(Ident(row.pid, row.start), row.desc))
  {
    ShotSteps(row, h);
    var a := ShotOn(row, h, 3);
    ShotSteps(row, a);
    var b := ShotOn(row, a, 2);
    assert b == h.(pc := HDesc, out := None, g := row.gen, pid := row.pid, start := row.start, desc := []);
    CopiesWords(row, b);
    var c := ShotOn(row, b, |row.desc| + 1);
    ShotSteps(row, c);
    hide ShotOn;
    ShotOnOn(row, h, 3, 2);
    ShotOnOn(row, h, 5, |row.desc| + 1);
    ShotOnOn(row, h, 6 + |row.desc|, 2);
  }

  /** In every reachable state a snapshot left alone shows the registration of a living owner. */
  lemma LivingAreShown(states: seq<State>, steps: seq<Step>, n: nat, k: nat, h: Shot)
    requires Run(states, steps) && n <= |steps| && k < |states[n].owners| && h.pc == HIdle
    requires states[n].owners[k].pc.OHeld? && states[n].owners[k].rec.who !in states[n].dead
    ensures ShotOn(states[n].row, h, ShotStepsFor(|states[n].row.desc|)).out == Some(states[n].owners[k].rec)
  {
    RegistryGuarantees.RegistrationStands(states, steps, n, k);
    hide Run, ShotOn;
    SnapshotAlone(states[n].row, h);
  }
}
