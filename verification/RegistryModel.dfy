/**
One row of the participant registry, with everybody who may touch it: owners that register and
deregister, sweepers that retire dead owners' rows, and snapshots.  Rows share nothing, so a
registry is as many such systems side by side.

One step is one atomic access.  A participant of a dead process takes no further step.
Generations are natural numbers: the 32 bits are assumed not to wrap inside one check.
*/
module RegistryModel {

  datatype Option<+T> = None | Some(value: T)

  datatype SlotState = Free | Claiming | Active | Reclaiming

  /** Process identity: pid and start time.  A live process has a pid other than 0. */
  datatype Ident = Ident(pid: nat, start: nat)

  /** A registration: the identity, then type, role, kind, creation time and name words. */
  datatype Record = Record(who: Ident, desc: seq<nat>)

  datatype Holder = Nobody | Owner(k: nat) | Sweeper(s: nat)

  /** `holder` and `regs` are history: who holds the row, and the registration each settled generation published. */
  datatype Row = Row(state: SlotState, gen: nat, pid: nat, start: nat, desc: seq<nat>,
                     holder: Holder, regs: map<nat, Record>)

  /** (g + 1) | 1 and (g + 2) & ~1. */
  function Opened(g: nat): nat { if g % 2 == 0 then g + 1 else g + 2 }
  function Settled(g: nat): nat { if g % 2 == 0 then g + 2 else g + 1 }

  datatype OwnerPc =
    | OIdle | OOpenLoad | OOpenStore | OStart | OPid | ODesc | OActive | OSettleLoad | OSettleStore   // register_participant
    | OHeld
    | DCas | DOpenLoad | DOpenStore | DPid | DStart | DSettleLoad | DSettleStore | DFree              // deregister

  datatype Own = Own(pc: OwnerPc, rec: Record, g: nat, j: nat)

  datatype SweepPc =
    | SIdle | SState | SGen | SPid | SStart | SRecheck | SVerdict | SAcquire
    | SReclaim | SPid0 | SStart0 | SSettleLoad | SSettleStore | SFree

  datatype Sweep = Sweep(who: Ident, pc: SweepPc, g: nat, seen: Ident)

  datatype ShotPc = HIdle | HState | HGen | HPid | HStart | HDesc | HGen2 | HState2

  /** `out` is the row the last pass returned. */
  datatype Shot = Shot(pc: ShotPc, g: nat, pid: nat, start: nat, desc: seq<nat>, out: Option<Record>)

  datatype State = State(width: nat, row: Row, owners: seq<Own>, sweeps: seq<Sweep>, shots: seq<Shot>, dead: set<Ident>)

  // ----- owners -----

  datatype OwnMove = OwnMove(o: Own, row: Row)

  /** register_participant() on a row, then deregister(); `rec` is what an idle owner registers. */
  function OwnStep(width: nat, row: Row, k: nat, o: Own, rec: Record): OwnMove {
    match o.pc
    case OIdle =>
      if row.state == Free
      then OwnMove(o.(pc := OOpenLoad, rec := rec), row.(state := Claiming, holder := Owner(k)))
      else OwnMove(o, row)
    case OOpenLoad => OwnMove(o.(pc := OOpenStore, g := row.gen), row)
    case OOpenStore => OwnMove(o.(pc := OStart), row.(gen := Opened(o.g)))
    case OStart => OwnMove(o.(pc := OPid), row.(start := o.rec.who.start))
    case OPid => OwnMove(o.(pc := ODesc, j := 0), row.(pid := o.rec.who.pid))
    case ODesc =>
      if o.j < |o.rec.desc| && o.j < |row.desc|
      then OwnMove(o.(j := o.j + 1), row.(desc := row.desc[o.j := o.rec.desc[o.j]]))
      else OwnMove(o.(pc := OActive), row)
    case OActive => OwnMove(o.(pc := OSettleLoad), row.(state := Active))
    case OSettleLoad => OwnMove(o.(pc := OSettleStore, g := row.gen), row)
    case OSettleStore =>
      OwnMove(o.(pc := OHeld), row.(gen := Settled(o.g), regs := row.regs[Settled(o.g) := o.rec]))
    case OHeld => OwnMove(o.(pc := DCas), row)
    case DCas =>
      if row.state == Active then OwnMove(o.(pc := DOpenLoad), row.(state := Reclaiming))
      else OwnMove(o.(pc := OIdle), row)
    case DOpenLoad => OwnMove(o.(pc := DOpenStore, g := row.gen), row)
    case DOpenStore => OwnMove(o.(pc := DPid), row.(gen := Opened(o.g)))
    case DPid => OwnMove(o.(pc := DStart), row.(pid := 0))
    case DStart => OwnMove(o.(pc := DSettleLoad), row.(start := 0))
    case DSettleLoad => OwnMove(o.(pc := DSettleStore, g := row.gen), row)
    case DSettleStore => OwnMove(o.(pc := DFree), row.(gen := Settled(o.g)))
    case DFree => OwnMove(o.(pc := OIdle), Freed(row))
  }

  /** The closing CAS: Reclaiming to Free, or nothing. */
  function Freed(row: Row): Row { if row.state == Reclaiming then row.(state := Free, holder := Nobody) else row }

  // ----- sweepers -----

  datatype SweepMove = SweepMove(s: Sweep, row: Row)

  /** sweep_stale() on a row. */
  function SweepStep(row: Row, n: nat, s: Sweep, dead: set<Ident>): SweepMove {
    match s.pc
    case SIdle => SweepMove(s.(pc := SState), row)
    case SState =>
      SweepMove(s.(pc := if row.state == Active || row.state == Claiming then SGen else SIdle), row)
    case SGen => if row.gen % 2 == 1 then SweepMove(s.(pc := SIdle), row) else SweepMove(s.(pc := SPid, g := row.gen), row)
    case SPid => SweepMove(s.(pc := SStart, seen := s.seen.(pid := row.pid)), row)
    case SStart => SweepMove(s.(pc := SRecheck, seen := s.seen.(start := row.start)), row)
    case SRecheck => SweepMove(s.(pc := if row.gen == s.g && s.seen.pid != 0 then SVerdict else SIdle), row)
    case SVerdict => SweepMove(s.(pc := if s.seen in dead then SAcquire else SIdle), row)
    case SAcquire =>
      // acquire_tenancy: the even-to-odd CAS
      if s.g % 2 == 0 && row.gen == s.g then SweepMove(s.(pc := SReclaim), row.(gen := s.g + 1, holder := Sweeper(n)))
      else SweepMove(s.(pc := SIdle), row)
    case SReclaim => SweepMove(s.(pc := SPid0), row.(state := Reclaiming))
    case SPid0 => SweepMove(s.(pc := SStart0), row.(pid := 0))
    case SStart0 => SweepMove(s.(pc := SSettleLoad), row.(start := 0))
    case SSettleLoad => SweepMove(s.(pc := SSettleStore, g := row.gen), row)
    case SSettleStore => SweepMove(s.(pc := SFree), row.(gen := Settled(s.g)))
    case SFree => SweepMove(s.(pc := SIdle), Freed(row))
  }

  // ----- snapshots -----

  /** snapshot() on a row. */
  function ShotStep(row: Row, h: Shot): Shot {
    match h.pc
    case HIdle => h.(pc := HState, out := None)
    case HState => h.(pc := if row.state == Active then HGen else HIdle)
    case HGen => if row.gen % 2 == 1 then h.(pc := HIdle) else h.(pc := HPid, g := row.gen)
    case HPid => h.(pc := HStart, pid := row.pid)
    case HStart => h.(pc := HDesc, start := row.start, desc := [])
    case HDesc =>
      if |h.desc| < |row.desc| then h.(desc := h.desc + [row.desc[|h.desc|]]) else h.(pc := HGen2)
    case HGen2 => h.(pc := if row.gen == h.g then HState2 else HIdle)
    case HState2 =>
      if row.state == Active then h.(pc := HIdle, out := Some(Record(Ident(h.pid, h.start), h.desc))) else h.(pc := HIdle)
  }

  // ----- the step relation -----

  datatype Step = OwnerStep(k: nat, rec: Record) | SweeperStep(n: nat) | SnapStep(h: nat) | Die(who: Ident)

  /** A registration names its own process, which has a pid, and fills every word. */
  predicate Registrable(st: State, rec: Record) { rec.who.pid != 0 && |rec.desc| == st.width && rec.who !in st.dead }

  predicate OwnerReady(st: State, k: nat, rec: Record) {
    && k < |st.owners|
    && (if st.owners[k].pc.OIdle? then Registrable(st, rec) else st.owners[k].rec.who !in st.dead)
  }

  predicate SweeperReady(st: State, n: nat) { n < |st.sweeps| && st.sweeps[n].who !in st.dead }

  ghost predicate Next(st: State, step: Step, st': State) {
    match step
    case OwnerStep(k, rec) =>
      && OwnerReady(st, k, rec)
      && var mv := OwnStep(st.width, st.row, k, st.owners[k], rec);
         st' == st.(row := mv.row, owners := st.owners[k := mv.o])
    case SweeperStep(n) =>
      && SweeperReady(st, n)
      && var mv := SweepStep(st.row, n, st.sweeps[n], st.dead);
         st' == st.(row := mv.row, sweeps := st.sweeps[n := mv.s])
    case SnapStep(h) =>
      && h < |st.shots|
      && st' == st.(shots := st.shots[h := ShotStep(st.row, st.shots[h])])
    case Die(who) => st' == st.(dead := st.dead + {who})
  }

  ghost predicate Init(st: State) {
    && st.row == Row(Free, 0, 0, 0, st.row.desc, Nobody, map[]) && |st.row.desc| == st.width && st.dead == {}
    && (forall k :: 0 <= k < |st.owners| ==> st.owners[k].pc.OIdle?)
    && (forall n :: 0 <= n < |st.sweeps| ==> st.sweeps[n].pc.SIdle?)
    && (forall h :: 0 <= h < |st.shots| ==> st.shots[h].pc.HIdle? && st.shots[h].out.None?)
  }

  ghost predicate Run(states: seq<State>, steps: seq<Step>) {
    && |states| == |steps| + 1 && Init(states[0])
    && forall n :: 0 <= n < |steps| ==> Next(states[n], steps[n], states[n + 1])
  }
}
