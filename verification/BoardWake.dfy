/**
The Blackboard's wake-ups: writers that bump `change_seq` and wake if anybody registered, and
waiters that register, look again and park.  The futex compares the low 32 bits of the counter
and parks in one step; a waiter may also time out or wake for no reason.
*/
module BoardWake {
  import opened Sums

  const LOW32: nat := 0x1_0000_0000

  /** notify_change(): bump, look at `waiters`, wake. */
  datatype Notifier = NIdle | NBumped | NWake

  /** wait(last): look, register, look again, park; then unregister and look again. */
  datatype Sleeper =
    | SIdle
    | SCheck(last: nat)
    | SRegister(last: nat)
    | SRecheck(last: nat)
    | SPark(last: nat)
    | SParked(last: nat, woken: bool)
    | SUnregister(last: nat, done: bool)
    | SReturned(last: nat, changed: bool)   // true for success, false for timed_out

  datatype State = State(count: nat, waiters: nat, notifiers: seq<Notifier>, sleepers: seq<Sleeper>)

  datatype Step = Notify(n: nat) | Call(s: nat, last: nat) | Resume(s: nat) | GiveUp(s: nat)

  predicate Outside(u: Sleeper) { u.SIdle? || u.SReturned? }

  predicate Enabled(st: State, step: Step) {
    match step
    case Notify(n) => n < |st.notifiers|
    case Call(s, _) => s < |st.sleepers| && Outside(st.sleepers[s])
    case Resume(s) => s < |st.sleepers| && !Outside(st.sleepers[s]) && (st.sleepers[s].SParked? ==> st.sleepers[s].woken)
    case GiveUp(s) => s < |st.sleepers| && (st.sleepers[s].SCheck? || st.sleepers[s].SParked?)   // timeout, or a spurious wake
  }

  function To(st: State, s: nat, u: Sleeper): State
    requires s < |st.sleepers|
  {
    st.(sleepers := st.sleepers[s := u])
  }

  function Woken(u: Sleeper): Sleeper { if u.SParked? then u.(woken := true) else u }

  function NotifyStep(st: State, n: nat): State
    requires n < |st.notifiers|
  {
    match st.notifiers[n]
    case NIdle => st.(count := st.count + 1, notifiers := st.notifiers[n := NBumped])
    case NBumped => st.(notifiers := st.notifiers[n := if st.waiters != 0 then NWake else NIdle])
    case NWake =>
      st.(notifiers := st.notifiers[n := NIdle],
          sleepers := seq(|st.sleepers|, s requires 0 <= s < |st.sleepers| => Woken(st.sleepers[s])))
  }

  function SleepStep(st: State, s: nat): State
    requires s < |st.sleepers|
  {
    match st.sleepers[s]
    case SIdle => st
    case SReturned(_, _) => st
    case SCheck(last) => To(st, s, if st.count != last then SReturned(last, true) else SRegister(last))
    case SRegister(last) => To(st, s, SRecheck(last)).(waiters := st.waiters + 1)
    case SRecheck(last) => To(st, s, if st.count != last then SUnregister(last, true) else SPark(last))
    case SPark(last) =>
      To(st, s, if st.count % LOW32 == last % LOW32 then SParked(last, false) else SUnregister(last, false))
    case SParked(last, _) => To(st, s, SUnregister(last, false))
    case SUnregister(last, done) =>
      To(st, s, if done then SReturned(last, true) else SCheck(last)).(waiters := if st.waiters > 0 then st.waiters - 1 else 0)
  }

  function Next(st: State, step: Step): State
    requires Enabled(st, step)
  {
    match step
    case Notify(n) => NotifyStep(st, n)
    case Call(s, last) => To(st, s, SCheck(last))
    case Resume(s) => SleepStep(st, s)
    case GiveUp(s) => if st.sleepers[s].SCheck? then To(st, s, TimedOut(st, st.sleepers[s].last)) else SleepStep(st, s)
  }

  /** The counter is looked at before the clock. */
  function TimedOut(st: State, last: nat): Sleeper { SReturned(last, st.count != last) }

  /**
  What is assumed of callers and of the counter's width: a caller passes a count it has read, and
  fewer than 2^32 bumps come between that reading and the park.
  */
  predicate Timely(st: State, step: Step)
    requires Enabled(st, step)
  {
    && (step.Call? ==> step.last <= st.count)
    && (step.Resume? && st.sleepers[step.s].SPark? ==> st.count < st.sleepers[step.s].last + LOW32)
  }

  // ----- no lost wake-up -----

  function Registered(u: Sleeper): nat {
    if u.SRecheck? || u.SPark? || u.SParked? || u.SUnregister? then 1 else 0
  }

  /** A writer past its bump that has yet to wake the sleepers it owes. */
  ghost predicate Owed(st: State) { exists n :: 0 <= n < |st.notifiers| && st.notifiers[n] != NIdle }

  predicate AsleepOnOld(st: State, s: nat) {
    s < |st.sleepers| && st.sleepers[s].SParked? && !st.sleepers[s].woken && st.count != st.sleepers[s].last
  }

  /** The count a caller passed is none the counter has yet to reach, and a change is reported only after one. */
  predicate LastOk(count: nat, u: Sleeper) {
    match u
    case SIdle => true
    case SUnregister(last, done) => last <= count && (done ==> last < count)
    case SReturned(last, changed) => last <= count && (changed ==> last < count)
    case _ => u.last <= count
  }

  ghost predicate Inv(st: State) {
    && st.waiters == Sum(st.sleepers, Registered)
    && (forall s :: 0 <= s < |st.sleepers| ==> LastOk(st.count, st.sleepers[s]))
    && (forall s: nat :: AsleepOnOld(st, s) ==> Owed(st))
  }

  lemma SleepCounts(st: State, s: nat)
    requires Inv(st) && s < |st.sleepers|
    ensures SleepStep(st, s).waiters == Sum(SleepStep(st, s).sleepers, Registered)
  {
    SumUpdate(st.sleepers, s, SleepStep(st, s).sleepers[s], Registered);
    SumMember(st.sleepers, s, Registered);
    assert SleepStep(st, s).sleepers == st.sleepers[s := SleepStep(st, s).sleepers[s]];
  }

  lemma {:induction false} WakingCounts(us: seq<Sleeper>, vs: seq<Sleeper>)
    requires |us| == |vs| && forall s :: 0 <= s < |us| ==> vs[s] == Woken(us[s])
    ensures Sum(vs, Registered) == Sum(us, Registered)
  {
    if us != [] { WakingCounts(us[1..], vs[1..]); }
  }

  lemma NotifyKeeps(st: State, n: nat)
    requires Inv(st) && n < |st.notifiers|
    ensures Inv(NotifyStep(st, n))
  {
    var st' := NotifyStep(st, n);
    if st.notifiers[n].NWake? { WakingCounts(st.sleepers, st'.sleepers); }
    forall s: nat | AsleepOnOld(st', s) ensures Owed(st') {
      match st.notifiers[n]
      case NIdle => assert st'.notifiers[n] != NIdle;
      case NBumped =>
        // the sleeper is registered, so the writer sees it
        SumMember(st.sleepers, s, Registered);
        assert st'.notifiers[n] == NWake;
      case NWake =>
    }
  }

  lemma SleepKeeps(st: State, s: nat)
    requires Inv(st) && s < |st.sleepers|
    requires st.sleepers[s].SPark? ==> st.count < st.sleepers[s].last + LOW32
    ensures Inv(SleepStep(st, s))
  {
    SleepCounts(st, s);
    var st' := SleepStep(st, s);
    assert LastOk(st.count, st.sleepers[s]);
    forall t: nat | AsleepOnOld(st', t) ensures Owed(st') {
      if t == s { SameLow(st.sleepers[s].last, st.count); } else { assert AsleepOnOld(st, t); }
    }
  }

  lemma SameLow(last: nat, now: nat)
    requires last <= now < last + LOW32 && last % LOW32 == now % LOW32
    ensures last == now
  {
  }

  lemma StepKeeps(st: State, step: Step)
    requires Inv(st) && Enabled(st, step) && Timely(st, step)
    ensures Inv(Next(st, step))
  {
    match step
    case Notify(n) => NotifyKeeps(st, n);
    case Call(s, last) => CallKeeps(st, s, SCheck(last));
    case Resume(s) => SleepKeeps(st, s);
    case GiveUp(s) => if st.sleepers[s].SCheck? { CallKeeps(st, s, TimedOut(st, st.sleepers[s].last)); } else { SleepKeeps(st, s); }
  }

  lemma CallKeeps(st: State, s: nat, u: Sleeper)
    requires Inv(st) && s < |st.sleepers| && Registered(st.sleepers[s]) == Registered(u) == 0 && LastOk(st.count, u) && !u.SParked?
    ensures Inv(To(st, s, u))
  {
    SumUpdate(st.sleepers, s, u, Registered);
    forall t: nat | AsleepOnOld(To(st, s, u), t) ensures Owed(To(st, s, u)) { assert AsleepOnOld(st, t); }
  }

  predicate Init(st: State) {
    && st.waiters == 0 && (forall s :: 0 <= s < |st.sleepers| ==> st.sleepers[s].SIdle?)
    && (forall n :: 0 <= n < |st.notifiers| ==> st.notifiers[n].NIdle?)
  }

  ghost predicate Run(states: seq<State>, steps: seq<Step>) {
    && |states| == |steps| + 1 && Init(states[0])
    && forall i :: 0 <= i < |steps| ==>
         Enabled(states[i], steps[i]) && Timely(states[i], steps[i]) && states[i + 1] == Next(states[i], steps[i])
  }

  /**
  No reachable state has a waiter asleep on an old counter value unless a writer that bumped it
  is still on its way to the wake; once no writer is, nobody sleeps on an old value; and a wait
  that reports a change was given an older count than the board's.
  */
  lemma {:induction false} NoLostWakeup(states: seq<State>, steps: seq<Step>, k: nat)
    requires Run(states, steps) && k <= |steps|
    ensures Inv(states[k])
    ensures (exists s: nat :: AsleepOnOld(states[k], s)) ==> Owed(states[k])
    ensures forall s :: 0 <= s < |states[k].sleepers| && states[k].sleepers[s].SReturned? && states[k].sleepers[s].changed ==>
              states[k].sleepers[s].last < states[k].count
  {
    if k == 0 {
      SumZero(states[0].sleepers, Registered);
    } else {
      NoLostWakeup(states, steps, k - 1);
      StepKeeps(states[k - 1], steps[k - 1]);
    }
  }

  /** The assumption is needed: after exactly 2^32 bumps a waiter parks on the old value with nobody to wake it. */
  lemma WrappedCounterMissed()
    ensures exists st, step :: Inv(st) && Enabled(st, step) && AsleepOnOld(Next(st, step), 0) && !Owed(Next(st, step))
  {
    var st := State(LOW32, 1, [NIdle], [SPark(0)]);
    assert Sum(st.sleepers, Registered) == 1 by {
      SumUpdate([SIdle], 0, SPark(0), Registered);
      assert [SIdle][0 := SPark(0)] == st.sleepers;
      SumZero([SIdle], Registered);
    }
    assert Inv(st) && Enabled(st, Resume(0));
    assert AsleepOnOld(Next(st, Resume(0)), 0) && !Owed(Next(st, Resume(0)));
  }

  // ----- what wait() returns -----

  /** `n` steps of waiter `s` with nobody else running. */
  function Alone(st: State, s: nat, n: nat): State
    requires s < |st.sleepers|
    decreases n
  {
    if n == 0 then st else Alone(SleepStep(st, s), s, n - 1)
  }

  lemma Steps(st: State, s: nat)
    requires s < |st.sleepers|
    ensures Alone(st, s, 1) == SleepStep(st, s)
    ensures Alone(st, s, 4) == SleepStep(SleepStep(SleepStep(SleepStep(st, s), s), s), s)
  {
    var st1 := SleepStep(st, s);
    var st2 := SleepStep(st1, s);
    var st3 := SleepStep(st2, s);
    assert Alone(st3, s, 1) == SleepStep(st3, s);
    assert Alone(st2, s, 2) == Alone(st3, s, 1);
    assert Alone(st1, s, 3) == Alone(st2, s, 2);
  }

  /** Left alone, a wait on an old count returns at once with the change, and one on the current count parks, registered. */
  lemma WaitsForAChange(st: State, s: nat, last: nat)
    requires s < |st.sleepers| && Outside(st.sleepers[s])
    ensures var called := Next(st, Call(s, last));
      && |called.sleepers| == |st.sleepers|
      && (st.count != last ==> Alone(called, s, 1).sleepers[s] == SReturned(last, true) && Alone(called, s, 1).waiters == st.waiters)
      && (st.count == last ==> Alone(called, s, 4).sleepers[s] == SParked(last, false) && Alone(called, s, 4).waiters == st.waiters + 1)
  {
    Steps(Next(st, Call(s, last)), s);
  }

  /** timed_out is returned only by a look that found the count unchanged. */
  lemma TimedOutUnchanged(st: State, step: Step, s: nat)
    requires Enabled(st, step) && s < |st.sleepers| && !Outside(st.sleepers[s])
    requires |Next(st, step).sleepers| == |st.sleepers| && Next(st, step).sleepers[s].SReturned? && !Next(st, step).sleepers[s].changed
    ensures step == GiveUp(s) && st.sleepers[s].SCheck? && st.count == st.sleepers[s].last == Next(st, step).sleepers[s].last
  {
  }

  /** A woken or timed-out waiter left alone looks again, unregistered: it reports the change, or parks again. */
  lemma WokenLooksAgain(st: State, s: nat)
    requires s < |st.sleepers| && st.sleepers[s].SParked? && st.waiters > 0
    ensures var last, end := st.sleepers[s].last, Alone(st, s, 2);
      |end.sleepers| == |st.sleepers| && end.sleepers[s] == SCheck(last) && end.waiters == st.waiters - 1
  {
    assert Alone(SleepStep(st, s), s, 1) == SleepStep(SleepStep(st, s), s);
  }
}
