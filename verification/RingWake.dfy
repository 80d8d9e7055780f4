/**
A ring's wake-ups: publishers that claim a position and later look at `has_waiter`, and the
ring's subscriber, which parks on `write_pos` in receive() or arms a descriptor with arm_wait().

A publisher is between a claim and its look for as long as the delivery takes, abandoned ones
included; a signal owed to a descriptor is sent when the publish ends or blocks.  Both ends
have the same backend.
*/
module RingWake {

  const LOW32: nat := 0x1_0000_0000

  datatype Waiter = WaiterNone | WaiterFutex | WaiterCarrier

  /** publish() on this ring: claimed a position, looked, owes a futex wake, owes a signal. */
  datatype Pub = PIdle | PClaimed | PWake | PSignal

  datatype Sub =
    | BIdle
    // receive()
    | RCheck(cur: nat) | RSet(cur: nat) | RPark(cur: nat) | RParked(cur: nat, woken: bool) | RClear
    // arm_wait(): the head is looked at after `cur` was read; armed; disarm_wait()
    | AHead(cur: nat) | ASet(cur: nat) | ARead(cur: nat) | AArmed(cur: nat) | ADisarm

  /** `readable` is the descriptor's state, `read` the subscriber's position. */
  datatype State = State(writePos: nat, waiter: Waiter, read: nat, readable: bool, pubs: seq<Pub>, sub: Sub)

  datatype Step = Publish(p: nat) | Receive | Arm | Advance(to: nat) | Drain | Resume | Spurious

  predicate Enabled(st: State, step: Step) {
    match step
    case Publish(p) => p < |st.pubs|
    case Receive => st.sub.BIdle?
    case Arm => st.sub.BIdle?
    case Advance(to) => st.sub.BIdle? && st.read <= to <= st.writePos   // positions delivered or lost
    case Drain => st.sub.BIdle?                                         // the Waker's owner, after disarming
    case Resume => !st.sub.BIdle? && !(st.sub.RParked? && !st.sub.woken) && !(st.sub.AArmed? && !st.readable)
    case Spurious => st.sub.RParked? || st.sub.AArmed?                  // timeout, or a wake for no reason
  }

  function PubStep(st: State, p: nat): State
    requires p < |st.pubs|
  {
    match st.pubs[p]
    case PIdle => st.(writePos := st.writePos + 1, pubs := st.pubs[p := PClaimed])
    case PClaimed =>
      st.(pubs := st.pubs[p := match st.waiter
                               case WaiterNone => PIdle
                               case WaiterFutex => PWake
                               case WaiterCarrier => PSignal])
    case PWake =>
      st.(pubs := st.pubs[p := PIdle], sub := if st.sub.RParked? then st.sub.(woken := true) else st.sub)
    case PSignal => st.(pubs := st.pubs[p := PIdle], readable := true)
  }

  function SubStep(st: State): State {
    match st.sub
    case BIdle => st
    case RCheck(cur) => st.(sub := if cur <= st.read then RSet(cur) else BIdle)
    case RSet(cur) => st.(waiter := WaiterFutex, sub := RPark(cur))
    case RPark(cur) => st.(sub := if st.writePos % LOW32 == cur % LOW32 then RParked(cur, false) else RClear)
    case RParked(_, _) => st.(sub := RClear)
    case RClear => st.(waiter := WaiterNone, sub := BIdle)
    case AHead(cur) => st.(sub := if st.writePos <= st.read then ASet(cur) else BIdle)
    case ASet(cur) => st.(waiter := WaiterCarrier, sub := ARead(cur))
    case ARead(cur) => st.(sub := if st.writePos != cur then ADisarm else AArmed(cur))
    case AArmed(_) => st.(sub := ADisarm)
    case ADisarm => st.(waiter := WaiterNone, sub := BIdle)
  }

  function Next(st: State, step: Step): State
    requires Enabled(st, step)
  {
    match step
    case Publish(p) => PubStep(st, p)
    case Receive => st.(sub := RCheck(st.writePos))
    case Arm => st.(sub := AHead(st.writePos))
    case Advance(to) => st.(read := to)
    case Drain => st.(readable := false)
    case Resume => SubStep(st)
    case Spurious => SubStep(st)
  }

  /** The assumption on counter width: fewer than 2^32 claims between the reading of `cur` and the park. */
  predicate Timely(st: State, step: Step)
    requires Enabled(st, step)
  {
    step.Resume? && st.sub.RPark? ==> st.writePos < st.sub.cur + LOW32
  }

  // ----- no lost wake-up -----

  /** A publisher past its claim that has not yet looked, or has looked and owes this wake. */
  ghost predicate FutexOwed(st: State) { exists p :: 0 <= p < |st.pubs| && (st.pubs[p].PClaimed? || st.pubs[p].PWake?) }
  ghost predicate SignalOwed(st: State) { exists p :: 0 <= p < |st.pubs| && (st.pubs[p].PClaimed? || st.pubs[p].PSignal?) }

  predicate ParkedOnOld(st: State) { st.sub.RParked? && !st.sub.woken && st.writePos != st.sub.cur }
  predicate ArmedOnOld(st: State) { st.sub.AArmed? && !st.readable && st.writePos != st.sub.cur }

  /** Asleep although a position the subscriber has not passed was handed out. */
  predicate ParkedOnUnread(st: State) { st.sub.RParked? && !st.sub.woken && st.writePos > st.read }
  predicate ArmedOnUnread(st: State) { st.sub.AArmed? && !st.readable && st.writePos > st.read }

  /** The mode `has_waiter` must hold at each point of the subscriber's waiting. */
  predicate ModeOk(st: State) {
    match st.sub
    case RPark(_) => st.waiter == WaiterFutex
    case RParked(_, _) => st.waiter == WaiterFutex
    case RClear => st.waiter == WaiterFutex
    case ARead(_) => st.waiter == WaiterCarrier
    case AArmed(_) => st.waiter == WaiterCarrier
    case ADisarm => st.waiter == WaiterCarrier
    case _ => st.waiter == WaiterNone
  }

  /** The counter the subscriber read is no later than the ring's, and once the head was looked at, nothing before it is unread. */
  predicate SubOk(st: State) {
    match st.sub
    case RCheck(cur) => cur <= st.writePos
    case RSet(cur) => cur <= st.writePos && cur <= st.read
    case RPark(cur) => cur <= st.writePos && cur <= st.read
    case RParked(cur, _) => cur <= st.read
    case AHead(cur) => cur <= st.writePos
    case ASet(cur) => cur <= st.writePos && cur <= st.read
    case ARead(cur) => cur <= st.writePos && cur <= st.read
    case AArmed(cur) => cur <= st.read
    case _ => true
  }

  ghost predicate Inv(st: State) {
    && SubOk(st) && ModeOk(st)
    && (ParkedOnOld(st) ==> FutexOwed(st))
    && (ArmedOnOld(st) ==> SignalOwed(st))
  }

  lemma PublishKeeps(st: State, p: nat)
    requires Inv(st) && p < |st.pubs|
    ensures Inv(PubStep(st, p))
  {
    var st' := PubStep(st, p);
    match st.pubs[p]
    case PIdle => assert st'.pubs[p].PClaimed?;
    case PClaimed =>
      // the mode is set before `write_pos` is read again, so a claim the subscriber missed finds it
      assert ParkedOnOld(st') ==> st'.pubs[p].PWake?;
      assert ArmedOnOld(st') ==> st'.pubs[p].PSignal?;
    case PWake =>
      if ArmedOnOld(st') {
        var q :| 0 <= q < |st.pubs| && (st.pubs[q].PClaimed? || st.pubs[q].PSignal?);
        assert st'.pubs[q] == st.pubs[q];
      }
    case PSignal =>
      if ParkedOnOld(st') {
        var q :| 0 <= q < |st.pubs| && (st.pubs[q].PClaimed? || st.pubs[q].PWake?);
        assert st'.pubs[q] == st.pubs[q];
      }
  }

  lemma SubscribeKeeps(st: State)
    requires Inv(st) && (st.sub.RPark? ==> st.writePos < st.sub.cur + LOW32)
    ensures Inv(SubStep(st))
  {
    if st.sub.RPark? { SameLow(st.sub.cur, st.writePos); }
  }

  lemma SameLow(cur: nat, now: nat)
    requires cur <= now < cur + LOW32
    ensures cur % LOW32 == now % LOW32 ==> cur == now
  {
  }

  predicate Init(st: State) {
    st.sub.BIdle? && st.waiter.WaiterNone? && forall p :: 0 <= p < |st.pubs| ==> st.pubs[p].PIdle?
  }

  ghost predicate Run(states: seq<State>, steps: seq<Step>) {
    && |states| == |steps| + 1 && Init(states[0])
    && forall i :: 0 <= i < |steps| ==>
         Enabled(states[i], steps[i]) && Timely(states[i], steps[i]) && states[i + 1] == Next(states[i], steps[i])
  }

  /**
  No reachable state has the subscriber parked, or armed with an unreadable descriptor, after
  write_pos moved or with a position left to read, unless a publisher past its claim is still on
  its way to that very wake; and has_waiter is set only while the subscriber is waiting.
  */
  lemma {:induction false} NoLostWakeup(states: seq<State>, steps: seq<Step>, k: nat)
    requires Run(states, steps) && k <= |steps|
    ensures Inv(states[k])
    ensures ParkedOnOld(states[k]) || ParkedOnUnread(states[k]) ==> FutexOwed(states[k])
    ensures ArmedOnOld(states[k]) || ArmedOnUnread(states[k]) ==> SignalOwed(states[k])
    ensures states[k].sub.BIdle? ==> states[k].waiter.WaiterNone?
  {
    if k > 0 {
      NoLostWakeup(states, steps, k - 1);
      var st, step := states[k - 1], steps[k - 1];
      match step
      case Publish(p) => PublishKeeps(st, p);
      case Resume => SubscribeKeeps(st);
      case Spurious => SubscribeKeeps(st);
      case _ =>
    }
  }

  /** `n` steps of the subscriber with nobody else running. */
  function Alone(st: State, n: nat): State
    decreases n
  {
    if n == 0 then st else Alone(SubStep(st), n - 1)
  }

  lemma Thrice(st: State)
    ensures Alone(st, 1) == SubStep(st) && Alone(st, 3) == SubStep(SubStep(SubStep(st)))
  {
    assert Alone(SubStep(SubStep(st)), 1) == SubStep(SubStep(SubStep(st)));
    assert Alone(SubStep(st), 2) == Alone(SubStep(SubStep(st)), 1);
  }

  /** On a ring read to its end a receive parks instead of polling, and on any other it never parks. */
  lemma ParksOnlyAtTheEnd(st: State)
    requires st.sub.BIdle?
    ensures var called := Next(st, Receive);
            Alone(called, 3).sub == if st.writePos <= st.read then RParked(st.writePos, false) else BIdle
    ensures var called := Next(st, Step.Arm);
            st.writePos <= st.read ==> Alone(called, 3).sub == AArmed(st.writePos)
    ensures var called := Next(st, Step.Arm);
            st.writePos > st.read ==> Alone(called, 1).sub == BIdle && Alone(called, 1).waiter == st.waiter
  {
    Thrice(Next(st, Receive));
    Thrice(Next(st, Step.Arm));
  }
}
