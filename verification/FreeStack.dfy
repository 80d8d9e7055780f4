/**
The slot free stack: treiber_push and treiber_pop by any number of threads, one access of
`free_top` or of a `next_free` field per step.

`free_top` pairs a slot index with a 32-bit generation bumped by every successful CAS.  The
abstract stack of distinct slots changes by exactly one push or pop at each successful CAS,
also when `next_free` of a slot is rewritten between a popper's load and its CAS.
*/
module FreeStack {
  import opened Modulo

  datatype Option<+T> = None | Some(value: T)

  const GENERATIONS: nat := 0x1_0000_0000

  /** The tagged word: generation and slot index, None for INVALID_SLOT. */
  datatype Top = Top(gen: nat, idx: Option<nat>)

  /** A thread, with the word it loaded and the number of successful CASes before that load. */
  datatype Thread =
    | Idle
    | PushStore(s: nat, seen: Top, at: nat)
    | PushCas(s: nat, seen: Top, at: nat)
    | PopNext(seen: Top, at: nat)
    | PopCas(seen: Top, at: nat, next: Option<nat>)

  /**
  `swaps` counts the successful CASes and `held` records which thread owns each slot off the
  stack; `stack` is the abstract stack.  All three are history.
  */
  datatype State = State(top: Top, next: seq<Option<nat>>, threads: seq<Thread>,
                         swaps: nat, held: map<nat, nat>, stack: seq<nat>)

  datatype Step = StartPush(t: nat, s: nat) | StartPop(t: nat) | Resume(t: nat)

  predicate Enabled(st: State, step: Step) {
    match step
    // only the owner of a slot pushes it
    case StartPush(t, s) => t < |st.threads| && st.threads[t].Idle? && s in st.held && st.held[s] == t
    case StartPop(t) => t < |st.threads| && st.threads[t].Idle?
    case Resume(t) => t < |st.threads| && !st.threads[t].Idle?
  }

  function To(st: State, t: nat, u: Thread): State
    requires t < |st.threads|
  {
    st.(threads := st.threads[t := u])
  }

  function Bumped(st: State, idx: Option<nat>): Top { Top((st.top.gen + 1) % GENERATIONS, idx) }

  /** The pop loop after a load of the top word: return on an empty or out-of-range index. */
  function PopLoaded(st: State): Thread {
    if st.top.idx.None? || st.top.idx.value >= |st.next| then Idle else PopNext(st.top, st.swaps)
  }

  function Next(st: State, step: Step): State
    requires Enabled(st, step)
  {
    match step
    case StartPush(t, s) => To(st, t, PushStore(s, st.top, st.swaps))
    case StartPop(t) => To(st, t, PopLoaded(st))
    case Resume(t) =>
      match st.threads[t]
      case Idle => st
      case PushStore(s, seen, at) =>
        if s < |st.next| then To(st, t, PushCas(s, seen, at)).(next := st.next[s := seen.idx]) else st
      case PushCas(s, seen, at) =>
        if st.top == seen
        then To(st, t, Idle).(top := Bumped(st, Some(s)), swaps := st.swaps + 1,
                              held := st.held - {s}, stack := [s] + st.stack)
        else To(st, t, PushStore(s, st.top, st.swaps))
      case PopNext(seen, at) =>
        if seen.idx.Some? && seen.idx.value < |st.next|
        then To(st, t, PopCas(seen, at, st.next[seen.idx.value])) else st
      case PopCas(seen, at, n) =>
        if st.top == seen && seen.idx.Some?
        then To(st, t, Idle).(top := Bumped(st, n), swaps := st.swaps + 1,
                              held := st.held[seen.idx.value := t],
                              stack := if st.stack == [] then [] else st.stack[1..])
        else To(st, t, PopLoaded(st))
  }

  /** The assumption on counter width: a CAS comes fewer than 2^32 swaps after its load. */
  predicate Timely(st: State, step: Step)
    requires Enabled(st, step)
  {
    match step
    case Resume(t) =>
      (match st.threads[t]
       case PushCas(_, _, at) => st.swaps - at < GENERATIONS
       case PopCas(_, at, _) => st.swaps - at < GENERATIONS
       case _ => true)
    case _ => true
  }

  /** The chain from `head` through `next` is exactly `stack`. */
  ghost predicate Chain(next: seq<Option<nat>>, head: Option<nat>, stack: seq<nat>)
    decreases stack
  {
    if stack == [] then head == None
    else head == Some(stack[0]) && stack[0] < |next| && Chain(next, next[stack[0]], stack[1..])
  }

  ghost predicate Distinct(stack: seq<nat>) {
    forall i, j :: 0 <= i < j < |stack| ==> stack[i] != stack[j]
  }

  predicate ThreadOk(st: State, t: nat)
    requires t < |st.threads|
  {
    match st.threads[t]
    case Idle => true
    case PushStore(s, seen, at) =>
      s < |st.next| && s in st.held && st.held[s] == t && Loaded(st, seen, at)
    case PushCas(s, seen, at) =>
      s < |st.next| && s in st.held && st.held[s] == t && Loaded(st, seen, at) && st.next[s] == seen.idx
    case PopNext(seen, at) =>
      Loaded(st, seen, at) && seen.idx.Some? && seen.idx.value < |st.next|
    case PopCas(seen, at, n) =>
      && Loaded(st, seen, at) && seen.idx.Some? && seen.idx.value < |st.next|
      && (at == st.swaps ==> n == st.next[seen.idx.value])
  }

  /** The loaded word is the current one if no swap happened since. */
  predicate Loaded(st: State, seen: Top, at: nat) {
    at <= st.swaps && seen.gen == at % GENERATIONS && (at == st.swaps ==> seen == st.top)
  }

  ghost predicate Inv(st: State) {
    && st.top.gen == st.swaps % GENERATIONS
    && Chain(st.next, st.top.idx, st.stack)
    && Distinct(st.stack)
    && (forall s: nat :: s < |st.next| <==> (s in st.stack || s in st.held))
    && (forall s: nat :: s in st.stack ==> s !in st.held)
    && (forall t :: 0 <= t < |st.threads| ==> ThreadOk(st, t))
  }

  // ----- chains -----

  lemma {:induction false} ChainInRange(next: seq<Option<nat>>, head: Option<nat>, stack: seq<nat>, k: nat)
    requires Chain(next, head, stack) && k < |stack|
    ensures stack[k] < |next|
    decreases stack
  {
    if k > 0 { ChainInRange(next, next[stack[0]], stack[1..], k - 1); }
  }

  /** Rewriting next_free of a slot off the stack leaves the chain alone. */
  lemma {:induction false} ChainFrame(next: seq<Option<nat>>, head: Option<nat>, stack: seq<nat>, s: nat, n: Option<nat>)
    requires Chain(next, head, stack) && s < |next| && s !in stack
    ensures Chain(next[s := n], head, stack)
    decreases stack
  {
    if stack != [] { ChainFrame(next, next[stack[0]], stack[1..], s, n); }
  }

  /** The words determine the stack: the abstraction is a function of the shared memory. */
  lemma {:induction false} ChainUnique(next: seq<Option<nat>>, head: Option<nat>, a: seq<nat>, b: seq<nat>)
    requires Chain(next, head, a) && Chain(next, head, b)
    ensures a == b
    decreases a
  {
    if a != [] && b != [] {
      ChainUnique(next, next[a[0]], a[1..], b[1..]);
      assert a == [a[0]] + a[1..] && b == [b[0]] + b[1..];
    }
  }

  /** Equal generations fewer than 2^32 swaps apart are the same swap. */
  lemma SameGeneration(at: nat, now: nat)
    requires at <= now < at + GENERATIONS && at % GENERATIONS == now % GENERATIONS
    ensures at == now
  {
  }

  // ----- refinement -----

  /** What one step does to the abstract stack. */
  predicate Refines(st: State, step: Step, st': State)
    requires Enabled(st, step) && |st'.threads| == |st.threads|
  {
    match step
    case Resume(t) =>
      (match st.threads[t]
       case PushCas(s, _, _) =>
         if st'.threads[t].Idle? then s !in st.stack && st'.stack == [s] + st.stack
         else st'.stack == st.stack
       case PopCas(_, _, _) =>
         if st'.threads[t].Idle? && st'.swaps != st.swaps
         then st.stack != [] && st'.stack == st.stack[1..] && st'.held == st.held[st.stack[0] := t]
         else st'.stack == st.stack && (st'.threads[t].Idle? ==> st.stack == [])
       case _ => st'.stack == st.stack)
    case StartPop(t) => st'.stack == st.stack && (st'.threads[t].Idle? ==> st.stack == [])
    case StartPush(_, _) => st'.stack == st.stack
  }

  lemma TopOfStack(st: State)
    requires Inv(st)
    ensures st.stack == [] <==> st.top.idx.None?
    ensures st.stack != [] ==> st.top.idx == Some(st.stack[0]) && st.stack[0] < |st.next|
  {
  }

  lemma PushKeeps(st: State, t: nat)
    requires Inv(st) && Enabled(st, Resume(t)) && Timely(st, Resume(t))
    requires st.threads[t].PushCas?
    ensures Inv(Next(st, Resume(t))) && Refines(st, Resume(t), Next(st, Resume(t)))
  {
    var st' := Next(st, Resume(t));
    assert ThreadOk(st, t);
    var s := st.threads[t].s;
    if st.top == st.threads[t].seen {
      SameGeneration(st.threads[t].at, st.swaps);
      assert st'.stack[1..] == st.stack;
      assert st.swaps + 1 == st'.swaps;
      forall r: nat ensures r < |st'.next| <==> (r in st'.stack || r in st'.held) {
        assert r in st'.stack <==> r == s || r in st.stack;
      }
    }
    forall q | 0 <= q < |st'.threads| ensures ThreadOk(st', q) { assert ThreadOk(st, q); }
  }

  lemma PopKeeps(st: State, t: nat)
    requires Inv(st) && Enabled(st, Resume(t)) && Timely(st, Resume(t))
    requires st.threads[t].PopCas?
    ensures Inv(Next(st, Resume(t))) && Refines(st, Resume(t), Next(st, Resume(t)))
  {
    var st' := Next(st, Resume(t));
    assert ThreadOk(st, t);
    TopOfStack(st);
    if st.top == st.threads[t].seen {
      SameGeneration(st.threads[t].at, st.swaps);
      var s := st.stack[0];
      forall r: nat ensures r < |st'.next| <==> (r in st'.stack || r in st'.held) {
        assert r in st.stack <==> r == s || r in st'.stack;
      }
      forall r: nat | r in st'.stack ensures r !in st'.held {
        assert r in st.stack && r != s;
      }
    }
    forall q | 0 <= q < |st'.threads| ensures ThreadOk(st', q) { assert ThreadOk(st, q); }
  }

  lemma OtherKeeps(st: State, step: Step)
    requires Inv(st) && Enabled(st, step)
    requires step.Resume? ==> st.threads[step.t].PushStore? || st.threads[step.t].PopNext?
    ensures Inv(Next(st, step)) && Refines(st, step, Next(st, step))
  {
    var st' := Next(st, step);
    TopOfStack(st);
    if step.Resume? {
      assert ThreadOk(st, step.t);
      if st.threads[step.t].PushStore? {
        var u := st.threads[step.t];
        ChainFrame(st.next, st.top.idx, st.stack, u.s, u.seen.idx);
      }
    }
    forall q | 0 <= q < |st'.threads| ensures ThreadOk(st', q) { assert ThreadOk(st, q); }
  }

  /** Every step keeps the chain well formed and is one abstract operation or none. */
  lemma StepRefines(st: State, step: Step)
    requires Inv(st) && Enabled(st, step) && Timely(st, step)
    ensures |Next(st, step).threads| == |st.threads| && Inv(Next(st, step)) && Refines(st, step, Next(st, step))
  {
    if step.Resume? && st.threads[step.t].PushCas? { PushKeeps(st, step.t); }
    else if step.Resume? && st.threads[step.t].PopCas? { PopKeeps(st, step.t); }
    else { OtherKeeps(st, step); }
  }

  ghost predicate Run(states: seq<State>, steps: seq<Step>) {
    && |states| == |steps| + 1
    && forall i :: 0 <= i < |steps| ==>
         Enabled(states[i], steps[i]) && Timely(states[i], steps[i]) && states[i + 1] == Next(states[i], steps[i])
  }

  /**
  Over a whole run the chain from free_top is acyclic, duplicate-free and holds exactly the
  slots no thread owns, and the run's abstract stacks are a run of a stack.
  */
  lemma {:induction false} RunRefines(states: seq<State>, steps: seq<Step>, k: nat)
    requires Run(states, steps) && Inv(states[0]) && k <= |steps|
    ensures Inv(states[k])
    ensures forall i :: 0 <= i < k ==>
              |states[i + 1].threads| == |states[i].threads| && Refines(states[i], steps[i], states[i + 1])
  {
    hide Inv, Refines, Next, Timely;
    if k > 0 {
      RunRefines(states, steps, k - 1);
      StepRefines(states[k - 1], steps[k - 1]);
    }
  }

  function Countdown(n: nat): (s: seq<nat>)
    ensures |s| == n && forall i :: 0 <= i < n ==> s[i] == n - 1 - i
  {
    if n == 0 then [] else [n - 1] + Countdown(n - 1)
  }

  /** next_free after n pushes into an empty stack: each slot names the one before it. */
  function Links(n: nat): (s: seq<Option<nat>>)
    ensures |s| == n && forall i :: 0 <= i < n ==> s[i] == if i == 0 then None else Some(i - 1)
  {
    seq(n, i requires 0 <= i < n => if i == 0 then None else Some(i - 1))
  }

  lemma {:induction false} CountdownChain(n: nat, k: nat)
    requires k <= n
    ensures Chain(Links(n), if k == 0 then None else Some(k - 1), Countdown(k))
    decreases k
  {
    if k > 0 {
      CountdownChain(n, k - 1);
      assert Countdown(k)[1..] == Countdown(k - 1);
    }
  }

  /** The stack a creator stamps, slot after slot, is where a run may start. */
  lemma StampedStack(n: nat, threads: nat) returns (st: State)
    ensures Inv(st) && st.stack == Countdown(n) && |st.next| == n && |st.threads| == threads
    ensures forall t :: 0 <= t < threads ==> st.threads[t] == Idle
  {
    st := State(Top(n % GENERATIONS, if n == 0 then None else Some(n - 1)), Links(n), seq(threads, _ => Idle), n, map[],
                Countdown(n));
    CountdownChain(n, n);
    forall s: nat | s < n ensures s in st.stack { assert st.stack[n - 1 - s] == s; }
  }

  /** The assumption is needed: a pop whose CAS comes exactly 2^32 swaps after its load installs a stale chain. */
  lemma UntimelyPopBreaks()
    ensures exists st, step :: Inv(st) && Enabled(st, step) && !Timely(st, step) && !Inv(Next(st, step))
  {
    // slot 1 was below slot 0 when the popper looked; thread 1 owns it now
    var seen := Top(0, Some(0));
    var st := State(seen, [None, None], [PopCas(seen, 0, Some(1)), Idle], GENERATIONS, map[1 := 1], [0]);
    assert Chain(st.next, st.top.idx, st.stack) && ThreadOk(st, 0) && ThreadOk(st, 1);
    assert Inv(st) && Enabled(st, Resume(0)) && !Timely(st, Resume(0));
    assert Next(st, Resume(0)).stack == [] && Next(st, Resume(0)).top.idx == Some(1);
    assert !Inv(Next(st, Resume(0)));
  }

  // ----- with nobody racing -----

  /** Thread `t` takes `n` steps alone. */
  function Alone(st: State, t: nat, n: nat): State
    requires t < |st.threads|
    decreases n
  {
    if n == 0 || st.threads[t].Idle? then st else Alone(Next(st, Resume(t)), t, n - 1)
  }

  /** A push alone puts the slot on top of the stack. */
  lemma PushAlone(st: State, t: nat, s: nat)
    requires Inv(st) && Enabled(st, StartPush(t, s))
    ensures var end := Alone(Next(st, StartPush(t, s)), t, 2);
            end.stack == [s] + st.stack && end.held == st.held - {s} && end.threads == st.threads
  {
    var a := Next(st, StartPush(t, s));
    var b := Next(a, Resume(t));
    assert Alone(b, t, 1) == Next(b, Resume(t));
    hide Chain, Distinct;
  }

  /** A pop alone hands the top of the stack to its thread. */
  lemma PopAlone(st: State, t: nat)
    requires Inv(st) && Enabled(st, StartPop(t)) && st.stack != []
    ensures var end := Alone(Next(st, StartPop(t)), t, 2);
            end.stack == st.stack[1..] && end.held == st.held[st.stack[0] := t] && end.threads == st.threads
  {
    TopOfStack(st);
    var a := Next(st, StartPop(t));
    var b := Next(a, Resume(t));
    assert Alone(b, t, 1) == Next(b, Resume(t));
    hide Chain, Distinct;
  }
}
