/**
reclaim_orphaned_slots: with every participant stopped, references leaked by crashes are
dropped and the slots nobody claims go back to the free stack.
*/
module Orphans {
  import opened FreeStack

  // ----- claims -----

  /** Entries of one ring that claim slot `s`; an entry holds the slot index plus one, 0 for none. */
  function ClaimsIn(entries: seq<nat>, s: nat): nat {
    if entries == [] then 0
    else ClaimsIn(entries[..|entries| - 1], s) + if entries[|entries| - 1] == s + 1 then 1 else 0
  }

  function Claims(rings: seq<seq<nat>>, s: nat): nat {
    if rings == [] then 0 else Claims(rings[..|rings| - 1], s) + ClaimsIn(rings[|rings| - 1], s)
  }

  // ----- the free stack, sequentially -----

  /** The chain from `head` holds exactly the slots of `stack`, each once. */
  ghost predicate WellFormed(next: seq<Option<nat>>, head: Option<nat>, stack: seq<nat>) {
    Chain(next, head, stack) && Distinct(stack)
  }

  lemma PushKeepsForm(next: seq<Option<nat>>, head: Option<nat>, stack: seq<nat>, s: nat)
    requires WellFormed(next, head, stack) && s < |next| && s !in stack
    ensures WellFormed(next[s := head], Some(s), [s] + stack)
  {
    ChainFrame(next, head, stack, s, head);
    assert ([s] + stack)[1..] == stack;
  }

  /** Distinct numbers below n are at most n. */
  lemma {:induction false} Pigeonhole(s: seq<nat>, n: nat)
    requires Distinct(s) && forall k :: 0 <= k < |s| ==> s[k] < n
    ensures |s| <= n
  {
    assert s != [] ==> s[0] < n;
    if n > 0 && exists k :: 0 <= k < |s| && s[k] == n - 1 {
      var k :| 0 <= k < |s| && s[k] == n - 1;
      Pigeonhole(s[..k] + s[k + 1..], n - 1);
    } else if n > 0 {
      Pigeonhole(s, n - 1);
    }
  }

  lemma StackFits(next: seq<Option<nat>>, head: Option<nat>, stack: seq<nat>)
    requires WellFormed(next, head, stack)
    ensures |stack| <= |next|
  {
    forall k | 0 <= k < |stack| ensures stack[k] < |next| { ChainInRange(next, head, stack, k); }
    Pigeonhole(stack, |next|);
  }

  /** The walk stands at `head` with `rest` still to come. */
  lemma ChainStep(next: seq<Option<nat>>, head: Option<nat>, rest: seq<nat>)
    requires Chain(next, head, rest)
    ensures rest == [] <==> head.None?
    ensures rest != [] ==> head == Some(rest[0]) && rest[0] < |next| && Chain(next, next[rest[0]], rest[1..])
  {
  }

  class Pool {
    const rings: seq<array<nat>>
    const refcount: array<nat>
    const next: array<Option<nat>>
    var top: Top

    constructor (rings: seq<array<nat>>, refcount: array<nat>, next: array<Option<nat>>, top: Top)
      ensures this.rings == rings && this.refcount == refcount && this.next == next && this.top == top
    {
      this.rings, this.refcount, this.next, this.top := rings, refcount, next, top;
    }

    ghost predicate Valid() {
      refcount.Length == next.Length && refcount !in rings
    }

    ghost function Entries(): (out: seq<seq<nat>>)
      reads rings
      ensures |out| == |rings|
    {
      seq(|rings|, i requires 0 <= i < |rings| reads rings => rings[i][..])
    }

    /** Every slot nobody claims is on the stack. */
    ghost predicate Tidy(stack: seq<nat>)
      reads rings
    {
      forall s: nat :: s < refcount.Length && Claims(Entries(), s) == 0 ==> s in stack
    }

    /** treiber_push() with nobody racing. */
    method Push(s: nat, ghost stack: seq<nat>)
      requires s < next.Length
      modifies this`top, next
      ensures next[..] == old(next[..])[s := old(top.idx)] && top.idx == Some(s)
      ensures WellFormed(old(next[..]), old(top.idx), stack) && s !in stack ==> WellFormed(next[..], top.idx, [s] + stack)
    {
      if WellFormed(next[..], top.idx, stack) && s !in stack { PushKeepsForm(next[..], top.idx, stack, s); }
      next[s] := top.idx;
      top := Top((top.gen + 1) % GENERATIONS, Some(s));
    }

    /** Claims on every slot, over every entry of every ring. */
    method CountClaims() returns (claims: array<nat>)
      requires Valid()
      ensures fresh(claims) && claims.Length == refcount.Length
      ensures forall s :: 0 <= s < claims.Length ==> claims[s] == Claims(Entries(), s)
    {
      claims := new nat[refcount.Length](_ => 0);
      var r := 0;
      while r < |rings|
        invariant r <= |rings|
        invariant forall s :: 0 <= s < claims.Length ==> claims[s] == Claims(Entries()[..r], s)
      {
        ghost var es := rings[r][..];
        var i := 0;
        while i < rings[r].Length
          invariant i <= rings[r].Length && rings[r][..] == es
          invariant forall s :: 0 <= s < claims.Length ==> claims[s] == Claims(Entries()[..r], s) + ClaimsIn(es[..i], s)
        {
          var biased := rings[r][i];
          assert es[..i + 1][..i] == es[..i];
          if biased != 0 && biased - 1 < claims.Length { claims[biased - 1] := claims[biased - 1] + 1; }
          i := i + 1;
        }
        assert es[..i] == es && Entries()[..r + 1][..r] == Entries()[..r];
        r := r + 1;
      }
      assert Entries()[..r] == Entries();
    }

    /** Which slots the chain from `free_top` reaches, in at most as many steps as there are slots. */
    method WalkStack(ghost stack: seq<nat>) returns (onStack: array<bool>)
      ensures fresh(onStack) && onStack.Length == next.Length
      ensures WellFormed(next[..], top.idx, stack) ==> forall s: nat :: s < onStack.Length ==> (onStack[s] <==> s in stack)
    {
      onStack := new bool[next.Length](_ => false);
      var at: Option<nat>, walked := top.idx, 0;
      ghost var formed := WellFormed(next[..], top.idx, stack);
      if formed { StackFits(next[..], top.idx, stack); }
      while at.Some? && at.value < next.Length && walked < next.Length
        invariant walked <= next.Length
        decreases next.Length - walked
        invariant formed ==> walked <= |stack| && Chain(next[..], at, stack[walked..])
        invariant formed ==> forall s: nat :: s < onStack.Length ==> (onStack[s] <==> s in stack[..walked])
      {
        if formed { ChainStep(next[..], at, stack[walked..]); }
        onStack[at.value] := true;
        at := next[at.value];
        walked := walked + 1;
      }
      if formed {
        ChainStep(next[..], at, stack[walked..]);
        assert stack[..walked] == stack;
      }
    }

    /**
    reclaim_orphaned_slots().  From any well-formed free stack and any refcounts, every slot ends
    once on the stack, or off it with as many references as entries claim it; the slots added are
    the unclaimed ones that were off the stack, and their number is returned: 0 when none was.
    */
    method ReclaimOrphanedSlots(ghost stack: seq<nat>) returns (reclaimed: nat, ghost after: seq<nat>)
      requires Valid()
      modifies this`top, refcount, next
      ensures Entries() == old(Entries())
      ensures WellFormed(old(next[..]), old(top.idx), stack) ==>
                && WellFormed(next[..], top.idx, after)
                && reclaimed + |stack| == |after| && after[reclaimed..] == stack
                && forall s: nat :: s < refcount.Length ==>
                     && (s in after <==> s in stack || Claims(Entries(), s) == 0)
                     && refcount[s] == if s in stack then old(refcount[s]) else Claims(Entries(), s)
      ensures WellFormed(old(next[..]), old(top.idx), stack) && Tidy(stack) ==> reclaimed == 0
    {
      hide Claims, WellFormed;
      var claims := CountClaims();
      var onStack := WalkStack(stack);
      ghost var formed, entries := WellFormed(next[..], top.idx, stack), Entries();
      ghost var tidy := Tidy(stack);
      reclaimed, after := 0, stack;
      var s := 0;
      while s < refcount.Length
        invariant s <= refcount.Length && Entries() == entries
        invariant forall i: nat :: i < claims.Length ==> claims[i] == Claims(entries, i)
        invariant reclaimed + |stack| == |after| && after[reclaimed..] == stack
        invariant formed ==> WellFormed(next[..], top.idx, after)
        invariant formed && tidy ==> reclaimed == 0
        invariant tidy ==> forall i: nat :: i < refcount.Length && claims[i] == 0 ==> i in stack
        invariant formed ==> forall i: nat :: i < onStack.Length ==> (onStack[i] <==> i in stack)
        invariant formed ==> forall i: nat :: i < refcount.Length ==>
                    && (i in after <==> i in stack || (i < s && claims[i] == 0))
                    && refcount[i] == if i in stack || i >= s then old(refcount[i]) else claims[i]
      {
        if !onStack[s] {
          if claims[s] != 0 {
            refcount[s] := claims[s];
          } else {
            refcount[s] := 0;
            Push(s, after);
            after := [s] + after;
            reclaimed := reclaimed + 1;
          }
        }
        s := s + 1;
      }
    }
  }
}
