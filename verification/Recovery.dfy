/**
Operator recovery of a channel whose participants have all stopped: diagnose,
repair_locked_entries, reset_retired_rings and reclaim_orphaned_slots over the region's arrays.
*/
module Recovery {
  import opened ChannelModel
  import opened RepairSpec
  import F = FreeStack

  /** What diagnose() says of a ring, besides its entries. */
  datatype Finding = Retired | DrainingBusy | LiveRing | DeadOwner

  datatype Report = Report(locked: nat, retired: nat, draining: nat, dead: nat, live: nat)

  class Ring {
    var state: RState
    var flight: nat
    var owner: nat
    var writePos: nat
    const words: array<Word>
    /** Slot index plus one, 0 for no claim. */
    const claims: array<nat>

    constructor (words: array<Word>, claims: array<nat>)
      ensures this.words == words && this.claims == claims
      ensures state == Free && flight == 0 && owner == 0 && writePos == 0
    {
      this.words, this.claims, state, flight, owner, writePos := words, claims, Free, 0, 0, 0;
    }

    predicate Finds(f: Finding, dead: set<nat>)
      reads this
    {
      match f
      case Retired => state == Free && flight > 0
      case DrainingBusy => state == Draining && flight > 0
      case LiveRing => state == Live
      case DeadOwner => state != Free && owner in dead
    }
  }

  /** Rings among the first n of which a finding is true. */
  ghost function Findings(rings: seq<Ring>, n: nat, f: Finding, dead: set<nat>): nat
    requires n <= |rings|
    reads rings[..n]
  {
    if n == 0 then 0 else Findings(rings, n - 1, f, dead) + if rings[n - 1].Finds(f, dead) then 1 else 0
  }

  class Region {
    const rings: seq<Ring>
    var steals: nat

    constructor (rings: seq<Ring>)
      ensures this.rings == rings && steals == 0
    {
      this.rings, steals := rings, 0;
    }

    ghost predicate Valid() {
      && (forall r :: 0 <= r < |rings| ==> rings[r].words.Length > 0)
      && (forall q, r :: 0 <= q < r < |rings| ==> rings[q] != rings[r] && rings[q].words != rings[r].words)
    }

    ghost function Buffers(): set<array<Word>> { set r | r in rings :: r.words }

    ghost function Contents(): (out: seq<Words>)
      reads Buffers()
      ensures |out| == |rings|
    {
      seq(|rings|, i requires 0 <= i < |rings| reads Buffers() => rings[i].words[..])
    }

    ghost function Positions(): (out: seq<nat>)
      reads rings
      ensures |out| == |rings|
    {
      seq(|rings|, i requires 0 <= i < |rings| reads rings => rings[i].writePos)
    }

    /** Entries a repair would mend. */
    ghost function Stalled(): nat
      requires Valid()
      reads Buffers(), rings
    {
      StuckBelow(Contents(), Positions(), |rings|)
    }

    /** diagnose(), given the pids of dead owners. */
    method Diagnose(dead: set<nat>) returns (report: Report)
      requires Valid()
      ensures report == Report(Stalled(), Findings(rings, |rings|, Retired, dead), Findings(rings, |rings|, DrainingBusy, dead),
                               Findings(rings, |rings|, DeadOwner, dead), Findings(rings, |rings|, LiveRing, dead))
    {
      report := Report(0, 0, 0, 0, 0);
      var i := 0;
      while i < |rings|
        invariant i <= |rings|
        invariant report.locked == StuckBelow(Contents(), Positions(), i)
        invariant report.retired == Findings(rings, i, Retired, dead)
        invariant report.draining == Findings(rings, i, DrainingBusy, dead)
        invariant report.dead == Findings(rings, i, DeadOwner, dead)
        invariant report.live == Findings(rings, i, LiveRing, dead)
      {
        var ring := rings[i];
        var wp, cap := ring.writePos, ring.words.Length;
        var stuck, pos := 0, Oldest(wp, cap);
        while pos < wp
          invariant Oldest(wp, cap) <= pos <= wp
          invariant stuck == StuckIn(ring.words[..], Oldest(wp, cap), pos)
        {
          var w := ring.words[At(pos, cap)];
          if w.Locked() || w.Pos() + cap < pos + 1 { stuck := stuck + 1; }
          pos := pos + 1;
        }
        report := report.(locked := report.locked + stuck);
        if ring.state == Live { report := report.(live := report.live + 1); }
        else if ring.state == Free && ring.flight > 0 { report := report.(retired := report.retired + 1); }
        else if ring.state == Draining && ring.flight > 0 { report := report.(draining := report.draining + 1); }
        if (ring.state == Live || ring.state == Draining || ring.state == Reclaiming) && ring.owner in dead {
          report := report.(dead := report.dead + 1);
        }
        i := i + 1;
      }
    }

    /** First pass over one ring. */
    method ScanRing(r: nat) returns (repaired: nat, found: seq<Candidate>)
      requires Valid() && r < |rings|
      modifies rings[r].words, this`steals
      ensures var ws, wp := old(rings[r].words[..]), rings[r].writePos;
        var lo := Oldest(wp, |ws|);
        && rings[r].words[..] == Scanned(ws, lo, wp) && found == Locks(r, ws, lo, wp) && repaired == StaleIn(ws, lo, wp)
      ensures steals == old(steals) + repaired
    {
      var ring := rings[r];
      ghost var ws := ring.words[..];
      var wp, cap := ring.writePos, ring.words.Length;
      var lo := Oldest(wp, cap);
      var pos := lo;
      repaired, found := 0, [];
      while pos < wp
        invariant lo <= pos <= wp
        invariant ring.words[..] == Scanned(ws, lo, pos) && found == Locks(r, ws, lo, pos) && repaired == StaleIn(ws, lo, pos)
        invariant steals == old(steals) + repaired
      {
        ScannedAt(ws, wp, lo, pos, pos);
        var i := At(pos, cap);
        var w := ring.words[i];
        assert w == Scanned(ws, lo, pos)[i];
        if w.Locked() {
          found := found + [Candidate(r, pos, w)];
        } else if w.Pos() + cap < pos + 1 {
          // entry_steal_and_skip with nobody racing: the CAS, then the skip
          ring.words[i] := Word.Repair(pos);
          ring.words[i] := Word.Skip(pos + 1);
          steals := steals + 1;
          repaired := repaired + 1;
        }
        pos := pos + 1;
      }
    }

    /** One steal of the grace pass: nothing if the word moved on since the first pass. */
    method StealAndSkip(c: Candidate) returns (stolen: bool)
      requires Valid() && c.r < |rings|
      modifies rings[c.r].words
      ensures Contents() == old(Contents())[c.r := Stolen(old(Contents())[c.r], c.pos, c.seen)]
      ensures stolen <==> old(rings[c.r].words[..])[At(c.pos, rings[c.r].words.Length)] == c.seen
    {
      ghost var was := Contents();
      var ring := rings[c.r];
      var i := At(c.pos, ring.words.Length);
      stolen := ring.words[i] == c.seen;
      if stolen {
        ring.words[i] := Word.Repair(c.pos);
        ring.words[i] := Word.Skip(c.pos + 1);
      }
      assert ring.words[..] == Stolen(was[c.r], c.pos, c.seen);
    }

    method FirstPasses() returns (repaired: nat, found: seq<Candidate>)
      requires Valid()
      modifies Buffers(), this`steals
      ensures Contents() == ScannedAll(old(Contents()), Positions())
      ensures found == LocksBelow(old(Contents()), Positions(), |rings|)
      ensures repaired == StaleBelow(old(Contents()), Positions(), |rings|) && steals == old(steals) + repaired
    {
      hide Scanned, Locks, StaleIn, LocksBelow, StaleBelow, ScannedAll;
      repaired, found := 0, [];
      ghost var was, wps := Contents(), Positions();
      PassStart(was, wps);
      var r := 0;
      while r < |rings|
        invariant r <= |rings|
        invariant forall i :: 0 <= i < r ==> rings[i].words[..] == Scanned(was[i], Oldest(wps[i], |was[i]|), wps[i])
        invariant forall i :: r <= i < |rings| ==> rings[i].words[..] == was[i]
        invariant found == LocksBelow(was, wps, r) && repaired == StaleBelow(was, wps, r)
        invariant steals == old(steals) + repaired
      {
        PassStep(was, wps, r);
        var n, cs := ScanRing(r);
        repaired, found := repaired + n, found + cs;
        r := r + 1;
      }
      ScannedEach(was, wps, Contents());
    }

    method GracePass(found: seq<Candidate>) returns (repaired: nat)
      requires Valid() && Pending(Contents(), found)
      modifies Buffers(), this`steals
      ensures Contents() == Graced(old(Contents()), found) && repaired == |found| && steals == old(steals) + repaired
    {
      hide Pending, Stolen;
      ghost var was := Contents();
      repaired := 0;
      var k := 0;
      while k < |found|
        invariant k <= |found| && repaired == k && steals == old(steals) + repaired
        invariant Places(was, found[..k]) && Contents() == Graced(was, found[..k])
      {
        var c := found[k];
        assert c in found && found[..k + 1][..k] == found[..k];
        StillThere(was, found, k);
        var stolen := StealAndSkip(c);
        if stolen {
          steals := steals + 1;
          repaired := repaired + 1;
        }
        k := k + 1;
      }
      assert found[..k] == found;
    }

    /** repair_locked_entries(): mends what diagnose() counted, and reports how much. */
    method RepairLockedEntries() returns (repaired: nat)
      requires Valid()
      modifies Buffers(), this`steals
      ensures Contents() == Repaired(old(Contents()), Positions())
      ensures repaired == old(Stalled()) && steals == old(steals) + repaired
      ensures Stalled() == 0
    {
      ghost var was, wps := Contents(), Positions();
      LocksPending(was, wps);
      RepairedInPasses(was, wps);
      RepairAgreesWithDiagnosis(was, wps);
      hide ScannedAll, LocksBelow, StaleBelow, StuckBelow, Pending, Repaired, Graced, Scanned, Locks, StaleIn;
      var found: seq<Candidate>;
      repaired, found := FirstPasses();
      if found != [] {
        // one commit timeout passes here
        var more := GracePass(found);
        repaired := repaired + more;
      }
    }

    /** reset_retired_rings(): Free rings that still count publishers become claimable again. */
    method ResetRetiredRings() returns (reset: nat)
      requires Valid()
      modifies rings
      ensures reset == old(Findings(rings, |rings|, Retired, {}))
      ensures forall k :: 0 <= k < |rings| ==>
                && rings[k].state == old(rings[k].state) && rings[k].writePos == old(rings[k].writePos)
                && rings[k].flight == (if old(rings[k].Finds(Retired, {})) then 0 else old(rings[k].flight))
                && rings[k].owner == (if old(rings[k].Finds(Retired, {})) then 0 else old(rings[k].owner))
    {
      reset := 0;
      var i := 0;
      while i < |rings|
        invariant i <= |rings| && reset == old(Findings(rings, i, Retired, {}))
        invariant forall k :: 0 <= k < |rings| ==>
                    && rings[k].state == old(rings[k].state) && rings[k].writePos == old(rings[k].writePos)
                    && rings[k].flight == (if k < i && old(rings[k].Finds(Retired, {})) then 0 else old(rings[k].flight))
                    && rings[k].owner == (if k < i && old(rings[k].Finds(Retired, {})) then 0 else old(rings[k].owner))
      {
        var ring := rings[i];
        if ring.state == Free && ring.flight > 0 {
          // clear_owner first: the store of flight is the hand-off
          ring.owner := 0;
          ring.flight := 0;
          reset := reset + 1;
        }
        i := i + 1;
      }
    }

    /** The documented recovery: repair, then reset, then look again. */
    method Checkup(dead: set<nat>) returns (repaired: nat, again: nat, report: Report)
      requires Valid()
      modifies Buffers(), rings, this`steals
      ensures repaired == old(Stalled()) && again == 0 && report.locked == 0 && report.retired == 0
    {
      repaired := RepairLockedEntries();
      again := RepairLockedEntries();
      ghost var wps := Positions();
      var _ := ResetRetiredRings();
      assert Positions() == wps;
      NoneRetired(rings, |rings|, dead);
      report := Diagnose(dead);
    }
  }

  lemma RepairedInPasses(rings: seq<Words>, wps: seq<nat>)
    requires Board(rings, wps)
    ensures Places(ScannedAll(rings, wps), LocksBelow(rings, wps, |rings|))
    ensures Repaired(rings, wps) == Graced(ScannedAll(rings, wps), LocksBelow(rings, wps, |rings|))
    ensures LocksBelow(rings, wps, |rings|) == [] ==> Repaired(rings, wps) == ScannedAll(rings, wps)
  {
    LocksPending(rings, wps);
  }

  /** Candidate k is untouched by the steals before it. */
  lemma StillThere(was: seq<Words>, found: seq<Candidate>, k: nat)
    requires Pending(was, found) && k < |found|
    ensures Places(was, found[..k])
    ensures var c := found[k];
            c.r < |was| && Graced(was, found[..k])[c.r][At(c.pos, |was[c.r]|)] == c.seen
  {
    var c := found[k];
    assert c in found;
    assert Pending(was, found[..k]);
    GracedAt(was, found[..k], c.r, At(c.pos, |was[c.r]|));
  }

  lemma {:induction false} NoneRetired(rings: seq<Ring>, n: nat, dead: set<nat>)
    requires n <= |rings| && forall k :: 0 <= k < n ==> !(rings[k].state == Free && rings[k].flight > 0)
    ensures Findings(rings, n, Retired, dead) == 0
  {
    if n > 0 { NoneRetired(rings, n - 1, dead); }
  }
}
