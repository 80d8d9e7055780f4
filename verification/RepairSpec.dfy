/**
What repairing a quiescent channel means, on values: the words of every ring, the positions
still in its window, and the two passes of repair_locked_entries.
*/
module RepairSpec {
  import opened ChannelModel
  import opened Modulo

  type Words = seq<Word>

  function At(pos: nat, cap: nat): (i: nat)
    requires cap > 0
    ensures i < cap
  {
    pos % cap
  }

  /** Oldest position still in a ring. */
  function Oldest(wp: nat, cap: nat): nat { if wp > cap then wp - cap else 0 }

  /** Locked and never committed, or more than one wrap behind. */
  predicate Stuck(w: Word, pos: nat, cap: nat) { w.Locked() || w.Pos() + cap < pos + 1 }

  function StuckIn(ws: Words, lo: nat, hi: nat): nat
    requires |ws| > 0
    decreases hi
  {
    if hi <= lo then 0 else StuckIn(ws, lo, hi - 1) + if Stuck(ws[At(hi - 1, |ws|)], hi - 1, |ws|) then 1 else 0
  }

  function StuckInRing(ws: Words, wp: nat): nat
    requires |ws| > 0
  {
    StuckIn(ws, Oldest(wp, |ws|), wp)
  }

  ghost predicate Board(rings: seq<Words>, wps: seq<nat>) {
    |wps| == |rings| && forall r :: 0 <= r < |rings| ==> |rings[r]| > 0
  }

  ghost function StuckBelow(rings: seq<Words>, wps: seq<nat>, n: nat): nat
    requires Board(rings, wps) && n <= |rings|
  {
    if n == 0 then 0 else StuckBelow(rings, wps, n - 1) + StuckInRing(rings[n - 1], wps[n - 1])
  }

  /** Positions of one window never share an entry. */
  lemma WindowApart(p: nat, q: nat, wp: nat, cap: nat)
    requires cap > 0 && Oldest(wp, cap) <= p < q < wp
    ensures At(p, cap) != At(q, cap)
  {
    if At(p, cap) == At(q, cap) {
      var a, b := p / cap, q / cap;
      assert q - p == (b - a) * cap;
      if b > a { MulAtLeast(b - a, cap); }
      if b < a { MulAtLeast(a - b, cap); }
    }
  }

  // ----- first pass -----

  /** A stale commit is skipped at once; a lock waits for the grace pass. */
  function FirstPass(w: Word, pos: nat, cap: nat): Word {
    if Stuck(w, pos, cap) && !w.Locked() then Word.Skip(pos + 1) else w
  }

  function Scanned(ws: Words, lo: nat, hi: nat): (rs: Words)
    requires |ws| > 0
    ensures |rs| == |ws|
    decreases hi
  {
    if hi <= lo then ws
    else
      var i := At(hi - 1, |ws|);
      Scanned(ws, lo, hi - 1)[i := FirstPass(ws[i], hi - 1, |ws|)]
  }

  datatype Candidate = Candidate(r: nat, pos: nat, seen: Word)

  /** The locks the first pass remembers. */
  function Locks(r: nat, ws: Words, lo: nat, hi: nat): seq<Candidate>
    requires |ws| > 0
    decreases hi
  {
    if hi <= lo then []
    else
      var w := ws[At(hi - 1, |ws|)];
      Locks(r, ws, lo, hi - 1) + if w.Locked() then [Candidate(r, hi - 1, w)] else []
  }

  /** The stale commits it repairs. */
  function StaleIn(ws: Words, lo: nat, hi: nat): nat
    requires |ws| > 0
    decreases hi
  {
    if hi <= lo then 0
    else
      var w := ws[At(hi - 1, |ws|)];
      StaleIn(ws, lo, hi - 1) + if Stuck(w, hi - 1, |ws|) && !w.Locked() then 1 else 0
  }

  lemma {:induction false} ScannedAt(ws: Words, wp: nat, lo: nat, hi: nat, pos: nat)
    requires |ws| > 0 && Oldest(wp, |ws|) <= lo <= pos < wp && hi <= wp
    ensures Scanned(ws, lo, hi)[At(pos, |ws|)]
            == if pos < hi then FirstPass(ws[At(pos, |ws|)], pos, |ws|) else ws[At(pos, |ws|)]
    decreases hi
  {
    if hi > lo {
      ScannedAt(ws, wp, lo, hi - 1, pos);
      if pos < hi - 1 { WindowApart(pos, hi - 1, wp, |ws|); }
      if hi - 1 < pos { WindowApart(hi - 1, pos, wp, |ws|); }
    }
  }

  /** The two passes between them repair exactly what diagnose counts. */
  lemma {:induction false} PassesCount(r: nat, ws: Words, lo: nat, hi: nat)
    requires |ws| > 0
    ensures StaleIn(ws, lo, hi) + |Locks(r, ws, lo, hi)| == StuckIn(ws, lo, hi)
    decreases hi
  {
    if hi > lo { PassesCount(r, ws, lo, hi - 1); }
  }

  lemma {:induction false} LocksAre(r: nat, ws: Words, lo: nat, hi: nat, k: nat)
    requires |ws| > 0 && k < |Locks(r, ws, lo, hi)|
    ensures var c := Locks(r, ws, lo, hi)[k];
            c.r == r && lo <= c.pos < hi && c.seen == ws[At(c.pos, |ws|)] && c.seen.Locked()
    decreases hi
  {
    if k < |Locks(r, ws, lo, hi - 1)| { LocksAre(r, ws, lo, hi - 1, k); }
  }

  lemma {:induction false} LocksRise(r: nat, ws: Words, lo: nat, hi: nat, j: nat, k: nat)
    requires |ws| > 0 && j < k < |Locks(r, ws, lo, hi)|
    ensures Locks(r, ws, lo, hi)[j].pos < Locks(r, ws, lo, hi)[k].pos
    decreases hi
  {
    if k < |Locks(r, ws, lo, hi - 1)| { LocksRise(r, ws, lo, hi - 1, j, k); } else { LocksAre(r, ws, lo, hi - 1, j); }
  }

  lemma {:induction false} LocksFind(r: nat, ws: Words, lo: nat, hi: nat, pos: nat) returns (k: nat)
    requires |ws| > 0 && lo <= pos < hi && ws[At(pos, |ws|)].Locked()
    ensures k < |Locks(r, ws, lo, hi)| && Locks(r, ws, lo, hi)[k] == Candidate(r, pos, ws[At(pos, |ws|)])
    decreases hi
  {
    if pos == hi - 1 { k := |Locks(r, ws, lo, hi - 1)|; } else { k := LocksFind(r, ws, lo, hi - 1, pos); }
  }

  // ----- grace pass -----

  /** entry_steal_and_skip on one ring. */
  function Stolen(ws: Words, pos: nat, seen: Word): (rs: Words)
    requires |ws| > 0
    ensures |rs| == |ws|
  {
    if ws[At(pos, |ws|)] == seen then ws[At(pos, |ws|) := Word.Skip(pos + 1)] else ws
  }

  ghost predicate Places(rings: seq<Words>, cs: seq<Candidate>) {
    && (forall r :: 0 <= r < |rings| ==> |rings[r]| > 0)
    && (forall c :: c in cs ==> c.r < |rings|)
  }

  ghost function Graced(rings: seq<Words>, cs: seq<Candidate>): (out: seq<Words>)
    requires Places(rings, cs)
    ensures |out| == |rings| && forall r :: 0 <= r < |rings| ==> |out[r]| == |rings[r]|
  {
    if cs == [] then rings
    else
      var out, c := Graced(rings, cs[..|cs| - 1]), cs[|cs| - 1];
      out[c.r := Stolen(out[c.r], c.pos, c.seen)]
  }

  /** Candidates still in place, each at an entry of its own. */
  ghost predicate Pending(rings: seq<Words>, cs: seq<Candidate>) {
    && Places(rings, cs)
    && (forall c :: c in cs ==> rings[c.r][At(c.pos, |rings[c.r]|)] == c.seen)
    && (forall j, k :: 0 <= j < k < |cs| && cs[j].r == cs[k].r ==>
          At(cs[j].pos, |rings[cs[j].r]|) != At(cs[k].pos, |rings[cs[k].r]|))
  }

  ghost predicate Hits(rings: seq<Words>, c: Candidate, r: nat, i: nat) {
    c.r == r < |rings| && |rings[r]| > 0 && At(c.pos, |rings[r]|) == i
  }

  lemma {:induction false} GracedAt(rings: seq<Words>, cs: seq<Candidate>, r: nat, i: nat)
    requires Pending(rings, cs) && r < |rings| && i < |rings[r]|
    ensures forall c :: c in cs && Hits(rings, c, r, i) ==> Graced(rings, cs)[r][i] == Word.Skip(c.pos + 1)
    ensures (forall c :: c in cs ==> !Hits(rings, c, r, i)) ==> Graced(rings, cs)[r][i] == rings[r][i]
  {
    if cs != [] {
      var ds, c := cs[..|cs| - 1], cs[|cs| - 1];
      GracedAt(rings, ds, r, i);
      if Hits(rings, c, r, i) {
        forall k | 0 <= k < |ds| ensures !Hits(rings, ds[k], r, i) {}
        assert Graced(rings, ds)[r][i] == rings[r][i] == c.seen;
      }
    }
  }

  // ----- both passes over all rings -----

  ghost function ScannedAll(rings: seq<Words>, wps: seq<nat>): (out: seq<Words>)
    requires Board(rings, wps)
    ensures |out| == |rings|
  {
    seq(|rings|, r requires 0 <= r < |rings| => Scanned(rings[r], Oldest(wps[r], |rings[r]|), wps[r]))
  }

  ghost function LocksBelow(rings: seq<Words>, wps: seq<nat>, n: nat): seq<Candidate>
    requires Board(rings, wps) && n <= |rings|
  {
    if n == 0 then []
    else LocksBelow(rings, wps, n - 1) + Locks(n - 1, rings[n - 1], Oldest(wps[n - 1], |rings[n - 1]|), wps[n - 1])
  }

  ghost function StaleBelow(rings: seq<Words>, wps: seq<nat>, n: nat): nat
    requires Board(rings, wps) && n <= |rings|
  {
    if n == 0 then 0
    else StaleBelow(rings, wps, n - 1) + StaleIn(rings[n - 1], Oldest(wps[n - 1], |rings[n - 1]|), wps[n - 1])
  }

  lemma ScannedEach(rings: seq<Words>, wps: seq<nat>, out: seq<Words>)
    requires Board(rings, wps) && |out| == |rings|
    requires forall i :: 0 <= i < |rings| ==> out[i] == Scanned(rings[i], Oldest(wps[i], |rings[i]|), wps[i])
    ensures out == ScannedAll(rings, wps)
  {
  }

  /** One more ring of the first pass. */
  lemma PassStep(rings: seq<Words>, wps: seq<nat>, n: nat)
    requires Board(rings, wps) && n < |rings|
    ensures var ws, lo := rings[n], Oldest(wps[n], |rings[n]|);
      && LocksBelow(rings, wps, n + 1) == LocksBelow(rings, wps, n) + Locks(n, ws, lo, wps[n])
      && StaleBelow(rings, wps, n + 1) == StaleBelow(rings, wps, n) + StaleIn(ws, lo, wps[n])
  {
  }

  lemma PassStart(rings: seq<Words>, wps: seq<nat>)
    requires Board(rings, wps)
    ensures LocksBelow(rings, wps, 0) == [] && StaleBelow(rings, wps, 0) == 0
  {
  }

  /** A candidate of the pass: in its ring's window, naming the lock found there. */
  ghost predicate Found(rings: seq<Words>, wps: seq<nat>, c: Candidate)
    requires Board(rings, wps)
  {
    && c.r < |rings| && Oldest(wps[c.r], |rings[c.r]|) <= c.pos < wps[c.r]
    && c.seen == rings[c.r][At(c.pos, |rings[c.r]|)] && c.seen.Locked()
  }

  predicate Before(c: Candidate, d: Candidate) { c.r < d.r || (c.r == d.r && c.pos < d.pos) }

  lemma {:induction false} LocksBelowAre(rings: seq<Words>, wps: seq<nat>, n: nat)
    requires Board(rings, wps) && n <= |rings|
    ensures forall c :: c in LocksBelow(rings, wps, n) ==> Found(rings, wps, c) && c.r < n
  {
    if n > 0 {
      LocksBelowAre(rings, wps, n - 1);
      var ws, lo, hi := rings[n - 1], Oldest(wps[n - 1], |rings[n - 1]|), wps[n - 1];
      var ls := Locks(n - 1, ws, lo, hi);
      forall k: nat | k < |ls| ensures Found(rings, wps, ls[k]) && ls[k].r == n - 1 { LocksAre(n - 1, ws, lo, hi, k); }
      hide Found, Locks;
    }
  }

  lemma {:induction false} LocksBelowRise(rings: seq<Words>, wps: seq<nat>, n: nat, j: nat, k: nat)
    requires Board(rings, wps) && n <= |rings| && j < k < |LocksBelow(rings, wps, n)|
    ensures Before(LocksBelow(rings, wps, n)[j], LocksBelow(rings, wps, n)[k])
  {
    var xs, ws, lo, hi := LocksBelow(rings, wps, n - 1), rings[n - 1], Oldest(wps[n - 1], |rings[n - 1]|), wps[n - 1];
    hide Found, Locks;
    if k < |xs| {
      LocksBelowRise(rings, wps, n - 1, j, k);
    } else {
      LocksAre(n - 1, ws, lo, hi, k - |xs|);
      if j < |xs| {
        LocksBelowAre(rings, wps, n - 1);
        assert xs[j] in xs;
      } else {
        LocksAre(n - 1, ws, lo, hi, j - |xs|);
        LocksRise(n - 1, ws, lo, hi, j - |xs|, k - |xs|);
      }
    }
  }

  lemma {:induction false} LocksBelowFind(rings: seq<Words>, wps: seq<nat>, n: nat, r: nat, pos: nat)
    requires Board(rings, wps) && r < n <= |rings| && Oldest(wps[r], |rings[r]|) <= pos < wps[r]
    requires rings[r][At(pos, |rings[r]|)].Locked()
    ensures Candidate(r, pos, rings[r][At(pos, |rings[r]|)]) in LocksBelow(rings, wps, n)
  {
    if r < n - 1 {
      LocksBelowFind(rings, wps, n - 1, r, pos);
    } else {
      var k := LocksFind(r, rings[r], Oldest(wps[r], |rings[r]|), wps[r], pos);
    }
  }

  lemma {:induction false} AllPassesCount(rings: seq<Words>, wps: seq<nat>, n: nat)
    requires Board(rings, wps) && n <= |rings|
    ensures StaleBelow(rings, wps, n) + |LocksBelow(rings, wps, n)| == StuckBelow(rings, wps, n)
  {
    if n > 0 {
      AllPassesCount(rings, wps, n - 1);
      PassesCount(n - 1, rings[n - 1], Oldest(wps[n - 1], |rings[n - 1]|), wps[n - 1]);
    }
  }

  /** After the first pass every remembered lock is still in place, at an entry of its own. */
  lemma LocksPending(rings: seq<Words>, wps: seq<nat>)
    requires Board(rings, wps)
    ensures Pending(ScannedAll(rings, wps), LocksBelow(rings, wps, |rings|))
  {
    var out, cs := ScannedAll(rings, wps), LocksBelow(rings, wps, |rings|);
    LocksBelowAre(rings, wps, |rings|);
    forall c | c in cs ensures out[c.r][At(c.pos, |out[c.r]|)] == c.seen {
      assert Found(rings, wps, c);
      ScannedAt(rings[c.r], wps[c.r], Oldest(wps[c.r], |rings[c.r]|), wps[c.r], c.pos);
    }
    forall j, k | 0 <= j < k < |cs| && cs[j].r == cs[k].r
      ensures At(cs[j].pos, |out[cs[j].r]|) != At(cs[k].pos, |out[cs[k].r]|)
    {
      LocksBelowRise(rings, wps, |rings|, j, k);
      assert cs[k] in cs && cs[j] in cs;
      assert Found(rings, wps, cs[j]) && Found(rings, wps, cs[k]);
      WindowApart(cs[j].pos, cs[k].pos, wps[cs[j].r], |rings[cs[j].r]|);
    }
  }

  ghost function Repaired(rings: seq<Words>, wps: seq<nat>): (out: seq<Words>)
    requires Board(rings, wps)
    ensures |out| == |rings|
  {
    LocksPending(rings, wps);
    Graced(ScannedAll(rings, wps), LocksBelow(rings, wps, |rings|))
  }

  /** Repair turns every stuck entry of the window into the skip marker of its position and leaves the rest. */
  lemma RepairedAt(rings: seq<Words>, wps: seq<nat>, r: nat, pos: nat)
    requires Board(rings, wps) && r < |rings| && Oldest(wps[r], |rings[r]|) <= pos < wps[r]
    ensures |Repaired(rings, wps)[r]| == |rings[r]|
    ensures var w := rings[r][At(pos, |rings[r]|)];
            Repaired(rings, wps)[r][At(pos, |rings[r]|)] == if Stuck(w, pos, |rings[r]|) then Word.Skip(pos + 1) else w
  {
    var out, cs, i := ScannedAll(rings, wps), LocksBelow(rings, wps, |rings|), At(pos, |rings[r]|);
    var w := rings[r][i];
    LocksPending(rings, wps);
    LocksBelowAre(rings, wps, |rings|);
    ScannedAt(rings[r], wps[r], Oldest(wps[r], |rings[r]|), wps[r], pos);
    GracedAt(out, cs, r, i);
    if w.Locked() {
      LocksBelowFind(rings, wps, |rings|, r, pos);
      assert Hits(out, Candidate(r, pos, w), r, i);
    } else {
      forall c | c in cs ensures !Hits(out, c, r, i) { assert Found(rings, wps, c); }
    }
  }

  /** Nothing is left to repair: a skip marker of the position is neither a lock nor stale. */
  lemma {:induction false} RepairedRing(rings: seq<Words>, wps: seq<nat>, r: nat, lo: nat, hi: nat)
    requires Board(rings, wps) && r < |rings| && Oldest(wps[r], |rings[r]|) == lo && hi <= wps[r]
    ensures |Repaired(rings, wps)[r]| == |rings[r]| && StuckIn(Repaired(rings, wps)[r], lo, hi) == 0
    decreases hi
  {
    hide Repaired;
    if hi > lo {
      RepairedRing(rings, wps, r, lo, hi - 1);
      RepairedAt(rings, wps, r, hi - 1);
    } else {
      RepairedLength(rings, wps, r);
    }
  }

  lemma RepairedLength(rings: seq<Words>, wps: seq<nat>, r: nat)
    requires Board(rings, wps) && r < |rings|
    ensures |Repaired(rings, wps)[r]| == |rings[r]|
  {
    LocksPending(rings, wps);
  }

  lemma {:induction false} NothingStuckAfter(rings: seq<Words>, wps: seq<nat>, n: nat)
    requires Board(rings, wps) && n <= |rings|
    ensures Board(Repaired(rings, wps), wps) && StuckBelow(Repaired(rings, wps), wps, n) == 0
  {
    forall r: nat | r < |rings| ensures |Repaired(rings, wps)[r]| > 0 { RepairedLength(rings, wps, r); }
    hide Repaired;
    if n > 0 {
      NothingStuckAfter(rings, wps, n - 1);
      RepairedRing(rings, wps, n - 1, Oldest(wps[n - 1], |rings[n - 1]|), wps[n - 1]);
    }
  }

  /** Two passes repair as many entries as diagnose reports, and a second repair finds none. */
  lemma RepairAgreesWithDiagnosis(rings: seq<Words>, wps: seq<nat>)
    requires Board(rings, wps)
    ensures StaleBelow(rings, wps, |rings|) + |LocksBelow(rings, wps, |rings|)| == StuckBelow(rings, wps, |rings|)
    ensures var out := Repaired(rings, wps);
            && Board(out, wps) && StuckBelow(out, wps, |out|) == 0
            && StaleBelow(out, wps, |out|) + |LocksBelow(out, wps, |out|)| == 0
  {
    AllPassesCount(rings, wps, |rings|);
    NothingStuckAfter(rings, wps, |rings|);
    AllPassesCount(Repaired(rings, wps), wps, |rings|);
  }
}
