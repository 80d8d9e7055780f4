/** What try_receive_view returns with nobody else running, and what a ring read to its end delivers. */
module ChannelReading {
  import opened ChannelModel
  import opened ChannelShape
  import opened ChannelLosses
  import opened ChannelSafety
  import opened ChannelViews
  import opened ChannelReceive

  /** Where a receive starts to look: past what is overrun. */
  function From(st: State, r: nat, read: nat): (q: nat)
    requires Sized(st) && r < st.cfg.maxSubs
    ensures q >= read
  {
    if st.rings.wpos[r] > read + st.cfg.cap then st.rings.wpos[r] - st.cfg.cap else read
  }

  /** Position `q` is neither delivered nor waited for. */
  predicate Lost(st: State, r: nat, q: nat)
    requires Sized(st) && r < st.cfg.maxSubs
  {
    !Deliverable(st, r, q) && !Blocking(WordAt(st, r, q), q)
  }

  lemma Calls(st: State, a: nat) returns (end: State)
    requires Here(st, a, SReady)
    ensures Leads(st, a, end) && Here(end, a, SRx)
    ensures end == st.(subs := st.subs[a := st.subs[a].(pc := SRx, tries := 0, callLost := st.subs[a].lost)])
  {
    var u := st.subs[a];
    hide Leads, Shape;
    end := Moves(st, a, SReady, u.(pc := SRx, tries := 0, callLost := u.lost), Load);
  }

  lemma Rests(st: State, a: nat) returns (end: State)
    requires Here(st, a, SRx) && Sized(st)
    requires st.subs[a].tries >= RECEIVE_ATTEMPTS || st.rings.wpos[st.subs[a].ring] <= st.subs[a].read
    ensures Leads(st, a, end) && Here(end, a, SReady) && end == st.(subs := st.subs[a := st.subs[a].(pc := SReady)])
  {
    var u := st.subs[a];
    hide Leads, Shape;
    end := Moves(st, a, SRx, u.(pc := SReady), Load);
  }

  lemma Enters(st: State, a: nat) returns (end: State)
    requires Here(st, a, SRx) && Sized(st)
    requires st.subs[a].tries < RECEIVE_ATTEMPTS && st.rings.wpos[st.subs[a].ring] > st.subs[a].read
    ensures var u := st.subs[a];
            var from := From(st, u.ring, u.read);
      && Leads(st, a, end) && Looking(end, a)
      && end == st.(subs := st.subs[a := u.(pc := SSeq, lost := u.lost + (from - u.read), read := from)])
  {
    var u := st.subs[a];
    var from := From(st, u.ring, u.read);
    hide Leads, Shape;
    end := Moves(st, a, SRx, u.(pc := SSeq, lost := u.lost + (from - u.read), read := from), Load);
  }

  // ----- one call -----

  /** What one call came to: position `q` delivered, or nothing, with everything before `q` lost. */
  ghost predicate Returned(st: State, end: State, a: nat, q: nat)
    requires Sized(st) && a < |st.subs| && st.subs[a].ring < st.cfg.maxSubs
  {
    var u := st.subs[a];
    && Same(st, end, a)
    && u.read <= q <= st.rings.wpos[u.ring]
    && if Deliverable(st, u.ring, q) && q < st.rings.wpos[u.ring] && end.views != st.views
       then var v := ViewOf(st, a, u.ring, q);
            && v.slot < |st.pool.rc| && Counted(u, end.subs[a], q + 1, u.lost + (q - u.read), u.got + 1)
            && end.views == st.views + [v] && end.pool.rc == st.pool.rc[v.slot := st.pool.rc[v.slot] + 1]
       else Counted(u, end.subs[a], q, u.lost + (q - u.read), u.got) && end.views == st.views && end.pool == st.pool
  }

  /** Why a call returned nothing at `q`, or that it did not. */
  ghost predicate Ended(st: State, end: State, a: nat, from: nat, tries: nat, q: nat)
    requires Sized(st) && a < |st.subs| && st.subs[a].ring < st.cfg.maxSubs
  {
    var u := st.subs[a];
    && from <= q
    && (forall j :: from <= j < q ==> Lost(st, u.ring, j))
    && (end.views == st.views ==>
          || q == st.rings.wpos[u.ring]
          || Blocking(WordAt(st, u.ring, q), q)
          || tries + (q - from) >= RECEIVE_ATTEMPTS)
    && (end.views != st.views ==> q < st.rings.wpos[u.ring] && Deliverable(st, u.ring, q))
  }

  /** From the look at the word of a position to the return. */
  lemma {:induction false} Scans(st: State, a: nat) returns (end: State, q: nat)
    requires Looking(st, a) && RefsFit(st) && Sized(st) && a < |st.subs| && st.subs[a].ring < st.cfg.maxSubs
    requires st.subs[a].read < st.rings.wpos[st.subs[a].ring] <= st.subs[a].read + st.cfg.cap
    requires st.subs[a].tries < RECEIVE_ATTEMPTS
    ensures Leads(st, a, end) && Here(end, a, SReady)
    ensures Returned(st, end, a, q) && Ended(st, end, a, st.subs[a].read, st.subs[a].tries, q)
    decreases st.rings.wpos[st.subs[a].ring] - st.subs[a].read
  {
    hide Leads, Here, Looking, RefsFit, Deliverable, Blocking, Shape, Idx, ViewOf;
    var u := st.subs[a];
    if Deliverable(st, u.ring, u.read) {
      q := u.read;
      end := Delivers(st, a);
    } else if Blocking(WordAt(st, u.ring, u.read), u.read) {
      q := u.read;
      end := Blocks(st, a);
    } else {
      end, q := ScansOn(st, a);
    }
  }

  lemma {:induction false} ScansOn(st: State, a: nat) returns (end: State, q: nat)
    requires Looking(st, a) && RefsFit(st) && Sized(st) && a < |st.subs| && st.subs[a].ring < st.cfg.maxSubs
    requires st.subs[a].read < st.rings.wpos[st.subs[a].ring] <= st.subs[a].read + st.cfg.cap
    requires st.subs[a].tries < RECEIVE_ATTEMPTS && Lost(st, st.subs[a].ring, st.subs[a].read)
    ensures Leads(st, a, end) && Here(end, a, SReady)
    ensures Returned(st, end, a, q) && Ended(st, end, a, st.subs[a].read, st.subs[a].tries, q)
    decreases st.rings.wpos[st.subs[a].ring] - st.subs[a].read, 0
  {
    hide Leads, Here, Looking, RefsFit, Deliverable, Blocking, Shape, Idx, Returned, Ended, ViewOf;
    var u := st.subs[a];
    var mid := LosesOne(st, a);
    var wp := st.rings.wpos[u.ring];
    if mid.subs[a].tries >= RECEIVE_ATTEMPTS || wp <= mid.subs[a].read {
      q := u.read + 1;
      end := Rests(mid, a);
      LeadsOn(st, a, mid, end);
      EndsHere(st, mid, end, a);
    } else {
      var mid' := Enters(mid, a);
      LeadsOn(st, a, mid, mid');
      RefsAlike(st, mid');
      end, q := Scans(mid', a);
      LeadsOn(st, a, mid', end);
      EndsLater(st, mid', end, a, q);
    }
  }

  lemma RefsAlike(st: State, mid: State)
    requires RefsFit(st) && mid.pool == st.pool
    ensures RefsFit(mid)
  {
  }

  lemma EndsHere(st: State, mid: State, end: State, a: nat)
    requires Sized(st) && a < |st.subs| && st.subs[a].ring < st.cfg.maxSubs && st.subs[a].read < st.rings.wpos[st.subs[a].ring]
    requires Lost(st, st.subs[a].ring, st.subs[a].read) && Loses(st, mid, a)
    requires end == mid.(subs := mid.subs[a := mid.subs[a].(pc := SReady)])
    requires mid.subs[a].tries >= RECEIVE_ATTEMPTS || st.rings.wpos[st.subs[a].ring] <= mid.subs[a].read
    ensures Returned(st, end, a, st.subs[a].read + 1) && Ended(st, end, a, st.subs[a].read, st.subs[a].tries, st.subs[a].read + 1)
  {
    hide Leads, Here, Deliverable, Blocking, Shape, Idx;
  }

  /** The same entries, slots and read window. */
  predicate Alike(st: State, mid: State, a: nat) {
    a < |st.subs| && Same(st, mid, a) && mid.pool == st.pool && mid.views == st.views && mid.subs[a].ring == st.subs[a].ring
  }

  lemma JudgesAlike(st: State, mid: State, a: nat, r: nat, q: nat)
    requires Sized(st) && Sized(mid) && Alike(st, mid, a) && r < st.cfg.maxSubs
    ensures Deliverable(mid, r, q) == Deliverable(st, r, q) && WordAt(mid, r, q) == WordAt(st, r, q)
    ensures Deliverable(st, r, q) ==> ViewOf(mid, a, r, q) == ViewOf(st, a, r, q)
    ensures Lost(mid, r, q) == Lost(st, r, q)
  {
  }

  lemma EndsLater(st: State, mid: State, end: State, a: nat, q: nat)
    requires Sized(st) && Sized(mid) && Alike(st, mid, a) && st.subs[a].ring < st.cfg.maxSubs
    requires Lost(st, st.subs[a].ring, st.subs[a].read)
    requires var u, v := st.subs[a], mid.subs[a]; Counted(u, v, u.read + 1, u.lost + 1, u.got) && v.tries == u.tries + 1
    requires Returned(mid, end, a, q) && Ended(mid, end, a, mid.subs[a].read, mid.subs[a].tries, q)
    ensures Returned(st, end, a, q) && Ended(st, end, a, st.subs[a].read, st.subs[a].tries, q)
  {
    var r := st.subs[a].ring;
    forall j | st.subs[a].read <= j < q ensures Lost(st, r, j) {
      if j > st.subs[a].read { JudgesAlike(st, mid, a, r, j); }
    }
    JudgesAlike(st, mid, a, r, q);
    hide Deliverable, Blocking, Lost, Idx, ViewOf, WordAt;
  }

  /**
  One try_receive_view, alone: positions overrun are passed; of those in the window the first that
  can be delivered is, all before it being lost; and nothing is returned only at the ring's end, at
  a head that is still being written, or after the retry budget.
  */
  lemma Receives(st: State, a: nat) returns (end: State, q: nat)
    requires Here(st, a, SReady) && Sized(st) && a < |st.subs| && st.subs[a].ring < st.cfg.maxSubs && RefsFit(st)
    requires st.subs[a].read < st.rings.wpos[st.subs[a].ring]
    ensures Leads(st, a, end) && Here(end, a, SReady)
    ensures Returned(st, end, a, q) && Ended(st, end, a, From(st, st.subs[a].ring, st.subs[a].read), 0, q)
  {
    hide Leads, Here, Looking, RefsFit, Deliverable, Blocking, Shape, Idx, Returned, Ended, ViewOf;
    var b := Calls(st, a);
    var c := Enters(b, a);
    RefsAlike(st, c);
    LeadsOn(st, a, b, c);
    end, q := Scans(c, a);
    LeadsOn(st, a, c, end);
    ReturnsFrom(st, c, end, a, q);
  }

  lemma ReturnsFrom(st: State, mid: State, end: State, a: nat, q: nat)
    requires Sized(st) && Sized(mid) && Alike(st, mid, a) && st.subs[a].ring < st.cfg.maxSubs
    requires var u, v := st.subs[a], mid.subs[a];
             var from := From(st, u.ring, u.read);
             Counted(u, v, from, u.lost + (from - u.read), u.got) && v.tries == 0
    requires Returned(mid, end, a, q) && Ended(mid, end, a, mid.subs[a].read, mid.subs[a].tries, q)
    ensures Returned(st, end, a, q) && Ended(st, end, a, From(st, st.subs[a].ring, st.subs[a].read), 0, q)
  {
    var r := st.subs[a].ring;
    forall j | mid.subs[a].read <= j < q ensures Lost(st, r, j) { JudgesAlike(st, mid, a, r, j); }
    JudgesAlike(st, mid, a, r, q);
    hide Deliverable, Blocking, Lost, Idx, ViewOf, WordAt;
  }

  // ----- a ring read to its end -----

  /** The first position from `q` on that a receive waits for, or the ring's end. */
  function Stop(st: State, r: nat, q: nat): (stop: nat)
    requires Sized(st) && r < st.cfg.maxSubs
    ensures q <= stop && (q <= st.rings.wpos[r] ==> stop <= st.rings.wpos[r])
    decreases st.rings.wpos[r] - q
  {
    if q >= st.rings.wpos[r] || Blocking(WordAt(st, r, q), q) then q else Stop(st, r, q + 1)
  }

  /** The views of every deliverable position from `q` up to `stop`, in order. */
  function Window(st: State, a: nat, r: nat, q: nat, stop: nat): (views: seq<View>)
    requires Sized(st) && r < st.cfg.maxSubs
    decreases stop - q
  {
    if q >= stop then []
    else (if Deliverable(st, r, q) then [ViewOf(st, a, r, q)] else []) + Window(st, a, r, q + 1, stop)
  }

  lemma {:induction false} WindowIsEveryPosition(st: State, a: nat, r: nat, q: nat, stop: nat, j: nat)
    requires Sized(st) && r < st.cfg.maxSubs && q <= j < stop && Deliverable(st, r, j)
    ensures ViewOf(st, a, r, j) in Window(st, a, r, q, stop)
    decreases stop - q
  {
    hide Deliverable, ViewOf;
    if q < j { WindowIsEveryPosition(st, a, r, q + 1, stop, j); }
  }

  /** No slot is near the refcount's limit: `n` more pins fit. */
  ghost predicate Room(st: State, n: nat) {
    forall s :: 0 <= s < |st.pool.rc| ==> st.pool.rc[s] + n < UINT32_MAX
  }

  /** Positions handed out and not yet passed. */
  function Unread(st: State, u: Sub): nat
    requires u.ring < |st.rings.wpos|
  {
    if st.rings.wpos[u.ring] > u.read then st.rings.wpos[u.ring] - u.read else 0
  }

  /** Refcounts differ only where they stay nonzero and within the limit. */
  ghost predicate SameSlots(st: State, mid: State) {
    && |mid.pool.rc| == |st.pool.rc| && mid.pool.len == st.pool.len
    && forall s :: 0 <= s < |st.pool.rc| ==>
         && (st.pool.rc[s] == 0 <==> mid.pool.rc[s] == 0) && (st.pool.rc[s] < UINT32_MAX <==> mid.pool.rc[s] < UINT32_MAX)
  }

  ghost predicate SameRing(st: State, mid: State) {
    && Sized(st) && Sized(mid) && mid.cfg == st.cfg && mid.rings == st.rings && mid.ents == st.ents && SameSlots(st, mid)
  }

  lemma SlotsAlike(st: State, mid: State, a: nat, r: nat, q: nat)
    requires SameRing(st, mid) && r < st.cfg.maxSubs
    ensures Deliverable(mid, r, q) == Deliverable(st, r, q) && WordAt(mid, r, q) == WordAt(st, r, q)
    ensures Deliverable(st, r, q) ==> ViewOf(mid, a, r, q) == ViewOf(st, a, r, q)
  {
  }

  lemma {:induction false} StopAlike(st: State, mid: State, a: nat, r: nat, q: nat, stop: nat)
    requires SameRing(st, mid) && r < st.cfg.maxSubs
    ensures Stop(mid, r, q) == Stop(st, r, q)
    decreases st.rings.wpos[r] - q
  {
    SlotsAlike(st, mid, a, r, q);
    hide SameRing, Deliverable, Blocking, WordAt, ViewOf, SameSlots;
    if q < st.rings.wpos[r] { StopAlike(st, mid, a, r, q + 1, stop); }
  }

  lemma {:induction false} WindowAlike(st: State, mid: State, a: nat, r: nat, q: nat, stop: nat)
    requires SameRing(st, mid) && r < st.cfg.maxSubs
    ensures Window(mid, a, r, q, stop) == Window(st, a, r, q, stop)
    decreases stop - q
  {
    SlotsAlike(st, mid, a, r, q);
    hide Deliverable, ViewOf, SameSlots;
    if q < stop { WindowAlike(st, mid, a, r, q + 1, stop); }
  }

  /** Lost positions add nothing. */
  lemma {:induction false} LostPass(st: State, a: nat, r: nat, q: nat, last: nat, stop: nat)
    requires Sized(st) && r < st.cfg.maxSubs && q <= last <= st.rings.wpos[r] && forall j :: q <= j < last ==> Lost(st, r, j)
    ensures Stop(st, r, q) == Stop(st, r, last) && (last <= stop ==> Window(st, a, r, q, stop) == Window(st, a, r, last, stop))
    decreases last - q
  {
    assert q < last ==> Lost(st, r, q);
    hide Deliverable, Blocking, WordAt, ViewOf;
    if q < last { LostPass(st, a, r, q + 1, last, stop); }
  }

  /** Everything up to the first position being written has been read. */
  ghost predicate ReadUp(st: State, end: State, a: nat, from: nat)
    requires Sized(st) && a < |st.subs| && st.subs[a].ring < st.cfg.maxSubs
  {
    var u := st.subs[a];
    var stop := Stop(st, u.ring, from);
    var views := Window(st, a, u.ring, from, stop);
    && Same(st, end, a) && end.views == st.views + views && stop >= u.read
    && end.subs[a].read == stop && end.subs[a].got == u.got + |views|
    && end.subs[a].lost + |views| == u.lost + (stop - u.read)
  }

  /** Receives one after the other, up to the ring's end or the first position being written. */
  lemma {:induction false} Reads(st: State, a: nat) returns (end: State)
    requires Here(st, a, SReady) && Sized(st) && a < |st.subs| && st.subs[a].ring < st.cfg.maxSubs
    requires Room(st, Unread(st, st.subs[a]))
    ensures Leads(st, a, end) && Here(end, a, SReady) && ReadUp(st, end, a, From(st, st.subs[a].ring, st.subs[a].read))
    decreases Unread(st, st.subs[a])
  {
    hide Leads, Here, Looking, RefsFit, Shape, Returned, Ended, Room, ReadUp, SameSlots;
    var u := st.subs[a];
    var wp := st.rings.wpos[u.ring];
    var from := From(st, u.ring, u.read);
    if u.read >= wp {
      end := st;
      LeadsNowhere(st, a);
      AtTheEnd(st, a);
    } else {
      RoomFits(st, wp - u.read);
      var mid, q := Receives(st, a);
      Advances(st, mid, a, from, q);
      if mid.views == st.views && (q == wp || Blocking(WordAt(st, u.ring, q), q)) {
        end := mid;
        ReadNothing(st, mid, a, from, q);
      } else {
        RoomLeft(st, mid, a, from, q);
        end := Reads(mid, a);
        LeadsOn(st, a, mid, end);
        ReadMore(st, mid, end, a, from, q);
      }
    }
  }

  lemma RoomFits(st: State, n: nat)
    requires Room(st, n)
    ensures RefsFit(st)
  {
  }

  lemma AtTheEnd(st: State, a: nat)
    requires Sized(st) && a < |st.subs| && st.subs[a].ring < st.cfg.maxSubs && st.subs[a].read >= st.rings.wpos[st.subs[a].ring]
    ensures ReadUp(st, st, a, From(st, st.subs[a].ring, st.subs[a].read))
  {
    hide Deliverable, Blocking, WordAt;
    assert st.subs[a := st.subs[a]] == st.subs;
  }

  /** What the call moved, for the next one. */
  lemma Advances(st: State, mid: State, a: nat, from: nat, q: nat)
    requires Sized(st) && a < |st.subs| && st.subs[a].ring < st.cfg.maxSubs
    requires from == From(st, st.subs[a].ring, st.subs[a].read) && Returned(st, mid, a, q) && Ended(st, mid, a, from, 0, q)
    requires Room(st, st.rings.wpos[st.subs[a].ring] - st.subs[a].read) && st.subs[a].read < st.rings.wpos[st.subs[a].ring]
    ensures |mid.subs| == |st.subs| && mid.subs[a].ring == st.subs[a].ring && mid.rings == st.rings && mid.cfg == st.cfg
    ensures Sized(mid) && mid.subs[a].read == (if mid.views == st.views then q else q + 1) <= st.rings.wpos[st.subs[a].ring]
    ensures !(mid.views == st.views && (q == st.rings.wpos[st.subs[a].ring] || Blocking(WordAt(st, st.subs[a].ring, q), q))) ==>
              mid.subs[a].read > st.subs[a].read
    ensures From(mid, st.subs[a].ring, mid.subs[a].read) == mid.subs[a].read
  {
    hide Deliverable, Blocking, WordAt, Idx, Lost, ViewOf;
  }

  lemma RoomLeft(st: State, mid: State, a: nat, from: nat, q: nat)
    requires Sized(st) && a < |st.subs| && st.subs[a].ring < st.cfg.maxSubs && Returned(st, mid, a, q)
    requires st.subs[a].read <= st.rings.wpos[st.subs[a].ring] && Room(st, st.rings.wpos[st.subs[a].ring] - st.subs[a].read)
    requires mid.subs[a].read > st.subs[a].read && mid.subs[a].read <= st.rings.wpos[st.subs[a].ring]
    ensures Room(mid, st.rings.wpos[st.subs[a].ring] - mid.subs[a].read) && SameRing(st, mid)
  {
    hide Blocking, WordAt, Idx;
  }

  lemma ReadNothing(st: State, mid: State, a: nat, from: nat, q: nat)
    requires Sized(st) && a < |st.subs| && st.subs[a].ring < st.cfg.maxSubs
    requires from == From(st, st.subs[a].ring, st.subs[a].read) && Returned(st, mid, a, q) && Ended(st, mid, a, from, 0, q)
    requires mid.views == st.views && (q == st.rings.wpos[st.subs[a].ring] || Blocking(WordAt(st, st.subs[a].ring, q), q))
    ensures ReadUp(st, mid, a, from)
  {
    LostPass(st, a, st.subs[a].ring, from, q, q);
    hide Deliverable, Blocking, WordAt, Idx, Lost, ViewOf;
  }

  lemma ReadMore(st: State, mid: State, end: State, a: nat, from: nat, q: nat)
    requires SameRing(st, mid) && a < |st.subs| == |mid.subs| && st.subs[a].ring == mid.subs[a].ring < st.cfg.maxSubs
    requires from == From(st, st.subs[a].ring, st.subs[a].read) && Returned(st, mid, a, q) && Ended(st, mid, a, from, 0, q)
    requires mid.subs[a].read == if mid.views == st.views then q else q + 1
    requires !(mid.views == st.views && (q == st.rings.wpos[st.subs[a].ring] || Blocking(WordAt(st, st.subs[a].ring, q), q)))
    requires ReadUp(mid, end, a, mid.subs[a].read)
    ensures ReadUp(st, end, a, from)
  {
    hide Deliverable, Blocking, WordAt, Idx, Lost, ViewOf, SameSlots;
    var r := st.subs[a].ring;
    var stop := Stop(mid, r, mid.subs[a].read);
    StopAlike(st, mid, a, r, mid.subs[a].read, stop);
    WindowAlike(st, mid, a, r, mid.subs[a].read, stop);
    LostPass(st, a, r, from, q, stop);
    if mid.views != st.views { DeliverableFree(st, a, r, q, stop); }
  }

  lemma DeliverableFree(st: State, a: nat, r: nat, q: nat, stop: nat)
    requires Sized(st) && r < st.cfg.maxSubs && Deliverable(st, r, q) && q < st.rings.wpos[r]
    ensures Stop(st, r, q) == Stop(st, r, q + 1)
    ensures q < stop ==> Window(st, a, r, q, stop) == [ViewOf(st, a, r, q)] + Window(st, a, r, q + 1, stop)
  {
  }

  /**
  From every reachable state a living subscriber between receives that is left alone reads its ring
  up to the end, or to the first position still being written: it is given a view of every
  deliverable position of the window, in order, and only the others are counted lost.
  */
  lemma EveryDeliverableIsDelivered(states: seq<State>, steps: seq<Step>, a: nat)
      returns (longer: seq<State>, more: seq<Step>)
    requires |states| == |steps| + 1 && Run(states, steps)
    requires a < |states[|steps|].subs| && a !in states[|steps|].dead && states[|steps|].subs[a].pc == SReady
    requires states[|steps|].subs[a].ring < |states[|steps|].rings.wpos|
    requires var st, u := states[|steps|], states[|steps|].subs[a]; Room(st, Unread(st, u))
    ensures |longer| == |more| + 1 && Run(longer, more) && steps <= more
    ensures forall i :: |steps| <= i < |more| ==> more[i] == SubStep(a, Go)
    ensures var st, u, end := states[|steps|], states[|steps|].subs[a], longer[|more|];
      && Sized(st) && u.ring < st.cfg.maxSubs && ReadUp(st, end, a, From(st, u.ring, u.read)) && end.subs[a].pc == SReady
  {
    var st := states[|steps|];
    InReachable(states, steps, a);
    hide Leads, Here, Shape, Run, ReadUp, Room;
    var end := Reads(st, a);
    var n := StepsTo(st, a, end);
    longer, more := AloneRuns(states, steps, a, n, end);
    AtRest(end, a);
  }

  lemma AtRest(end: State, a: nat)
    requires Here(end, a, SReady)
    ensures a < |end.subs| && end.subs[a].pc == SReady
  {
  }

  lemma InReachable(states: seq<State>, steps: seq<Step>, a: nat)
    requires Run(states, steps) && a < |states[|steps|].subs| && a !in states[|steps|].dead
    ensures Shape(states[|steps|]) && Sized(states[|steps|])
    ensures states[|steps|].subs[a].pc == SReady ==> Here(states[|steps|], a, SReady)
  {
    RunKeepsInv(states, steps, |steps|);
    hide Run;
  }

  lemma StepsTo(st: State, a: nat, end: State) returns (n: nat)
    requires Leads(st, a, end)
    ensures Alone(st, a, n, end)
  {
    n :| Alone(st, a, n, end);
  }

  /** (H) A committed position in the window whose claim was not drained can be delivered. */
  lemma CommittedIsDeliverable(st: State, r: nat, q: nat)
    requires InvH(st) && r < st.cfg.maxSubs && st.rings.wpos[r] <= q + st.cfg.cap && Room(st, 0)
    requires WordAt(st, r, q) == Plain(q + 1) && MetaAt(st, r, q).slot.Some?
    requires st.pool.len[MetaAt(st, r, q).slot.value] <= st.cfg.dataSize
    ensures Deliverable(st, r, q)
  {
    var i := Idx(st.cfg, q);
    assert FrontOk(st.ents.seqs[r][i], st.ents.metas[r][i]);
    ClaimPins(st, r, i, st.ents.metas[r][i].slot.value);
  }
}
