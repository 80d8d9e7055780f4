/** A read left alone from its call to its outcome. */
module BoardResolve {
  import opened BoardModel
  import opened BoardKeys
  import opened BoardValues
  import opened BoardReads
  import opened BoardGuarantees
  import opened BoardActive
  import opened BoardLastRead

  /** A read that nobody disturbs goes from `u` to `v`. */
  ghost predicate Leads(st: State, u: Reader, v: Reader)
    requires Sized(st) && ReaderShape(st, u)
  {
    exists n :: ReadOn(st, u, n) == v
  }

  lemma {:induction false} ReadOnShape(st: State, u: Reader, n: nat)
    requires Sized(st) && ReaderShape(st, u)
    ensures ReaderShape(st, ReadOn(st, u, n))
    decreases n
  {
    hide ReaderNext, ReaderShape;
    if n > 0 && !u.pc.RIdle? {
      ReadOnce(st, u, n);
      ReadOnShape(st, ReaderNext(st, u, ReadChoice.Step), n - 1);
    }
  }

  lemma {:induction false} ReadOnOn(st: State, u: Reader, n: nat, m: nat)
    requires Sized(st) && ReaderShape(st, u)
    ensures ReaderShape(st, ReadOn(st, u, n)) && ReadOn(st, ReadOn(st, u, n), m) == ReadOn(st, u, n + m)
    decreases n
  {
    hide ReaderNext, ReaderShape;
    ReadOnShape(st, u, n);
    if n > 0 && !u.pc.RIdle? {
      ReadOnce(st, u, n);
      ReadOnce(st, u, n + m);
      ReadOnOn(st, ReaderNext(st, u, ReadChoice.Step), n - 1, m);
    } else {
      assert n == 0 || ReadOn(st, u, m) == u == ReadOn(st, u, n + m);
    }
  }

  lemma LeadsOn(st: State, u: Reader, v: Reader, w: Reader)
    requires Sized(st) && ReaderShape(st, u) && ReaderShape(st, v) && Leads(st, u, v) && Leads(st, v, w)
    ensures Leads(st, u, w)
  {
    var n :| ReadOn(st, u, n) == v;
    var m :| ReadOn(st, v, m) == w;
    ReadOnOn(st, u, n, m);
  }

  lemma LeadsNowhere(st: State, u: Reader)
    requires Sized(st) && ReaderShape(st, u)
    ensures Leads(st, u, u)
  {
    assert ReadOn(st, u, 0) == u;
  }

  lemma LeadsStep(st: State, u: Reader)
    requires Sized(st) && ReaderShape(st, u) && !u.pc.RIdle?
    ensures ReaderShape(st, ReaderNext(st, u, ReadChoice.Step)) && Leads(st, u, ReaderNext(st, u, ReadChoice.Step))
  {
    ReadOnce(st, u, 1);
    hide ReaderNext, ReaderShape;
    assert ReadOn(st, ReaderNext(st, u, ReadChoice.Step), 0) == ReaderNext(st, u, ReadChoice.Step);
  }

  // ----- the scan -----

  /** At entry u.i, nothing looked at yet. */
  predicate Scanning(st: State, u: Reader) { Sized(st) && ReaderShape(st, u) && u.pc == RState }

  /** The key bytes, one word after the other. */
  lemma {:induction false} CopiesKey(st: State, u: Reader) returns (v: Reader)
    requires Sized(st) && ReaderShape(st, u) && u.pc == RKey && u.i < |st.ents| && u.kbuf <= st.ents[u.i].key
    ensures Leads(st, u, v) && v == u.(pc := RMatch, kbuf := st.ents[u.i].key) && ReaderShape(st, v)
    decreases st.cfg.keyWords - |u.kbuf|
  {
    var e := st.ents[u.i];
    assert CellsShape(st.cfg, e);
    LeadsStep(st, u);
    var next := ReaderNext(st, u, ReadChoice.Step);
    if |u.kbuf| == st.cfg.keyWords {
      v := next;
    } else {
      assert next == u.(kbuf := u.kbuf + [e.key[|u.kbuf|]]);
      hide Leads, ReaderNext, ReaderShape;
      v := CopiesKey(st, next);
      LeadsOn(st, u, next, v);
    }
  }

  lemma PassesEntry(st: State, u: Reader) returns (v: Reader)
    requires Scanning(st, u) && u.i < |st.ents| && (st.ents[u.i].state != Active || st.ents[u.i].hash != st.cfg.Print(u.key))
    ensures Leads(st, u, v) && v == u.(i := u.i + 1) && ReaderShape(st, v)
  {
    LeadsStep(st, u);
    var next := ReaderNext(st, u, ReadChoice.Step);
    v := u.(i := u.i + 1);
    if st.ents[u.i].state == Active {
      assert next == u.(pc := RHash);
      LeadsStep(st, next);
      assert ReaderNext(st, next, ReadChoice.Step) == v;
      hide Leads, ReaderNext, ReaderShape;
      LeadsOn(st, u, next, v);
    }
  }

  /** State and fingerprint fit: the tenancy is read, and the key compared. */
  lemma ComparesKey(st: State, u: Reader) returns (v: Reader)
    requires Scanning(st, u) && u.i < |st.ents| && st.ents[u.i].state == Active && st.ents[u.i].hash == st.cfg.Print(u.key)
    ensures Leads(st, u, v) && ReaderShape(st, v)
    ensures var e := st.ents[u.i];
            v == u.(pc := RMatch, ten := e.tenancy, kbuf := e.key)
  {
    var e := st.ents[u.i];
    var a, b, c := u.(pc := RHash), u.(pc := RTenancy), u.(pc := RKey, ten := e.tenancy, kbuf := []);
    LeadsStep(st, u);
    assert ReaderNext(st, u, ReadChoice.Step) == a;
    LeadsStep(st, a);
    assert ReaderNext(st, a, ReadChoice.Step) == b;
    LeadsStep(st, b);
    assert ReaderNext(st, b, ReadChoice.Step) == c;
    hide Leads, ReaderNext, ReaderShape;
    v := CopiesKey(st, c);
    LeadsOn(st, u, a, b);
    LeadsOn(st, u, b, c);
    LeadsOn(st, u, c, v);
  }

  /** One entry: resolved to it, or on to the next. */
  lemma LooksAtEntry(st: State, u: Reader) returns (v: Reader)
    requires Scanning(st, u) && u.i < |st.ents|
    ensures Leads(st, u, v) && ReaderShape(st, v) && v.key == u.key && v.room == u.room && v.ec == u.ec
    ensures if Match(st.cfg, st.ents[u.i], u.key) then Resolved(st, v, u.i) else v.pc == RState && v.i == u.i + 1
  {
    var e := st.ents[u.i];
    if e.state != Active || e.hash != st.cfg.Print(u.key) {
      v := PassesEntry(st, u);
    } else {
      var a := ComparesKey(st, u);
      LeadsStep(st, a);
      v := ReaderNext(st, a, ReadChoice.Step);
      assert v == if st.cfg.SameKey(e.key, u.key) then a.(pc := RCheck, hit := true) else a.(pc := RState, i := u.i + 1);
      hide Leads, ReaderNext, ReaderShape;
      LeadsOn(st, u, a, v);
    }
  }

  /** Resolved to entry `i` at the tenancy it has. */
  predicate Resolved(st: State, v: Reader, i: nat) {
    i < |st.ents| && v.pc == RCheck && v.hit && v.i == i && v.ten == st.ents[i].tenancy
  }

  /** The whole scan finds the first match, or reports that there is none. */
  lemma {:induction false} Scans(st: State, u: Reader) returns (v: Reader)
    requires Scanning(st, u)
    ensures Leads(st, u, v) && ReaderShape(st, v) && v.key == u.key && v.room == u.room
    ensures if v.pc == RCheck
            then u.i <= v.i < |st.ents| && Match(st.cfg, st.ents[v.i], u.key) && Resolved(st, v, v.i)
            else v.pc == RIdle && v.ec == NoSuchKey && forall j :: u.i <= j < |st.ents| ==> !Match(st.cfg, st.ents[j], u.key)
    decreases |st.ents| - u.i
  {
    if u.i == |st.ents| {
      LeadsStep(st, u);
      v := ReaderNext(st, u, ReadChoice.Step);
    } else {
      var next := LooksAtEntry(st, u);
      hide Leads, ReaderNext, Match;
      if next.pc == RCheck {
        v := next;
      } else {
        v := Scans(st, next);
        LeadsOn(st, u, next, v);
      }
    }
    hide Leads, ReaderNext;
  }

  // ----- the call -----

  /** The resolution kept from an earlier read still stands. */
  predicate Stands(st: State, u: Reader) {
    u.hit && u.i < |st.ents| && st.ents[u.i].state == Active && st.ents[u.i].tenancy == u.ten
  }

  function Called(st: State, u: Reader, key: seq<Word>, room: nat): Reader
    requires Sized(st) && ReaderShape(st, u) && u.pc == RIdle && ReaderEnabled(st, u, Begin(key, room))
  {
    ReaderNext(st, u, Begin(key, room))
  }

  lemma KeepsResolution(st: State, u: Reader) returns (v: Reader)
    requires Sized(st) && ReaderShape(st, u) && u.pc == RCached && Stands(st, u)
    ensures Leads(st, u, v) && ReaderShape(st, v) && v == u.(pc := RCheck)
  {
    var a := u.(pc := RCached2);
    LeadsStep(st, u);
    assert ReaderNext(st, u, ReadChoice.Step) == a;
    LeadsStep(st, a);
    v := ReaderNext(st, a, ReadChoice.Step);
    hide Leads, ReaderNext, ReaderShape;
    LeadsOn(st, u, a, v);
  }

  lemma DropsResolution(st: State, u: Reader) returns (v: Reader)
    requires Sized(st) && ReaderShape(st, u) && u.pc == RCached && !Stands(st, u)
    ensures Leads(st, u, v) && ReaderShape(st, v) && v == u.(pc := RState, hit := false, i := 0)
  {
    var a := ReaderNext(st, u, ReadChoice.Step);
    LeadsStep(st, u);
    if st.ents[u.i].state == Active {
      assert a == u.(pc := RCached2);
      LeadsStep(st, a);
      v := ReaderNext(st, a, ReadChoice.Step);
      hide Leads, ReaderNext, ReaderShape;
      LeadsOn(st, u, a, v);
    } else {
      v := a;
    }
  }

  /** resolve(), alone: the cached entry if it stands, else the first that matches, else none. */
  lemma Resolves(st: State, u: Reader, key: seq<Word>, room: nat) returns (v: Reader)
    requires Sized(st) && ReaderShape(st, u) && u.pc == RIdle && ReaderEnabled(st, u, Begin(key, room))
    ensures ReaderShape(st, Called(st, u, key, room)) && Leads(st, Called(st, u, key, room), v) && ReaderShape(st, v)
    ensures v.key == key && v.room == room
    ensures if Stands(st, u) then Resolved(st, v, u.i)
            else if v.pc == RCheck then v.i < |st.ents| && Match(st.cfg, st.ents[v.i], key) && Resolved(st, v, v.i)
            else v.pc == RIdle && v.ec == NoSuchKey && forall j :: 0 <= j < |st.ents| ==> !Match(st.cfg, st.ents[j], key)
  {
    var a := Called(st, u, key, room);
    ReaderShapeMove(st, u, Begin(key, room));
    if Stands(st, u) {
      v := KeepsResolution(st, a);
    } else if u.hit {
      var b := DropsResolution(st, a);
      v := Scans(st, b);
      LeadsOn(st, a, b, v);
    } else {
      v := Scans(st, a);
    }
    hide Leads, ReaderShape, Match;
  }

  /** The copy, once resolved to entry `v.i` with its tenancy. */
  lemma Copies(st: State, v: Reader, val: Value) returns (end: Reader)
    requires Sized(st) && ReaderShape(st, v) && Resolved(st, v, v.i)
    requires st.ents[v.i].publish >= 2 ==> Stored(st.cfg, st.ents[v.i].cells[(st.ents[v.i].publish / 2) % CELLS_PER_KEY], val)
    ensures Leads(st, v, end) && end.hit && end.i == v.i && end.key == v.key && end.pc == RIdle
    ensures var e := st.ents[v.i];
            if e.publish / 2 == 0 then end.ec == NoMessage
            else Tells(v, end, val, e.publish / 2, e.epoch)
  {
    var e := st.ents[v.i];
    var a := v.(pc := RPublish);
    LeadsStep(st, v);
    assert ReaderNext(st, v, ReadChoice.Step) == a;
    if e.publish / 2 == 0 {
      LeadsStep(st, a);
      end := ReaderNext(st, a, ReadChoice.Step);
    } else {
      assert Onto(st, a, val);
      hide Onto, ReadOn, ReaderNext, ReaderShape, Leads;
      ReadToEnd(st, a, val);
      end := ReadOn(st, a, StepsToRead(|val.words|, val.len <= a.room));
      LeadsBy(st, a, StepsToRead(|val.words|, val.len <= a.room));
    }
    hide ReadOn, ReaderNext, ReaderShape, Leads;
    LeadsOn(st, v, a, end);
  }

  lemma LeadsBy(st: State, u: Reader, n: nat)
    requires Sized(st) && ReaderShape(st, u)
    ensures Leads(st, u, ReadOn(st, u, n))
  {
  }

  // ----- what a reader is told -----

  /** The outcome is entry `i`'s last completed value, or that it has none yet. */
  ghost predicate Informs(st: State, end: Reader, i: nat, key: seq<Word>, room: nat)
    requires i < |st.ents|
  {
    var e := st.ents[i];
    var x := Write(i, e.epoch, e.publish / 2);
    && end.hit && end.i == i
    && if e.publish / 2 == 0 then end.ec == NoMessage
       else
         && x in st.hist
         && var v := st.hist[x];
            && end.ec == (if v.len <= room then Success else TooLarge)
            && end.got == Some(Outcome(i, key, room, v.len, if v.len <= room then Some(v.words) else None, v.stamp, x.w, x.epoch))
  }

  /** A cached resolution that stands names an entry that has the key. */
  lemma StandingKey(st: State, u: Reader, key: seq<Word>, room: nat, i: nat)
    requires Inv(st) && OneActive(st) && ReaderShape(st, u) && ReaderOk(st, u) && u.pc == RIdle
    requires ReaderEnabled(st, u, Begin(key, room)) && Stands(st, u)
    ensures st.cfg.SameKey(st.ents[u.i].key, key)
    ensures HasKey(st, i, key) ==> i == u.i
  {
    assert Keyed(st.ents[u.i]) && Fresh(st, u) && AtReaderOk(st, u);
    hide Inv;
    assert i < u.i ==> !Clash(st.cfg, st.ents[i], st.ents[u.i]);
    assert u.i < i < |st.ents| ==> !Clash(st.cfg, st.ents[u.i], st.ents[i]);
  }

  lemma LastValue(st: State, i: nat) returns (v: Value)
    requires Inv(st) && i < |st.ents|
    ensures var e := st.ents[i];
            var x := Write(i, e.epoch, e.publish / 2);
            e.publish >= 2 ==> x in st.hist && v == st.hist[x] && Sized(st) && Stored(st.cfg, e.cells[x.w % CELLS_PER_KEY], v)
  {
    var e := st.ents[i];
    v := Value([], 0, 0);
    if e.publish >= 2 {
      assert CellsOk(st, i);
      v := st.hist[Write(i, e.epoch, e.publish / 2)];
    }
    hide Stored;
  }

  lemma Answers(st: State, v: Reader, key: seq<Word>, room: nat) returns (end: Reader)
    requires Inv(st) && Sized(st) && ReaderShape(st, v) && Resolved(st, v, v.i) && v.key == key && v.room == room
    ensures Leads(st, v, end) && end.pc == RIdle && Informs(st, end, v.i, key, room)
    ensures end.ec != NoSuchKey
  {
    var val := LastValue(st, v.i);
    hide Inv, Stored, ReaderShape, Leads;
    end := Copies(st, v, val);
  }

  /** What is known of reader `r` in a reachable state. */
  lemma InReachable(states: seq<State>, steps: seq<Step>, n: nat, r: nat)
    requires Run(states, steps) && n <= |steps| && r < |states[n].readers|
    ensures var st, u := states[n], states[n].readers[r];
      && Inv(st) && OneActive(st) && Sized(st) && st.cfg.Valid() && ReaderShape(st, u) && ReaderOk(st, u) && EntriesOk(st) && Unique(st)
  {
    RunKeepsInv(states, steps, n);
    RunKeepsActive(states, steps, n);
    hide ValuesOk, HoldersOk, OneActive, Locked, ReaderOk;
  }

  /** A read of a board whose readers and writers rest. */
  lemma ReadsAlone(st: State, u: Reader, key: seq<Word>, room: nat) returns (end: Reader)
    requires Inv(st) && OneActive(st) && Sized(st) && st.cfg.Valid() && ReaderShape(st, u) && ReaderOk(st, u)
    requires EntriesOk(st) && Unique(st)
    requires u.pc == RIdle && ReaderEnabled(st, u, Begin(key, room))
    ensures ReaderShape(st, Called(st, u, key, room)) && Leads(st, Called(st, u, key, room), end) && end.pc == RIdle
    ensures forall i: nat :: HasKey(st, i, key) ==> Informs(st, end, i, key, room)
    ensures end.ec == NoSuchKey <==> !Stands(st, u) && forall i: nat :: !HasKey(st, i, key)
  {
    hide Inv, OneActive, ReaderShape, ReaderOk, ReaderNext, Leads, EntriesOk, Unique, Informs, Match, HasKey, Config.Valid;
    var v := Resolves(st, u, key, room);
    if v.pc == RCheck {
      end := Answers(st, v, key, room);
      LeadsOn(st, Called(st, u, key, room), v, end);
      if !Stands(st, u) { MatchMeansHasKey(st, v.i, key); }
      forall i: nat | HasKey(st, i, key) ensures i == v.i {
        if Stands(st, u) { StandingKey(st, u, key, room, i); } else { OnlyHolder(st, i, v.i, key); }
      }
    } else {
      end := v;
      forall i: nat ensures !HasKey(st, i, key) { NotHeld(st, i, key); }
    }
  }

  lemma NotHeld(st: State, i: nat, key: seq<Word>)
    requires st.cfg.Valid() && EntriesOk(st) && forall j :: 0 <= j < |st.ents| ==> !Match(st.cfg, st.ents[j], key)
    ensures !HasKey(st, i, key)
  {
    if i < |st.ents| { MatchMeansHasKey(st, i, key); }
    hide Match, EntriesOk;
  }

  /**
  From every reachable state, wherever writers and lock holders have died, a read that is left alone
  from its call ends: with the last completed value of the entry published under its key, whatever
  stands before that entry in the board; with "no message" if that entry was never written; and with
  "no such key" exactly when no entry is published under it and no earlier resolution still stands.
  */
  lemma ReadFindsTheKey(states: seq<State>, steps: seq<Step>, n: nat, r: nat, key: seq<Word>, room: nat)
      returns (end: Reader)
    requires Run(states, steps) && n <= |steps| && r < |states[n].readers|
    requires states[n].readers[r].pc == RIdle && ReaderEnabled(states[n], states[n].readers[r], Begin(key, room))
    ensures var st, u := states[n], states[n].readers[r];
      && Sized(st) && ReaderShape(st, u) && ReaderShape(st, Called(st, u, key, room))
      && Leads(st, Called(st, u, key, room), end) && end.pc == RIdle
    ensures forall i: nat :: HasKey(states[n], i, key) ==> Informs(states[n], end, i, key, room)
    ensures end.ec == NoSuchKey <==> !Stands(states[n], states[n].readers[r]) && forall i: nat :: !HasKey(states[n], i, key)
  {
    InReachable(states, steps, n, r);
    hide Run, Inv, OneActive, ReaderOk, ReaderShape, Informs, Leads;
    end := ReadsAlone(states[n], states[n].readers[r], key, room);
  }
}
