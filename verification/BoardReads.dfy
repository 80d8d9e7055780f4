/** Readers copy without the lock; what survives their re-checks is one completed write. */
module BoardReads {
  import Bits
  import opened BoardModel
  import opened BoardKeys
  import opened BoardValues

  /** The entry still has the tenancy the reader resolved, and that tenancy has a key and an epoch. */
  predicate Fresh(st: State, u: Reader)
    requires u.i < |st.ents|
  {
    st.ents[u.i].tenancy == u.ten > st.ents[u.i].base
  }

  /** How much of value `v` a reader at its program counter has copied. */
  predicate Copied(u: Reader, v: Value) {
    match u.pc
    case RWords => u.len == v.len && u.buf <= v.words
    case RStamp => u.len == v.len && (u.len <= u.room ==> u.buf == v.words)
    case RPublish2 => u.len == v.len && (u.len <= u.room ==> u.buf == v.words) && u.stamp == v.stamp
    case _ => true
  }

  /** A finished copy is the recorded write it is numbered for, under a key the reader asked for. */
  predicate Good(st: State, u: Reader) {
    var x, s := Write(u.i, u.epoch, u.before / 2), Slot(u.i, u.epoch);
    && x in st.hist && s in st.keyOf && st.cfg.SameKey(st.keyOf[s], u.key)
    && u.len == st.hist[x].len && u.stamp == st.hist[x].stamp
    && (u.len <= u.room ==> u.buf == st.hist[x].words)
  }

  /** The numbering is exact while publish fits its 64 bits. */
  predicate Fits(count: nat) { 2 * count + 3 <= Bits.T64 }

  /** The write is complete and was made to that entry under a key with the text asked for. */
  predicate Completed(st: State, o: Outcome) {
    var x, s := Write(o.i, o.epoch, o.count), Slot(o.i, o.epoch);
    && x in st.hist && s in st.keyOf && st.cfg.SameKey(st.keyOf[s], o.key)
    && o.len == st.hist[x].len && o.stamp == st.hist[x].stamp
    && o.words == if o.len <= o.room then Some(st.hist[x].words) else None
  }

  predicate Midway(st: State, u: Reader)
    requires u.i < |st.ents|
  {
    var e, w := st.ents[u.i], u.before / 2;
    && u.epoch == e.epoch && u.before <= e.publish
    && (e.publish < 2 * w + 3 ==> Write(u.i, u.epoch, w) in st.hist && Copied(u, st.hist[Write(u.i, u.epoch, w)]))
  }

  predicate AtReaderOk(st: State, u: Reader)
    requires u.i < |st.ents|
  {
    var e := st.ents[u.i];
    && u.ten <= e.tenancy
    && (u.pc.RKey? && Fresh(st, u) ==> u.kbuf <= e.key)
    && (u.pc.RMatch? && Fresh(st, u) ==> u.kbuf == e.key)
    && (u.hit && Fresh(st, u) ==> st.cfg.SameKey(e.key, u.key))
    && (Copying(u) && !u.pc.RTenancy2? && Fresh(st, u) ==> Midway(st, u))
    && (u.pc.RTenancy2? && e.tenancy == u.ten ==>
          Good(st, u) || u.after >= 2 * (u.before / 2) + 3 || u.after == 0)
  }

  predicate ReaderOk(st: State, u: Reader) {
    && (u.hit || u.pc.RKey? || u.pc.RMatch? ==> u.i < |st.ents| && AtReaderOk(st, u))
    && (u.got.Some? && Fits(u.got.value.count) ==> Completed(st, u.got.value))
  }

  ghost predicate ReadersOk(st: State) {
    forall r: nat :: r < |st.readers| ==> ReaderOk(st, st.readers[r])
  }

  // ----- other participants' steps -----

  lemma GoodKept(st: State, st': State, u: Reader)
    requires Recorded(st, st') && st'.cfg == st.cfg && Good(st, u)
    ensures Good(st', u)
  {
  }

  lemma ReaderAtEase(st: State, st': State, u: Reader)
    requires u.i < |st.ents| == |st'.ents| && AtReaderOk(st, u) && st'.cfg == st.cfg && Recorded(st, st')
    requires Goes(st.ents[u.i], st'.ents[u.i])
    ensures AtReaderOk(st', u)
  {
    if Fresh(st', u) { assert Fresh(st, u); }
    if u.pc.RTenancy2? && Good(st, u) { GoodKept(st, st', u); }
    hide Good, Recorded;
    assert Midway(st, u) && Fresh(st', u) ==> Midway(st', u) by { MidwayKept(st, st', u); }
  }

  lemma MidwayKept(st: State, st': State, u: Reader)
    requires u.i < |st.ents| == |st'.ents| && Recorded(st, st') && u.ten <= st.ents[u.i].tenancy
    requires Goes(st.ents[u.i], st'.ents[u.i])
    ensures Midway(st, u) && Fresh(st', u) ==> Midway(st', u)
  {
    hide Copied;
  }

  lemma ReaderUndisturbed(st: State, st': State, u: Reader)
    requires |st.ents| == |st'.ents| && ReaderOk(st, u) && st'.cfg == st.cfg && Recorded(st, st')
    requires forall i :: 0 <= i < |st.ents| ==> Goes(st.ents[i], st'.ents[i])
    ensures ReaderOk(st', u)
  {
    if u.i < |st.ents| && (u.hit || u.pc.RKey? || u.pc.RMatch?) { ReaderAtEase(st, st', u); }
    hide AtReaderOk, Goes;
  }

  // ----- a reader's own steps -----

  /** The entries and cells a reader meets. */
  ghost predicate BoardOk(st: State) {
    && Sized(st) && EntriesOk(st) && RecordsOk(st)
    && forall i: nat :: i < |st.ents| ==> CellsOk(st, i)
  }

  /** The cell a reader of publish word `before` copies still holds that value until the write after next begins. */
  lemma CellStands(st: State, u: Reader)
    requires BoardOk(st) && u.i < |st.ents| && u.before >= 2 && Fresh(st, u) && Midway(st, u)
    requires st.ents[u.i].publish < 2 * (u.before / 2) + 3
    ensures var x := Write(u.i, u.epoch, u.before / 2);
            && x in st.hist && Stored(st.cfg, st.ents[u.i].cells[(u.before / 2) % CELLS_PER_KEY], st.hist[x])
            && Copied(u, st.hist[x])
  {
    hide Stored, Copied, RecordsOk, EntriesOk;
    assert CellsOk(st, u.i);
    var c := st.ents[u.i].publish / 2;
    assert c == u.before / 2 || (c == u.before / 2 + 1 && st.ents[u.i].publish % 2 == 0);
  }

  lemma ResolveOk(st: State, u: Reader, c: ReadChoice)
    requires BoardOk(st) && ReaderShape(st, u) && ReaderEnabled(st, u, c) && ReaderOk(st, u)
    requires u.pc.RIdle? || Looking(u) || Cached(u)
    ensures ReaderOk(st, ReaderResolve(st, u, c))
  {
    assert u.i < |st.ents| ==> CellsShape(st.cfg, st.ents[u.i]);
    hide BoardOk, Good, Midway, Completed;
  }

  lemma PublishRead(st: State, u: Reader)
    requires BoardOk(st) && ReaderShape(st, u) && ReaderOk(st, u) && (u.pc == RCheck || u.pc == RPublish)
    ensures ReaderOk(st, ReaderCopy(st, u))
  {
    var e := st.ents[u.i];
    assert EntryOk(st.cfg, e) && CellsOk(st, u.i);
    hide BoardOk, Stored, Completed, Good;
  }

  lemma CellRead(st: State, u: Reader)
    requires BoardOk(st) && ReaderShape(st, u) && ReaderOk(st, u) && (u.pc == RLen || u.pc == RWords || u.pc == RStamp)
    ensures ReaderOk(st, ReaderCopy(st, u))
  {
    var e, w := st.ents[u.i], u.before / 2;
    if Fresh(st, u) && e.publish < 2 * w + 3 {
      CellStands(st, u);
      var v := st.hist[Write(u.i, u.epoch, w)];
      if u.pc == RWords && |u.buf| < |v.words| {
        assert v.words[|u.buf|] == e.cells[w % CELLS_PER_KEY].words[..|v.words|][|u.buf|];
      }
    }
    hide BoardOk, Completed, Good;
  }

  lemma CountsRead(st: State, u: Reader)
    requires BoardOk(st) && ReaderShape(st, u) && ReaderOk(st, u) && u.pc == RPublish2
    ensures ReaderOk(st, ReaderCopy(st, u))
  {
    var e, w := st.ents[u.i], u.before / 2;
    assert EntryOk(st.cfg, e) && KeyKnown(st, u.i);
    if Fresh(st, u) && e.publish < 2 * w + 3 { CellStands(st, u); }
    hide BoardOk, Completed, Stored;
  }

  /** The unsigned difference rejects a publish word behind the copy as surely as one too far ahead. */
  lemma Behind(after: nat, w: nat)
    requires Fits(w) && w >= 1 && (after >= 2 * w + 3 || after == 0)
    ensures Sub64(after, 2 * w) >= 2 * CELLS_PER_KEY - 1
  {
  }

  lemma Concluded(st: State, u: Reader)
    requires BoardOk(st) && ReaderShape(st, u) && ReaderOk(st, u) && u.pc == RTenancy2
    ensures ReaderOk(st, ReaderCopy(st, u))
  {
    var w := u.before / 2;
    if Fits(w) && (u.after >= 2 * w + 3 || u.after == 0) { Behind(u.after, w); }
    hide BoardOk, Sub64, Midway;
  }

  lemma ReaderNextOk(st: State, u: Reader, c: ReadChoice)
    requires BoardOk(st) && ReaderShape(st, u) && ReaderEnabled(st, u, c) && ReaderOk(st, u)
    ensures ReaderOk(st, ReaderNext(st, u, c))
  {
    hide BoardOk, Midway, Good, Completed, ReaderCopy, ReaderResolve;
    if c.Quit? {
    } else if u.pc.RIdle? || Looking(u) || Cached(u) {
      ResolveOk(st, u, c);
    } else if u.pc.RCheck? || u.pc.RPublish? {
      PublishRead(st, u);
    } else if u.pc.RPublish2? {
      CountsRead(st, u);
    } else if u.pc.RTenancy2? {
      Concluded(st, u);
    } else {
      CellRead(st, u);
    }
  }
}
