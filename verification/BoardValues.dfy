/**
The two cells of an entry: what completed writes left in them, and what a write in progress,
finished or not, may disturb.
*/
module BoardValues {
  import opened BoardModel
  import opened BoardKeys
  import opened BoardHolder
  import opened BoardLockKept
  import opened BoardWriters

  predicate Stored(cfg: Config, cell: Cell, v: Value) {
    && ValueShape(cfg, v) && cell.len == v.len && cell.stamp == v.stamp
    && |v.words| <= |cell.words| && cell.words[..|v.words|] == v.words
  }

  /** The last completed value, and between writes the one before it, are in their cells. */
  predicate CellsIn(cfg: Config, hist: map<Write, Value>, i: nat, e: Entry)
    requires |e.cells| == CELLS_PER_KEY
  {
    var c := e.publish / 2;
    && (forall w :: 1 <= w <= c ==> Write(i, e.epoch, w) in hist)
    && (c >= 1 ==> Stored(cfg, e.cells[c % CELLS_PER_KEY], hist[Write(i, e.epoch, c)]))
    && (c >= 2 && e.publish % 2 == 0 ==>
          Stored(cfg, e.cells[(c - 1) % CELLS_PER_KEY], hist[Write(i, e.epoch, c - 1)]))
  }

  predicate CellsOk(st: State, i: nat)
    requires Sized(st) && i < |st.ents|
  {
    CellsIn(st.cfg, st.hist, i, st.ents[i])
  }

  /** A recorded write was completed, and a recorded key belongs to an epoch that got a tenancy. */
  predicate WriteKnown(st: State, x: Write) {
    && x.i < |st.ents| && x.epoch <= st.ents[x.i].epoch
    && (x.epoch == st.ents[x.i].epoch ==> x.w <= st.ents[x.i].publish / 2)
  }

  predicate SlotKnown(st: State, x: Slot) {
    && x.i < |st.ents| && x.epoch <= st.ents[x.i].epoch
    && (x.epoch == st.ents[x.i].epoch ==> st.ents[x.i].tenancy > st.ents[x.i].base)
  }

  predicate KeyKnown(st: State, i: nat)
    requires i < |st.ents|
  {
    var e := st.ents[i];
    e.tenancy > e.base ==> Slot(i, e.epoch) in st.keyOf && st.keyOf[Slot(i, e.epoch)] == e.key
  }

  ghost predicate RecordsOk(st: State) {
    && (forall x :: x in st.hist ==> WriteKnown(st, x))
    && (forall x :: x in st.keyOf ==> SlotKnown(st, x))
    && (forall i: nat :: i < |st.ents| ==> KeyKnown(st, i))
  }

  /** How far a write in progress has come: the first `j` words, the length, the stamp. */
  predicate Partial(cell: Cell, v: Value, j: nat) {
    j <= |v.words| && j <= |cell.words| && cell.words[..j] == v.words[..j]
  }

  predicate WriteOk(cfg: Config, e: Entry, k: Keeper, pc: WritePc)
    requires CellsShape(cfg, e)
  {
    var w := k.writes + 1;
    var cell := e.cells[w % CELLS_PER_KEY];
    match pc
    case WState => true
    case WTenancy => true
    case WOpen => true
    case WWords => e.publish == 2 * w - 1 && Partial(cell, k.val, k.j)
    case WLen => e.publish == 2 * w - 1 && Partial(cell, k.val, |k.val.words|)
    case WStamp => e.publish == 2 * w - 1 && Partial(cell, k.val, |k.val.words|) && cell.len == k.val.len
    case WClose => e.publish == 2 * w - 1 && Stored(cfg, cell, k.val)
  }

  predicate WriterOk(st: State, k: Keeper)
    requires Sized(st)
  {
    k.pc.KWrite? ==> k.idx < |st.ents| && WriteOk(st.cfg, st.ents[k.idx], k, k.pc.wr)
  }

  ghost predicate WritersOk(st: State)
    requires Sized(st)
  {
    forall k: nat :: Living(st, k) ==> WriterOk(st, st.keepers[k])
  }

  ghost predicate ValuesOk(st: State) {
    && Sized(st) && RecordsOk(st) && WritersOk(st)
    && forall i: nat :: i < |st.ents| ==> CellsOk(st, i)
  }

  // ----- accesses -----

  /** What keeps the cells and records in order: a write goes to the cell the last value is not in. */
  ghost predicate Orderly(st: State, acc: Access)
    requires Sized(st) && InRange(st.cfg, |st.ents|, acc)
  {
    match acc
    case PutKeyWord(i, _, _) => st.ents[i].tenancy == st.ents[i].base
    case Open(i, w) => w == st.ents[i].publish / 2 + 1
    case PutWord(i, c, _, _) => Spare(st.ents[i], c)
    case PutLen(i, c, _) => Spare(st.ents[i], c)
    case PutStamp(i, c, _) => Spare(st.ents[i], c)
    case Close(i, w, v) =>
      st.ents[i].publish == 2 * w - 1 && Stored(st.cfg, st.ents[i].cells[w % CELLS_PER_KEY], v)
    case _ => true
  }

  predicate Spare(e: Entry, c: nat) { e.publish % 2 == 1 && c == (e.publish / 2 + 1) % CELLS_PER_KEY }

  ghost predicate Recorded(st: State, st': State) {
    && (forall x :: x in st.hist ==> x in st'.hist && st'.hist[x] == st.hist[x])
    && (forall x :: x in st.keyOf ==> x in st'.keyOf && st'.keyOf[x] == st.keyOf[x])
  }

  /** How an entry moves: within one tenancy of one epoch its key stays and publish only grows. */
  predicate Goes(e: Entry, e': Entry) {
    && e'.tenancy >= e.tenancy
    && (e'.tenancy == e.tenancy && e'.tenancy > e'.base ==>
          e'.base == e.base && e'.epoch == e.epoch && e'.key == e.key && e'.publish >= e.publish)
  }

  /** What an access does to the counters of an entry. */
  ghost predicate Counted(st: State, acc: Access, i: nat)
    requires Sized(st) && InRange(st.cfg, |st.ents|, acc) && i < |st.ents|
  {
    var e, e', mine := st.ents[i], Perform(st, acc).ents[i], On(acc, i);
      && e'.publish == (if !mine then e.publish else match acc
                        case Reset(_) => 0
                        case Open(_, w) => 2 * w - 1
                        case Close(_, w, _) => 2 * w
                        case _ => e.publish)
      && e'.tenancy == e.tenancy + (if mine && acc.Bump? then 1 else 0)
      && e'.epoch == e.epoch + (if mine && acc.Reset? then 1 else 0)
      && e'.base == (if mine && acc.Reset? then e.tenancy else e.base)
      && ((mine && acc.PutKeyWord?) || e'.key == e.key)
      && ((mine && (acc.PutWord? || acc.PutLen? || acc.PutStamp?)) || e'.cells == e.cells)
  }

  lemma Counters(st: State, acc: Access, i: nat)
    requires Sized(st) && InRange(st.cfg, |st.ents|, acc) && i < |st.ents|
    ensures Counted(st, acc, i)
  {
  }

  lemma Parts(st: State, acc: Access)
    requires Sized(st) && InRange(st.cfg, |st.ents|, acc)
    ensures var st' := Perform(st, acc);
      && st'.cfg == st.cfg && |st'.ents| == |st.ents| && st'.hist == HistAfter(st, acc) && st'.keyOf == KeysAfter(st, acc)
  {
  }

  lemma OrderlyHistory(st: State, acc: Access)
    requires Sized(st) && InRange(st.cfg, |st.ents|, acc) && Orderly(st, acc) && RecordsOk(st)
    ensures Recorded(st, Perform(st, acc))
    ensures acc.Close? ==> Write(acc.i, st.ents[acc.i].epoch, acc.w) !in st.hist
  {
    hide Stored, Perform;
    Parts(st, acc);
    if acc.Close? {
      assert Write(acc.i, st.ents[acc.i].epoch, acc.w) in st.hist ==> WriteKnown(st, Write(acc.i, st.ents[acc.i].epoch, acc.w));
    }
    if acc.Bump? {
      assert Slot(acc.i, st.ents[acc.i].epoch) in st.keyOf ==> SlotKnown(st, Slot(acc.i, st.ents[acc.i].epoch));
    }
    hide RecordsOk, WriteKnown, SlotKnown;
  }

  lemma OrderlyRecords(st: State, acc: Access)
    requires Sized(st) && InRange(st.cfg, |st.ents|, acc) && Orderly(st, acc)
    requires EntriesOk(st) && RecordsOk(st)
    ensures RecordsOk(Perform(st, acc)) && Recorded(st, Perform(st, acc))
  {
    hide Stored, Published, Perform, Spare, Recorded;
    Parts(st, acc);
    OrderlyHistory(st, acc);
    var st' := Perform(st, acc);
    forall x | x in st'.hist ensures WriteKnown(st', x) {
      assert x in st.hist ==> WriteKnown(st, x);
      Counters(st, acc, x.i);
    }
    forall x | x in st'.keyOf ensures SlotKnown(st', x) {
      assert x in st.keyOf ==> SlotKnown(st, x);
      Counters(st, acc, x.i);
    }
    forall i: nat | i < |st.ents| ensures KeyKnown(st', i) {
      assert EntryOk(st.cfg, st.ents[i]) && KeyKnown(st, i);
      Counters(st, acc, i);
    }
  }

  lemma OrderlyGoes(st: State, acc: Access, i: nat)
    requires Sized(st) && InRange(st.cfg, |st.ents|, acc) && Orderly(st, acc) && i < |st.ents|
    ensures Goes(st.ents[i], Perform(st, acc).ents[i])
  {
    Counters(st, acc, i);
    hide Stored, Perform;
  }

  lemma SpareCells(st: State, acc: Access)
    requires Sized(st) && InRange(st.cfg, |st.ents|, acc) && (acc.PutWord? || acc.PutLen? || acc.PutStamp?)
    ensures var cells, cells' := st.ents[acc.i].cells, Perform(st, acc).ents[acc.i].cells;
            |cells'| == |cells| == CELLS_PER_KEY && cells'[1 - acc.c] == cells[1 - acc.c]
            && Perform(st, acc).hist == st.hist
  {
  }

  lemma CellsAlike(cfg: Config, hist: map<Write, Value>, hist': map<Write, Value>, i: nat, e: Entry, e': Entry)
    requires |e.cells| == CELLS_PER_KEY && CellsIn(cfg, hist, i, e)
    requires e'.cells == e.cells && e'.publish == e.publish && e'.epoch == e.epoch
    requires forall x :: x in hist ==> x in hist' && hist'[x] == hist[x]
    ensures CellsIn(cfg, hist', i, e')
  {
    hide Stored;
  }

  lemma CellsOpened(cfg: Config, hist: map<Write, Value>, i: nat, e: Entry, e': Entry)
    requires |e.cells| == CELLS_PER_KEY && CellsIn(cfg, hist, i, e)
    requires e'.cells == e.cells && e'.publish == 2 * (e.publish / 2 + 1) - 1 && e'.epoch == e.epoch
    ensures CellsIn(cfg, hist, i, e')
  {
    hide Stored;
    assert e'.publish / 2 == e.publish / 2;
  }

  lemma CellsFilled(cfg: Config, hist: map<Write, Value>, i: nat, e: Entry, e': Entry, c: nat)
    requires |e.cells| == |e'.cells| == CELLS_PER_KEY && CellsIn(cfg, hist, i, e) && Spare(e, c)
    requires e'.cells[1 - c] == e.cells[1 - c] && e'.publish == e.publish && e'.epoch == e.epoch
    ensures CellsIn(cfg, hist, i, e')
  {
    hide Stored;
    assert (e.publish / 2) % CELLS_PER_KEY == 1 - c;
  }

  lemma CellsClosed(cfg: Config, hist: map<Write, Value>, i: nat, e: Entry, e': Entry, w: nat, v: Value)
    requires |e.cells| == CELLS_PER_KEY && CellsIn(cfg, hist, i, e) && Write(i, e.epoch, w) !in hist
    requires e.publish == 2 * w - 1 && Stored(cfg, e.cells[w % CELLS_PER_KEY], v)
    requires e'.cells == e.cells && e'.publish == 2 * w && e'.epoch == e.epoch
    ensures CellsIn(cfg, hist[Write(i, e.epoch, w) := v], i, e')
  {
    hide Stored;
    assert e.publish / 2 == w - 1;
  }

  lemma OrderlyCells(st: State, acc: Access, i: nat)
    requires Sized(st) && InRange(st.cfg, |st.ents|, acc) && Orderly(st, acc) && i < |st.ents|
    requires RecordsOk(st) && CellsOk(st, i) && Sized(Perform(st, acc))
    ensures CellsOk(Perform(st, acc), i)
  {
    hide Stored, RecordsOk, Perform, CellsIn;
    var st' := Perform(st, acc);
    Parts(st, acc);
    OrderlyHistory(st, acc);
    Counters(st, acc, i);
    var e, e' := st.ents[i], st'.ents[i];
    if acc.PutWord? || acc.PutLen? || acc.PutStamp? { SpareCells(st, acc); }
    if !On(acc, i) {
      CellsAlike(st.cfg, st.hist, st'.hist, i, e, e');
    } else {
      match acc
      case Reset(_) => NoCells(st.cfg, st'.hist, i, e');
      case Open(_, _) => CellsOpened(st.cfg, st.hist, i, e, e');
      case PutWord(_, c, _, _) => CellsFilled(st.cfg, st.hist, i, e, e', c);
      case PutLen(_, c, _) => CellsFilled(st.cfg, st.hist, i, e, e', c);
      case PutStamp(_, c, _) => CellsFilled(st.cfg, st.hist, i, e, e', c);
      case Close(_, w, v) => CellsClosed(st.cfg, st.hist, i, e, e', w, v);
      case _ => CellsAlike(st.cfg, st.hist, st'.hist, i, e, e');
    }
  }

  lemma NoCells(cfg: Config, hist: map<Write, Value>, i: nat, e: Entry)
    requires |e.cells| == CELLS_PER_KEY && e.publish == 0
    ensures CellsIn(cfg, hist, i, e)
  {
  }

  // ----- writes, store by store -----

  lemma PrefixGrows(s: seq<Word>, t: seq<Word>, j: nat)
    requires j < |s| && j < |t| && s[..j] == t[..j]
    ensures s[j := t[j]][..j + 1] == t[..j + 1]
  {
    assert forall n :: 0 <= n < j ==> s[n] == s[..j][n] == t[..j][n] == t[n];
  }

  lemma WriteOrderly(st: State, k: Keeper, pc: WritePc)
    requires Sized(st) && KeeperShape(st, k) && k.pc == KWrite(pc) && HandleOk(st, k) && WriterOk(st, k)
    ensures var mv := KeeperWrite(st, k, pc); InRange(st.cfg, |st.ents|, mv.acc) && Orderly(st, mv.acc)
  {
    hide OpShape;
  }

  lemma WriteProgress(st: State, k: Keeper, pc: WritePc)
    requires Sized(st) && KeeperShape(st, k) && k.pc == KWrite(pc) && HandleOk(st, k) && WriterOk(st, k)
    requires InRange(st.cfg, |st.ents|, KeeperWrite(st, k, pc).acc) && Sized(Perform(st, KeeperWrite(st, k, pc).acc))
    ensures WriterOk(Perform(st, KeeperWrite(st, k, pc).acc), KeeperWrite(st, k, pc).k)
  {
    var cell := st.ents[k.idx].cells[(k.writes + 1) % CELLS_PER_KEY];
    if pc.WWords? && k.j < |k.val.words| { PrefixGrows(cell.words, k.val.words, k.j); }
    hide OpShape, Published, HandleOk;
  }

  lemma KeeperOrderly(st: State, k: nat, c: Choice)
    requires KeysOk(st) && ValuesOk(st) && KeeperReady(st, k, c)
    ensures Orderly(st, KeeperDoes(st, k, c).acc)
  {
    var w, mv := st.keepers[k], KeeperDoes(st, k, c);
    KeeperKeepsKeys(st, k, c);
    if w.pc.KWrite? {
      HeldTight(st, k);
      WriteOrderly(st, w, w.pc.wr);
    }
    hide KeeperDoes, KeeperNext, KeysOk, ValuesOk, Shape, HolderOk, Careful, Hands;
  }

  // ----- every step keeps the values -----

  lemma OwnWriter(st: State, k: nat, c: Choice)
    requires KeysOk(st) && ValuesOk(st) && KeeperReady(st, k, c) && Sized(KeeperTo(st, k, c))
    ensures WriterOk(KeeperTo(st, k, c), KeeperDoes(st, k, c).k)
  {
    var w, mv, st' := st.keepers[k], KeeperDoes(st, k, c), KeeperTo(st, k, c);
    KeeperKeepsKeys(st, k, c);
    assert KeeperTo(st, k, c) == After(st, k, mv);
    if w.pc.KWrite? {
      AccessKeepsShape(st, mv.acc);
      HeldTight(st, k);
      WriteProgress(st, w, w.pc.wr);
      AfterFrame(st, k, mv);
      assert st'.ents == Perform(st, mv.acc).ents;
      hide KeeperDoes, KeeperTo, After, Perform, KeysOk, Shape, WriteOk;
    } else {
      hide KeeperDoes, KeeperTo, After, KeysOk, Shape, HolderOk, Careful, Hands, RecordsOk, CellsOk;
      assert mv.k.pc.KWrite? ==> mv.k.pc == KWrite(WState) && mv.k.has;
    }
  }

  lemma WritersKept(st: State, k: nat, c: Choice)
    requires KeysOk(st) && ValuesOk(st) && KeeperReady(st, k, c) && Sized(KeeperTo(st, k, c))
    ensures WritersOk(KeeperTo(st, k, c))
  {
    var mv, st' := KeeperDoes(st, k, c), KeeperTo(st, k, c);
    KeeperKeepsKeys(st, k, c);
    assert KeeperTo(st, k, c) == After(st, k, mv);
    AfterFrame(st, k, mv);
    OwnWriter(st, k, c);
    hide KeeperDoes, KeeperTo, After, Perform, Kinds, KeysOk, WriteOk, RecordsOk, CellsOk;
    forall h: nat | Living(st', h) ensures WriterOk(st', st'.keepers[h]) {
      if h != k {
        assert WriterOk(st, st.keepers[h]) && KeeperShape(st, st.keepers[h]);
        if st.keepers[h].pc.KWrite? && Touches(mv.acc) { OthersUntouched(st, k, mv, h); }
      }
    }
  }

  lemma KeeperKeepsValues(st: State, k: nat, c: Choice)
    requires KeysOk(st) && ValuesOk(st) && KeeperReady(st, k, c)
    ensures ValuesOk(KeeperTo(st, k, c)) && Recorded(st, KeeperTo(st, k, c))
    ensures forall i :: 0 <= i < |st.ents| ==> Goes(st.ents[i], KeeperTo(st, k, c).ents[i])
  {
    var mv, st' := KeeperDoes(st, k, c), KeeperTo(st, k, c);
    KeeperKeepsShape(st, k, c);
    KeeperOrderly(st, k, c);
    WritersKept(st, k, c);
    AccessKeepsShape(st, mv.acc);
    OrderlyRecords(st, mv.acc);
    hide KeeperDoes, Perform, Shape, WritersOk, CellsOk, Orderly, RecordsOk, Recorded, Goes;
    forall i: nat | i < |st.ents| ensures CellsOk(Perform(st, mv.acc), i) && Goes(st.ents[i], Perform(st, mv.acc).ents[i]) {
      OrderlyCells(st, mv.acc, i);
      OrderlyGoes(st, mv.acc, i);
    }
    ValuesAlike(st, Perform(st, mv.acc), st');
  }

  /** Cells and records do not depend on who is running. */
  lemma ValuesAlike(st: State, a: State, b: State)
    requires Sized(a) && Sized(b) && b.ents == a.ents && b.cfg == a.cfg && b.hist == a.hist && b.keyOf == a.keyOf
    requires RecordsOk(a) && Recorded(st, a) && forall i: nat :: i < |a.ents| ==> CellsOk(a, i)
    ensures RecordsOk(b) && Recorded(st, b) && forall i: nat :: i < |b.ents| ==> CellsOk(b, i)
  {
    forall i: nat | i < |b.ents| ensures KeyKnown(b, i) { assert KeyKnown(a, i); }
    forall x | x in b.hist ensures WriteKnown(b, x) { assert WriteKnown(a, x); }
    forall x | x in b.keyOf ensures SlotKnown(b, x) { assert SlotKnown(a, x); }
    forall i: nat | i < |b.ents| ensures CellsOk(b, i) { assert CellsOk(a, i); }
  }
}
