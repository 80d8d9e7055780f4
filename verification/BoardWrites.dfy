/** Writes, sweeps and releases left alone; and what is written is what is read. */
module BoardWrites {
  import opened BoardModel
  import opened BoardKeys
  import opened BoardValues
  import opened BoardGuarantees
  import opened BoardAlone
  import BoardResolve

  // ----- write -----

  /** The entry with another publish word and cell `c`. */
  function Rewritten(e: Entry, publish: nat, c: nat, cell: Cell): Entry
    requires c < |e.cells|
  {
    e.(publish := publish, cells := e.cells[c := cell])
  }

  /** The Writer at work on entry u.idx, whose cell `c` it is filling. */
  ghost predicate Writing(st: State, k: nat, u: Keeper, wr: WritePc) {
    && Here(st, k, u) && u.pc == KWrite(wr) && u.idx < |st.ents| && CellsShape(st.cfg, st.ents[u.idx])
    && |u.val.words| <= st.cfg.cellWords && wr != WState && wr != WTenancy
  }

  function Spare(u: Keeper): nat { (u.writes + 1) % CELLS_PER_KEY }

  /** From `st` to `end` only the Writer's entry and the record of writes moved on. */
  ghost predicate Wrote(st: State, end: State, k: nat, u: Keeper, publish: nat, cell: Cell) {
    && Aside(st, end, k) && end.lock == st.lock && u.idx < |st.ents| && Spare(u) < |st.ents[u.idx].cells|
    && end.ents == st.ents[u.idx := Rewritten(st.ents[u.idx], publish, Spare(u), cell)]
  }

  lemma WroteOn(st: State, mid: State, end: State, k: nat, u: Keeper, v: Keeper, p: nat, a: Cell, q: nat, b: Cell)
    requires Wrote(st, mid, k, u, p, a) && Wrote(mid, end, k, v, q, b) && v.idx == u.idx && v.writes == u.writes
    ensures Wrote(st, end, k, u, q, b)
  {
    var e := st.ents[u.idx];
    assert e.cells[Spare(u) := a][Spare(u) := b] == e.cells[Spare(u) := b];
  }

  lemma Opens(st: State, k: nat, u: Keeper) returns (end: State)
    requires Writing(st, k, u, WOpen)
    ensures Leads(st, k, end) && Writing(end, k, u.(pc := KWrite(WWords), j := 0), WWords) && end.hist == st.hist
    ensures Wrote(st, end, k, u, 2 * u.writes + 1, st.ents[u.idx].cells[Spare(u)])
  {
    var e := st.ents[u.idx];
    assert e.cells[Spare(u) := e.cells[Spare(u)]] == e.cells;
    hide Shape, KeeperShape, Leads;
    end := Acts(st, k, u, u.(pc := KWrite(WWords), j := 0), Open(u.idx, u.writes + 1));
  }

  /** The payload, word by word. */
  lemma {:induction false} Copies(st: State, k: nat, u: Keeper) returns (end: State, cell: Cell)
    requires Writing(st, k, u, WWords) && u.j <= |u.val.words|
    requires var c := st.ents[u.idx].cells[Spare(u)]; |c.words| == st.cfg.cellWords && c.words[..u.j] == u.val.words[..u.j]
    ensures Leads(st, k, end) && Writing(end, k, u.(pc := KWrite(WLen), j := |u.val.words|), WLen) && end.hist == st.hist
    ensures Wrote(st, end, k, u, st.ents[u.idx].publish, cell)
    ensures |cell.words| == st.cfg.cellWords && cell.words[..|u.val.words|] == u.val.words
    decreases |u.val.words| - u.j
  {
    if u.j == |u.val.words| {
      end, cell := CopyEnds(st, k, u);
    } else {
      var v := u.(j := u.j + 1);
      var mid, c := CopiesWord(st, k, u);
      hide Shape, KeeperShape, Leads, Here;
      end, cell := Copies(mid, k, v);
      LeadsOn(st, k, mid, end);
      WroteOn(st, mid, end, k, u, v, st.ents[u.idx].publish, c, st.ents[u.idx].publish, cell);
    }
  }

  lemma CopyEnds(st: State, k: nat, u: Keeper) returns (end: State, cell: Cell)
    requires Writing(st, k, u, WWords) && u.j == |u.val.words|
    requires var c := st.ents[u.idx].cells[Spare(u)]; |c.words| == st.cfg.cellWords && c.words[..u.j] == u.val.words[..u.j]
    ensures Leads(st, k, end) && Writing(end, k, u.(pc := KWrite(WLen)), WLen) && end.hist == st.hist
    ensures Wrote(st, end, k, u, st.ents[u.idx].publish, cell)
    ensures |cell.words| == st.cfg.cellWords && cell.words[..|u.val.words|] == u.val.words
  {
    var e := st.ents[u.idx];
    cell := e.cells[Spare(u)];
    assert e.cells[Spare(u) := cell] == e.cells;
    assert u.val.words[..u.j] == u.val.words;
    hide Shape, KeeperShape, Leads;
    end := Looks(st, k, u, u.(pc := KWrite(WLen)));
    assert st.ents[u.idx := e] == st.ents;
  }

  lemma CopiesWord(st: State, k: nat, u: Keeper) returns (end: State, cell: Cell)
    requires Writing(st, k, u, WWords) && u.j < |u.val.words|
    requires var c := st.ents[u.idx].cells[Spare(u)]; |c.words| == st.cfg.cellWords && c.words[..u.j] == u.val.words[..u.j]
    ensures Leads(st, k, end) && Writing(end, k, u.(j := u.j + 1), WWords) && end.hist == st.hist
    ensures Wrote(st, end, k, u, st.ents[u.idx].publish, cell) && cell == end.ents[u.idx].cells[Spare(u)]
    ensures |cell.words| == st.cfg.cellWords && cell.words[..u.j + 1] == u.val.words[..u.j + 1]
  {
    var c := st.ents[u.idx].cells[Spare(u)];
    cell := c.(words := c.words[u.j := u.val.words[u.j]]);
    assert cell.words[..u.j + 1] == c.words[..u.j] + [u.val.words[u.j]] == u.val.words[..u.j + 1];
    hide Shape, KeeperShape, Leads;
    end := Acts(st, k, u, u.(j := u.j + 1), PutWord(u.idx, Spare(u), u.j, u.val.words[u.j]));
  }

  /** The even publish word that completes the write. */
  lemma Closes(st: State, k: nat, u: Keeper) returns (end: State)
    requires Writing(st, k, u, WClose)
    ensures Leads(st, k, end) && Wrote(st, end, k, u, 2 * (u.writes + 1), st.ents[u.idx].cells[Spare(u)])
    ensures end.keepers[k] == u.(pc := KIdle, writes := u.writes + 1)
    ensures end.hist == st.hist[Write(u.idx, st.ents[u.idx].epoch, u.writes + 1) := u.val]
  {
    var e := st.ents[u.idx];
    assert e.cells[Spare(u) := e.cells[Spare(u)]] == e.cells;
    hide Shape, KeeperShape, Leads;
    end := Acts(st, k, u, u.(pc := KIdle, writes := u.writes + 1), Close(u.idx, u.writes + 1, u.val));
  }

  /** Length and stamp. */
  lemma Labels(st: State, k: nat, u: Keeper) returns (end: State, cell: Cell)
    requires Writing(st, k, u, WLen)
    ensures Leads(st, k, end) && Writing(end, k, u.(pc := KWrite(WClose)), WClose) && end.hist == st.hist
    ensures Wrote(st, end, k, u, st.ents[u.idx].publish, cell)
    ensures cell == Cell(st.ents[u.idx].cells[Spare(u)].words, u.val.len, u.val.stamp) == end.ents[u.idx].cells[Spare(u)]
  {
    var e := st.ents[u.idx];
    var c := e.cells[Spare(u)];
    cell := Cell(c.words, u.val.len, u.val.stamp);
    var a := PutsLen(st, k, u);
    hide Shape, KeeperShape, Leads, Here;
    end := PutsStamp(a, k, u.(pc := KWrite(WStamp)));
    LeadsOn(st, k, a, end);
    WroteOn(st, a, end, k, u, u.(pc := KWrite(WStamp)), e.publish, c.(len := u.val.len), e.publish, cell);
  }

  lemma PutsLen(st: State, k: nat, u: Keeper) returns (end: State)
    requires Writing(st, k, u, WLen)
    ensures Leads(st, k, end) && Writing(end, k, u.(pc := KWrite(WStamp)), WStamp) && end.hist == st.hist
    ensures var e := st.ents[u.idx]; Wrote(st, end, k, u, e.publish, e.cells[Spare(u)].(len := u.val.len))
  {
    hide Shape, KeeperShape, Leads;
    end := Acts(st, k, u, u.(pc := KWrite(WStamp)), PutLen(u.idx, Spare(u), u.val.len));
  }

  lemma PutsStamp(st: State, k: nat, u: Keeper) returns (end: State)
    requires Writing(st, k, u, WStamp)
    ensures Leads(st, k, end) && Writing(end, k, u.(pc := KWrite(WClose)), WClose) && end.hist == st.hist
    ensures var e := st.ents[u.idx]; Wrote(st, end, k, u, e.publish, e.cells[Spare(u)].(stamp := u.val.stamp))
  {
    hide Shape, KeeperShape, Leads;
    end := Acts(st, k, u, u.(pc := KWrite(WClose)), PutStamp(u.idx, Spare(u), u.val.stamp));
  }

  /** From the check of the entry to the completed write. */
  lemma Writes(st: State, k: nat, u: Keeper) returns (end: State, cell: Cell)
    requires Writing(st, k, u, WOpen) && ValueShape(st.cfg, u.val)
    ensures Leads(st, k, end) && Wrote(st, end, k, u, 2 * (u.writes + 1), cell) && Stored(st.cfg, cell, u.val)
    ensures end.keepers[k].pc == KIdle && end.hist == st.hist[Write(u.idx, st.ents[u.idx].epoch, u.writes + 1) := u.val]
  {
    hide Shape, KeeperShape, Leads, Here, Wrote, ValueShape;
    var a := Opens(st, k, u);
    var v := u.(pc := KWrite(WWords), j := 0);
    WroteCell(st, a, k, u, 2 * u.writes + 1, st.ents[u.idx].cells[Spare(u)]);
    var b, c := Copies(a, k, v);
    WroteOn(st, a, b, k, u, v, 2 * u.writes + 1, st.ents[u.idx].cells[Spare(u)], a.ents[u.idx].publish, c);
    LeadsOn(st, k, a, b);
    WroteCell(st, b, k, u, a.ents[u.idx].publish, c);
    end, cell := Finishes(st, b, k, u, u.(pc := KWrite(WLen), j := |u.val.words|), a.ents[u.idx].publish, c);
  }

  lemma WroteCell(st: State, end: State, k: nat, u: Keeper, publish: nat, cell: Cell)
    requires Wrote(st, end, k, u, publish, cell)
    ensures u.idx < |end.ents| == |st.ents| && Spare(u) < |end.ents[u.idx].cells| && end.ents[u.idx].cells[Spare(u)] == cell
    ensures end.ents[u.idx].publish == publish && end.ents[u.idx].epoch == st.ents[u.idx].epoch && end.cfg == st.cfg
  {
  }

  lemma Finishes(st: State, b: State, k: nat, u: Keeper, w: Keeper, p: nat, c: Cell) returns (end: State, cell: Cell)
    requires Writing(b, k, w, WLen) && Leads(st, k, b) && Wrote(st, b, k, u, p, c) && b.hist == st.hist && ValueShape(st.cfg, u.val)
    requires w == u.(pc := KWrite(WLen), j := |u.val.words|) && u.idx < |st.ents| && CellsShape(st.cfg, st.ents[u.idx])
    requires |c.words| == st.cfg.cellWords && |u.val.words| <= st.cfg.cellWords && c.words[..|u.val.words|] == u.val.words
    ensures Leads(st, k, end) && Wrote(st, end, k, u, 2 * (u.writes + 1), cell) && Stored(st.cfg, cell, u.val)
    ensures end.keepers[k].pc == KIdle && end.hist == st.hist[Write(u.idx, st.ents[u.idx].epoch, u.writes + 1) := u.val]
  {
    hide Shape, KeeperShape, Leads, Here, Wrote, ValueShape;
    WroteCell(st, b, k, u, p, c);
    var d;
    d, cell := Labels(b, k, w);
    LeadsOn(st, k, b, d);
    WroteOn(st, b, d, k, u, w, p, c, b.ents[u.idx].publish, cell);
    WroteCell(b, d, k, w, b.ents[u.idx].publish, cell);
    var x := w.(pc := KWrite(WClose));
    end := Closes(d, k, x);
    LeadsOn(st, k, d, end);
    WroteOn(st, d, end, k, u, x, b.ents[u.idx].publish, cell, 2 * (u.writes + 1), cell);
  }

  /** The checks of state and tenancy, for a Writer that still has its entry. */
  lemma Checks(st: State, k: nat, u: Keeper) returns (end: State)
    requires Here(st, k, u) && u.pc == KWrite(WState) && u.has && u.idx < |st.ents| && ValueShape(st.cfg, u.val)
    requires st.ents[u.idx].state == Active && st.ents[u.idx].tenancy == u.ten
    ensures Leads(st, k, end) && Writing(end, k, u.(pc := KWrite(WOpen)), WOpen) && k < |st.keepers|
    ensures end == With(st, k, u.(pc := KWrite(WOpen)))
  {
    assert CellsShape(st.cfg, st.ents[u.idx]);
    hide Shape, KeeperShape, Leads;
    var a := Looks(st, k, u, u.(pc := KWrite(WTenancy)));
    end := Looks(a, k, u.(pc := KWrite(WTenancy)), u.(pc := KWrite(WOpen)));
    LeadsOn(st, k, a, end);
  }

  lemma ChecksAndWrites(st: State, k: nat, u: Keeper) returns (end: State)
    requires Here(st, k, u) && u.pc == KWrite(WState) && u.has && u.idx < |st.ents| && ValueShape(st.cfg, u.val)
    requires st.ents[u.idx].state == Active && st.ents[u.idx].tenancy == u.ten
    ensures Leads(st, k, end) && Written(st, end, k, u)
  {
    hide Shape, KeeperShape, Leads, Here, ValueShape;
    var a := Checks(st, k, u);
    var cell: Cell;
    end, cell := Writes(a, k, u.(pc := KWrite(WOpen)));
    LeadsOn(st, k, a, end);
    hide CellsShape, Stored;
  }

  /** The value is the entry's last completed write, and nothing but its spare cell and publish word changed. */
  ghost predicate Written(st: State, end: State, k: nat, u: Keeper) {
    && Aside(st, end, k) && end.keepers[k].pc == KIdle && end.lock == st.lock
    && u.idx < |st.ents|
    && var e := st.ents[u.idx];
       && end.hist == st.hist[Write(u.idx, e.epoch, u.writes + 1) := u.val]
       && Spare(u) < |e.cells|
       && exists cell :: Stored(st.cfg, cell, u.val) && end.ents == st.ents[u.idx := Rewritten(e, 2 * (u.writes + 1), Spare(u), cell)]
  }

  /** What is known of a living Writer about to write. */
  lemma InReachable(states: seq<State>, steps: seq<Step>, k: nat)
    requires Run(states, steps) && Living(states[|steps|], k) && states[|steps|].keepers[k].pc == KWrite(WState)
    ensures var st, u := states[|steps|], states[|steps|].keepers[k];
      && Here(st, k, u) && u.has && u.idx < |st.ents| && ValueShape(st.cfg, u.val) && Published(st.ents[u.idx])
      && st.ents[u.idx].state == Active && st.ents[u.idx].tenancy == u.ten && st.ents[u.idx].publish / 2 == u.writes
  {
    RunKeepsInv(states, steps, |steps|);
    assert HandleOk(states[|steps|], states[|steps|].keepers[k]);
    hide HoldersOk, Locked;
  }

  /** From every reachable state a living Writer's write that is left alone completes. */
  lemma WriteCompletes(states: seq<State>, steps: seq<Step>, k: nat)
      returns (longer: seq<State>, more: seq<Step>)
    requires |states| == |steps| + 1 && Run(states, steps) && Living(states[|steps|], k)
    requires states[|steps|].keepers[k].pc == KWrite(WState)
    ensures |longer| == |more| + 1 && Run(longer, more) && steps <= more
    ensures forall i :: |steps| <= i < |more| ==> more[i] == KeeperStep(k, Choice.Go)
    ensures Written(states[|steps|], longer[|more|], k, states[|steps|].keepers[k])
  {
    InReachable(states, steps, k);
    var st := states[|steps|];
    hide Run, Here, Leads, Written, Alone;
    var end := ChecksAndWrites(st, k, st.keepers[k]);
    var n := StepsTo(st, k, end);
    longer, more := AloneRuns(states, steps, k, n, end);
  }

  /** A reader is told this value of entry `i`. */
  ghost predicate Told(end: Reader, i: nat, key: seq<Word>, room: nat, v: Value, count: nat) {
    && end.hit && end.i == i && end.ec == (if v.len <= room then Success else TooLarge)
    && end.got.Some?
    && var o := end.got.value;
       && o.i == i && o.key == key && o.room == room && o.len == v.len && o.stamp == v.stamp && o.count == count
       && o.words == if v.len <= room then Some(v.words) else None
  }

  /**
  What is written is what is read: after a write that completed undisturbed, any reader of that key
  that is then left alone gets its length, stamp and words, numbered by the write.
  */
  lemma WrittenIsRead(states: seq<State>, steps: seq<Step>, k: nat, r: nat, key: seq<Word>, room: nat)
      returns (longer: seq<State>, more: seq<Step>, end: Reader)
    requires |states| == |steps| + 1 && Run(states, steps) && Living(states[|steps|], k)
    requires states[|steps|].keepers[k].pc == KWrite(WState) && r < |states[|steps|].readers|
    requires var st, u := states[|steps|], states[|steps|].keepers[k];
             u.idx < |st.ents| && st.cfg.SameKey(st.ents[u.idx].key, key)
    requires states[|steps|].readers[r].pc == RIdle
    requires ReaderEnabled(states[|steps|], states[|steps|].readers[r], Begin(key, room))
    ensures |longer| == |more| + 1 && Run(longer, more) && steps <= more
    ensures var st, u := longer[|more|], states[|steps|].keepers[k];
      && r < |st.readers| && Sized(st) && ReaderShape(st, st.readers[r]) && st.readers[r] == states[|steps|].readers[r]
      && ReaderEnabled(st, st.readers[r], Begin(key, room))
      && ReaderShape(st, BoardResolve.Called(st, st.readers[r], key, room))
      && BoardResolve.Leads(st, BoardResolve.Called(st, st.readers[r], key, room), end)
      && Told(end, u.idx, key, room, u.val, u.writes + 1)
  {
    InReachable(states, steps, k);
    longer, more := WriteCompletes(states, steps, k);
    var st, u := longer[|more|], states[|steps|].keepers[k];
    WrittenHolds(states[|steps|], st, k, u, key);
    hide Run, Written, ReaderShape, BoardResolve.Leads;
    end := BoardResolve.ReadFindsTheKey(longer, more, |more|, r, key, room);
  }

  lemma WrittenHolds(st: State, end: State, k: nat, u: Keeper, key: seq<Word>)
    requires Written(st, end, k, u) && Published(st.ents[u.idx]) && st.cfg.SameKey(st.ents[u.idx].key, key)
    ensures HasKey(end, u.idx, key) && end.ents[u.idx].publish == 2 * (u.writes + 1) && end.readers == st.readers && end.cfg == st.cfg
    ensures Write(u.idx, end.ents[u.idx].epoch, u.writes + 1) in end.hist
    ensures end.hist[Write(u.idx, end.ents[u.idx].epoch, u.writes + 1)] == u.val
  {
  }

  // ----- sweep and release -----

  lemma LockInReachable(states: seq<State>, steps: seq<Step>, k: nat)
    requires Run(states, steps) && Living(states[|steps|], k) && states[|steps|].keepers[k].pc == KLoad
    ensures var st, u := states[|steps|], states[|steps|].keepers[k];
      && Here(st, k, u) && (st.lock.None? ==> Tidy(st))
      && (u.op.ReleaseOp? ==> u.has && u.idx < |st.ents| && HandleOk(st, u))
  {
    RunKeepsInv(states, steps, |steps|);
    assert KeeperShape(states[|steps|], states[|steps|].keepers[k]);
    hide HoldersOk, Locked;
  }

  lemma SweepsFrom(st: State, k: nat, u: Keeper) returns (board: State, end: State)
    requires Here(st, k, u) && u.pc == KLoad && u.op.SweepOp? && k < |st.keepers|
    requires (st.lock.None? || st.lock.value in st.dead) && (st.lock.None? ==> Tidy(st))
    ensures Leads(st, k, end) && Aside(st, board, k) && MendedFrom(st, board, 0) && Aside(st, end, k) && SweptFrom(board, end, 0)
    ensures end.lock == None && end.keepers[k].pc == KIdle && end.keepers[k].count == SweepCount(board, 0)
  {
    var v: Keeper;
    board, v := TakesTheLock(st, k, u);
    hide Shape, KeeperShape, Leads, Here, MendedFrom, Tidy, SweptFrom;
    var b := Sweeps(board, k, v);
    LeadsOn(st, k, board, b);
    end := Unlocks(b, k, SweepDone(v, |board.ents|, SweepCount(board, 0)));
    LeadsOn(st, k, b, end);
    SweptAlike(board, b, end);
  }

  lemma SweptAlike(st: State, b: State, end: State)
    requires SweptFrom(st, b, 0) && end.ents == b.ents
    ensures SweptFrom(st, end, 0)
  {
  }

  /** A sweep left alone frees exactly the entries of dead owners, and counts them. */
  lemma SweepFreesTheDead(states: seq<State>, steps: seq<Step>, k: nat)
      returns (longer: seq<State>, more: seq<Step>, board: State)
    requires |states| == |steps| + 1 && Run(states, steps) && Living(states[|steps|], k)
    requires var st, u := states[|steps|], states[|steps|].keepers[k];
             u.pc == KLoad && u.op.SweepOp? && (st.lock.None? || st.lock.value in st.dead)
    ensures |longer| == |more| + 1 && Run(longer, more) && steps <= more
    ensures var st, end := states[|steps|], longer[|more|];
      && Aside(st, board, k) && MendedFrom(st, board, 0) && Aside(st, end, k) && SweptFrom(board, end, 0)
      && end.lock == None && end.keepers[k].pc == KIdle && end.keepers[k].count == SweepCount(board, 0)
  {
    LockInReachable(states, steps, k);
    var st := states[|steps|];
    hide Run, Here, Leads, Tidy, MendedFrom, SweptFrom, Alone;
    var end;
    board, end := SweepsFrom(st, k, st.keepers[k]);
    var n := StepsTo(st, k, end);
    longer, more := AloneRuns(states, steps, k, n, end);
  }

  lemma ReleasesFrom(st: State, k: nat, u: Keeper) returns (board: State, end: State)
    requires Here(st, k, u) && u.pc == KLoad && u.op.ReleaseOp? && k < |st.keepers| && u.has && u.idx < |st.ents| && HandleOk(st, u)
    requires (st.lock.None? || st.lock.value in st.dead) && (st.lock.None? ==> Tidy(st))
    ensures Leads(st, k, end) && Aside(st, board, k) && MendedFrom(st, board, 0) && Aside(st, end, k)
    ensures end.lock == None && end.keepers[k].pc == KIdle && !end.keepers[k].has
    ensures var e := st.ents[u.idx]; end.ents == board.ents[u.idx := e.(owner := 0, tenancy := e.tenancy + 1)]
  {
    var v: Keeper;
    board, v := TakesTheLock(st, k, u);
    assert board.ents[u.idx] == st.ents[u.idx];
    hide Shape, KeeperShape, Leads, Here, MendedFrom, Tidy;
    end := Releases(board, k, v);
    LeadsOn(st, k, board, end);
  }

  /** A living Writer's release left alone leaves the entry Active with its value, unowned, at a tenancy no handle fits. */
  lemma ReleaseLeavesTheValue(states: seq<State>, steps: seq<Step>, k: nat)
      returns (longer: seq<State>, more: seq<Step>, board: State)
    requires |states| == |steps| + 1 && Run(states, steps) && Living(states[|steps|], k)
    requires var st, u := states[|steps|], states[|steps|].keepers[k];
             u.pc == KLoad && u.op.ReleaseOp? && (st.lock.None? || st.lock.value in st.dead)
    ensures |longer| == |more| + 1 && Run(longer, more) && steps <= more
    ensures var st, u, end := states[|steps|], states[|steps|].keepers[k], longer[|more|];
      && Aside(st, board, k) && MendedFrom(st, board, 0) && Aside(st, end, k)
      && end.lock == None && end.keepers[k].pc == KIdle && !end.keepers[k].has && u.idx < |st.ents|
      && var e := st.ents[u.idx];
         e.state == Active && end.ents == board.ents[u.idx := e.(owner := 0, tenancy := e.tenancy + 1)]
  {
    LockInReachable(states, steps, k);
    var st := states[|steps|];
    hide Run, Here, Leads, Tidy, MendedFrom, Alone;
    var end;
    board, end := ReleasesFrom(st, k, st.keepers[k]);
    var n := StepsTo(st, k, end);
    longer, more := AloneRuns(states, steps, k, n, end);
  }
}
