/** declare() with nobody else running, from the board lock to the Writer or the refusal. */
module BoardDeclare {
  import opened BoardModel
  import opened BoardKeys
  import opened BoardAlone
  import opened BoardGuarantees

  // ----- first pass -----

  /** The entries before `i` do not match. */
  ghost predicate NoneBefore(st: State, key: seq<Word>, i: nat) {
    forall j :: 0 <= j < i && j < |st.ents| ==> !Match(st.cfg, st.ents[j], key)
  }

  /** Where the first pass ends. */
  ghost predicate Scanned(st: State, u: Keeper, v: Keeper) {
    if v.pc == KFind then v == u.(pc := KFind, i := 0) && NoneBefore(st, u.key, |st.ents|)
    else
      && v.i < |st.ents| && Match(st.cfg, st.ents[v.i], u.key)
      && v == u.(pc := if Takeable(st, st.ents[v.i]) then KTake(TOwner) else KUnlock, i := v.i)
  }

  lemma {:induction false} Scans(st: State, k: nat, u: Keeper) returns (end: State, v: Keeper)
    requires Here(st, k, u) && u.pc == KScan && u.i <= |st.ents| && NoneBefore(st, u.key, u.i)
    ensures Leads(st, k, end) && Here(end, k, v) && k < |st.keepers| && end == With(st, k, v) && Scanned(st, u, v)
    decreases |st.ents| - u.i
  {
    hide *;
    end, v := ScanStep(st, k, u);
    if v.pc == KScan {
      var mid, w := end, v;
      end, v := Scans(mid, k, w);
      LeadsOn(st, k, mid, end);
      ScannedAlike(st, mid, u, w, v, k);
    }
  }

  lemma ScanStep(st: State, k: nat, u: Keeper) returns (end: State, v: Keeper)
    requires Here(st, k, u) && u.pc == KScan && u.i <= |st.ents| && NoneBefore(st, u.key, u.i)
    ensures Leads(st, k, end) && Here(end, k, v) && k < |st.keepers| && end == With(st, k, v) && end.ents == st.ents
    ensures if v.pc == KScan then v == u.(i := u.i + 1) && u.i < |st.ents| && NoneBefore(end, v.key, v.i) else Scanned(st, u, v)
  {
    v := KeeperScan(st, u);
    end := Looks(st, k, u, v);
    hide Shape, KeeperShape, Leads;
  }

  lemma ScannedAlike(st: State, mid: State, u: Keeper, w: Keeper, v: Keeper, k: nat)
    requires k < |st.keepers| && mid == With(st, k, w) && w == u.(i := w.i) && Scanned(mid, w, v)
    ensures Scanned(st, u, v) && With(mid, k, v) == With(st, k, v)
  {
  }

  /** Takeover: owner, tenancy, and a Writer at the count the value has. */
  lemma Takes(st: State, k: nat, u: Keeper) returns (end: State)
    requires Here(st, k, u) && u.pc == KTake(TOwner) && u.i < |st.ents|
    ensures var e := st.ents[u.i];
      && Leads(st, k, end) && Aside(st, end, k) && end.lock == st.lock
      && end.ents == st.ents[u.i := e.(owner := u.proc, tenancy := e.tenancy + 1)]
      && Here(end, k, u.(pc := KUnlock, has := true, idx := u.i, ten := e.tenancy + 1, writes := e.publish / 2))
  {
    hide Shape, KeeperShape, Leads, Here;
    var b := TakesNumber(st, k, u);
    end := Issues(b, k, u.(pc := KTake(TDone), ten := st.ents[u.i].tenancy + 1));
    LeadsOn(st, k, b, end);
  }

  lemma TakesNumber(st: State, k: nat, u: Keeper) returns (end: State)
    requires Here(st, k, u) && u.pc == KTake(TOwner) && u.i < |st.ents|
    ensures var e := st.ents[u.i];
      && Leads(st, k, end) && Aside(st, end, k) && end.lock == st.lock
      && end.ents == st.ents[u.i := e.(owner := u.proc, tenancy := e.tenancy + 1)]
      && Here(end, k, u.(pc := KTake(TDone), ten := e.tenancy + 1))
  {
    var e := st.ents[u.i];
    hide Shape, KeeperShape, Leads;
    var a := Acts(st, k, u, u.(pc := KTake(TTenancy)), PutOwner(u.i, u.proc));
    end := Acts(a, k, u.(pc := KTake(TTenancy)), u.(pc := KTake(TDone), ten := e.tenancy + 1), Bump(u.i));
    LeadsOn(st, k, a, end);
  }

  lemma Issues(st: State, k: nat, u: Keeper) returns (end: State)
    requires Here(st, k, u) && u.pc == KTake(TDone) && u.i < |st.ents|
    ensures Leads(st, k, end) && Aside(st, end, k) && end.lock == st.lock && end.ents == st.ents
    ensures Here(end, k, u.(pc := KUnlock, has := true, idx := u.i, writes := st.ents[u.i].publish / 2))
  {
    hide Shape, KeeperShape, Leads;
    end := Acts(st, k, u, u.(pc := KUnlock, has := true, idx := u.i, writes := st.ents[u.i].publish / 2), Issue(u.i, u.ten));
    assert st.ents[u.i := st.ents[u.i]] == st.ents;
  }

  // ----- second pass -----

  ghost predicate NoneFree(st: State, i: nat) {
    forall j :: 0 <= j < i && j < |st.ents| ==> st.ents[j].state != Free
  }

  /** Where the second pass ends: at the first Free entry, before its one sweep, or with nothing. */
  ghost predicate Found(st: State, u: Keeper, v: Keeper) {
    if v.pc == KClaim(CState) then
      v.i < |st.ents| && st.ents[v.i].state == Free && NoneFree(st, v.i) && v == u.(pc := KClaim(CState), i := v.i)
    else
      && NoneFree(st, |st.ents|)
      && if u.swept then v == u.(pc := KUnlock, i := |st.ents|) else v == u.(pc := KSweep, i := 0, count := 0, swept := true)
  }

  lemma {:induction false} FindsFree(st: State, k: nat, u: Keeper) returns (end: State, v: Keeper)
    requires Here(st, k, u) && u.pc == KFind && u.i <= |st.ents| && NoneFree(st, u.i)
    ensures Leads(st, k, end) && Here(end, k, v) && k < |st.keepers| && end == With(st, k, v) && Found(st, u, v)
    decreases |st.ents| - u.i
  {
    hide *;
    end, v := FindStep(st, k, u);
    if v.pc == KFind {
      var mid, w := end, v;
      end, v := FindsFree(mid, k, w);
      LeadsOn(st, k, mid, end);
      FoundAlike(st, mid, u, w, v, k);
    }
  }

  lemma FindStep(st: State, k: nat, u: Keeper) returns (end: State, v: Keeper)
    requires Here(st, k, u) && u.pc == KFind && u.i <= |st.ents| && NoneFree(st, u.i)
    ensures Leads(st, k, end) && Here(end, k, v) && k < |st.keepers| && end == With(st, k, v) && end.ents == st.ents
    ensures if v.pc == KFind then v == u.(i := u.i + 1) && u.i < |st.ents| && NoneFree(end, v.i) else Found(st, u, v)
  {
    v := KeeperFind(st, u);
    end := Looks(st, k, u, v);
    hide Shape, KeeperShape, Leads;
  }

  lemma FoundAlike(st: State, mid: State, u: Keeper, w: Keeper, v: Keeper, k: nat)
    requires k < |st.keepers| && mid == With(st, k, w) && w == u.(i := w.i) && Found(mid, w, v)
    ensures Found(st, u, v) && With(mid, k, v) == With(st, k, v)
  {
  }

  /** A claimed entry: published under the key, owned, at a new tenancy, with nothing written. */
  function Claimed(cfg: Config, e: Entry, u: Keeper): Entry {
    e.(state := Active, publish := 0, epoch := e.epoch + 1, base := e.tenancy, key := u.key, owner := u.proc,
       hash := cfg.Print(u.key), tenancy := e.tenancy + 1)
  }

  /** The key, word by word. */
  lemma {:induction false} StoresKey(st: State, k: nat, u: Keeper) returns (end: State)
    requires Here(st, k, u) && u.pc == KClaim(CKey) && u.i < |st.ents| && u.j <= |u.key| == st.cfg.keyWords
    requires |st.ents[u.i].key| == st.cfg.keyWords && st.ents[u.i].key[..u.j] == u.key[..u.j]
    ensures Leads(st, k, end) && Aside(st, end, k) && end.lock == st.lock
    ensures end.ents == st.ents[u.i := st.ents[u.i].(key := u.key)] && Here(end, k, u.(pc := KClaim(COwner), j := |u.key|))
    decreases |u.key| - u.j
  {
    var e := st.ents[u.i];
    if u.j == |u.key| {
      assert e.key == e.key[..u.j] && e.key == u.key;
      assert st.ents[u.i := e.(key := u.key)] == st.ents;
      hide Shape, KeeperShape, Leads;
      end := Looks(st, k, u, u.(pc := KClaim(COwner)));
    } else {
      var v := u.(j := u.j + 1);
      var mid := StoresWord(st, k, u);
      assert mid.ents[u.i].key[..v.j] == u.key[..v.j];
      hide Shape, KeeperShape, Leads, Here, KeeperNext;
      end := StoresKey(mid, k, v);
      LeadsOn(st, k, mid, end);
    }
  }

  lemma StoresWord(st: State, k: nat, u: Keeper) returns (end: State)
    requires Here(st, k, u) && u.pc == KClaim(CKey) && u.i < |st.ents| && u.j < |u.key| == st.cfg.keyWords
    requires |st.ents[u.i].key| == st.cfg.keyWords
    ensures Leads(st, k, end) && Aside(st, end, k) && end.lock == st.lock && Here(end, k, u.(j := u.j + 1))
    ensures end.ents == st.ents[u.i := st.ents[u.i].(key := st.ents[u.i].key[u.j := u.key[u.j]])]
  {
    hide Shape, KeeperShape, Leads;
    end := Acts(st, k, u, u.(j := u.j + 1), PutKeyWord(u.i, u.j, u.key[u.j]));
  }

  lemma ClaimStarts(st: State, k: nat, u: Keeper) returns (end: State)
    requires Here(st, k, u) && u.pc == KClaim(CState) && u.i < |st.ents|
    ensures Leads(st, k, end) && Aside(st, end, k) && end.lock == st.lock && Here(end, k, u.(pc := KClaim(CKey), j := 0))
    ensures var e := st.ents[u.i];
            end.ents == st.ents[u.i := e.(state := Claiming, publish := 0, epoch := e.epoch + 1, base := e.tenancy)]
  {
    hide Shape, KeeperShape, Leads;
    var a := Acts(st, k, u, u.(pc := KClaim(CReset)), PutState(u.i, Claiming));
    end := Acts(a, k, u.(pc := KClaim(CReset)), u.(pc := KClaim(CKey), j := 0), Reset(u.i));
    LeadsOn(st, k, a, end);
  }

  lemma ClaimSigns(st: State, k: nat, u: Keeper) returns (end: State)
    requires Here(st, k, u) && u.pc == KClaim(COwner) && u.i < |st.ents|
    ensures Leads(st, k, end) && Aside(st, end, k) && end.lock == st.lock && Here(end, k, u.(pc := KClaim(CTenancy)))
    ensures end.ents == st.ents[u.i := st.ents[u.i].(owner := u.proc, hash := st.cfg.Print(u.key))]
  {
    hide Shape, KeeperShape, Leads;
    var a := Acts(st, k, u, u.(pc := KClaim(CHash)), PutOwner(u.i, u.proc));
    end := Acts(a, k, u.(pc := KClaim(CHash)), u.(pc := KClaim(CTenancy)), PutHash(u.i, st.cfg.Print(u.key)));
    LeadsOn(st, k, a, end);
  }

  lemma ClaimPublishes(st: State, k: nat, u: Keeper) returns (end: State)
    requires Here(st, k, u) && u.pc == KClaim(CTenancy) && u.i < |st.ents|
    ensures Leads(st, k, end) && Aside(st, end, k) && end.lock == st.lock
    ensures var e := st.ents[u.i];
      && end.ents == st.ents[u.i := e.(tenancy := e.tenancy + 1, state := Active)]
      && Here(end, k, u.(pc := KUnlock, has := true, idx := u.i, ten := e.tenancy + 1, writes := 0))
  {
    hide Shape, KeeperShape, Leads;
    var a := Acts(st, k, u, u.(pc := KClaim(CActive)), Bump(u.i));
    var b := Acts(a, k, u.(pc := KClaim(CActive)), u.(pc := KClaim(CDone)), PutState(u.i, Active));
    LeadsOn(st, k, a, b);
    end := ClaimIssues(b, k, u.(pc := KClaim(CDone)));
    LeadsOn(st, k, b, end);
  }

  lemma ClaimIssues(st: State, k: nat, u: Keeper) returns (end: State)
    requires Here(st, k, u) && u.pc == KClaim(CDone) && u.i < |st.ents|
    ensures Leads(st, k, end) && Aside(st, end, k) && end.lock == st.lock && end.ents == st.ents
    ensures Here(end, k, u.(pc := KUnlock, has := true, idx := u.i, ten := st.ents[u.i].tenancy, writes := 0))
  {
    hide Shape, KeeperShape, Leads;
    var ten := st.ents[u.i].tenancy;
    end := Acts(st, k, u, u.(pc := KUnlock, has := true, idx := u.i, ten := ten, writes := 0), Issue(u.i, ten));
    assert st.ents[u.i := st.ents[u.i]] == st.ents;
  }

  /** A Free entry becomes the key's, with a Writer. */
  lemma Claims(st: State, k: nat, u: Keeper) returns (end: State)
    requires Here(st, k, u) && u.pc == KClaim(CState) && u.i < |st.ents| && |u.key| == st.cfg.keyWords
    requires |st.ents[u.i].key| == st.cfg.keyWords
    ensures var e := st.ents[u.i];
      && Leads(st, k, end) && Aside(st, end, k) && end.lock == st.lock
      && end.ents == st.ents[u.i := Claimed(st.cfg, e, u)]
      && Here(end, k, u.(pc := KUnlock, j := |u.key|, has := true, idx := u.i, ten := e.tenancy + 1, writes := 0))
  {
    hide Shape, KeeperShape, Leads, Here;
    var a := ClaimStarts(st, k, u);
    var v := u.(pc := KClaim(CKey), j := 0);
    assert a.ents[u.i].key[..0] == u.key[..0];
    var b := StoresKey(a, k, v);
    LeadsOn(st, k, a, b);
    var c := ClaimSigns(b, k, u.(pc := KClaim(COwner), j := |u.key|));
    LeadsOn(st, k, b, c);
    end := ClaimPublishes(c, k, u.(pc := KClaim(CTenancy), j := |u.key|));
    LeadsOn(st, k, c, end);
  }

  // ----- the outcomes -----

  /** No Writer, and the board as it was. */
  ghost predicate Refused(st: State, end: State, k: nat) {
    k < |end.keepers| && !end.keepers[k].has && end.ents == st.ents
  }

  /** A Writer of entry `j`, which keeps its value and its count. */
  ghost predicate TookOver(st: State, end: State, k: nat, u: Keeper, j: nat) {
    && j < |st.ents| && k < |end.keepers|
    && var e, w := st.ents[j], end.keepers[k];
       && w.has && w.idx == j && w.ten == e.tenancy + 1 && w.writes == e.publish / 2
       && end.ents == st.ents[j := e.(owner := u.proc, tenancy := e.tenancy + 1)]
  }

  /** A Writer of entry `j` of board `was`, claimed for the key. */
  ghost predicate Claimant(was: State, end: State, k: nat, u: Keeper, j: nat) {
    && j < |was.ents| && k < |end.keepers|
    && var e, w := was.ents[j], end.keepers[k];
       && e.state == Free && w.has && w.idx == j && w.ten == e.tenancy + 1 && w.writes == 0
       && end.ents == was.ents[j := Claimed(was.cfg, e, u)]
  }

  ghost predicate SomeFree(st: State) { exists j :: 0 <= j < |st.ents| && st.ents[j].state == Free }
  ghost predicate SomeDead(st: State) { exists j :: 0 <= j < |st.ents| && DeadOwned(st, st.ents[j]) }

  /** A key nobody holds goes to the first Free entry, else to one a sweep frees, else nowhere. */
  ghost predicate Placed(st: State, end: State, k: nat, u: Keeper) {
    if SomeFree(st) then exists j :: Claimant(st, end, k, u, j)
    else if SomeDead(st) then exists was: State, j: nat :: SweptFrom(st, was, 0) && was.cfg == st.cfg && Claimant(was, end, k, u, j)
    else Refused(st, end, k)
  }

  /** A declare's outcome on a board without residue. */
  ghost predicate Declared(st: State, end: State, k: nat, u: Keeper) {
    && (forall j: nat :: HasKey(st, j, u.key) ==>
          if Takeable(st, st.ents[j]) then TookOver(st, end, k, u, j) else Refused(st, end, k))
    && ((forall j: nat :: !HasKey(st, j, u.key)) ==> Placed(st, end, k, u))
  }

  lemma {:induction false} CountPositive(st: State, i: nat)
    ensures SweepCount(st, i) > 0 <==> exists j :: i <= j < |st.ents| && DeadOwned(st, st.ents[j])
    decreases |st.ents| - i
  {
    if i < |st.ents| { CountPositive(st, i + 1); }
  }

  /** From the claim to the end of the call. */
  lemma ClaimsAndLeaves(st: State, k: nat, u: Keeper) returns (end: State)
    requires Here(st, k, u) && u.pc == KClaim(CState) && u.i < |st.ents| && st.ents[u.i].state == Free && Sized(st)
    ensures Leads(st, k, end) && Aside(st, end, k) && end.lock == None && Claimant(st, end, k, u, u.i) && end.keepers[k].pc == KIdle
  {
    var e := st.ents[u.i];
    assert CellsShape(st.cfg, e);
    hide Shape, KeeperShape, Leads;
    var b := Claims(st, k, u);
    end := Unlocks(b, k, u.(pc := KUnlock, j := |u.key|, has := true, idx := u.i, ten := e.tenancy + 1, writes := 0));
    LeadsOn(st, k, b, end);
  }

  /** The second pass without a sweep before it. */
  lemma Places(st: State, k: nat, u: Keeper) returns (end: State)
    requires Here(st, k, u) && u.pc == KFind && u.i == 0 && !u.swept && !u.has && Tidy(st)
    ensures Leads(st, k, end) && Aside(st, end, k) && end.lock == None && Placed(st, end, k, u) && end.keepers[k].pc == KIdle
  {
    var a, v := FindsFree(st, k, u);
    if v.pc == KClaim(CState) {
      end := PlacesFree(st, a, k, u, v);
    } else {
      end := PlacesSwept(st, a, k, u, v);
    }
    hide Leads, Placed;
  }

  lemma PlacesFree(st: State, a: State, k: nat, u: Keeper, v: Keeper) returns (end: State)
    requires Leads(st, k, a) && Here(a, k, v) && k < |st.keepers| && a == With(st, k, v) && Found(st, u, v) && v.pc == KClaim(CState)
    ensures Leads(st, k, end) && Aside(st, end, k) && end.lock == None && Placed(st, end, k, u) && end.keepers[k].pc == KIdle
  {
    assert st.ents[v.i].state == Free;
    hide Shape, KeeperShape, Leads;
    end := ClaimsAndLeaves(a, k, v);
    LeadsOn(st, k, a, end);
    assert Claimed(st.cfg, st.ents[v.i], v) == Claimed(st.cfg, st.ents[v.i], u);
    assert Claimant(st, end, k, u, v.i);
  }

  lemma PlacesSwept(st: State, a: State, k: nat, u: Keeper, v: Keeper) returns (end: State)
    requires Leads(st, k, a) && Here(a, k, v) && k < |st.keepers| && a == With(st, k, v) && Found(st, u, v) && v.pc == KSweep
    requires Tidy(st) && !u.has && u.op.DeclareOp?
    ensures Leads(st, k, end) && Aside(st, end, k) && end.lock == None && Placed(st, end, k, u) && end.keepers[k].pc == KIdle
  {
    CountPositive(st, 0);
    assert !SomeFree(st) && v.count == 0 && v.swept && v.key == u.key && v.proc == u.proc;
    var b := SweepsBoard(st, a, k, v);
    hide Shape, KeeperShape, Leads, Tidy, SweptFrom;
    var w := SweepDone(v, |st.ents|, SweepCount(st, 0));
    if SweepCount(st, 0) > 0 {
      end := PlacesFreed(st, b, k, u, w);
    } else {
      NothingSwept(st, b);
      end := Unlocks(b, k, w);
    }
    LeadsOn(st, k, b, end);
  }

  lemma NothingSwept(st: State, b: State)
    requires SweptFrom(st, b, 0) && !SomeDead(st)
    ensures b.ents == st.ents
  {
  }

  lemma SweepsBoard(st: State, a: State, k: nat, v: Keeper) returns (b: State)
    requires Leads(st, k, a) && Here(a, k, v) && k < |st.keepers| && a == With(st, k, v) && v.pc == KSweep && v.i == v.count == 0
    requires Tidy(st)
    ensures Leads(st, k, b) && Aside(st, b, k) && SweptFrom(st, b, 0)
    ensures Here(b, k, SweepDone(v, |st.ents|, SweepCount(st, 0)))
  {
    CountSame(a, st, 0);
    hide Shape, KeeperShape, Leads, NeedsNorm;
    b := Sweeps(a, k, v);
    LeadsOn(st, k, a, b);
  }

  /** A swept board has a Free entry for the key. */
  lemma PlacesFreed(st: State, b: State, k: nat, u: Keeper, w: Keeper) returns (end: State)
    requires Here(b, k, w) && w.pc == KFind && w.i == 0 && w.swept && w.key == u.key && w.proc == u.proc
    requires SweptFrom(st, b, 0) && b.cfg == st.cfg && !SomeFree(st) && SomeDead(st)
    ensures Leads(b, k, end) && Aside(b, end, k) && end.lock == None && Placed(st, end, k, u) && end.keepers[k].pc == KIdle
  {
    var j :| 0 <= j < |st.ents| && DeadOwned(st, st.ents[j]);
    assert b.ents[j].state == Free;
    var c, v := FindsFree(b, k, w);
    assert v.pc == KClaim(CState);
    hide Shape, KeeperShape, Leads;
    end := ClaimsAndLeaves(c, k, v);
    LeadsOn(b, k, c, end);
    assert Claimed(b.cfg, b.ents[v.i], v) == Claimed(b.cfg, b.ents[v.i], u);
    assert Claimant(b, end, k, u, v.i);
  }

  lemma TakesAndLeaves(st: State, a: State, k: nat, u: Keeper, v: Keeper) returns (end: State)
    requires Leads(st, k, a) && Here(a, k, v) && k < |st.keepers| && a == With(st, k, v) && v.i < |st.ents|
    requires v == u.(pc := KTake(TOwner), i := v.i)
    ensures Leads(st, k, end) && Aside(st, end, k) && end.lock == None && TookOver(st, end, k, u, v.i) && end.keepers[k].pc == KIdle
  {
    var e := st.ents[v.i];
    hide Shape, KeeperShape, Leads;
    var b := Takes(a, k, v);
    LeadsOn(st, k, a, b);
    end := Unlocks(b, k, v.(pc := KUnlock, has := true, idx := v.i, ten := e.tenancy + 1, writes := e.publish / 2));
    LeadsOn(st, k, b, end);
  }

  lemma RefusesAndLeaves(st: State, a: State, k: nat, u: Keeper, v: Keeper) returns (end: State)
    requires Leads(st, k, a) && Here(a, k, v) && k < |st.keepers| && a == With(st, k, v)
    requires v == u.(pc := KUnlock, i := v.i) && !u.has
    ensures Leads(st, k, end) && Aside(st, end, k) && end.lock == None && Refused(st, end, k) && end.keepers[k].pc == KIdle
  {
    hide Shape, KeeperShape, Leads;
    end := Unlocks(a, k, v);
    LeadsOn(st, k, a, end);
  }

  /** The holder's declare, from its first look at the board. */
  lemma Declares(st: State, k: nat, u: Keeper) returns (end: State)
    requires Here(st, k, u) && u.pc == KScan && u.i == 0 && !u.swept && !u.has && u.op.DeclareOp? && Tidy(st)
    requires st.cfg.Valid() && EntriesOk(st) && Unique(st)
    ensures Leads(st, k, end) && Aside(st, end, k) && end.lock == None && Declared(st, end, k, u) && end.keepers[k].pc == KIdle
  {
    var a, v := Scans(st, k, u);
    if v.pc == KFind {
      NobodyHolds(st, u, v);
      end := PlacesAfter(st, a, k, u, v);
    } else if Takeable(st, st.ents[v.i]) {
      HeldBy(st, u, v);
      end := TakesAndLeaves(st, a, k, u, v);
    } else {
      HeldBy(st, u, v);
      end := RefusesAndLeaves(st, a, k, u, v);
    }
    hide Leads, HasKey, TookOver, Refused, Placed, Takeable;
  }

  lemma NobodyHolds(st: State, u: Keeper, v: Keeper)
    requires st.cfg.Valid() && EntriesOk(st) && Scanned(st, u, v) && v.pc == KFind
    ensures forall j: nat :: !HasKey(st, j, u.key)
  {
    hide Match, EntriesOk;
    forall j: nat ensures !HasKey(st, j, u.key) {
      if j < |st.ents| { MatchMeansHasKey(st, j, u.key); }
    }
  }

  lemma HeldBy(st: State, u: Keeper, v: Keeper)
    requires st.cfg.Valid() && EntriesOk(st) && Unique(st) && Scanned(st, u, v) && v.pc != KFind
    ensures v.i < |st.ents| && HasKey(st, v.i, u.key) && forall j: nat :: HasKey(st, j, u.key) ==> j == v.i
  {
    hide Match, EntriesOk, Unique, HasKey;
    MatchMeansHasKey(st, v.i, u.key);
    forall j: nat | HasKey(st, j, u.key) ensures j == v.i { OnlyHolder(st, j, v.i, u.key); }
  }

  lemma PlacesAfter(st: State, a: State, k: nat, u: Keeper, v: Keeper) returns (end: State)
    requires Leads(st, k, a) && Here(a, k, v) && k < |st.keepers| && a == With(st, k, v) && Scanned(st, u, v) && v.pc == KFind
    requires !u.swept && !u.has && Tidy(st)
    ensures Leads(st, k, end) && Aside(st, end, k) && end.lock == None && Placed(st, end, k, u) && end.keepers[k].pc == KIdle
  {
    hide Shape, KeeperShape, Leads, Placed, NeedsNorm;
    end := Places(a, k, v);
    LeadsOn(st, k, a, end);
    PlacedAlike(st, a, end, k, u, v);
  }

  lemma PlacedAlike(st: State, a: State, end: State, k: nat, u: Keeper, v: Keeper)
    requires a.ents == st.ents && a.cfg == st.cfg && a.dead == st.dead && v.key == u.key && v.proc == u.proc && Placed(a, end, k, v)
    ensures Placed(st, end, k, u)
  {
    assert forall e: Entry :: Claimed(st.cfg, e, v) == Claimed(st.cfg, e, u);
    if SomeFree(st) {
      var j :| Claimant(a, end, k, v, j);
      assert Claimant(st, end, k, u, j);
    } else if SomeDead(st) {
      var was: State, j: nat :| SweptFrom(a, was, 0) && was.cfg == a.cfg && Claimant(was, end, k, v, j);
      assert SweptFrom(st, was, 0) && Claimant(was, end, k, u, j);
    }
  }

  // ----- the call -----

  /** Repair publishes nothing and unpublishes nothing. */
  lemma MendedKeys(st: State, board: State, j: nat, key: seq<Word>)
    requires MendedFrom(st, board, 0) && board.cfg == st.cfg
    ensures HasKey(board, j, key) <==> HasKey(st, j, key)
    ensures HasKey(st, j, key) ==> board.ents[j] == st.ents[j]
  {
  }

  lemma MendedInOrder(st: State, board: State)
    requires MendedFrom(st, board, 0) && board.cfg == st.cfg && EntriesOk(st) && Unique(st)
    ensures EntriesOk(board) && Unique(board)
  {
    forall i: nat | i < |st.ents| ensures EntryOk(st.cfg, board.ents[i]) { assert EntryOk(st.cfg, st.ents[i]); }
    forall i: nat, j: nat | i < j < |st.ents| ensures !Rivals(st.cfg, board.ents[i], board.ents[j]) {
      assert !Rivals(st.cfg, st.ents[i], st.ents[j]);
    }
  }

  /** What is known of a declare waiting for the lock in a reachable state. */
  lemma InReachable(states: seq<State>, steps: seq<Step>, k: nat)
    requires Run(states, steps) && Living(states[|steps|], k) && states[|steps|].keepers[k].pc == KLoad
    ensures var st, u := states[|steps|], states[|steps|].keepers[k];
      && Here(st, k, u) && st.cfg.Valid() && EntriesOk(st) && Unique(st) && (st.lock.None? ==> Tidy(st))
      && (u.op.DeclareOp? ==> !u.has)
  {
    RunKeepsInv(states, steps, |steps|);
    hide HoldersOk, Locked;
  }

  lemma DeclaresFrom(st: State, k: nat, u: Keeper) returns (board: State, end: State)
    requires Here(st, k, u) && u.pc == KLoad && u.op.DeclareOp? && !u.has && k < |st.keepers|
    requires st.cfg.Valid() && EntriesOk(st) && Unique(st)
    requires (st.lock.None? || st.lock.value in st.dead) && (st.lock.None? ==> Tidy(st))
    ensures Leads(st, k, end) && Aside(st, board, k) && Aside(st, end, k) && MendedFrom(st, board, 0)
    ensures Declared(board, end, k, u) && end.lock == None && end.keepers[k].pc == KIdle
  {
    var v: Keeper;
    board, v := TakesTheLock(st, k, u);
    MendedInOrder(st, board);
    hide Shape, KeeperShape, Leads, NeedsNorm, EntriesOk, Unique, MendedFrom, Config.Valid, Tidy;
    end := Declares(board, k, v);
    LeadsOn(st, k, board, end);
    DeclaredAlike(board, end, k, v, u);
  }

  lemma DeclaredAlike(st: State, end: State, k: nat, v: Keeper, u: Keeper)
    requires Declared(st, end, k, v) && u.key == v.key && u.proc == v.proc
    ensures Declared(st, end, k, u)
  {
    forall j: nat | HasKey(st, j, u.key) && Takeable(st, st.ents[j]) ensures TookOver(st, end, k, u, j) {
      assert TookOver(st, end, k, v, j);
    }
    if forall j: nat :: !HasKey(st, j, u.key) { PlacedAlike(st, st, end, k, u, v); }
    hide Placed, HasKey, TookOver, Refused;
  }

  /**
  From every reachable state in which the board lock is free or its holder dead, a declare that is
  left alone ends: with a Writer of the entry published under its key if that entry is unowned or its
  owner dead, value and count kept; with none, and the board as repair left it, if the owner lives;
  and, if no entry is published under the key, with a Writer of a Free entry, else of one a sweep of
  dead owners frees, else with none.
  */
  lemma DeclareGetsTheKey(states: seq<State>, steps: seq<Step>, k: nat)
      returns (longer: seq<State>, more: seq<Step>, board: State)
    requires |states| == |steps| + 1 && Run(states, steps) && Living(states[|steps|], k)
    requires var st, u := states[|steps|], states[|steps|].keepers[k];
             u.pc == KLoad && u.op.DeclareOp? && (st.lock.None? || st.lock.value in st.dead)
    ensures |longer| == |more| + 1 && Run(longer, more) && steps <= more
    ensures forall i :: |steps| <= i < |more| ==> more[i] == KeeperStep(k, Choice.Go)
    ensures var st, u, end := states[|steps|], states[|steps|].keepers[k], longer[|more|];
      && MendedFrom(st, board, 0) && Aside(st, board, k) && Aside(st, end, k)
      && Declared(board, end, k, u) && end.lock == None && end.keepers[k].pc == KIdle
  {
    InReachable(states, steps, k);
    var st, u := states[|steps|], states[|steps|].keepers[k];
    hide Run, Here, Leads, Tidy, EntriesOk, Unique, Declared, MendedFrom, Config.Valid, Alone;
    var end;
    board, end := DeclaresFrom(st, k, u);
    var n := StepsTo(st, k, end);
    longer, more := AloneRuns(states, steps, k, n, end);
  }
}
