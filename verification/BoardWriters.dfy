/** A living Writer's claim is never taken from it, and no two Writers share a tenancy. */
module BoardWriters {
  import opened BoardModel
  import opened BoardKeys
  import opened BoardHolder
  import opened BoardLockKept

  /** The entry of a living Writer is not loose. */
  lemma HeldTight(st: State, h: nat)
    requires KeysOk(st) && Living(st, h) && st.keepers[h].has
    ensures var u := st.keepers[h];
            && u.idx < |st.ents| && HandleOk(st, u) && !Loose(st, st.ents[u.idx]) && Tenure(u.idx, u.ten) in st.issued
            && st.ents[u.idx].tenancy > st.ents[u.idx].base
  {
    hide Locked, Unique, HoldersOk, Apart, TakingOk, NoResidue, OpShape;
    assert KeeperShape(st, st.keepers[h]);
  }

  lemma OneWriter(st: State, h: nat, k: nat)
    requires KeysOk(st) && Living(st, h) && Living(st, k) && st.keepers[h].has && st.keepers[k].has && h != k
    ensures st.keepers[h].idx != st.keepers[k].idx
  {
    hide Locked, EntriesOk, Unique, HoldersOk, IssuesOk, TakingOk, NoResidue, Shape;
    assert HandleOk(st, st.keepers[h]) && HandleOk(st, st.keepers[k]);
    assert if h < k then Distinct(st.keepers[h], st.keepers[k]) else Distinct(st.keepers[k], st.keepers[h]);
  }

  /** The only Writer whose entry a step changes is the one that makes the step. */
  lemma OthersUntouched(st: State, k: nat, mv: KeeperMove, h: nat)
    requires Moves(st, k, mv) && Living(st, h) && st.keepers[h].has && h != k && Touches(mv.acc)
    ensures st.keepers[h].idx != mv.acc.i
  {
    HeldTight(st, h);
    var w := st.keepers[k];
    if w.has {
      HeldTight(st, k);
      OneWriter(st, h, k);
    }
    if w.pc == KRel(LOwner) { assert KeeperShape(st, w); }
    hide Locked, EntriesOk, Unique, HoldersOk, HandlesOk, Apart, IssuesOk, NoResidue, Loose, HolderOk, Safe, Hands, HandleOk;
  }

  lemma OwnUntouched(st: State, k: nat, mv: KeeperMove)
    requires Moves(st, k, mv) && st.keepers[k].has && InSection(st.keepers[k]) && Touches(mv.acc)
    requires st.keepers[k].pc != KRel(LOwner)
    ensures st.keepers[k].idx != mv.acc.i
  {
    HeldTight(st, k);
    assert KeeperShape(st, st.keepers[k]);
    hide Locked, EntriesOk, Unique, HoldersOk, HandlesOk, Apart, IssuesOk, NoResidue, Loose, HolderOk, Safe, Hands, HandleOk;
  }

  lemma StoresKeepHandle(st: State, w: Keeper, mv: KeeperMove)
    requires Sized(st) && InRange(st.cfg, |st.ents|, mv.acc) && w.idx < |st.ents| && HandleOk(st, w)
    requires Stores(w, mv.acc) && SameHandle(w, mv) && mv.k.proc == w.proc
    ensures HandleOk(Perform(st, mv.acc), mv.k)
  {
  }

  lemma OwnHandle(st: State, k: nat, mv: KeeperMove)
    requires Moves(st, k, mv) && mv.k.has
    ensures mv.k.idx < |st.ents| && HandleOk(After(st, k, mv), mv.k)
  {
    AfterFrame(st, k, mv);
    var w, st' := st.keepers[k], After(st, k, mv);
    if !mv.acc.Issue? {
      HeldTight(st, k);
      if Touches(mv.acc) {
        if InSection(w) { OwnUntouched(st, k, mv); } else { StoresKeepHandle(st, w, mv); }
      }
    }
    hide After, Perform, Locked, EntriesOk, Unique, HoldersOk, HandlesOk, Apart, IssuesOk, TakingOk, NoResidue, Shape,
      HolderOk, Safe, Careful, Stores;
  }

  lemma HandlesKept(st: State, k: nat, mv: KeeperMove)
    requires Moves(st, k, mv)
    ensures HandlesOk(After(st, k, mv))
  {
    AfterFrame(st, k, mv);
    var st' := After(st, k, mv);
    hide After, Perform, Kinds, Locked, EntriesOk, Unique, HoldersOk, Apart, IssuesOk, TakingOk, NoResidue, Shape;
    forall h: nat | Living(st', h) && st'.keepers[h].has
      ensures st'.keepers[h].idx < |st'.ents| && HandleOk(st', st'.keepers[h])
    {
      if h == k {
        OwnHandle(st, k, mv);
      } else if Touches(mv.acc) {
        OthersUntouched(st, k, mv, h);
      }
    }
  }

  /** The number handed out was never handed out before. */
  lemma NewNumber(st: State, k: nat, mv: KeeperMove)
    requires Moves(st, k, mv) && mv.acc.Issue?
    ensures mv.acc == Issue(mv.k.idx, mv.k.ten) && mv.k.has && Tenure(mv.k.idx, mv.k.ten) !in st.issued
    ensures mv.k.idx < |st.ents| && mv.k.ten == st.ents[mv.k.idx].tenancy
  {
    hide Locked, EntriesOk, Unique, HoldersOk, HandlesOk, Apart, TakingOk, NoResidue, Shape, HolderOk, Safe, Careful;
    assert AboutToIssue(st.keepers[k]);
  }

  lemma ApartKept(st: State, k: nat, mv: KeeperMove)
    requires Moves(st, k, mv)
    ensures Apart(After(st, k, mv))
  {
    AfterFrame(st, k, mv);
    if mv.acc.Issue? { NewNumber(st, k, mv); }
    assert Hands(st, st.keepers[k], mv);
    hide After, Kinds, Locked, EntriesOk, Unique, HoldersOk, HandlesOk, TakingOk, NoResidue, Shape, Handed;
    var st' := After(st, k, mv);
    forall a: nat, b: nat | a < b < |st'.keepers| ensures Distinct(st'.keepers[a], st'.keepers[b]) {
      assert Distinct(st.keepers[a], st.keepers[b]);
    }
  }

  lemma TenanciesGrow(st: State, acc: Access)
    requires Sized(st) && InRange(st.cfg, |st.ents|, acc)
    ensures forall i :: 0 <= i < |st.ents| ==>
              Perform(st, acc).ents[i].tenancy == st.ents[i].tenancy + (if acc == Bump(i) then 1 else 0)
  {
  }

  /** The numbers handed out so far, and those in hand. */
  lemma NumbersKept(st: State, k: nat, mv: KeeperMove)
    requires Moves(st, k, mv)
    ensures var st' := After(st, k, mv);
      && (forall x :: x in st'.issued ==> x.i < |st'.ents| && x.ten <= st'.ents[x.i].tenancy)
      && (forall h: nat :: h < |st'.keepers| && st'.keepers[h].has ==>
            Tenure(st'.keepers[h].idx, st'.keepers[h].ten) in st'.issued)
  {
    AfterFrame(st, k, mv);
    TenanciesGrow(st, mv.acc);
    if mv.acc.Issue? { NewNumber(st, k, mv); }
    assert Hands(st, st.keepers[k], mv);
    hide After, Perform, Kinds, Locked, EntriesOk, Unique, HoldersOk, HandlesOk, Apart, TakingOk, NoResidue, Shape, Handed;
  }

  /** The number a keeper is about to hand out. */
  predicate Unissued(st: State, k: Keeper) { k.i < |st.ents| && Tenure(k.i, st.ents[k.i].tenancy) !in st.issued }

  lemma OwnNumber(st: State, k: nat, mv: KeeperMove)
    requires Moves(st, k, mv) && AboutToIssue(mv.k)
    ensures Unissued(After(st, k, mv), mv.k)
  {
    AfterFrame(st, k, mv);
    TenanciesGrow(st, mv.acc);
    assert Hands(st, st.keepers[k], mv);
    hide After, Perform, Kinds, Locked, EntriesOk, Unique, HoldersOk, HandlesOk, Apart, TakingOk, NoResidue, Shape, Handed;
  }

  lemma OtherNumber(st: State, k: nat, mv: KeeperMove, h: nat)
    requires Moves(st, k, mv) && Living(st, h) && h != k && AboutToIssue(st.keepers[h])
    ensures Unissued(After(st, k, mv), st.keepers[h])
  {
    AfterFrame(st, k, mv);
    TenanciesGrow(st, mv.acc);
    Alone(st, k, mv, h);
    hide After, Perform, Kinds, Locked, EntriesOk, Unique, HoldersOk, HandlesOk, Apart, TakingOk, NoResidue, Shape, Hands;
  }

  lemma IssuesKept(st: State, k: nat, mv: KeeperMove)
    requires Moves(st, k, mv)
    ensures IssuesOk(After(st, k, mv))
  {
    AfterFrame(st, k, mv);
    NumbersKept(st, k, mv);
    var st' := After(st, k, mv);
    hide After, Kinds, Locked, EntriesOk, Unique, HoldersOk, HandlesOk, Apart, IssuesOk, TakingOk, NoResidue, Shape;
    forall h: nat | Living(st', h) && AboutToIssue(st'.keepers[h]) ensures Unissued(st', st'.keepers[h]) {
      if h == k { OwnNumber(st, k, mv); } else { OtherNumber(st, k, mv, h); }
    }
    assert IssuesOk(st') by { Pieces(st'); }
  }

  lemma Pieces(st: State)
    requires forall x :: x in st.issued ==> x.i < |st.ents| && x.ten <= st.ents[x.i].tenancy
    requires forall h: nat :: h < |st.keepers| && st.keepers[h].has ==> Tenure(st.keepers[h].idx, st.keepers[h].ten) in st.issued
    requires forall h: nat :: Living(st, h) && AboutToIssue(st.keepers[h]) ==> Unissued(st, st.keepers[h])
    ensures IssuesOk(st)
  {
  }

  lemma TakingKept(st: State, k: nat, mv: KeeperMove)
    requires Moves(st, k, mv)
    ensures TakingOk(After(st, k, mv))
  {
    AfterFrame(st, k, mv);
    assert Hands(st, st.keepers[k], mv);
    var st' := After(st, k, mv);
    hide After, Perform, EntriesOk, Unique, HandlesOk, Apart, IssuesOk, NoResidue, Handed, Safe, Careful, Clean, Absent,
      OpShape;
    forall h: nat, h': nat | Living(st', h) && Living(st', h') && st'.keepers[h].pc == KTake(TTenancy) && st'.keepers[h'].has
      ensures st'.keepers[h'].idx != st'.keepers[h].i
    {
      if h == k {
        assert KeeperShape(st, st.keepers[k]) && HolderOk(st, st.keepers[k]);
        if h' != k { HeldTight(st, h'); }
      } else {
        Alone(st, k, mv, h);
      }
    }
  }

  lemma KeeperKeepsKeys(st: State, k: nat, c: Choice)
    requires KeysOk(st) && KeeperReady(st, k, c)
    ensures Moves(st, k, KeeperDoes(st, k, c)) && KeysOk(KeeperTo(st, k, c))
  {
    var mv := KeeperDoes(st, k, c);
    assert Moves(st, k, mv) by {
      assert Living(st, k);
      KeeperKind(st, st.keepers[k], c);
      hide Kinds, Locked, EntriesOk, Unique, Apart, IssuesOk, TakingOk, NoResidue, HolderOk, HandleOk;
    }
    KeeperKeepsShape(st, k, c);
    assert KeeperTo(st, k, c) == After(st, k, mv);
    hide KeeperTo, KeeperDoes;
    LockedKept(st, k, mv);
    EntriesKept(st, k, mv);
    HoldersKept(st, k, mv);
    ResidueKept(st, k, mv);
    HandlesKept(st, k, mv);
    ApartKept(st, k, mv);
    IssuesKept(st, k, mv);
    TakingKept(st, k, mv);
    hide After, Kinds, Locked, EntriesOk, Unique, HoldersOk, HandlesOk, Apart, IssuesOk, TakingOk, NoResidue, Shape;
  }
}
