/** The packed words of the shared memory: claims, sequence words, ring words and tagged slot indices. */
module ClaimWord {
  import opened Bits
  import opened Modulo
  import C = ChannelModel

  const META_SLOT_BITS: nat := 24
  const META_SLOT_MASK: nat := T24 - 1
  const META_TAG_MASK: nat := T40 - 1
  const MAX_POOL_SIZE: nat := T24 - 2

  // ----- claims -----

  function MetaTag(m: nat): nat { Shr(m, META_SLOT_BITS) }

  function MetaSlotBiased(m: nat): nat { And(m, META_SLOT_MASK) }

  function Tag(pos: nat): nat { And(Add64(pos, 1), META_TAG_MASK) }

  function MetaPack(pos: nat, slot: nat): nat {
    Or(Shl(Tag(pos), META_SLOT_BITS), And(slot + 1, META_SLOT_MASK))
  }

  predicate MetaPrecedes(m: nat, pos: nat)
    requires m < T64
  {
    MetaReads(m, pos);
    var diff := And(Sub64(MetaTag(m), Tag(pos)), META_TAG_MASK);
    diff != 0 && And(diff, Shl(1, 39)) != 0
  }

  /** The fields of a claim as quotients and remainders. */
  lemma MetaReads(m: nat, pos: nat)
    requires m < T64
    ensures MetaTag(m) == m / T24 < T40 && MetaSlotBiased(m) == m % T24 && Tag(pos) == (pos + 1) % T40
  {
    hide And, Pow2, Shr;
    Powers();
    ShrIsDivision(m, 24);
    MaskIsModulo(m, 24);
    MaskIsModulo(Add64(pos, 1), 40);
  }

  lemma MetaPacks(pos: nat, slot: nat)
    ensures MetaPack(pos, slot) == ((pos + 1) % T40) * T24 + (slot + 1) % T24 < T64
  {
    MetaReads(0, pos);
    Powers();
    MaskIsModulo(slot + 1, 24);
    OrIsSum(Tag(pos), (slot + 1) % T24, 24);
    hide And, Or, Pow2, Tag;
  }

  /** A single bit of a word. */
  lemma {:induction false} BitSet(x: nat, k: nat)
    requires x < Pow2(k + 1)
    ensures And(x, Shl(1, k)) != 0 <==> x >= Pow2(k)
  {
    assert Shl(1, k) == Pow2(k);
    if k > 0 && x > 0 {
      BitSet(x / 2, k - 1);
      assert Shl(1, k - 1) == Pow2(k - 1);
      assert Pow2(k) / 2 == Pow2(k - 1) && Pow2(k) % 2 == 0;
    }
  }

  /** Whole turns of the tag do not change a difference. */
  lemma WholeTurns(x: int, y: int, k: int)
    requires x == y + k * T40
    ensures x % T40 == y % T40
  {
    var q, r := y / T40, y % T40;
    ModUnique(x, T40, q + k, r);
  }

  /** The comparison looks at the top bit of the 40-bit difference of the tags. */
  lemma PrecedesReads(m: nat, pos: nat)
    requires m < T64
    ensures MetaPrecedes(m, pos) <==> (m / T24 - (pos + 1)) % T40 >= T39
  {
    hide And, Pow2, MetaTag, Tag, Shl;
    MetaReads(m, pos);
    var t := MetaTag(m);
    var d := Sub64(t, Tag(pos));
    TagGap(t, pos + 1, d);
    TopBit(d);
    calc <==> {
      MetaPrecedes(m, pos);
      d % T40 != 0 && And(d % T40, Shl(1, 39)) != 0;
      d % T40 >= T39;
      (t - (pos + 1)) % T40 >= T39;
    }
  }

  lemma TagGap(a: nat, b: nat, d: nat)
    requires a < T40 && d == Sub64(a, b % T40)
    ensures d % T40 == (a - b) % T40
  {
    if b % T40 <= a {
      WholeTurns(d, a - b, b / T40);
    } else {
      WholeTurns(d, a - b, b / T40 + T24);
    }
  }

  lemma TopBit(d: nat)
    ensures And(d, META_TAG_MASK) == d % T40
    ensures And(d % T40, Shl(1, 39)) != 0 <==> d % T40 >= T39
  {
    Powers();
    MaskIsModulo(d, 40);
    BitSet(d % T40, 39);
  }

  /** Less than half a turn apart, the remainder tells the sign. */
  lemma HalfTurn(p: nat, q: nat)
    requires p - q < T39 && q - p < T39
    ensures ((p + 1) % T40 - (q + 1)) % T40 >= T39 <==> p < q
  {
    WholeTurns((p + 1) % T40 - (q + 1), p - q, -((p + 1) / T40));
    if p < q { ModUnique(p - q, T40, -1, p - q + T40); } else { ModSmall(p - q, T40); }
  }

  /** A slot index below MAX_POOL_SIZE comes back out of the claim, biased by one, beside the tag. */
  lemma ClaimRoundTrip(pos: nat, slot: nat)
    requires slot < MAX_POOL_SIZE
    ensures MetaPack(pos, slot) < T64
    ensures MetaSlotBiased(MetaPack(pos, slot)) == slot + 1 && MetaTag(MetaPack(pos, slot)) == (pos + 1) % T40
  {
    hide MetaPack, MetaTag, MetaSlotBiased;
    MetaPacks(pos, slot);
    var m := MetaPack(pos, slot);
    MetaReads(m, pos);
    ModSmall(slot + 1, T24);
    ModUnique(m, T24, (pos + 1) % T40, slot + 1);
  }

  lemma ClaimTag(pos: nat, slot: nat)
    requires slot < MAX_POOL_SIZE
    ensures MetaPack(pos, slot) < T64 && MetaPack(pos, slot) / T24 == (pos + 1) % T40
  {
    hide MetaPack;
    MetaPacks(pos, slot);
    ModSmall(slot + 1, T24);
    ModUnique(MetaPack(pos, slot), T24, (pos + 1) % T40, slot + 1);
  }

  /**
  Serial comparison, as in section 3.2 of RFC 1982: for positions less than 2^39 apart a claim
  precedes a position exactly when it was made for an earlier one, across any wrap of the tag.
  */
  lemma ClaimOrder(p: nat, q: nat, slot: nat)
    requires slot < MAX_POOL_SIZE && p - q < T39 && q - p < T39
    ensures MetaPack(p, slot) < T64
    ensures MetaPrecedes(MetaPack(p, slot), q) <==> p < q
  {
    hide MetaPack, MetaPrecedes;
    ClaimTag(p, slot);
    PrecedesReads(MetaPack(p, slot), q);
    HalfTurn(p, q);
  }

  /** At a distance of exactly 2^39 the comparison says "precedes" in both directions. */
  lemma ClaimOrderLimit(p: nat, slot: nat)
    requires slot < MAX_POOL_SIZE
    ensures MetaPack(p, slot) < T64 && MetaPack(p + T39, slot) < T64
    ensures MetaPrecedes(MetaPack(p, slot), p + T39) && MetaPrecedes(MetaPack(p + T39, slot), p)
  {
    hide MetaPack, MetaPrecedes;
    ClaimTag(p, slot);
    ClaimTag(p + T39, slot);
    PrecedesReads(MetaPack(p, slot), p + T39);
    PrecedesReads(MetaPack(p + T39, slot), p);
    HalfWay(p);
  }

  lemma HalfWay(p: nat)
    ensures ((p + 1) % T40 - (p + T39 + 1)) % T40 == T39 && ((p + T39 + 1) % T40 - (p + 1)) % T40 == T39
  {
    WholeTurns((p + 1) % T40 - (p + T39 + 1), T39, -((p + 1) / T40) - 1);
    WholeTurns((p + T39 + 1) % T40 - (p + 1), T39, -((p + T39 + 1) / T40));
    ModSmall(T39, T40);
  }

  // ----- sequence words -----

  const SEQ_LOCK_BIT: nat := T63
  const SEQ_REPAIR_BIT: nat := T62

  predicate SeqIsLocked(x: nat) { And(x, SEQ_LOCK_BIT) != 0 }
  predicate SeqIsSkip(x: nat) { And(x, Or(SEQ_LOCK_BIT, SEQ_REPAIR_BIT)) == SEQ_REPAIR_BIT }
  function SeqPos(x: nat): nat { And(x, SEQ_REPAIR_BIT - 1) }

  function SeqLock(pos: nat): nat { Or(SEQ_LOCK_BIT, pos) }
  function SeqRepair(pos: nat): nat { Or(Or(SEQ_LOCK_BIT, SEQ_REPAIR_BIT), pos) }
  function SeqSkip(v: nat): nat { Or(SEQ_REPAIR_BIT, v) }

  /** The 64-bit word for each of the four kinds; `v` is the position plus one. */
  function Encode(w: C.Word): nat {
    match w
    case Plain(v) => v
    case Skip(v) => SeqSkip(v)
    case Lock(p) => SeqLock(p)
    case Repair(p) => SeqRepair(p)
  }

  function Kind(w: C.Word): nat {
    match w
    case Plain(_) => 0
    case Skip(_) => 1
    case Lock(_) => 2
    case Repair(_) => 3
  }

  lemma BothBits()
    ensures Or(SEQ_LOCK_BIT, SEQ_REPAIR_BIT) == 3 * T62
  {
    Powers();
    OrIsSum(1, T62, 63);
    hide Pow2, Or;
  }

  /** The word is its kind above 62 bits of position. */
  lemma EncodedAs(w: C.Word)
    requires w.Pos() < T62
    ensures Encode(w) == Kind(w) * T62 + w.Pos()
  {
    Powers();
    OrIsSum(1, w.Pos(), 62);
    OrIsSum(2, w.Pos(), 62);
    OrIsSum(3, w.Pos(), 62);
    BothBits();
    hide Pow2, Or;
  }

  /** Bits above position k see only what lies above it. */
  lemma {:induction false} AndAbove(x: nat, b: nat, k: nat)
    ensures And(x, Shl(b, k)) == Shl(And(Shr(x, k), b), k)
  {
    if k > 0 {
      var h, a := Pow2(k - 1), And(Shr(x, k), b);
      assert Shr(x, k) == Shr(x / 2, k - 1);
      TwiceShl(b, k);
      TwiceShl(a, k);
      AndAbove(x / 2, b, k - 1);
      hide Shl, Shr;
    } else {
      assert Shr(x, 0) == x && Shl(b, 0) == b;
    }
  }

  lemma TwiceShl(a: nat, k: nat)
    requires k > 0
    ensures Shl(a, k) == 2 * Shl(a, k - 1)
  {
    assert a * (2 * Pow2(k - 1)) == 2 * (a * Pow2(k - 1));
  }

  lemma SmallAnds()
    ensures And(0, 1) == And(0, 2) == And(0, 3) == 0 && And(1, 1) == And(1, 3) == 1 && And(1, 2) == 0
    ensures And(2, 1) == 0 && And(2, 2) == And(2, 3) == 2 && And(3, 1) == 1 && And(3, 2) == 2 && And(3, 3) == 3
  {
    assert And(0, 1) == 0 && And(1, 1) == 1 && And(1, 0) == 0;
  }

  /** The masks read back what was encoded: the lock bit, the skip pattern and the position. */
  lemma SequenceWord(w: C.Word)
    requires w.Pos() < T62
    ensures SeqIsLocked(Encode(w)) <==> w.Locked()
    ensures SeqIsSkip(Encode(w)) <==> w.Skip?
    ensures SeqPos(Encode(w)) == w.Pos()
  {
    hide Pow2, Or, And, Encode;
    var x := Encode(w);
    EncodedAs(w);
    BothBits();
    Powers();
    ShrIsDivision(x, 62);
    assert Shr(x, 62) == Kind(w);
    AndAbove(x, 2, 62);
    AndAbove(x, 3, 62);
    MaskIsModulo(x, 62);
    SmallAnds();
    hide Shr;
  }

  /** Different words have different encodings. */
  lemma EncodingUnique(w: C.Word, u: C.Word)
    requires w.Pos() < T62 && u.Pos() < T62 && Encode(w) == Encode(u)
    ensures w == u
  {
    EncodedAs(w);
    EncodedAs(u);
    hide Encode;
  }

  // ----- ring words and tagged indices -----

  const STATE_BITS: nat := 2
  const STATE_MASK: nat := 3
  const IN_FLIGHT_ONE: nat := 4

  function MakePacked(state: nat, flight: nat): nat { Or(Shl(flight, STATE_BITS), state) }
  function GetState(packed: nat): nat { And(packed, STATE_MASK) }
  function GetInFlight(packed: nat): nat { Shr(packed, STATE_BITS) }

  /** One addition admits a publisher and leaves the state alone, so one CAS can check Live and count. */
  lemma Admission(state: nat, flight: nat)
    requires state < 4
    ensures GetState(MakePacked(state, flight)) == state && GetInFlight(MakePacked(state, flight)) == flight
    ensures MakePacked(state, flight) + IN_FLIGHT_ONE == MakePacked(state, flight + 1)
  {
    Powers();
    OrIsSum(flight, state, STATE_BITS);
    OrIsSum(flight + 1, state, STATE_BITS);
    FieldsOf(flight, state, STATE_BITS);
  }

  function TaggedPack(gen: nat, idx: nat): nat { Or(Shl(gen, 32), idx) }
  function TaggedIdx(t: nat): nat { t % T32 }
  function TaggedGen(t: nat): nat { Shr(t, 32) }

  /** Generation and index come back out, so tagged words are equal only if both are. */
  lemma TaggedRoundTrip(gen: nat, idx: nat)
    requires gen < T32 && idx < T32
    ensures TaggedGen(TaggedPack(gen, idx)) == gen && TaggedIdx(TaggedPack(gen, idx)) == idx
  {
    Powers();
    OrIsSum(gen, idx, 32);
    ShrIsDivision(gen * T32 + idx, 32);
    hide Pow2, Or, Shr;
  }
}
