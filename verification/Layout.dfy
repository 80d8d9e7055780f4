/**
Region layout: what a creator computes and stamps, what an opener validates, and where the
header, the name, the blob, the rings and the slots then lie.  Every sum and product is taken
modulo 2^64, as size_t does.
*/
module Layout {
  import opened Bits
  import opened Modulo
  import ChannelModel
  import ClaimWord

  const SIZEOF_HEADER: nat := 832
  const SIZEOF_RING: nat := 128
  const SIZEOF_SLOT: nat := 16
  const SIZEOF_ENTRY: nat := 16
  const CACHE_LINE: nat := 64
  const SIZE_MAX: nat := T64 - 1
  const MAX_PAYLOAD_SIZE: nat := 0x7FFF_FFFF
  const MAX_NAME: nat := 65535

  datatype ChannelType = PubSub | Broadcast | Unknown

  datatype Config = Config(maxSubs: Size, capacity: Size, pool: Size, payload: Size,
                           schemaCapacity: Size, blob: Size, hasSchema: bool)

  datatype Result<+T> = Ok(value: T) | Refused(reason: string)

  /** (val + alignment - 1) & ~(alignment - 1) for the cache line */
  function AlignUp(val: Size): (r: Size)
  {
    AlignReads(val);
    And(Add64(val, CACHE_LINE - 1), HighMask(64, 6))
  }

  lemma AlignReads(val: Size)
    ensures And(Add64(val, CACHE_LINE - 1), HighMask(64, 6)) == Add64(val, CACHE_LINE - 1) - Add64(val, CACHE_LINE - 1) % CACHE_LINE
  {
    Powers();
    MaskRoundsDown(Add64(val, CACHE_LINE - 1), 64, 6);
    hide Pow2, And;
  }

  lemma SumExact(a: Size, b: Size)
    requires a + b < T64
    ensures Add64(a, b) == a + b
  {
    ModSmall(a + b, T64);
  }

  lemma ProductExact(a: Size, b: Size)
    requires a * b < T64
    ensures Mul64(a, b) == a * b
  {
    ModSmall(a * b, T64);
  }

  lemma RoundedDown(x: nat)
    ensures (x - x % CACHE_LINE) % CACHE_LINE == 0 && x - CACHE_LINE < x - x % CACHE_LINE <= x
  {
    ModUnique(x - x % CACHE_LINE, CACHE_LINE, x / CACHE_LINE, 0);
  }

  /** Away from the top of the address range align_up is the next multiple of the line. */
  lemma Aligned(val: Size)
    requires val + CACHE_LINE - 1 <= SIZE_MAX
    ensures AlignUp(val) % CACHE_LINE == 0 && val <= AlignUp(val) < val + CACHE_LINE
  {
    hide And, HighMask, Add64;
    AlignReads(val);
    SumExact(val, CACHE_LINE - 1);
    RoundedDown(val + CACHE_LINE - 1);
  }

  /** validate_config() */
  function ValidateConfig(kind: ChannelType, cfg: Config): Result<()> {
    if kind.Unknown? then Refused("channel type")
    else if !IsPowerOfTwo(cfg.capacity) then Refused("capacity")
    else if cfg.pool == 0 || cfg.pool > ClaimWord.MAX_POOL_SIZE then Refused("pool size")
    else if cfg.maxSubs == 0 || cfg.maxSubs > ChannelModel.MAX_SUBSCRIBERS then Refused("subscribers")
    else if cfg.payload == 0 || cfg.payload > MAX_PAYLOAD_SIZE then Refused("payload size")
    else if cfg.schemaCapacity > 0xFFFF_FFFF then Refused("schema capacity")
    else if cfg.blob > cfg.schemaCapacity then Refused("schema blob")
    else if cfg.blob != 0 && !cfg.hasSchema then Refused("blob without schema")
    else Ok(())
  }

  datatype Plan = Plan(headerSize: Size, ringStride: Size, slotStride: Size, blobOffset: Size, ringsOffset: Size,
                       poolOffset: Size, total: Size, name: nat)

  function RingStride(cfg: Config): Size { AlignUp(Add64(SIZEOF_RING, Mul64(cfg.capacity, SIZEOF_ENTRY))) }
  function SlotStride(cfg: Config): Size { AlignUp(Add64(SIZEOF_SLOT, cfg.payload)) }

  lemma StridesExact(cfg: Config)
    requires cfg.capacity <= (SIZE_MAX - SIZEOF_RING - CACHE_LINE) / SIZEOF_ENTRY
    requires cfg.payload <= SIZE_MAX - SIZEOF_SLOT - CACHE_LINE
    ensures SIZEOF_RING + cfg.capacity * SIZEOF_ENTRY <= RingStride(cfg) && RingStride(cfg) % CACHE_LINE == 0
    ensures SIZEOF_SLOT + cfg.payload <= SlotStride(cfg) && SlotStride(cfg) % CACHE_LINE == 0
  {
    hide AlignUp, Add64, Mul64;
    ProductExact(cfg.capacity, SIZEOF_ENTRY);
    SumExact(SIZEOF_RING, cfg.capacity * SIZEOF_ENTRY);
    Aligned(SIZEOF_RING + cfg.capacity * SIZEOF_ENTRY);
    SumExact(SIZEOF_SLOT, cfg.payload);
    Aligned(SIZEOF_SLOT + cfg.payload);
  }

  /** compute_layout() for a creator name of `name` bytes. */
  function ComputeLayout(cfg: Config, name: Size): Result<Plan> {
    if name > MAX_NAME then Refused("creator name")
    else if cfg.capacity > (SIZE_MAX - SIZEOF_RING - CACHE_LINE) / SIZEOF_ENTRY then Refused("ring stride overflows")
    else if cfg.payload > SIZE_MAX - SIZEOF_SLOT - CACHE_LINE then Refused("slot stride overflows")
    else
      Aligned(SIZEOF_HEADER + name);
      StridesExact(cfg);
      var headerSize := AlignUp(Add64(SIZEOF_HEADER, name));
      var ringStride, slotStride := RingStride(cfg), SlotStride(cfg);
      if cfg.schemaCapacity > SIZE_MAX - headerSize - CACHE_LINE then Refused("schema capacity overflows")
      else
        var ringsOffset := AlignUp(Add64(headerSize, cfg.schemaCapacity));
        if cfg.maxSubs > (SIZE_MAX - ringsOffset) / ringStride then Refused("rings overflow")
        else
          var poolOffset := Add64(ringsOffset, Mul64(cfg.maxSubs, ringStride));
          if cfg.pool > (SIZE_MAX - poolOffset) / slotStride then Refused("pool overflows")
          else
            var total := Add64(poolOffset, Mul64(cfg.pool, slotStride));
            Ok(Plan(headerSize, ringStride, slotStride, headerSize, ringsOffset, poolOffset, total, name))
  }

  /** The header fields an opener copies before checking them. */
  datatype Header = Header(kind: ChannelType, total: Size, ringsOffset: Size, ringStride: Size, capacity: Size, mask: Size,
                           poolOffset: Size, slotStride: Size, pool: Size, slotData: Size, maxSubs: Size,
                           blobOffset: Size, blobCapacity: Size, name: nat)

  /** stamp_new_region(), the geometry. */
  function Stamp(kind: ChannelType, cfg: Config, plan: Plan): Header
    requires cfg.capacity > 0
  {
    Header(kind, plan.total, plan.ringsOffset, plan.ringStride, cfg.capacity, cfg.capacity - 1,
           plan.poolOffset, plan.slotStride, cfg.pool, cfg.payload, cfg.maxSubs, plan.blobOffset, cfg.schemaCapacity, plan.name)
  }

  /** validate_snapshot(), check by check; `size` is what is mapped. */
  predicate CountsOk(h: Header, size: Size) {
    && size >= h.total && !h.kind.Unknown? && h.total >= SIZEOF_HEADER
    && h.maxSubs != 0 && h.pool != 0 && h.slotData != 0 && h.capacity != 0 && h.slotStride != 0 && h.ringStride != 0
    && h.pool <= ClaimWord.MAX_POOL_SIZE && h.slotData <= MAX_PAYLOAD_SIZE && h.maxSubs <= ChannelModel.MAX_SUBSCRIBERS
    && IsPowerOfTwo(h.capacity) && h.mask == h.capacity - 1
  }

  predicate OffsetsOk(h: Header) {
    && SIZEOF_HEADER <= h.ringsOffset < h.poolOffset < h.total
    && SIZEOF_HEADER <= h.blobOffset <= h.ringsOffset
    && h.blobCapacity <= 0xFFFF_FFFF && h.blobCapacity <= h.ringsOffset - h.blobOffset
    && h.name <= h.blobOffset - SIZEOF_HEADER
    && h.blobOffset % CACHE_LINE == 0 && h.ringsOffset % CACHE_LINE == 0 && h.poolOffset % CACHE_LINE == 0
    && h.ringStride % CACHE_LINE == 0 && h.slotStride % CACHE_LINE == 0
  }

  predicate StridesOk(h: Header)
    requires OffsetsOk(h) && h.ringStride != 0 && h.slotStride != 0
  {
    && h.capacity <= h.total / SIZEOF_ENTRY
    && h.ringStride >= Add64(SIZEOF_RING, Mul64(h.capacity, SIZEOF_ENTRY))
    && h.slotData <= h.total - SIZEOF_SLOT
    && h.slotStride >= Add64(SIZEOF_SLOT, h.slotData)
    && h.maxSubs <= (h.poolOffset - h.ringsOffset) / h.ringStride
    && h.pool <= (h.total - h.poolOffset) / h.slotStride
  }

  predicate Accepts(h: Header, size: Size) { CountsOk(h, size) && OffsetsOk(h) && StridesOk(h) }

  // ----- the creator's arithmetic does not wrap -----

  lemma FitsProduct(n: nat, stride: nat, space: nat)
    requires stride > 0 && n <= space / stride
    ensures n * stride <= space
  {
    var q := space / stride;
    assert q * stride <= space;
    assert (q - n) * stride >= 0;
  }

  /** A plan in plain arithmetic. */
  predicate Exact(cfg: Config, plan: Plan) {
    && SIZEOF_HEADER + plan.name <= plan.headerSize == plan.blobOffset
    && SIZEOF_RING + cfg.capacity * SIZEOF_ENTRY <= plan.ringStride
    && SIZEOF_SLOT + cfg.payload <= plan.slotStride
    && plan.blobOffset + cfg.schemaCapacity <= plan.ringsOffset
    && plan.poolOffset == plan.ringsOffset + cfg.maxSubs * plan.ringStride
    && plan.total == plan.poolOffset + cfg.pool * plan.slotStride
    && plan.blobOffset % CACHE_LINE == 0 && plan.ringsOffset % CACHE_LINE == 0
    && plan.ringStride % CACHE_LINE == 0 && plan.slotStride % CACHE_LINE == 0
  }

  /** The divisions bound the products that follow them. */
  lemma SpaceExact(base: Size, n: Size, stride: Size)
    requires stride > 0 && n <= (SIZE_MAX - base) / stride
    ensures Add64(base, Mul64(n, stride)) == base + n * stride
  {
    hide Add64, Mul64;
    FitsProduct(n, stride, SIZE_MAX - base);
    ProductExact(n, stride);
    SumExact(base, n * stride);
  }

  /** No sum or product of compute_layout() wraps in an accepted configuration. */
  lemma LayoutExact(cfg: Config, name: Size)
    requires ComputeLayout(cfg, name).Ok?
    ensures Exact(cfg, ComputeLayout(cfg, name).value)
  {
    hide AlignUp, RingStride, SlotStride, Add64, Mul64;
    StridesExact(cfg);
    SumExact(SIZEOF_HEADER, name);
    Aligned(SIZEOF_HEADER + name);
    var plan := ComputeLayout(cfg, name).value;
    SumExact(plan.headerSize, cfg.schemaCapacity);
    Aligned(plan.headerSize + cfg.schemaCapacity);
    SpaceExact(plan.ringsOffset, cfg.maxSubs, plan.ringStride);
    SpaceExact(plan.poolOffset, cfg.pool, plan.slotStride);
  }

  lemma ProductAligned(n: nat, stride: nat, base: nat)
    requires stride % CACHE_LINE == 0 && base % CACHE_LINE == 0
    ensures (base + n * stride) % CACHE_LINE == 0
  {
    var a, b := base / CACHE_LINE, stride / CACHE_LINE;
    assert n * stride == n * b * CACHE_LINE;
    ModUnique(base + n * stride, CACHE_LINE, a + n * b, 0);
  }

  lemma DivAtLeast(n: nat, stride: nat, space: nat)
    requires stride > 0 && n * stride <= space
    ensures n <= space / stride
  {
    var q, r := space / stride, space % stride;
    if q < n { MulAtLeast(n - q, stride); }
  }

  /** An opener accepts whatever a creator stamps. */
  lemma StampAccepted(kind: ChannelType, cfg: Config, name: Size, size: Size)
    requires ValidateConfig(kind, cfg).Ok? && ComputeLayout(cfg, name).Ok?
    requires size >= ComputeLayout(cfg, name).value.total
    ensures Accepts(Stamp(kind, cfg, ComputeLayout(cfg, name).value), size)
  {
    LayoutExact(cfg, name);
    var plan := ComputeLayout(cfg, name).value;
    LayoutBounds(cfg, name);
    hide ComputeLayout, IsPowerOfTwo, Add64, Mul64;
    ExactAccepted(kind, cfg, plan, size);
  }

  lemma LayoutBounds(cfg: Config, name: Size)
    requires ComputeLayout(cfg, name).Ok?
    ensures ComputeLayout(cfg, name).value.name == name <= MAX_NAME
  {
    hide AlignUp, RingStride, SlotStride, Add64, Mul64;
  }

  lemma ExactAccepted(kind: ChannelType, cfg: Config, plan: Plan, size: Size)
    requires ValidateConfig(kind, cfg).Ok? && Exact(cfg, plan) && size >= plan.total
    ensures Accepts(Stamp(kind, cfg, plan), size)
  {
    hide IsPowerOfTwo, Add64, Mul64;
    ExactOffsets(kind, cfg, plan);
    ExactStrides(kind, cfg, plan);
    hide OffsetsOk, StridesOk;
  }

  lemma ExactOffsets(kind: ChannelType, cfg: Config, plan: Plan)
    requires ValidateConfig(kind, cfg).Ok? && Exact(cfg, plan)
    ensures OffsetsOk(Stamp(kind, cfg, plan)) && SIZEOF_HEADER < plan.total
  {
    hide IsPowerOfTwo;
    MulAtLeast(cfg.maxSubs, plan.ringStride);
    MulAtLeast(cfg.pool, plan.slotStride);
    ProductAligned(cfg.maxSubs, plan.ringStride, plan.ringsOffset);
  }

  lemma ExactStrides(kind: ChannelType, cfg: Config, plan: Plan)
    requires ValidateConfig(kind, cfg).Ok? && Exact(cfg, plan) && OffsetsOk(Stamp(kind, cfg, plan))
    ensures StridesOk(Stamp(kind, cfg, plan))
  {
    hide IsPowerOfTwo, Add64, Mul64, OffsetsOk;
    var h := Stamp(kind, cfg, plan);
    MulAtLeast(cfg.maxSubs, plan.ringStride);
    MulAtLeast(cfg.pool, plan.slotStride);
    DivAtLeast(cfg.maxSubs, plan.ringStride, h.poolOffset - h.ringsOffset);
    DivAtLeast(cfg.pool, plan.slotStride, h.total - h.poolOffset);
    ProductExact(cfg.capacity, SIZEOF_ENTRY);
    SumExact(SIZEOF_RING, cfg.capacity * SIZEOF_ENTRY);
    SumExact(SIZEOF_SLOT, cfg.payload);
    DivAtLeast(cfg.capacity, SIZEOF_ENTRY, plan.total);
  }

  // ----- where things lie -----

  /** The extents an accepted header defines. */
  datatype Area = HeaderArea | NameArea | BlobArea | RingArea(i: nat) | SlotArea(i: nat)

  predicate Present(h: Header, a: Area) {
    match a
    case RingArea(i) => i < h.maxSubs
    case SlotArea(i) => i < h.pool
    case _ => true
  }

  function Start(h: Header, a: Area): nat {
    match a
    case HeaderArea => 0
    case NameArea => SIZEOF_HEADER
    case BlobArea => h.blobOffset
    case RingArea(i) => h.ringsOffset + i * h.ringStride
    case SlotArea(i) => h.poolOffset + i * h.slotStride
  }

  function Length(h: Header, a: Area): nat {
    match a
    case HeaderArea => SIZEOF_HEADER
    case NameArea => h.name
    case BlobArea => h.blobCapacity
    case RingArea(_) => SIZEOF_RING + h.capacity * SIZEOF_ENTRY
    case SlotArea(_) => SIZEOF_SLOT + h.slotData
  }

  function End(h: Header, a: Area): nat { Start(h, a) + Length(h, a) }

  lemma SixtyBits(capacity: nat)
    requires IsPowerOfTwo(capacity) && capacity * SIZEOF_ENTRY < T64
    ensures capacity * SIZEOF_ENTRY <= T63
  {
    PowerOfTwoTest(capacity);
    var k: nat :| capacity == Pow2(k);
    Powers();
    assert Pow2(4) == 16;
    Pow2Plus(59, 4);
    Pow2Plus(60, 4);
    hide Pow2, And;
    if k <= 59 { Pow2Rises(k, 59); } else { Pow2Rises(60, k); }
  }

  /** A power of two of entries that fits the region leaves room for the ring header in 64 bits. */
  lemma StrideChecksExact(h: Header, size: Size)
    requires Accepts(h, size)
    ensures h.ringStride >= SIZEOF_RING + h.capacity * SIZEOF_ENTRY && h.slotStride >= SIZEOF_SLOT + h.slotData
  {
    hide IsPowerOfTwo, Add64, Mul64;
    FitsProduct(h.capacity, SIZEOF_ENTRY, h.total);
    SixtyBits(h.capacity);
    ProductExact(h.capacity, SIZEOF_ENTRY);
    SumExact(SIZEOF_RING, h.capacity * SIZEOF_ENTRY);
    SumExact(SIZEOF_SLOT, h.slotData);
  }

  /** Consecutive elements of an array of extents. */
  lemma Consecutive(base: nat, stride: nat, length: nat, n: nat, i: nat)
    requires i < n && length <= stride
    ensures base <= base + i * stride && base + i * stride + length <= base + n * stride
  {
    assert (n - i - 1) * stride >= 0;
    assert n * stride == i * stride + stride + (n - i - 1) * stride;
  }

  lemma AreaBounds(h: Header, size: Size, a: Area)
    requires Accepts(h, size) && Present(h, a)
    ensures match a
            case HeaderArea => End(h, a) <= SIZEOF_HEADER
            case NameArea => End(h, a) <= h.blobOffset
            case BlobArea => h.blobOffset <= Start(h, a) && End(h, a) <= h.ringsOffset
            case RingArea(_) => h.ringsOffset <= Start(h, a) && End(h, a) <= h.poolOffset
            case SlotArea(_) => h.poolOffset <= Start(h, a) && End(h, a) <= h.total
  {
    StrideChecksExact(h, size);
    FitsProduct(h.maxSubs, h.ringStride, h.poolOffset - h.ringsOffset);
    FitsProduct(h.pool, h.slotStride, h.total - h.poolOffset);
    hide IsPowerOfTwo, Add64, Mul64;
    match a
    case RingArea(i) => Consecutive(h.ringsOffset, h.ringStride, Length(h, a), h.maxSubs, i);
    case SlotArea(i) => Consecutive(h.poolOffset, h.slotStride, Length(h, a), h.pool, i);
    case _ =>
  }

  lemma ElementsApart(base: nat, stride: nat, length: nat, i: nat, j: nat)
    requires i < j && length <= stride
    ensures base + i * stride + length <= base + j * stride
  {
    Consecutive(base, stride, length, j, i);
  }

  predicate Apart(h: Header, a: Area, b: Area) { End(h, a) <= Start(h, b) || End(h, b) <= Start(h, a) }

  /** Header, name, blob, rings and slots of every accepted header lie inside total_size and never overlap. */
  lemma AreasDisjoint(h: Header, size: Size, a: Area, b: Area)
    requires Accepts(h, size) && Present(h, a) && Present(h, b) && a != b
    ensures End(h, a) <= h.total <= size && Apart(h, a, b)
  {
    AreaBounds(h, size, a);
    AreaBounds(h, size, b);
    StrideChecksExact(h, size);
    if a.RingArea? && b.RingArea? {
      if a.i < b.i { ElementsApart(h.ringsOffset, h.ringStride, Length(h, a), a.i, b.i); }
      else { ElementsApart(h.ringsOffset, h.ringStride, Length(h, a), b.i, a.i); }
    } else if a.SlotArea? && b.SlotArea? {
      if a.i < b.i { ElementsApart(h.poolOffset, h.slotStride, Length(h, a), a.i, b.i); }
      else { ElementsApart(h.poolOffset, h.slotStride, Length(h, a), b.i, a.i); }
    }
    hide StridesOk, CountsOk;
  }

  /** Offset of entry `j` of ring `i`, and of the payload of slot `i`. */
  function EntryStart(h: Header, i: nat, j: nat): nat { Start(h, RingArea(i)) + SIZEOF_RING + j * SIZEOF_ENTRY }
  function PayloadStart(h: Header, i: nat): nat { Start(h, SlotArea(i)) + SIZEOF_SLOT }

  /** Entries lie one after the other inside their ring, and payload inside its slot. */
  lemma EntriesInside(h: Header, i: nat, j: nat, k: nat)
    requires i < h.maxSubs && j < k < h.capacity
    ensures Start(h, RingArea(i)) + SIZEOF_RING <= EntryStart(h, i, j)
    ensures EntryStart(h, i, j) + SIZEOF_ENTRY <= EntryStart(h, i, k)
    ensures EntryStart(h, i, k) + SIZEOF_ENTRY <= End(h, RingArea(i))
    ensures i < h.pool ==> PayloadStart(h, i) + h.slotData == End(h, SlotArea(i))
  {
  }

  /** The ring index `pos & mask` of an accepted header is the position modulo the capacity. */
  lemma MaskIndexes(h: Header, size: Size, pos: nat)
    requires Accepts(h, size)
    ensures And(pos, h.mask) == pos % h.capacity < h.capacity
  {
    RingIndex(pos, h.capacity);
  }

  // ----- what a creator asked for is what the region holds -----

  /**
  A stamped region has a ring of `capacity` entries for each of `maxSubs` subscribers, a slot of
  `payload` bytes for each of `pool` messages, the creator's name and the whole schema blob, in
  areas of their own that fill total_size to its end, and nothing beyond.
  */
  lemma StampHolds(kind: ChannelType, cfg: Config, name: Size)
    requires ValidateConfig(kind, cfg).Ok? && ComputeLayout(cfg, name).Ok?
    ensures cfg.blob != 0 ==> cfg.hasSchema
    ensures var h := Stamp(kind, cfg, ComputeLayout(cfg, name).value);
      && (forall i: nat :: Present(h, RingArea(i)) <==> i < cfg.maxSubs)
      && (forall i: nat :: Present(h, SlotArea(i)) <==> i < cfg.pool)
      && (forall i: nat :: EntryStart(h, i, cfg.capacity) == End(h, RingArea(i)))
      && (forall i: nat :: i < cfg.maxSubs ==> End(h, RingArea(i)) <= Start(h, SlotArea(0)))
      && (forall i: nat :: PayloadStart(h, i) + cfg.payload == End(h, SlotArea(i)))
      && (forall i: nat :: i < cfg.pool ==> End(h, SlotArea(i)) <= h.total)
      && h.total == Start(h, SlotArea(cfg.pool))
      && SIZEOF_HEADER + name <= Start(h, BlobArea)
      && Start(h, BlobArea) + cfg.blob <= End(h, BlobArea) <= Start(h, RingArea(0))
      && Length(h, NameArea) == name && Length(h, BlobArea) == cfg.schemaCapacity
  {
    StampAccepted(kind, cfg, name, ComputeLayout(cfg, name).value.total);
    LayoutExact(cfg, name);
    LayoutBounds(cfg, name);
    var plan := ComputeLayout(cfg, name).value;
    var h := Stamp(kind, cfg, plan);
    hide ComputeLayout, IsPowerOfTwo, Add64, Mul64, Accepts;
    forall i: nat | i < cfg.maxSubs ensures End(h, RingArea(i)) <= h.poolOffset { AreaBounds(h, plan.total, RingArea(i)); }
    forall i: nat | i < cfg.pool ensures End(h, SlotArea(i)) <= h.total { AreaBounds(h, plan.total, SlotArea(i)); }
  }

  /** A configuration passes validate_config exactly when an opener would accept what is stamped from it and its blob fits. */
  lemma ConfigChecksExact(kind: ChannelType, cfg: Config, plan: Plan)
    requires Exact(cfg, plan) && cfg.capacity > 0 && plan.total >= SIZEOF_SLOT && cfg.blob <= SIZE_MAX
    ensures ValidateConfig(kind, cfg).Ok?
            <==> Accepts(Stamp(kind, cfg, plan), plan.total) && cfg.blob <= cfg.schemaCapacity && (cfg.blob != 0 ==> cfg.hasSchema)
  {
    if ValidateConfig(kind, cfg).Ok? { ExactAccepted(kind, cfg, plan, plan.total); }
    hide IsPowerOfTwo, Add64, Mul64, StridesOk;
  }

  // ----- compute_layout refuses only what does not fit -----

  /** The next multiple of the cache line, unbounded. */
  function Up(n: nat): (u: nat)
    ensures n <= u < n + CACHE_LINE && u % CACHE_LINE == 0
  {
    (n + CACHE_LINE - 1) / CACHE_LINE * CACHE_LINE
  }

  /** The size a region needs, in plain arithmetic. */
  function Needed(cfg: Config, name: nat): nat {
    var rings := Up(Up(SIZEOF_HEADER + name) + cfg.schemaCapacity);
    rings + cfg.maxSubs * Up(SIZEOF_RING + cfg.capacity * SIZEOF_ENTRY) + cfg.pool * Up(SIZEOF_SLOT + cfg.payload)
  }

  lemma UpExact(n: Size)
    requires n + CACHE_LINE - 1 <= SIZE_MAX
    ensures AlignUp(n) == Up(n)
  {
    Aligned(n);
    OneMultiple(n, AlignUp(n), Up(n));
  }

  lemma OneMultiple(n: nat, a: nat, b: nat)
    requires n <= a < n + CACHE_LINE && n <= b < n + CACHE_LINE && a % CACHE_LINE == 0 && b % CACHE_LINE == 0
    ensures a == b
  {
  }

  lemma AtLeastOnce(n: nat, stride: nat)
    requires n >= 1
    ensures n * stride >= stride
  {
    assert (n - 1) * stride >= 0;
  }

  lemma StridesNeeded(cfg: Config)
    requires SIZEOF_RING + cfg.capacity * SIZEOF_ENTRY <= SIZE_MAX - CACHE_LINE && SIZEOF_SLOT + cfg.payload <= SIZE_MAX - CACHE_LINE
    ensures RingStride(cfg) == Up(SIZEOF_RING + cfg.capacity * SIZEOF_ENTRY) && SlotStride(cfg) == Up(SIZEOF_SLOT + cfg.payload)
  {
    hide AlignUp, Up, Add64, Mul64;
    ProductExact(cfg.capacity, SIZEOF_ENTRY);
    SumExact(SIZEOF_RING, cfg.capacity * SIZEOF_ENTRY);
    UpExact(SIZEOF_RING + cfg.capacity * SIZEOF_ENTRY);
    SumExact(SIZEOF_SLOT, cfg.payload);
    UpExact(SIZEOF_SLOT + cfg.payload);
  }

  /** A validated configuration whose region stays a cache line clear of 2^64 is laid out, in exactly the size it needs. */
  lemma LayoutComplete(kind: ChannelType, cfg: Config, name: Size)
    requires ValidateConfig(kind, cfg).Ok? && name <= MAX_NAME && Needed(cfg, name) <= SIZE_MAX - CACHE_LINE
    ensures ComputeLayout(cfg, name).Ok? && ComputeLayout(cfg, name).value.total == Needed(cfg, name)
  {
    hide IsPowerOfTwo, AlignUp, Up, Add64, Mul64, RingStride, SlotStride;
    var ring, slot := Up(SIZEOF_RING + cfg.capacity * SIZEOF_ENTRY), Up(SIZEOF_SLOT + cfg.payload);
    AtLeastOnce(cfg.maxSubs, ring);
    AtLeastOnce(cfg.pool, slot);
    var header := Up(SIZEOF_HEADER + name);
    var rings := Up(header + cfg.schemaCapacity);
    assert SIZEOF_RING + cfg.capacity * SIZEOF_ENTRY <= ring && SIZEOF_SLOT + cfg.payload <= slot;
    SumExact(SIZEOF_HEADER, name);
    UpExact(SIZEOF_HEADER + name);
    StridesNeeded(cfg);
    SumExact(header, cfg.schemaCapacity);
    UpExact(header + cfg.schemaCapacity);
    DivAtLeast(cfg.maxSubs, ring, SIZE_MAX - rings);
    ProductExact(cfg.maxSubs, ring);
    SumExact(rings, cfg.maxSubs * ring);
    var pool := rings + cfg.maxSubs * ring;
    DivAtLeast(cfg.pool, slot, SIZE_MAX - pool);
    ProductExact(cfg.pool, slot);
    SumExact(pool, cfg.pool * slot);
    assert ComputeLayout(cfg, name).Ok?;
  }
}
