/**
Reserved slots: a Publisher reserves at most one slot, AllocatedSlot handles name it by a
reservation number, and both kinds of object are moved, reassigned and dropped freely.

`Sound` relates any number of publishers and handles of one channel; every operation keeps it
for every such collection.
*/
module Reservation {

  datatype Option<+T> = None | Some(value: T)

  const EMSGSIZE: int := 90
  const EAGAIN: int := 11

  /** A reservation as it comes back to the top of the stack. */
  function Back(pending: Option<nat>): seq<nat> { if pending.Some? then [pending.value] else [] }

  /** The slots of a channel: the free stack, and those published and not yet recycled. */
  class Pool {
    const size: nat
    var free: seq<nat>
    var delivered: set<nat>

    constructor (size: nat)
      ensures this.size == size && free == seq(size, i requires 0 <= i < size => i) && delivered == {}
    {
      this.size := size;
      free := seq(size, i requires 0 <= i < size => i);
      delivered := {};
    }

    method Push(s: nat)
      modifies this`free
      ensures free == [s] + old(free)
    {
      free := [s] + free;
    }

    method Pop() returns (s: Option<nat>)
      modifies this`free
      ensures old(free) == [] ==> s == None && free == []
      ensures old(free) != [] ==> s == Some(old(free)[0]) && free == old(free)[1..]
    {
      if free == [] { return None; }
      s := Some(free[0]);
      free := free[1..];
    }
  }

  class Publisher {
    const pool: Pool
    const dataSize: nat
    var pending: Option<nat>
    var reservation: nat

    constructor (pool: Pool, dataSize: nat)
      ensures this.pool == pool && this.dataSize == dataSize && pending == None && reservation == 0
    {
      this.pool, this.dataSize, pending, reservation := pool, dataSize, None, 0;
    }

    /** release_pending() */
    method ReleasePending(ghost pubs: set<Publisher>)
      requires Places(pool, pubs) && this in pubs
      modifies this`pending, pool`free
      ensures Places(pool, pubs) && pending == None
      ensures pool.free == Back(old(pending)) + old(pool.free)
    {
      if pending.Some? {
        label before:
        assert InOnePlace(pool, pubs, pending.value);
        pool.Push(pending.value);
        pending := None;
        forall s: nat | s < pool.size ensures InOnePlace(pool, pubs, s) {
          assert old@before(InOnePlace(pool, pubs, s));
          if !(s in pool.free || s in pool.delivered) {
            var p :| p in pubs && old@before(p.pending) == Some(s);
            assert p.pending == Some(s);
          }
        }
      }
    }

    /** The pop of allocate(). */
    method Reserve(ghost pubs: set<Publisher>) returns (s: Option<nat>)
      requires Places(pool, pubs) && this in pubs && pending == None
      modifies this`pending, pool`free
      ensures Places(pool, pubs) && pending == s
      ensures old(pool.free) == [] ==> s == None && pool.free == []
      ensures old(pool.free) != [] ==> s == Some(old(pool.free)[0]) && pool.free == old(pool.free)[1..]
    {
      if pool.free != [] { assert InOnePlace(pool, pubs, pool.free[0]); }
      s := pool.Pop();
      assert forall t :: t in pool.free ==> t in old(pool.free);
      pending := s;
      forall t: nat | t < pool.size ensures InOnePlace(pool, pubs, t) {
        assert old(InOnePlace(pool, pubs, t));
        if s == Some(t) {
          assert pending == Some(t);
        } else if !(t in pool.free || t in pool.delivered) {
          var p :| p in pubs && old(p.pending) == Some(t);
          assert p.pending == Some(t);
        }
      }
    }

    /** allocate(): the previous reservation is superseded even when the pool is empty. */
    method Allocate(ghost pubs: set<Publisher>, ghost handles: set<AllocatedSlot>) returns (h: AllocatedSlot)
      requires Sound(pool, pubs, handles) && this in pubs
      modifies this, pool`free
      ensures fresh(h) && Sound(pool, pubs, handles + {h}) && reservation == old(reservation) + 1
      ensures h.Valid() <==> old(pending).Some? || old(pool.free) != []
      ensures if h.Valid() then h.publisher == this && pending == Some(h.slot) else pending == None
      ensures Back(pending) + pool.free == Back(old(pending)) + old(pool.free)
      ensures forall g :: g in handles && g.publisher == this ==> !g.Valid()
    {
      ReleasePending(pubs);
      reservation := reservation + 1;
      var s := Reserve(pubs);
      if s.None? {
        h := new AllocatedSlot.Empty();
      } else {
        h := new AllocatedSlot(this, s.value, dataSize, reservation);
      }
    }

    /** publish(): the pending slot goes to the rings, or back to the pool when `len` is too large. */
    method Publish(len: nat, ghost pubs: set<Publisher>) returns (taken: bool)
      requires Places(pool, pubs) && this in pubs
      modifies this`pending, pool
      ensures Places(pool, pubs) && pending == None
      ensures taken <==> old(pending).Some? && len <= dataSize
      ensures taken ==> pool.delivered == old(pool.delivered) + {old(pending).value} && pool.free == old(pool.free)
      ensures !taken ==> pool.delivered == old(pool.delivered)
                         && pool.free == Back(old(pending)) + old(pool.free)
    {
      if len > dataSize {
        ReleasePending(pubs);
        return false;
      }
      if pending.None? { return false; }
      assert InOnePlace(pool, pubs, pending.value);
      pool.delivered := pool.delivered + {pending.value};
      pending := None;
      forall s: nat | s < pool.size ensures InOnePlace(pool, pubs, s) {
        assert old(InOnePlace(pool, pubs, s));
        if !(s in pool.free || s in pool.delivered) {
          var p :| p in pubs && old(p.pending) == Some(s);
          assert p.pending == Some(s);
        }
      }
      return true;
    }

    /** send(): allocate, copy, publish; a length that cannot fit leaves even the pending reservation alone. */
    method Send(len: nat, ghost pubs: set<Publisher>, ghost handles: set<AllocatedSlot>) returns (r: int)
      requires Sound(pool, pubs, handles) && this in pubs
      modifies this, pool
      ensures Sound(pool, pubs, handles)
      ensures len > dataSize ==> r == -EMSGSIZE && pending == old(pending) && reservation == old(reservation)
                                 && pool.free == old(pool.free) && pool.delivered == old(pool.delivered)
      ensures len <= dataSize ==> pending == None && reservation == old(reservation) + 1
      ensures len <= dataSize && old(pending) == None && old(pool.free) == [] ==>
                r == -EAGAIN && pool.delivered == old(pool.delivered)
      ensures len <= dataSize && (old(pending).Some? || old(pool.free) != []) ==>
                && r == len && Back(old(pending)) + old(pool.free) != []
                && var slots := Back(old(pending)) + old(pool.free);
                   pool.delivered == old(pool.delivered) + {slots[0]} && pool.free == slots[1..]
    {
      if len > dataSize { return -EMSGSIZE; }
      var h := Allocate(pubs, handles);
      if !h.Valid() { return -EAGAIN; }
      var _ := h.Publish(len, pool, pubs, handles + {h});
      return len;
    }

    /** Publisher(Publisher&&): the source keeps counting, so it never reissues a number. */
    constructor MoveFrom(other: Publisher, ghost pubs: set<Publisher>, ghost handles: set<AllocatedSlot>)
      requires Sound(other.pool, pubs, handles) && other in pubs
      modifies other, other.pool`free
      ensures pool == other.pool && dataSize == other.dataSize
      ensures Sound(pool, pubs + {this}, handles)
      ensures pending == None && reservation == old(other.reservation)
      ensures other.pending == None && other.reservation == old(other.reservation) + 1
      ensures pool.free == Back(old(other.pending)) + old(other.pool.free)
      ensures forall h :: h in handles && h.publisher == other ==> !h.Valid()
    {
      pool, dataSize, pending, reservation := other.pool, other.dataSize, None, other.reservation;
      new;
      other.ReleasePending(pubs);
      other.reservation := other.reservation + 1;
      PlacesGrow(pool, pubs, this);
    }

    /** operator=(Publisher&&) between publishers of one channel. */
    method MoveAssign(other: Publisher, ghost pubs: set<Publisher>, ghost handles: set<AllocatedSlot>)
      requires Sound(pool, pubs, handles) && this in pubs && other in pubs
      modifies this, other, pool`free
      ensures Sound(pool, pubs, handles)
      ensures this != other ==> forall h :: h in handles && (h.publisher == this || h.publisher == other) ==> !h.Valid()
      ensures this != other ==>
                && pending == None && other.pending == None
                && reservation > old(reservation) && reservation > old(other.reservation)
                && other.reservation == old(other.reservation) + 1
                && pool.free == Back(old(other.pending)) + Back(old(pending)) + old(pool.free)
      ensures this == other ==> pending == old(pending) && reservation == old(reservation) && pool.free == old(pool.free)
    {
      if this == other { return; }
      ReleasePending(pubs);
      reservation := (if reservation > other.reservation then reservation else other.reservation) + 1;
      other.ReleasePending(pubs);
      other.reservation := other.reservation + 1;
    }
  }

  class AllocatedSlot {
    var publisher: Publisher?
    var slot: nat
    var maxSize: nat
    var id: nat
    var published: bool

    constructor (publisher: Publisher, slot: nat, maxSize: nat, id: nat)
      ensures this.publisher == publisher && this.slot == slot && this.maxSize == maxSize && this.id == id && !published
    {
      this.publisher, this.slot, this.maxSize, this.id, published := publisher, slot, maxSize, id, false;
    }

    constructor Empty()
      ensures publisher == null && !published
    {
      publisher, slot, maxSize, id, published := null, 0, 0, 0, false;
    }

    /** The publisher the handle refers to, if any. */
    ghost function Home(): set<Publisher>
      reads this
    {
      if publisher == null then {} else {publisher}
    }

    predicate Valid()
      reads this, publisher
    {
      publisher != null && !published && publisher.reservation == id
    }

    /** ~AllocatedSlot() */
    method Drop(pool: Pool, ghost pubs: set<Publisher>, ghost handles: set<AllocatedSlot>)
      requires Sound(pool, pubs, handles) && this in handles
      modifies Home()`pending, pool`free
      ensures Sound(pool, pubs, handles - {this})
      ensures old(Valid()) ==> pool.free == [slot] + old(pool.free) && publisher.pending == None
      ensures !old(Valid()) ==> pool.free == old(pool.free) && (publisher != null ==> publisher.pending == old(publisher.pending))
    {
      if Valid() { publisher.ReleasePending(pubs); }
    }

    /** AllocatedSlot(AllocatedSlot&&) */
    constructor MoveFrom(other: AllocatedSlot, pool: Pool, ghost pubs: set<Publisher>, ghost handles: set<AllocatedSlot>)
      requires Sound(pool, pubs, handles) && other in handles
      modifies other
      ensures Sound(pool, pubs, handles + {this}) && !other.Valid()
      ensures publisher == old(other.publisher) && slot == old(other.slot) && id == old(other.id)
      ensures published == old(other.published)
      ensures Valid() == old(other.Valid())
    {
      publisher, slot, maxSize, id, published := other.publisher, other.slot, other.maxSize, other.id, other.published;
      new;
      other.publisher := null;
    }

    /** The fields of a move: the source refers to nobody afterwards. */
    method Take(other: AllocatedSlot, pool: Pool, ghost pubs: set<Publisher>, ghost handles: set<AllocatedSlot>)
      requires Sound(pool, pubs, handles) && this !in handles && other in handles
      modifies this, other
      ensures Sound(pool, pubs, handles + {this}) && !other.Valid()
      ensures publisher == old(other.publisher) && slot == old(other.slot) && Valid() == old(other.Valid())
    {
      hide Places;
      publisher, slot, maxSize, id, published := other.publisher, other.slot, other.maxSize, other.id, other.published;
      other.publisher := null;
      forall h | h in handles && h != other ensures HandleOk(pubs, h) && !SameNumber(this, h) && !SameNumber(h, this) {
        assert old(HandleOk(pubs, h) && HandleOk(pubs, other));
        assert !old(SameNumber(other, h));
      }
      forall g, h | g in handles && h in handles && g != h ensures !SameNumber(g, h) { assert !old(SameNumber(g, h)); }
    }

    /** operator=(AllocatedSlot&&): what this handle still reserved goes back first. */
    method MoveAssign(other: AllocatedSlot, pool: Pool, ghost pubs: set<Publisher>, ghost handles: set<AllocatedSlot>)
      requires Sound(pool, pubs, handles) && this in handles && other in handles
      modifies this, other, Home()`pending, pool`free
      ensures Sound(pool, pubs, handles)
      ensures this != other ==> !other.Valid() && publisher == old(other.publisher) && slot == old(other.slot)
                                && Valid() == old(other.Valid())
                                && pool.free == (if old(Valid()) then [old(slot)] else []) + old(pool.free)
      ensures this == other ==> pool.free == old(pool.free) && Valid() == old(Valid())
    {
      if this == other { return; }
      Drop(pool, pubs, handles);
      Take(other, pool, pubs, handles - {this});
      assert handles - {this} + {this} == handles;
    }

    /** publish(): the handle is used up whether or not the length fits. */
    method Publish(len: nat, pool: Pool, ghost pubs: set<Publisher>, ghost handles: set<AllocatedSlot>) returns (taken: bool)
      requires Sound(pool, pubs, handles) && this in handles
      modifies this, Home()`pending, pool
      ensures Sound(pool, pubs, handles) && !Valid() && publisher == old(publisher)
      ensures old(Valid()) ==> publisher.pending == None
      ensures taken <==> old(Valid()) && len <= old(if publisher == null then 0 else publisher.dataSize)
      ensures taken ==> pool.delivered == old(pool.delivered) + {old(slot)} && pool.free == old(pool.free)
      ensures !taken && old(Valid()) ==> pool.free == [old(slot)] + old(pool.free) && pool.delivered == old(pool.delivered)
      ensures !old(Valid()) ==> pool.free == old(pool.free) && pool.delivered == old(pool.delivered)
    {
      if !Valid() { return false; }
      published := true;
      taken := publisher.Publish(len, pubs);
    }
  }

  // ----- every collection of publishers and handles -----

  /** Where slot `s` is: on the free stack, with the rings, or reserved. */
  ghost predicate InOnePlace(pool: Pool, pubs: set<Publisher>, s: nat)
    reads pool, pubs`pending
  {
    && (s in pool.free ==> s !in pool.delivered && forall p :: p in pubs ==> p.pending != Some(s))
    && (s in pool.delivered ==> forall p :: p in pubs ==> p.pending != Some(s))
    && (s in pool.free || s in pool.delivered || exists p :: p in pubs && p.pending == Some(s))
  }

  /** Every slot is in one place, and no two publishers reserve one slot. */
  ghost predicate Places(pool: Pool, pubs: set<Publisher>)
    reads pool, pubs`pending
  {
    && (forall p :: p in pubs ==> p.pool == pool && (p.pending.Some? ==> p.pending.value < pool.size))
    && (forall p, q :: p in pubs && q in pubs && p != q && p.pending.Some? ==> p.pending != q.pending)
    && (forall s :: s in pool.free || s in pool.delivered ==> s < pool.size)
    && (forall i, j :: 0 <= i < j < |pool.free| ==> pool.free[i] != pool.free[j])
    && (forall s: nat :: s < pool.size ==> InOnePlace(pool, pubs, s))
  }

  ghost predicate HandleOk(pubs: set<Publisher>, h: AllocatedSlot)
    reads h, pubs
  {
    && (h.publisher != null ==> h.publisher in pubs && h.id <= h.publisher.reservation)
    && (h.publisher != null && h.Valid() ==> h.publisher.pending == Some(h.slot) && h.maxSize == h.publisher.dataSize)
  }

  predicate SameNumber(g: AllocatedSlot, h: AllocatedSlot)
    reads g, h
  {
    g.publisher != null && g.publisher == h.publisher && g.id == h.id
  }

  ghost predicate Sound(pool: Pool, pubs: set<Publisher>, handles: set<AllocatedSlot>)
    reads pool, pubs, handles
  {
    && Places(pool, pubs)
    && (forall h :: h in handles ==> HandleOk(pubs, h))
    && (forall g, h :: g in handles && h in handles && g != h ==> !SameNumber(g, h))
  }

  lemma PlacesGrow(pool: Pool, pubs: set<Publisher>, p: Publisher)
    requires Places(pool, pubs) && p.pool == pool && p.pending == None
    ensures Places(pool, pubs + {p})
  {
    forall s: nat | s < pool.size ensures InOnePlace(pool, pubs + {p}, s) { assert InOnePlace(pool, pubs, s); }
  }

  /** At most one handle of a publisher is valid, and it names the publisher's pending slot. */
  lemma OneValidHandle(pool: Pool, pubs: set<Publisher>, handles: set<AllocatedSlot>, g: AllocatedSlot, h: AllocatedSlot)
    requires Sound(pool, pubs, handles) && g in handles && h in handles
    requires g.Valid() && h.Valid() && g.publisher == h.publisher
    ensures g == h && g.publisher.pending == Some(g.slot) && g.slot !in pool.free && g.slot !in pool.delivered
  {
    assert InOnePlace(pool, pubs, g.slot);
  }
}
