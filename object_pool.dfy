/** The pool and its owning handle as objects whose fields change in place.

    `ObjectPool` keeps its chunks and its free-list stack as fields and is
    proved against the value-level operations of `PoolSpec` through `Model()`.
    `ObjectPtr` is the move-only handle: it holds a slot (None is the null
    pointer) and a back-reference to the pool that gave it out. */
module ObjectPools {
  import opened PoolSpec

  /** What `allocate` delivers: a handle, or the constructor's exception. */
  datatype Allocation = Allocated(handle: ObjectPtr) | ConstructorThrew

  /** The chunk size of a pool built without one. */
  const DefaultChunkSize: nat := 16

  class ObjectPool {
    /** The first slot id of each chunk, in allocation order. */
    var chunks: seq<nat>
    /** The free-list stack; its top is the last element. */
    var freeList: seq<nat>
    const chunkSize: nat
    /** The slots that hold a live object. */
    ghost var occupied: set<nat>

    ghost function Model(): Pool
      reads this
    {
      Pool(chunkSize, |chunks|, freeList, occupied)
    }

    ghost predicate Valid()
      reads this
    {
      && Inv(Model())
      && forall c :: 0 <= c < |chunks| ==> chunks[c] == c * chunkSize
    }

    /** Pre-allocates one chunk, all of whose slots start free. */
    constructor (chunkSize: nat)
      requires chunkSize >= 1
      ensures Valid()
      ensures Model() == Init(chunkSize)
      ensures |chunks| == 1 && Available() == chunkSize
    {
      this.chunkSize := chunkSize;
      chunks := [];
      freeList := [];
      occupied := {};
      new;
      InitSpec(chunkSize);
      AllocateChunk();
    }

    /** Appends one chunk and pushes its slots onto the free list in index
        order, so that the chunk's last slot is on top. */
    method AllocateChunk()
      requires Valid()
      modifies this
      ensures Valid()
      ensures Model() == Grow(old(Model()))
      ensures chunks == old(chunks) + [old(|chunks|) * chunkSize]
    {
      var begin := |chunks| * chunkSize;
      SlotsInIsProduct(|chunks|, chunkSize);
      var i := 0;
      while i < chunkSize
        invariant 0 <= i <= chunkSize
        invariant freeList == old(freeList) + ChunkSlots(begin, i)
        invariant chunks == old(chunks) && occupied == old(occupied)
      {
        freeList := freeList + [begin + i];
        i := i + 1;
      }
      chunks := chunks + [begin];
      assert Capacity(old(Model())) == begin;
      assert Model() == Grow(old(Model()));
      GrowSpec(old(Model()));
      assert chunks[..|chunks| - 1] == old(chunks);
    }

    /** The default constructor: chunks of `DefaultChunkSize` slots. */
    constructor Default()
      ensures Valid()
      ensures Model() == Init(DefaultChunkSize)
      ensures |chunks| == 1 && Available() == DefaultChunkSize
    {
      chunkSize := DefaultChunkSize;
      chunks := [];
      freeList := [];
      occupied := {};
      new;
      InitSpec(DefaultChunkSize);
      AllocateChunk();
    }

    /** Takes the top free slot (growing the pool first if none is free) and
        constructs an object in it; when `throws` holds the constructor throws,
        the slot is not popped and the exception is handed back. */
    method Allocate(throws: bool) returns (r: Allocation)
      requires Valid()
      modifies this
      ensures Valid()
      ensures Model() == PoolSpec.Allocate(old(Model()), throws).0
      ensures |chunks| >= old(|chunks|) && chunks[..old(|chunks|)] == old(chunks)
      ensures r.ConstructorThrew? <==> throws
      ensures r.Allocated? ==>
        && fresh(r.handle)
        && r.handle.ptr == PoolSpec.Allocate(old(Model()), throws).1
        && r.handle.pool == this
        && r.handle.Owns()
    {
      if |freeList| == 0 {
        AllocateChunk();
      }
      var obj := freeList[|freeList| - 1];
      if throws {
        r := ConstructorThrew;
        return;
      }
      freeList := freeList[..|freeList| - 1];
      occupied := occupied + {obj};
      AllocateSucceeds(old(Model()));
      var h := new ObjectPtr(Some(obj), this);
      r := Allocated(h);
    }

    /** Destructs the object in `ptr` and pushes the slot back onto the free
        list; a null pointer is ignored. Any slot is accepted, but the pool
        stays valid only if the slot held an object. */
    method Deallocate(ptr: Option<nat>)
      requires Valid()
      modifies this
      ensures Model() == PoolSpec.Deallocate(old(Model()), ptr)
      ensures chunks == old(chunks)
      ensures Valid() <==> (ptr.Some? ==> ptr.value in old(occupied))
    {
      if ptr.Some? {
        freeList := freeList + [ptr.value];
        occupied := occupied - {ptr.value};
        DeallocateKeepsInvIff(old(Model()), ptr.value);
      }
    }

    /** The number of free slots, which never exceeds the capacity. */
    function Available(): (n: nat)
      reads this
      requires Valid()
      ensures n + |occupied| == Capacity(Model())
    {
      |freeList|
    }
  }

  class ObjectPtr {
    var ptr: Option<nat>
    var pool: ObjectPool?

    constructor (ptr: Option<nat>, pool: ObjectPool?)
      ensures this.ptr == ptr && this.pool == pool
    {
      this.ptr := ptr;
      this.pool := pool;
    }

    /** `operator bool`: the handle holds a slot. */
    predicate IsBound()
      reads this
      ensures !IsBound() ==> !WillRelease()
    {
      ptr.Some?
    }

    /** Whether releasing this handle returns a slot to a pool. */
    predicate WillRelease()
      reads this
    {
      ptr.Some? && pool != null
    }

    /** Handle discipline: a handle that will release a slot points into a live
        pool in which that slot holds an object. */
    ghost predicate Owns()
      reads this, pool
    {
      WillRelease() ==> pool.Valid() && ptr.value in pool.occupied
    }

    /** Returns the slot to its pool, at most once: afterwards the handle is
        empty, and on an empty handle it does nothing. */
    method Reset()
      requires Owns()
      modifies this, pool
      ensures old(WillRelease()) ==>
        && ptr == None && pool == null
        && old(pool).Valid()
        && old(pool).Model() == PoolSpec.Deallocate(old(pool.Model()), old(ptr))
        && old(pool).chunks == old(pool.chunks)
      ensures !old(WillRelease()) ==>
        && ptr == old(ptr) && pool == old(pool)
        && (pool != null ==> unchanged(pool))
    {
      if ptr.Some? && pool != null {
        pool.Deallocate(ptr);
        ptr := None;
        pool := null;
      }
    }

    /** The destructor: releases the slot, as `Reset` does. */
    method Destroy()
      requires Owns()
      modifies this, pool
      ensures old(WillRelease()) ==>
        && ptr == None && pool == null
        && old(pool).Valid()
        && old(pool).Model() == PoolSpec.Deallocate(old(pool.Model()), old(ptr))
        && old(pool).chunks == old(pool.chunks)
      ensures !old(WillRelease()) ==>
        && ptr == old(ptr) && pool == old(pool)
        && (pool != null ==> unchanged(pool))
    {
      Reset();
    }

    /** Move construction: takes over the source's binding and empties it. */
    constructor Move(other: ObjectPtr)
      modifies other
      ensures ptr == old(other.ptr) && pool == old(other.pool)
      ensures other.ptr == None && other.pool == null
    {
      ptr := other.ptr;
      pool := other.pool;
      new;
      other.ptr := None;
      other.pool := null;
    }

    /** Move assignment: releases this handle's own slot first, then takes over
        the source's binding and empties the source; assigning a handle to
        itself changes nothing. */
    method MoveAssign(other: ObjectPtr)
      requires this != other ==> Owns()
      modifies this, other, pool
      ensures this == other ==> unchanged(this) && (pool != null ==> unchanged(pool))
      ensures this != other ==>
        && ptr == old(other.ptr) && pool == old(other.pool)
        && other.ptr == None && other.pool == null
      ensures this != other && old(WillRelease()) ==>
        && old(pool).Valid()
        && old(pool).Model() == PoolSpec.Deallocate(old(pool.Model()), old(ptr))
        && old(pool).chunks == old(pool.chunks)
      ensures this != other && !old(WillRelease()) && old(pool) != null ==> unchanged(old(pool))
    {
      if this != other {
        Reset();
        ptr := other.ptr;
        pool := other.pool;
        other.ptr := None;
        other.pool := null;
      }
    }
  }
}
