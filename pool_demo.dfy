/** Clients of the pool that exercise the handle's scoped release: the
    demonstration program of the repository, the ownership moves and a
    constructor that throws. Each step records the pool's state. */
module PoolDemo {
  import opened PoolSpec
  import opened ObjectPools

  /** The demonstration program with a pool of two-slot chunks: `sizes` are
      the values of `available()` it logs, `slots` the slots given to obj1 to
      obj4 (obj2 reuses the slot obj1 released; obj4 is served from a second
      chunk), and `final` is what is available once obj4, obj3 and obj2 have
      gone out of scope. */
  method Demonstration() returns (sizes: seq<nat>, slots: seq<nat>, final: nat)
    ensures sizes == [2, 1, 2, 1, 0, 1]
    ensures slots == [1, 1, 0, 3]
    ensures final == 4
  {
    var pool := new ObjectPool(2);
    assert pool.Model() == Pool(2, 1, [0, 1], {});
    var before := pool.Available();
    var inner, slot1 := ScopedObject(pool);
    var after := pool.Available();
    sizes := [before, inner, after];
    var obj2, obj3, obj4, more := ThreeObjects(pool);
    sizes := sizes + more;
    slots := [slot1, obj2.ptr.value, obj3.ptr.value, obj4.ptr.value];
    final := EndOfScope(pool, obj2, obj3, obj4);
  }

  /** An object that lives in an inner scope: it takes the top free slot,
      and its destructor pushes that slot back, leaving the pool as it was.
      `size` is what is available while it lives. */
  method ScopedObject(pool: ObjectPool) returns (size: nat, slot: nat)
    requires pool.Valid() && pool.freeList != []
    modifies pool
    ensures pool.Valid() && pool.Model() == old(pool.Model())
    ensures size == old(pool.Available()) - 1
    ensures slot == Top(old(pool.Model()))
  {
    var r := pool.Allocate(false);
    var obj := r.handle;
    size := pool.Available();
    slot := obj.ptr.value;
    obj.Destroy();
    DeallocateAfterAllocate(old(pool.Model()));
  }

  /** obj2, obj3 and obj4 of the demonstration on a fresh two-slot pool: the
      first chunk runs out and obj4 is served from a second one. */
  method ThreeObjects(pool: ObjectPool) returns (obj2: ObjectPtr, obj3: ObjectPtr, obj4: ObjectPtr, sizes: seq<nat>)
    requires pool.Valid() && pool.Model() == Pool(2, 1, [0, 1], {})
    modifies pool
    ensures pool.Valid() && pool.Model() == Pool(2, 2, [2], {0, 1, 3})
    ensures fresh(obj2) && fresh(obj3) && fresh(obj4)
    ensures obj2 != obj3 && obj2 != obj4 && obj3 != obj4
    ensures obj2.pool == pool && obj3.pool == pool && obj4.pool == pool
    ensures obj2.ptr == Some(1) && obj3.ptr == Some(0) && obj4.ptr == Some(3)
    ensures sizes == [1, 0, 1]
  {
    var r2 := pool.Allocate(false);
    assert pool.Model() == Pool(2, 1, [0], {1});
    obj2 := r2.handle;
    sizes := [pool.Available()];
    var r3 := pool.Allocate(false);
    assert pool.Model() == Pool(2, 1, [], {0, 1});
    obj3 := r3.handle;
    sizes := sizes + [pool.Available()];
    var r4 := pool.Allocate(false);
    assert pool.Model() == Pool(2, 2, [2], {0, 1, 3});
    obj4 := r4.handle;
    sizes := sizes + [pool.Available()];
  }

  /** The end of the demonstration's scope: obj4, obj3 and obj2 are destroyed
      in reverse order of construction, each pushing its slot back. */
  method EndOfScope(pool: ObjectPool, obj2: ObjectPtr, obj3: ObjectPtr, obj4: ObjectPtr) returns (final: nat)
    requires pool.Valid() && pool.Model() == Pool(2, 2, [2], {0, 1, 3})
    requires obj2 != obj3 && obj2 != obj4 && obj3 != obj4
    requires obj2.pool == pool && obj3.pool == pool && obj4.pool == pool
    requires obj2.ptr == Some(1) && obj3.ptr == Some(0) && obj4.ptr == Some(3)
    modifies pool, obj2, obj3, obj4
    ensures pool.Model() == Pool(2, 2, [2, 3, 0, 1], {})
    ensures final == 4
  {
    obj4.Destroy();
    assert pool.Model() == Pool(2, 2, [2, 3], {0, 1});
    obj3.Destroy();
    assert pool.Model() == Pool(2, 2, [2, 3, 0], {1});
    obj2.Destroy();
    final := pool.Available();
  }

  /** Two handles that take both slots of a fresh two-slot pool: the first
      gets the chunk's top slot 1, the second slot 0. */
  method FillFirstChunk(pool: ObjectPool) returns (a: ObjectPtr, b: ObjectPtr)
    requires pool.Valid() && pool.Model() == Pool(2, 1, [0, 1], {})
    modifies pool
    ensures pool.Valid() && pool.Model() == Pool(2, 1, [], {0, 1})
    ensures fresh(a) && fresh(b) && a != b
    ensures a.pool == pool && b.pool == pool
    ensures a.ptr == Some(1) && b.ptr == Some(0)
  {
    var ra := pool.Allocate(false);
    assert pool.Model() == Pool(2, 1, [0], {1});
    a := ra.handle;
    var rb := pool.Allocate(false);
    b := rb.handle;
  }

  /** Ownership moves between handles on a pool of two-slot chunks: move
      assignment releases the destination's slot before taking the source's,
      move construction empties the source, and releasing an empty handle does
      nothing. `sizes` are the values of `available()` after each step, and
      `bound` the truth values of the handles involved. */
  method Moves() returns (sizes: seq<nat>, bound: seq<bool>)
    ensures sizes == [0, 1, 1, 2, 2]
    ensures bound == [true, false, false, true]
  {
    var pool := new ObjectPool(2);
    assert pool.Model() == Pool(2, 1, [0, 1], {});
    var a, b := FillFirstChunk(pool);
    sizes := [pool.Available()];
    var first;
    first, bound := MoveAssignment(pool, a, b);
    var rest, moved := MoveConstruction(pool, a);
    sizes := sizes + first + rest;
    bound := bound + moved;
  }

  /** `a = std::move(b)` with both handles bound: a's slot 1 goes back to the
      pool, a takes b's slot 0 and b is left empty. */
  method MoveAssignment(pool: ObjectPool, a: ObjectPtr, b: ObjectPtr) returns (sizes: seq<nat>, bound: seq<bool>)
    requires pool.Valid() && pool.Model() == Pool(2, 1, [], {0, 1})
    requires a != b && a.pool == pool && b.pool == pool
    requires a.ptr == Some(1) && b.ptr == Some(0)
    modifies pool, a, b
    ensures pool.Valid() && pool.Model() == Pool(2, 1, [1], {0})
    ensures a.pool == pool && a.ptr == Some(0)
    ensures sizes == [1] && bound == [true, false]
  {
    a.MoveAssign(b);
    sizes := [pool.Available()];
    bound := [a.IsBound(), b.IsBound()];
  }

  /** `c(std::move(a))` followed by the end of both scopes: c takes a's slot
      and releases it, while the emptied a releases nothing. `bound` holds the
      tests of a and c right after the move. */
  method MoveConstruction(pool: ObjectPool, a: ObjectPtr) returns (sizes: seq<nat>, bound: seq<bool>)
    requires pool.Valid() && pool.Model() == Pool(2, 1, [1], {0})
    requires a.pool == pool && a.ptr == Some(0)
    modifies pool, a
    ensures pool.Model() == Pool(2, 1, [1, 0], {})
    ensures !a.IsBound()
    ensures sizes == [1, 2, 2]
    ensures bound == [false, true]
  {
    var c := new ObjectPtr.Move(a);
    bound := [a.IsBound(), c.IsBound()];
    sizes := [pool.Available()];
    c.Destroy();
    sizes := sizes + [pool.Available()];
    a.Destroy();
    sizes := sizes + [pool.Available()];
  }

  /** Allocation whose constructor throws: the slot on top stays free and is
      the one the next successful allocation hands out, and the chunk added
      by the failed call stays. */
  method FailedConstruction() returns (sizes: seq<nat>, slot: nat, chunkCount: nat)
    ensures sizes == [0, 2, 1]
    ensures slot == 3
    ensures chunkCount == 2
  {
    var pool := new ObjectPool(2);
    assert pool.Model() == Pool(2, 1, [0, 1], {});
    var a, b := FillFirstChunk(pool);
    sizes := [pool.Available()];
    var failed := pool.Allocate(true);
    assert pool.Model() == Pool(2, 2, [2, 3], {0, 1});
    sizes := sizes + [pool.Available()];
    var r := pool.Allocate(false);
    assert pool.Model() == Pool(2, 2, [2], {0, 1, 3});
    sizes := sizes + [pool.Available()];
    slot := r.handle.ptr.value;
    chunkCount := |pool.chunks|;
  }
}
