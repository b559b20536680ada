# Object pool model

A model of the header-only C++ object pool `ObjectPool<T>` and its owning handle `ObjectPtr<T>`.

- **The pool.** It owns a growing list of chunks of `chunk_size` slots each. A stack of free slots serves allocations. `allocate` grows the pool by one chunk only when the stack is empty, then constructs the object in the slot on top. The slot is popped only if the object's constructor returns normally. `deallocate` destructs the object and pushes its slot back. `available()` is the size of the stack.
- **The handle.** `ObjectPtr` is move-only and holds a slot and its pool. Its destructor and `reset` return the slot to the pool exactly once. Move construction and move assignment transfer the binding and empty the source. Move assignment releases the destination's own slot first.

The project has three modules:

- `PoolSpec` (`pool_spec.dfy`) is the bookkeeping as values.
  - A `Pool` records the chunk size, the number of chunks, the free list (its top is the last element) and the set of occupied slots.
  - Slot `i` of chunk `c` is the id `c * chunkSize + i`.
  - The invariant `Inv` says the free list holds distinct, unoccupied slots of the pool, and that free and occupied slots together number the capacity. `Partition` shows that every slot is then free exactly once or occupied.
  - Each operation is a function. Lemmas show that each operation keeps `Inv` and what it changes. Further lemmas cover LIFO reuse, undoing an allocation, and whole runs of calls.
- `ObjectPools` (`object_pool.dfy`) has the pool and the handle as classes whose fields change in place.
  - Each method is proved against `PoolSpec` through `ObjectPool.Model()`.
  - The outcome of `T`'s constructor is the parameter `throws`. A throwing constructor yields `ConstructorThrew` instead of a handle.
- `PoolDemo` (`pool_demo.dfy`) contains clients that work through the pool and its handles:
  - the repository's demonstration program, with the `available()` values it logs;
  - handle moves;
  - a constructor that throws.

## Model

| member | source | states |
|---|---|---|
| PoolSpec.Inv | object_pool/src/object_pool.h:70-72 | the bookkeeping invariant of the fields: distinct free slots of the pool, none occupied, occupied slots inside the pool, free and occupied numbering the capacity; kept by every operation (GrowSpec, TakeSpec, DeallocateSpec, RunSpec) and made an exact partition by Partition |
| PoolSpec.Available | object_pool/src/object_pool.h:119 | available() is the size of the free list; Partition and RunSpec bound it by the capacity |
| PoolSpec.SlotsInIsProduct | object_pool/src/object_pool.h:70-72 | a pool of n chunks of chunk_size slots has n * chunk_size slots |
| PoolSpec.ChunkSlots | object_pool/src/object_pool.h:78-80 | the slots of a new chunk are pushed in index order: entry i is the chunk's first slot plus i |
| PoolSpec.Partition | object_pool/src/object_pool.h:70-72 | under the invariant, the free and the occupied slots are disjoint and together are all slots of the pool, so available() is at most the capacity |
| PoolSpec.Grow | object_pool/src/object_pool.h:74-82 | allocate_chunk on the value: one more chunk, whose slots are pushed above the free list in index order; GrowSpec states its properties and ObjectPool.AllocateChunk is proved equal to it |
| PoolSpec.GrowSpec | object_pool/src/object_pool.h:74-82 | allocate_chunk adds one chunk, pushes exactly its chunk_size new slots above the old free list with its last slot on top, keeps the occupied slots and keeps the invariant |
| PoolSpec.Init | object_pool/src/object_pool.h:84-88 | the constructor on the value: the empty pool of the given chunk size, grown once; InitSpec states its properties |
| PoolSpec.InitSpec | object_pool/src/object_pool.h:84-88 | after construction there is one chunk, all chunk_size slots are free, none is occupied, and the invariant holds |
| PoolSpec.Prepare | object_pool/src/object_pool.h:93-94 | the growth step of allocate: a new chunk exactly when the free list is empty; PrepareSpec states its properties |
| PoolSpec.PrepareSpec | object_pool/src/object_pool.h:93-94 | allocate grows the pool only when the free list is empty, keeps the old free list as a prefix and always leaves a free slot on top |
| PoolSpec.Top | object_pool/src/object_pool.h:95 | free_list.top(): the last entry of the free list, defined only when it is non-empty |
| PoolSpec.Take | object_pool/src/object_pool.h:99-100 | a successful construction into the top slot followed by the pop: the slot leaves the free list and becomes occupied; TakeSpec states its properties |
| PoolSpec.TakeSpec | object_pool/src/object_pool.h:95-100 | popping the top slot keeps the invariant; that slot was not occupied |
| PoolSpec.Allocate | object_pool/src/object_pool.h:91-108 | allocate on the value: the growth step, then on success the top slot is taken and handed out, and on a throw nothing is; AllocateSucceeds and AllocateThrows state its properties |
| PoolSpec.AllocateSucceeds | object_pool/src/object_pool.h:91-108 | a successful allocate hands out the top slot after growth, which was free and is now occupied; one slot fewer is free, and the invariant holds |
| PoolSpec.AllocateThrows | object_pool/src/object_pool.h:97-105 | when the constructor throws, nothing is handed out and no slot becomes occupied or leaves the free list; a chunk added by the same call stays |
| PoolSpec.Deallocate | object_pool/src/object_pool.h:110-117 | deallocate on the value: null is ignored, any other slot is pushed on the free list and is no longer occupied; DeallocateSpec and DeallocateKeepsInvIff state its properties |
| PoolSpec.DeallocateSpec | object_pool/src/object_pool.h:110-117 | deallocate of null changes nothing; of an occupied slot it pushes that slot on top, one more slot is free, and the invariant holds |
| PoolSpec.DeallocateKeepsInvIff | object_pool/src/object_pool.h:110-117 | a release keeps the invariant if and only if the released slot was occupied |
| PoolSpec.ReuseAfterDeallocate | object_pool/src/object_pool.h:91-117 | LIFO reuse: the slot released last is the next one handed out, without growth, and the pool returns to its state before the release |
| PoolSpec.DeallocateAfterAllocate | object_pool/src/object_pool.h:91-117 | releasing the slot just handed out restores the pool as the growth step left it, which is exactly the old pool when the free list was not empty |
| PoolSpec.Run | object_pool/src/object_pool.h:68-120 | folds allocate and deallocate calls over a sequence; its one ensures, that the chunk size is kept, is only what its own recursion needs to be well-formed (no operation writes the chunk size), and the properties of a run are stated by RunSpec |
| PoolSpec.RunSpec | object_pool/src/object_pool.h:68-120 | over any sequence of calls that releases only occupied slots, the invariant holds, the number of chunks and the capacity never shrink, and available() never exceeds the capacity |
| PoolSpec.ZeroChunkSizeHasNoTop | object_pool/src/object_pool.h:84-95 | with chunk size 0, the free list is still empty after the growth step of allocate, so there is no top slot to construct into |
| ObjectPools.ObjectPool.constructor | object_pool/src/object_pool.h:84-88 | the new pool is valid, equals the one-chunk pool of the given chunk size, and has chunk_size slots available |
| ObjectPools.ObjectPool.Default | object_pool/src/object_pool.h:84 | without an argument the chunk size is 16, and the pool starts with 16 free slots |
| ObjectPools.ObjectPool.AllocateChunk | object_pool/src/object_pool.h:74-82 | the push loop leaves the pool as the value-level growth step gives it; the new chunk begins at slot count * chunk_size; the pool stays valid |
| ObjectPools.ObjectPool.Allocate | object_pool/src/object_pool.h:91-108 | the new state and the handed-out slot are those of the value-level allocate; the result is an exception exactly when the constructor throws; on success a fresh handle bound to this pool owns the slot |
| ObjectPools.ObjectPool.Deallocate | object_pool/src/object_pool.h:110-117 | the new state is that of the value-level deallocate, the chunks are untouched, and the pool stays valid if and only if the slot was null or occupied |
| ObjectPools.ObjectPool.Available | object_pool/src/object_pool.h:119 | available() plus the occupied slots is the capacity |
| ObjectPools.ObjectPtr.constructor | object_pool/src/object_pool.h:29-31 | the handle holds the given slot and pool |
| ObjectPools.ObjectPtr.IsBound | object_pool/src/object_pool.h:63 | a handle that tests false releases nothing |
| ObjectPools.ObjectPtr.WillRelease | object_pool/src/object_pool.h:20 | the guard of reset: the handle holds both a slot and a pool; Reset, Destroy and MoveAssign state their release in terms of it |
| ObjectPools.ObjectPtr.Reset | object_pool/src/object_pool.h:18-26 | a handle with both a slot and a pool releases its slot to that pool, which stays valid, and becomes empty; otherwise nothing changes |
| ObjectPools.ObjectPtr.Destroy | object_pool/src/object_pool.h:33 | the destructor releases as reset does |
| ObjectPools.ObjectPtr.Move | object_pool/src/object_pool.h:39-44 | the new handle takes over the source's slot and pool, and the source is left empty |
| ObjectPools.ObjectPtr.MoveAssign | object_pool/src/object_pool.h:46-57 | self-assignment changes nothing; otherwise the destination's own slot is released first, then it takes over the source's binding and the source is left empty |
| PoolDemo.Demonstration | object_pool/src/object_pool_test.cpp:35-50 | with two-slot chunks, the logged available() values are 2, 1, 2, 1, 0, 1; the slots handed out are 1, 1, 0, 3; 4 slots are free once obj2 to obj4 are gone |
| PoolDemo.ScopedObject | object_pool/src/object_pool_test.cpp:39-43 | an object living in an inner scope takes the top slot, and its destructor leaves the pool exactly as it was |
| PoolDemo.ThreeObjects | object_pool/src/object_pool_test.cpp:44-49 | obj2 reuses slot 1, obj3 takes slot 0, and obj4 gets slot 3 of a new second chunk |
| PoolDemo.EndOfScope | object_pool/src/object_pool_test.cpp:50 | destroying obj4, obj3 and obj2 in that order pushes slots 3, 0 and 1, so all 4 slots are free |
| PoolDemo.FillFirstChunk | object_pool/src/object_pool.h:91-108 | two allocations on a fresh two-slot pool take slot 1 and then slot 0 and empty the free list |
| PoolDemo.Moves | object_pool/src/object_pool.h:39-63 | across a move assignment, a move construction and two destructions, available() reads 0, 1, 1, 2, 2 and the handles test true, false, false, true |
| PoolDemo.MoveAssignment | object_pool/src/object_pool.h:46-57 | move assignment between two bound handles frees the destination's slot and empties the source |
| PoolDemo.MoveConstruction | object_pool/src/object_pool.h:39-44 | right after the move the moved-from handle tests false and the moved-to handle tests true; the moved-to handle then releases the slot, and the moved-from handle releases nothing |
| PoolDemo.FailedConstruction | object_pool/src/object_pool.h:93-107 | a throwing constructor on a full pool leaves the new chunk's two slots free; the next allocation gets slot 3, and the pool keeps two chunks |

## Left out

- Memory is not modelled. Slots are ids, not addresses, and the contents of `T` are not modelled. Neither are the constructor arguments, placement `new` or the call to `~T()`. What the constructor does is reduced to whether it throws.
- Object lifetimes outside occupancy are not modelled. `new T[chunk_size]` default-constructs every slot, and the chunk's `delete[]` destroys every slot again when the pool is destroyed. The pool's implicit destructor is not modelled either.
- Out-of-memory failures of `new` and of the chunk vector's growth are not modelled.
- `size_t` is modelled as unbounded: the counts have no 64-bit width.
- `operator->` and `operator*` are left out, because they only expose the object, whose contents are not modelled.
- The copy constructor and copy assignment are deleted in the source, so there is nothing to model. Dafny references can alias, so the model does not enforce that a slot has one handle.
- `catch (...) { throw; }` only rethrows. It is modelled as returning `ConstructorThrew` with the pool as the throw leaves it.
- The test program's `log` output is left out. `PoolDemo.Demonstration` returns the values it would log.
- ObjectPools.ObjectPool.constructor: requires a chunk size of at least 1. The source accepts 0, but then `allocate` reads from an empty stack (see Findings).
- PoolSpec.Allocate: requires a chunk size of at least 1, for the same reason.
- ObjectPools.ObjectPtr.Reset: requires `Owns()`, the handle discipline: a handle that will release points into a valid pool whose slot it occupies. The source keeps this through move-only handles. The model does not track globally that no two handles share a slot, so each caller shows it.
- ObjectPools.ObjectPtr.Destroy: requires `Owns()`, as `Reset` does.
- ObjectPools.ObjectPtr.MoveAssign: requires `Owns()` of the destination when it is not the source, as `Reset` does.
- A handle that outlives its pool (a dangling `pool` pointer) is not modelled: the pool's lifetime is outside the model.

## Findings

| source | as written | input that shows it | evidently intended | confidence | as-written member | corrected member |
|---|---|---|---|---|---|---|
| object_pool/src/object_pool.h:84-95 | the constructor accepts chunk_size 0; allocate_chunk then adds no slot, and allocate calls `top()` on the still empty free list | `ObjectPool<T>(0)` followed by `allocate()` | the chunk size is at least 1, so the growth step always leaves a slot on top | not executed; follows from lines 76-80 and 93-95 | PoolSpec.ZeroChunkSizeHasNoTop | PoolSpec.PrepareSpec |
