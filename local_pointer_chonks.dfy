/**
 * `LocalPointerChonks<N>` (src/owned/local_pointer_chonks.rs) and the root
 * `LocalPointerChonks` (src/local_pointer_chonks.rs): a pool behind a
 * thread-local cell that falls back to the allocator. A push the pool
 * refuses goes to `free`; a pop from an empty pool comes from `alloc`.
 *
 * The thread-local key and its `UnsafeCell` become this object, handed to
 * whoever uses the pool; `chonks` is the pool in the cell. The allocate and
 * free callbacks, the global allocator included, are an `Allocator`.
 * Both files' `do_push`, `do_pop` and `do_len` are the same code, so one
 * class models both, with each file's constructors.
 */
module LocalPointerChonks {
  import opened Wrappers
  import opened Link
  import opened Alloc
  import opened PointerChonks

  class LocalPointerChonks {
    const chonks: PointerChonks

    /** The pool is well formed and never holds a block twice. */
    ghost predicate Valid()
      reads chonks
    {
      chonks.Valid() && Distinct(chonks.Held())
    }

    /** `with_capacity` of src/owned/local_pointer_chonks.rs, which asserts N > 0 and cap > 0. */
    constructor WithCapacity(n: nat, cap: Usize)
      requires n > 0 && cap > 0
      ensures Valid() && fresh(chonks)
      ensures chonks.n == n && chonks.capacity == cap && chonks.Held() == []
    {
      chonks := new PointerChonks.WithCapacity(n, cap);
    }

    /** `default` of src/owned/local_pointer_chonks.rs: `with_capacity(8 * (N + 1))`. */
    constructor Default(n: nat)
      requires n > 0 && 8 * (n + 1) <= USIZE_MAX
      ensures Valid() && fresh(chonks)
      ensures chonks.n == n && chonks.capacity == 8 * (n + 1) && chonks.Held() == []
    {
      chonks := new PointerChonks.WithCapacity(n, 8 * (n + 1));
    }

    /** The derived `default` of src/local_pointer_chonks.rs: the root pool's `default`. */
    constructor RootDefault()
      ensures Valid() && fresh(chonks)
      ensures chonks.n == CHONK_SIZE && chonks.capacity == 1056 && chonks.Held() == []
    {
      chonks := new PointerChonks.RootDefault();
    }

    /**
     * `do_push`, and so `push` (with `dealloc`) and `push_custom` (with the
     * caller's `free`): the block goes into the pool unless the pool is
     * full, in which case it is handed to `free` and the pool is untouched.
     */
    method DoPush(id: Id, free: Allocator)
      requires Valid() && id !in chonks.Held()
      modifies chonks, free
      ensures Valid()
      ensures var full := old(chonks.length) == chonks.capacity;
        && chonks.Held() == old(chonks.Held()) + (if full then [] else [id])
        && free.freed == old(free.freed) + (if full then [id] else [])
        && (full ==> unchanged(chonks))
      ensures free.next == old(free.next)
    {
      ghost var held := chonks.Held();
      var r := chonks.Push(id);
      if r.Err? {
        free.Free(r.error);
      } else {
        DistinctPush(held, id);
      }
    }

    /**
     * `do_pop`, and so `pop` (with the global `alloc`) and `pop_custom` (with
     * the caller's): the pool's top block, or a block from `alloc` when the
     * pool is empty. The pool panics when asked for its only block.
     */
    method DoPop<T>(alloc: Allocator) returns (r: Outcome<Id>)
      requires Valid()
      modifies chonks, alloc
      ensures old(chonks.Held()) == [] ==>
        && r == Done(old(alloc.next))
        && alloc.next == old(alloc.next) + 1
        && unchanged(chonks)
      ensures old(chonks.Held()) != [] ==> alloc.next == old(alloc.next)
      ensures r.Panicked? <==> |old(chonks.Held())| == 1
      ensures r.Done? ==> Valid()
      ensures r.Done? && old(chonks.Held()) != [] ==>
        && r.value == old(chonks.Held())[|old(chonks.Held())| - 1]
        && chonks.Held() == old(chonks.Held())[..|old(chonks.Held())| - 1]
        && r.value !in chonks.Held()
      ensures forall id :: id in chonks.Held() ==> id in old(chonks.Held())
      ensures alloc.freed == old(alloc.freed)
    {
      ghost var held := chonks.Held();
      var got := chonks.Pop<T>();
      match got
      case Panicked =>
        return Panicked;
      case Done(None) =>
        var id := alloc.Alloc();
        return Done(id);
      case Done(Some(b)) =>
        DistinctPop(held);
        return Done(b.id);
    }

    /** `do_len`, and so `len`: the number of blocks in the pool. */
    function DoLen(): (r: Usize)
      reads chonks
      requires Valid()
      ensures r == |chonks.Held()|
    {
      chonks.Len()
    }
  }
}
