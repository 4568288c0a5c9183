/**
 * The global allocator, `alloc::<T>()` / `dealloc::<T>(ptr)` (src/lib.rs:24-36,
 * src/owned/mod.rs:59-71), or a caller's own allocate/free callbacks.
 *
 * Memory is abstract: an allocation hands out an address never handed out
 * before, and every release is logged in order.
 */
module Alloc {
  import opened Link

  class Allocator {
    /** Every address below `next` has been handed out; none at or above it. */
    var next: nat
    /** The addresses passed to `dealloc`, oldest first. */
    var freed: seq<Id>

    constructor ()
      ensures next == 0 && freed == []
    {
      next := 0;
      freed := [];
    }

    /** `alloc`: a block at an address never handed out before. */
    method Alloc() returns (id: Id)
      modifies this
      ensures id == old(next) && next == old(next) + 1
      ensures freed == old(freed)
    {
      id := next;
      next := next + 1;
    }

    /** `dealloc`: the block goes back to the system. */
    method Free(id: Id)
      modifies this
      ensures freed == old(freed) + [id]
      ensures next == old(next)
    {
      freed := freed + [id];
    }
  }
}
