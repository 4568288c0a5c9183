/**
 * `RecyclingList<T>` of src/recycling.rs: the unbounded list of
 * `CHONK_SIZE`-item blocks over the thread's default pool.
 *
 * The thread-local `LOCAL_POINTER_CHONKS` becomes the pool object `key`,
 * given to the constructor. As in the bounded variant, the list's `alloc`
 * pops the pool and its `free` pushes to it, each falling back to the
 * allocator; the list and the pool never hold the same block.
 */
module RootRecycling {
  import opened Wrappers
  import opened Link
  import opened ListChonk
  import opened Alloc
  import opened PointerChonks
  import opened LocalPointerChonks
  import opened RootList

  class RecyclingList<T> {
    /** The thread's pool. */
    const key: LocalPointerChonks
    const list: List<T>

    /** Both parts are well formed, with N = `CHONK_SIZE`, and own disjoint blocks. */
    ghost predicate Valid()
      reads list, key.chonks
    {
      && list.Valid() && key.Valid() && list.n == key.chonks.n == CHONK_SIZE
      && (forall id :: id in Addresses(list.chain) ==> id !in key.chonks.Held())
    }

    /** Every block of the list and of the pool lies below the allocator's watermark. */
    ghost predicate AllocatedBy(a: Allocator)
      reads list, key.chonks, a
    {
      list.AllocatedBy(a) && (forall id :: id in key.chonks.Held() ==> id < a.next)
    }

    /** The items in the list, head first. */
    ghost function Contents(): seq<T>
      reads list
    {
      list.Contents()
    }

    /**
     * An empty list on the pool `key`. The source defines no constructor of
     * its own; this is `List::default` with the thread's pool.
     */
    constructor (key: LocalPointerChonks)
      requires key.Valid() && key.chonks.n == CHONK_SIZE
      ensures Valid() && this.key == key && fresh(list)
      ensures Contents() == [] && list.blocks == map[]
    {
      this.key := key;
      list := new List.Default(CHONK_SIZE);
    }

    /** `len`: the inner list's, which no operation changes from 0. */
    function Len(): (r: Usize)
      reads list, key.chonks
      requires Valid()
      ensures r == 0
    {
      list.Len()
    }

    /**
     * `push`: `List::push_custom` with the pool's `pop` as `alloc`, falling
     * back to `a`. The item is always appended, unless the pool panics when
     * asked for its only block.
     */
    method Push(item: T, a: Allocator) returns (r: Outcome<()>)
      requires Valid() && AllocatedBy(a)
      modifies list, key.chonks, a
      ensures r.Done? ==> Valid() && AllocatedBy(a)
      ensures r.Panicked? <==> old(list.NeedsBlock()) && |old(key.chonks.Held())| == 1
      ensures r.Done? ==> Contents() == old(Contents()) + [item]
      ensures var fromPool := old(list.NeedsBlock()) && old(key.chonks.Held()) != [];
        r.Done? ==> key.chonks.Held() == if fromPool then old(key.chonks.Held())[..|old(key.chonks.Held())| - 1] else old(key.chonks.Held())
      ensures a.next == old(a.next) + (if old(list.NeedsBlock()) && old(key.chonks.Held()) == [] then 1 else 0)
      ensures r.Done? ==> |list.chain| == |old(list.chain)| + (if old(list.NeedsBlock()) then 1 else 0)
      ensures a.freed == old(a.freed)
    {
      var fromAlloc := None;
      if list.NeedsBlock() {
        var got := TakeBlock(a);
        if got.Panicked? {
          return Panicked;
        }
        fromAlloc := Some(got.value);
      }
      ghost var chain := list.chain;
      r := list.PushCustom(item, fromAlloc);
      if fromAlloc.Some? {
        assert (chain + [fromAlloc.value])[..|chain|] == chain;
      }
    }

    /**
     * The `alloc` callback `push` hands to the list: `LocalPointerChonks::pop`,
     * which falls back to `a`. The block it yields is neither the list's nor
     * still the pool's.
     */
    method TakeBlock(a: Allocator) returns (r: Outcome<Id>)
      requires Valid() && AllocatedBy(a)
      modifies key.chonks, a
      ensures r.Panicked? <==> |old(key.chonks.Held())| == 1
      ensures r.Done? ==>
        && Valid() && AllocatedBy(a)
        && r.value !in Addresses(list.chain) && r.value !in key.chonks.Held() && r.value < a.next
      ensures old(key.chonks.Held()) == [] ==>
        r == Done(old(a.next)) && a.next == old(a.next) + 1 && unchanged(key.chonks)
      ensures old(key.chonks.Held()) != [] ==>
        && a.next == old(a.next)
        && (r.Done? ==> key.chonks.Held() == old(key.chonks.Held())[..|old(key.chonks.Held())| - 1])
      ensures a.freed == old(a.freed)
    {
      ShapeWithin(list.chain, list.blocks, list.n);
      ghost var held := key.chonks.Held();
      r := key.DoPop<T>(a);
      if r.Done? && held != [] {
        assert r.value in held;
      }
    }

    /**
     * `pop`: `List::pop_custom` with the pool's `push` as `free`, falling
     * back to `a`; the `unwrap` panics when the list yields nothing. A
     * released block goes to the pool first.
     */
    method Pop(a: Allocator) returns (r: Outcome<T>)
      requires Valid() && AllocatedBy(a)
      modifies list, key.chonks, a
      ensures Valid() && AllocatedBy(a)
      ensures old(Contents()) == [] ==> r.Panicked? && Contents() == []
      ensures old(Contents()) != [] ==>
        && r == Done(old(Contents())[|old(Contents())| - 1])
        && Contents() == old(Contents())[..|old(Contents())| - 1]
      ensures var released := old(list.chain) != [] && old(list.blocks)[old(list.chain)[|old(list.chain)| - 1]].data == [];
        var t := if old(list.chain) == [] then [] else [old(list.chain)[|old(list.chain)| - 1]];
        var full := old(key.chonks.length) == key.chonks.capacity;
        && key.chonks.Held() == old(key.chonks.Held()) + (if released && !full then t else [])
        && a.freed == old(a.freed) + (if released && full then t else [])
        && |list.chain| == |old(list.chain)| - (if released then 1 else 0)
      ensures a.next == old(a.next)
    {
      ghost var count := |list.chain|;
      var item, freed := list.PopCustom();
      assert |list.chain| == count - (if freed.Some? then 1 else 0);
      if freed.Some? {
        ReturnBlock(freed.value, a);
      }
      if item.None? {
        return Panicked;
      }
      r := Done(item.value);
    }

    /**
     * The `free` callback `pop` hands to the list: `LocalPointerChonks::push`
     * of the block the list has just released, which falls back to `a`.
     */
    method ReturnBlock(id: Id, a: Allocator)
      requires Valid() && AllocatedBy(a)
      requires id !in Addresses(list.chain) && id !in key.chonks.Held() && id < a.next
      modifies key.chonks, a
      ensures Valid() && AllocatedBy(a)
      ensures var full := old(key.chonks.length) == key.chonks.capacity;
        && key.chonks.Held() == old(key.chonks.Held()) + (if full then [] else [id])
        && a.freed == old(a.freed) + (if full then [id] else [])
      ensures a.next == old(a.next)
    {
      ghost var held := key.chonks.Held();
      key.DoPush(id, a);
      assert list.Valid() && list.AllocatedBy(a);
      assert forall x :: x in key.chonks.Held() ==> x in held || x == id;
    }
  }
}
