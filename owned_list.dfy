/**
 * `List<T, N>` of src/owned/list.rs: a bounded chunked doubly linked list.
 *
 * The list owns the blocks on its chain. `blocks` is the memory they occupy,
 * address to contents, and the ghost `chain` lists their addresses from head
 * to tail. `Contents()` is the item sequence the blocks hold, head first.
 *
 * `push_custom` and `pop_custom` take an allocate or free callback. Here the
 * caller runs the callback: `NeedsBlock()` says whether `push_custom` would
 * call `alloc`, and the address it returned is passed in. `PopCustom`
 * returns the address it would hand to `free`. `Push` and `Pop` do the same
 * with the global allocator.
 */
module OwnedList {
  import opened Wrappers
  import opened Link
  import opened Chonk
  import opened ListChonk
  import opened Alloc

  class List<T> {
    /** N, the number of items a block holds. */
    const n: nat
    var head: Link
    var tail: Link
    var len: Usize
    const cap: Usize
    /** The memory of the blocks the list owns. */
    var blocks: map<Id, ListChonk<T>>
    /** The addresses of the owned blocks, head first. */
    ghost var chain: seq<Id>

    /**
     * The shape of the chain: its blocks are in the memory, doubly linked,
     * and all full but the tail. `tail` is the last block,
     * or empty with no blocks. With blocks, `head` is the first. Without blocks,
     * `head` may still hold the address of a released block. A list with
     * N = 0 never gets a block: its first push panics.
     */
    ghost predicate Chained()
      reads this
    {
      && (n == 0 ==> chain == [])
      && Shape(chain, blocks, n)
      && (chain == [] ==> tail.IsNone())
      && (chain != [] ==> tail == Link(Some(chain[|chain| - 1])) && head == Link(Some(chain[0])))
    }

    /**
     * The list's invariant: a well-formed chain and `len <= cap`. `len` never
     * falls below the item count. It can exceed it, because a pop from the
     * tail block does not decrement `len`.
     */
    ghost predicate Valid()
      reads this
    {
      Chained() && |Items(chain, blocks)| <= len <= cap
    }

    /** The items in the list, head first. */
    ghost function Contents(): seq<T>
      reads this
    {
      Items(chain, blocks)
    }

    /** `with_capacity`: an empty list that admits `cap` pushes. */
    constructor WithCapacity(n: nat, cap: Usize)
      ensures Valid() && this.n == n && this.cap == cap && len == 0
      ensures chain == [] && blocks == map[] && Contents() == [] && head.IsNone() && tail.IsNone()
    {
      this.n := n;
      head, tail := Link.Default(), Link.Default();
      len, this.cap := 0, cap;
      blocks := map[];
      chain := [];
    }

    /** `default`: `with_capacity(usize::MAX)`. */
    constructor Default(n: nat)
      ensures Valid() && this.n == n && cap == USIZE_MAX && len == 0
      ensures chain == [] && blocks == map[] && Contents() == [] && head.IsNone() && tail.IsNone()
    {
      this.n := n;
      head, tail := Link.Default(), Link.Default();
      len, cap := 0, USIZE_MAX;
      blocks := map[];
      chain := [];
    }

    /** `len`: the push count, which bounds the number of items held. */
    function Len(): (r: Usize)
      reads this
      requires Valid()
      ensures |Contents()| <= r <= cap
    {
      len
    }

    /** `capacity`. */
    function Capacity(): (r: Usize)
      reads this
      requires Valid()
      ensures Len() <= r
    {
      cap
    }

    /** `is_empty`: a zero `len` means no items; the converse does not hold. */
    function IsEmpty(): (r: bool)
      reads this
      requires Valid()
      ensures r <==> Len() == 0
      ensures r ==> Contents() == []
    {
      len == 0
    }

    /** `is_full`: a full list refuses every push. */
    function IsFull(): (r: bool)
      reads this
      requires Valid()
      ensures r <==> Len() == Capacity()
    {
      len == cap
    }

    /**
     * Whether `push_custom` calls `alloc`: there is capacity left and the
     * tail is missing or full, and N > 0, since `new_in` asserts that before
     * it calls `alloc`.
     */
    predicate NeedsBlock()
      reads this
      requires Chained()
    {
      len != cap && n > 0 && (tail.IsNone() || blocks[tail.addr.value].IsFull(n))
    }

    /**
     * The block traffic in item counts: `push_custom` asks for a block
     * exactly when there is room and every block on the chain is full, and
     * `pop_custom` releases one exactly when only the blocks before the tail
     * hold items, all of them full.
     */
    lemma BlockTraffic()
      requires Chained()
      ensures NeedsBlock() <==> len != cap && n > 0 && |Contents()| == |chain| * n
      ensures (chain != [] && blocks[chain[|chain| - 1]].data == []) <==> chain != [] && |Contents()| == (|chain| - 1) * n
    {
      if chain != [] {
        ItemsOfPacked(chain, blocks, n);
      }
    }

    /** Every owned block lies below the allocator's watermark. */
    ghost predicate AllocatedBy(a: Allocator)
      reads this, a
    {
      forall id :: id in blocks ==> id < a.next
    }

    /**
     * `pop_custom`. When the tail block holds an item, that item is popped
     * and `len` is left as it is. When the tail block is empty, it is unlinked
     * and handed to `free`, and the new tail (if any) is popped. Only in that
     * case does `len` drop by one.
     */
    method PopCustom() returns (item: Option<T>, freed: Option<Id>)
      requires Valid()
      modifies this
      ensures Valid()
      ensures old(Contents()) == [] ==> item.None? && Contents() == []
      ensures old(Contents()) != [] ==>
        && item == Some(old(Contents())[|old(Contents())| - 1])
        && Contents() == old(Contents())[..|old(Contents())| - 1]
      ensures freed.Some? <==> old(chain) != [] && old(blocks)[old(chain)[|old(chain)| - 1]].data == []
      ensures freed.Some? ==>
        && freed.value == old(chain)[|old(chain)| - 1]
        && chain == old(chain)[..|old(chain)| - 1]
        && freed.value !in blocks
      ensures freed.None? ==> chain == old(chain)
      ensures freed.Some? && chain != [] ==> blocks[chain[|chain| - 1]].header.next == Link(Some(freed.value))
      ensures len == if freed.Some? && item.Some? then old(len) - 1 else old(len)
      ensures old(chain) == [] ==> unchanged(this)
      ensures head == old(head)
      ensures forall k :: k in blocks ==> k in old(blocks) && blocks[k].header == old(blocks)[k].header
    {
      if tail.addr.None? {
        return None, None;
      }
      var t := tail.addr.value;
      item := PopTailData();
      if item.Some? {
        return item, None;
      }
      UnlinkTail();
      freed := Some(t);
      item := Retry();
    }

    /**
     * The retry of `pop_custom` once the empty tail is gone: with no block
     * left, nothing; otherwise the new tail, which is full, yields the last
     * item, and this is the one pop that decrements `len`.
     */
    method Retry() returns (item: Option<T>)
      requires Valid()
      requires chain != [] ==> |blocks[chain[|chain| - 1]].data| == n
      modifies this
      ensures Valid()
      ensures old(chain) == [] ==> item.None? && unchanged(this)
      ensures old(chain) != [] ==>
        && old(Contents()) != []
        && item == Some(old(Contents())[|old(Contents())| - 1])
        && Contents() == old(Contents())[..|old(Contents())| - 1]
        && len == old(len) - 1
      ensures chain == old(chain) && head == old(head)
      ensures forall k :: k in blocks ==> k in old(blocks) && blocks[k].header == old(blocks)[k].header
    {
      if tail.addr.None? {
        return None;
      }
      item := PopTailData();
      if item.Some? {
        len := len - 1;
      }
    }

    /**
     * `tail.0.data.pop()` in `pop_custom`: pops the last item of the tail
     * block, which is the last item of the list, if the block holds any.
     */
    method PopTailData() returns (item: Option<T>)
      requires Valid() && chain != []
      modifies this
      ensures Valid()
      ensures var d := old(blocks)[old(chain)[|old(chain)| - 1]].data;
        d == [] ==> item.None? && unchanged(this)
      ensures var d := old(blocks)[old(chain)[|old(chain)| - 1]].data;
        d != [] ==>
          && item == Some(old(Contents())[|old(Contents())| - 1])
          && Contents() == old(Contents())[..|old(Contents())| - 1]
      ensures chain == old(chain) && head == old(head) && tail == old(tail)
      ensures len == old(len)
      ensures forall k :: k in blocks ==> k in old(blocks) && blocks[k].header == old(blocks)[k].header
    {
      var t := tail.addr.value;
      var (c, popped) := blocks[t].Pop();
      if popped.Some? {
        EditTail(chain, blocks, c, n);
        PopFromLastPart(Items(chain[..|chain| - 1], blocks), blocks[t].data);
        blocks := blocks[t := c];
      }
      item := popped;
    }

    /**
     * The slow path of `pop_custom` up to the release: the empty tail block
     * gives up its `prev`, which becomes the list's tail, and the block leaves
     * the memory. The items stay as they were.
     */
    method UnlinkTail()
      requires Valid() && chain != [] && blocks[chain[|chain| - 1]].data == []
      modifies this
      ensures Valid()
      ensures chain == old(chain)[..|old(chain)| - 1]
      ensures Contents() == old(Contents())
      ensures old(chain)[|old(chain)| - 1] !in blocks
      ensures chain != [] ==> |blocks[chain[|chain| - 1]].data| == n
      ensures chain != [] ==> blocks[chain[|chain| - 1]] == old(blocks)[chain[|chain| - 1]]
      ensures chain != [] ==> blocks[chain[|chain| - 1]].header.next == Link(Some(old(chain)[|old(chain)| - 1]))
      ensures forall k :: k in blocks ==> k in old(blocks) && blocks[k] == old(blocks)[k]
      ensures head == old(head) && len == old(len)
    {
      var t := tail.addr.value;
      var bs := blocks;
      var (cleared, prev) := bs[t].header.prev.Take();
      bs := bs[t := bs[t].(header := bs[t].header.(prev := cleared))];
      var (nowTail, _) := tail.Swap(prev);
      bs := bs - {t};
      DropTail(chain, blocks, bs, n);
      tail, blocks, chain := nowTail, bs, chain[..|chain| - 1];
    }

    /**
     * `push_custom`. A full list refuses the item. Otherwise the item goes at
     * the end of the tail block, or into a new block at the address
     * `fromAlloc`, which the caller obtained exactly when `NeedsBlock()` held.
     * With N = 0 the list has no block, and `new_in`'s assertion panics
     * before `alloc` is called.
     */
    method PushCustom(item: T, fromAlloc: Option<Id>) returns (r: Outcome<Result<(), T>>)
      requires Valid()
      requires fromAlloc.Some? <==> NeedsBlock()
      requires fromAlloc.Some? ==> fromAlloc.value !in Addresses(chain)
      modifies this
      ensures Valid()
      ensures old(len) == cap ==> r == Done(Err(item)) && unchanged(this)
      ensures r.Panicked? <==> old(len) != cap && n == 0
      ensures r.Panicked? ==> unchanged(this)
      ensures old(len) != cap && n > 0 ==>
        r == Done(Ok(())) && len == old(len) + 1 && Contents() == old(Contents()) + [item]
      ensures chain == if fromAlloc.Some? then old(chain) + [fromAlloc.value] else old(chain)
      ensures old(chain) != [] ==> head == old(head)
      ensures forall k :: k in blocks ==> k in old(blocks) || Some(k) == fromAlloc
    {
      if len == cap {
        return Done(Err(item));
      }
      if tail.addr.Some? {
        var pushed := PushTailData(item);
        if !pushed {
          AddBlock(item, fromAlloc.value);
        }
      } else {
        if n == 0 {
          return Panicked;
        }
        AddFirstBlock(item, fromAlloc.value);
      }
      len := len + 1;
      r := Done(Ok(()));
    }

    /**
     * `tail.0.data.push(item)` in `push_custom`: appends the item to the tail
     * block, and so to the list, when the block has room; reports whether
     * it did.
     */
    method PushTailData(item: T) returns (pushed: bool)
      requires Chained() && chain != []
      modifies this
      ensures Chained()
      ensures pushed <==> |old(blocks)[old(chain)[|old(chain)| - 1]].data| < n
      ensures pushed ==> Contents() == old(Contents()) + [item]
      ensures !pushed ==> unchanged(this)
      ensures chain == old(chain) && head == old(head) && tail == old(tail)
      ensures len == old(len)
      ensures forall k :: k in blocks ==> k in old(blocks)
    {
      var t := tail.addr.value;
      assert t == chain[|chain| - 1];
      var (c, res) := blocks[t].Push(item, n);
      pushed := res.Ok?;
      if pushed {
        assert c.data == blocks[t].data + [item];
        EditTail(chain, blocks, c, n);
        ghost var front := Items(chain[..|chain| - 1], blocks);
        assert front + (blocks[t].data + [item]) == (front + blocks[t].data) + [item];
        blocks := blocks[t := c];
      }
    }

    /**
     * `add_first_block` once `new_in` has passed its N > 0 assertion: the
     * block at `id` receives the item and becomes head and tail.
     */
    method AddFirstBlock(item: T, id: Id)
      requires Chained() && chain == [] && n > 0
      modifies this
      ensures Chained()
      ensures chain == [id] && head == Link(Some(id)) && tail == head
      ensures blocks == old(blocks)[id := Chonk(DefaultLinks(), [item])]
      ensures Contents() == old(Contents()) + [item]
      ensures len == old(len)
    {
      var made := NewAt<T>(id);
      var chonk := made.0;
      var bs := blocks[id := made.1];
      var (pushed, res) := bs[id].Push(item, n);
      assert res.Ok?;
      bs := bs[id := pushed];
      var (nt, _) := tail.Replace(chonk);
      var (nh, _) := head.Replace(chonk);
      assert pushed.data == [item];
      assert bs == blocks[id := Chonk(DefaultLinks(), [item])];
      AppendBlock([], blocks, bs, id, n);
      assert [] + [id] == [id];
      assert Shape([id], bs, n) && Items([id], bs) == [item];
      tail, head, blocks, chain := nt, nh, bs, [id];
    }

    /**
     * `add_block`: the block at `id` receives the item and is linked after
     * the full tail, whose `next` now points to it. It becomes the tail.
     */
    method AddBlock(item: T, id: Id)
      requires Chained() && chain != [] && id !in Addresses(chain)
      requires |blocks[chain[|chain| - 1]].data| == n
      modifies this
      ensures Chained()
      ensures chain == old(chain) + [id] && tail == Link(Some(id)) && head == old(head)
      ensures var t := old(chain)[|old(chain)| - 1];
        && id in blocks && blocks[id] == Chonk(Links(Link(Some(t)), Link(None)), [item])
        && t in blocks && blocks[t] == old(blocks)[t].(header := old(blocks)[t].header.(next := Link(Some(id))))
        && (forall k :: k in old(blocks) && k != t && k != id ==> k in blocks && blocks[k] == old(blocks)[k])
        && (forall k :: k in blocks ==> k in old(blocks) || k == id)
      ensures Contents() == old(Contents()) + [item]
      ensures len == old(len)
    {
      var bs := blocks;
      var made := NewAt<T>(id);
      var chonk := made.0;
      bs := bs[id := made.1];
      var oldTail := tail;
      var (nt, _) := tail.Replace(chonk);
      var ot := oldTail.addr.value;
      var (nn, _) := bs[ot].header.next.Replace(chonk);
      bs := bs[ot := bs[ot].(header := bs[ot].header.(next := nn))];
      var (pushed, res) := bs[id].Push(item, n);
      assert res.Ok?;
      bs := bs[id := pushed];
      var (np, _) := bs[id].header.prev.Replace(oldTail);
      bs := bs[id := bs[id].(header := bs[id].header.(prev := np))];
      assert pushed.data == [item];
      AppendBlock(chain, blocks, bs, id, n);
      tail, blocks, chain := nt, bs, chain + [id];
    }

    /** `push`: `push_custom` with the global allocator as `alloc`. */
    method Push(item: T, a: Allocator) returns (r: Outcome<Result<(), T>>)
      requires Valid() && AllocatedBy(a)
      modifies this, a
      ensures Valid() && AllocatedBy(a)
      ensures old(len) == cap ==> r == Done(Err(item)) && unchanged(this)
      ensures r.Panicked? <==> old(len) != cap && n == 0
      ensures r.Panicked? ==> unchanged(this)
      ensures old(len) != cap && n > 0 ==>
        r == Done(Ok(())) && len == old(len) + 1 && Contents() == old(Contents()) + [item]
      ensures a.next == old(a.next) + (if old(NeedsBlock()) then 1 else 0) && a.freed == old(a.freed)
      ensures chain == if old(NeedsBlock()) then old(chain) + [old(a.next)] else old(chain)
    {
      var fromAlloc := None;
      if NeedsBlock() {
        ShapeWithin(chain, blocks, n);
        var id := a.Alloc();
        fromAlloc := Some(id);
      }
      r := PushCustom(item, fromAlloc);
    }

    /** `pop`: `pop_custom` with the global allocator as `free`. */
    method Pop(a: Allocator) returns (item: Option<T>)
      requires Valid() && AllocatedBy(a)
      modifies this, a
      ensures Valid() && AllocatedBy(a)
      ensures old(Contents()) == [] ==> item.None? && Contents() == []
      ensures old(Contents()) != [] ==>
        && item == Some(old(Contents())[|old(Contents())| - 1])
        && Contents() == old(Contents())[..|old(Contents())| - 1]
      ensures a.next == old(a.next)
      ensures var released := old(chain) != [] && old(blocks)[old(chain)[|old(chain)| - 1]].data == [];
        && a.freed == old(a.freed) + (if released then [old(chain)[|old(chain)| - 1]] else [])
        && chain == (if released then old(chain)[..|old(chain)| - 1] else old(chain))
        && len == old(len) - (if released && old(Contents()) != [] then 1 else 0)
      ensures old(chain) == [] ==> unchanged(this)
      ensures old(chain) != [] && old(blocks)[old(chain)[|old(chain)| - 1]].data == [] && chain != [] ==>
        blocks[chain[|chain| - 1]].header.next == Link(Some(old(chain)[|old(chain)| - 1]))
    {
      var freed;
      item, freed := PopCustom();
      if freed.Some? {
        a.Free(freed.value);
      }
    }
  }
}
