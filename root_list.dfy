/**
 * `List<T, N>` of src/list.rs: the unbounded chunked doubly linked list.
 *
 * It works like the bounded list of src/owned/list.rs without the capacity:
 * every push succeeds. Its `len` field is set to 0 by `default` and no
 * operation ever writes it, so `len()` is always 0.
 *
 * `blocks` is the memory of the owned blocks and the ghost `chain` lists
 * their addresses from head to tail. As in the bounded list, `NeedsBlock()`
 * says whether `push_custom` calls `alloc`, the caller passes the address
 * it returned, and `PopCustom` returns the address it hands to `free`.
 */
module RootList {
  import opened Wrappers
  import opened Link
  import opened Chonk
  import opened ListChonk
  import opened Alloc

  class List<T> {
    /** N, the number of items a block holds. */
    const n: nat
    var head: Link
    var tail: Link
    var len: Usize
    /** The memory of the blocks the list owns. */
    var blocks: map<Id, ListChonk<T>>
    /** The addresses of the owned blocks, head first. */
    ghost var chain: seq<Id>

    /**
     * The blocks on the chain are in the memory, doubly linked and all full
     * but the tail; `tail` is the last one and, when there are blocks,
     * `head` the first. `len` keeps its initial 0. A list with N = 0 never
     * gets a block: its first push panics.
     */
    ghost predicate Valid()
      reads this
    {
      && (n == 0 ==> chain == [])
      && Shape(chain, blocks, n)
      && (chain == [] ==> tail.IsNone())
      && (chain != [] ==> tail == Link(Some(chain[|chain| - 1])) && head == Link(Some(chain[0])))
      && len == 0
    }

    /** The items in the list, head first. */
    ghost function Contents(): seq<T>
      reads this
    {
      Items(chain, blocks)
    }

    /** `default`: an empty list. */
    constructor Default(n: nat)
      ensures Valid() && this.n == n
      ensures chain == [] && blocks == map[] && Contents() == [] && head.IsNone() && tail.IsNone()
    {
      this.n := n;
      head, tail := Link.Default(), Link.Default();
      len := 0;
      blocks := map[];
      chain := [];
    }

    /** `len`: the field no operation updates, hence 0 whatever the list holds. */
    function Len(): (r: Usize)
      reads this
      requires Valid()
      ensures r == 0
    {
      len
    }

    /** Whether `push_custom` calls `alloc`: the tail is missing or full. */
    predicate NeedsBlock()
      reads this
      requires Valid()
    {
      tail.IsNone() || blocks[tail.addr.value].IsFull(n)
    }

    /**
     * The block traffic in item counts: `push_custom` asks for a block
     * exactly when every block on the chain is full, and `pop_custom`
     * releases one exactly when only the blocks before the tail hold items,
     * all of them full.
     */
    lemma BlockTraffic()
      requires Valid()
      ensures NeedsBlock() <==> |Contents()| == |chain| * n
      ensures (chain != [] && blocks[chain[|chain| - 1]].data == []) <==> chain != [] && |Contents()| == (|chain| - 1) * n
    {
      if chain != [] {
        ItemsOfPacked(chain, blocks, n);
      }
    }

    /** Every owned block lies below the allocator's watermark. */
    ghost predicate AllocatedBy(a: Allocator)
      reads this, a
    {
      forall id :: id in blocks ==> id < a.next
    }

    /**
     * `pop_custom`. When the tail block holds an item, that item is popped.
     * When the tail block is empty, it is unlinked and handed to `free`, and
     * the new tail (if any) is popped. `len` is never touched.
     */
    method PopCustom() returns (item: Option<T>, freed: Option<Id>)
      requires Valid()
      modifies this
      ensures Valid()
      ensures old(Contents()) == [] ==> item.None? && Contents() == []
      ensures old(Contents()) != [] ==>
        && item == Some(old(Contents())[|old(Contents())| - 1])
        && Contents() == old(Contents())[..|old(Contents())| - 1]
      ensures freed.Some? <==> old(chain) != [] && old(blocks)[old(chain)[|old(chain)| - 1]].data == []
      ensures freed.Some? ==>
        && freed.value == old(chain)[|old(chain)| - 1]
        && chain == old(chain)[..|old(chain)| - 1]
        && freed.value !in blocks
      ensures freed.None? ==> chain == old(chain)
      ensures freed.Some? && chain != [] ==> blocks[chain[|chain| - 1]].header.next == Link(Some(freed.value))
      ensures old(chain) == [] ==> unchanged(this)
      ensures head == old(head)
      ensures forall k :: k in blocks ==> k in old(blocks) && blocks[k].header == old(blocks)[k].header
    {
      if tail.addr.None? {
        return None, None;
      }
      var t := tail.addr.value;
      item := PopTailData();
      if item.Some? {
        return item, None;
      }
      UnlinkTail();
      freed := Some(t);
      if tail.addr.None? {
        return None, freed;
      }
      item := PopTailData();
    }

    /**
     * `tail.0.data.pop()` in `pop_custom`: pops the last item of the tail
     * block, which is the last item of the list, if the block holds any.
     */
    method PopTailData() returns (item: Option<T>)
      requires Valid() && chain != []
      modifies this
      ensures Valid()
      ensures var d := old(blocks)[old(chain)[|old(chain)| - 1]].data;
        d == [] ==> item.None? && unchanged(this)
      ensures var d := old(blocks)[old(chain)[|old(chain)| - 1]].data;
        d != [] ==>
          && item == Some(old(Contents())[|old(Contents())| - 1])
          && Contents() == old(Contents())[..|old(Contents())| - 1]
      ensures chain == old(chain) && head == old(head) && tail == old(tail)
      ensures forall k :: k in blocks ==> k in old(blocks) && blocks[k].header == old(blocks)[k].header
    {
      var t := tail.addr.value;
      var (c, popped) := blocks[t].Pop();
      if popped.Some? {
        EditTail(chain, blocks, c, n);
        PopFromLastPart(Items(chain[..|chain| - 1], blocks), blocks[t].data);
        blocks := blocks[t := c];
      }
      item := popped;
    }

    /**
     * The slow path of `pop_custom` up to the release: the empty tail block
     * gives up its `prev`, which becomes the list's tail, and the block leaves
     * the memory. The items stay as they were.
     */
    method UnlinkTail()
      requires Valid() && chain != [] && blocks[chain[|chain| - 1]].data == []
      modifies this
      ensures Valid()
      ensures chain == old(chain)[..|old(chain)| - 1]
      ensures Contents() == old(Contents())
      ensures old(chain)[|old(chain)| - 1] !in blocks
      ensures chain != [] ==> |blocks[chain[|chain| - 1]].data| == n
      ensures chain != [] ==> blocks[chain[|chain| - 1]] == old(blocks)[chain[|chain| - 1]]
      ensures chain != [] ==> blocks[chain[|chain| - 1]].header.next == Link(Some(old(chain)[|old(chain)| - 1]))
      ensures forall k :: k in blocks ==> k in old(blocks) && blocks[k] == old(blocks)[k]
      ensures head == old(head)
    {
      var t := tail.addr.value;
      var bs := blocks;
      var (cleared, prev) := bs[t].header.prev.Take();
      bs := bs[t := bs[t].(header := bs[t].header.(prev := cleared))];
      var (nowTail, _) := tail.Swap(prev);
      bs := bs - {t};
      DropTail(chain, blocks, bs, n);
      tail, blocks, chain := nowTail, bs, chain[..|chain| - 1];
    }

    /**
     * `push_custom`: the item goes at the end of the tail block, or into a
     * new block at the address `fromAlloc`, which the caller obtained exactly
     * when `NeedsBlock()` held. With N = 0 the new block has no room for the
     * item, and `add_first_block` panics.
     */
    method PushCustom(item: T, fromAlloc: Option<Id>) returns (r: Outcome<()>)
      requires Valid()
      requires fromAlloc.Some? <==> NeedsBlock()
      requires fromAlloc.Some? ==> fromAlloc.value !in Addresses(chain)
      modifies this
      ensures Valid()
      ensures r.Panicked? <==> n == 0
      ensures r.Panicked? ==> unchanged(this)
      ensures r.Done? ==> Contents() == old(Contents()) + [item]
      ensures r.Done? ==> chain == if fromAlloc.Some? then old(chain) + [fromAlloc.value] else old(chain)
      ensures old(chain) != [] ==> head == old(head)
      ensures forall k :: k in blocks ==> k in old(blocks) || Some(k) == fromAlloc
    {
      if tail.addr.Some? {
        var pushed := PushTailData(item);
        if !pushed {
          AddBlock(item, fromAlloc.value);
        }
        r := Done(());
      } else {
        r := AddFirstBlock(item, fromAlloc.value);
      }
    }

    /**
     * `tail.0.data.push(item)` in `push_custom`: appends the item to the tail
     * block, and so to the list, when the block has room; reports whether
     * it did.
     */
    method PushTailData(item: T) returns (pushed: bool)
      requires Valid() && chain != []
      modifies this
      ensures Valid()
      ensures pushed <==> |old(blocks)[old(chain)[|old(chain)| - 1]].data| < n
      ensures pushed ==> Contents() == old(Contents()) + [item]
      ensures !pushed ==> unchanged(this)
      ensures chain == old(chain) && head == old(head) && tail == old(tail)
      ensures forall k :: k in blocks ==> k in old(blocks)
    {
      var t := tail.addr.value;
      assert t == chain[|chain| - 1];
      var (c, res) := blocks[t].Push(item, n);
      pushed := res.Ok?;
      if pushed {
        assert c.data == blocks[t].data + [item];
        EditTail(chain, blocks, c, n);
        ghost var front := Items(chain[..|chain| - 1], blocks);
        assert front + (blocks[t].data + [item]) == (front + blocks[t].data) + [item];
        blocks := blocks[t := c];
      }
    }

    /**
     * `add_first_block`: the block at `id` receives the item and becomes head
     * and tail. With N = 0 the push into the new block fails and its
     * `unwrap` panics before the list is touched.
     */
    method AddFirstBlock(item: T, id: Id) returns (r: Outcome<()>)
      requires Valid() && chain == []
      modifies this
      ensures Valid()
      ensures r.Panicked? <==> n == 0
      ensures r.Panicked? ==> unchanged(this)
      ensures r.Done? ==>
        && chain == [id] && head == Link(Some(id)) && tail == head
        && blocks == old(blocks)[id := Chonk(DefaultLinks(), [item])]
        && Contents() == old(Contents()) + [item]
    {
      var made := NewAt<T>(id);
      var chonk := made.0;
      var bs := blocks[id := made.1];
      var (pushed, res) := bs[id].Push(item, n);
      if res.Err? {
        return Panicked;
      }
      bs := bs[id := pushed];
      var (nt, _) := tail.Replace(chonk);
      var (nh, _) := head.Replace(chonk);
      assert pushed.data == [item];
      assert bs == blocks[id := Chonk(DefaultLinks(), [item])];
      AppendBlock([], blocks, bs, id, n);
      assert [] + [id] == [id];
      assert Shape([id], bs, n) && Items([id], bs) == [item];
      tail, head, blocks, chain := nt, nh, bs, [id];
      r := Done(());
    }

    /**
     * `add_block`: the block at `id` receives the item and is linked after
     * the full tail, whose `next` now points to it. It becomes the tail.
     */
    method AddBlock(item: T, id: Id)
      requires Valid() && chain != [] && id !in Addresses(chain)
      requires |blocks[chain[|chain| - 1]].data| == n
      modifies this
      ensures Valid()
      ensures chain == old(chain) + [id] && tail == Link(Some(id)) && head == old(head)
      ensures var t := old(chain)[|old(chain)| - 1];
        && id in blocks && blocks[id] == Chonk(Links(Link(Some(t)), Link(None)), [item])
        && t in blocks && blocks[t] == old(blocks)[t].(header := old(blocks)[t].header.(next := Link(Some(id))))
        && (forall k :: k in old(blocks) && k != t && k != id ==> k in blocks && blocks[k] == old(blocks)[k])
        && (forall k :: k in blocks ==> k in old(blocks) || k == id)
      ensures Contents() == old(Contents()) + [item]
    {
      var bs := blocks;
      var made := NewAt<T>(id);
      var chonk := made.0;
      bs := bs[id := made.1];
      var oldTail := tail;
      var (nt, _) := tail.Replace(chonk);
      var ot := oldTail.addr.value;
      var (nn, _) := bs[ot].header.next.Replace(chonk);
      bs := bs[ot := bs[ot].(header := bs[ot].header.(next := nn))];
      var (pushed, res) := bs[id].Push(item, n);
      assert res.Ok?;
      bs := bs[id := pushed];
      var (np, _) := bs[id].header.prev.Replace(oldTail);
      bs := bs[id := bs[id].(header := bs[id].header.(prev := np))];
      assert pushed.data == [item];
      AppendBlock(chain, blocks, bs, id, n);
      tail, blocks, chain := nt, bs, chain + [id];
    }

    /**
     * `push`: `push_custom` with the global allocator as `alloc`. With N = 0
     * the allocation happens and the push then panics.
     */
    method Push(item: T, a: Allocator) returns (r: Outcome<()>)
      requires Valid() && AllocatedBy(a)
      modifies this, a
      ensures Valid() && AllocatedBy(a)
      ensures r.Panicked? <==> n == 0
      ensures r.Panicked? ==> unchanged(this)
      ensures r.Done? ==> Contents() == old(Contents()) + [item]
      ensures a.next == old(a.next) + (if old(NeedsBlock()) then 1 else 0) && a.freed == old(a.freed)
      ensures r.Done? ==> chain == if old(NeedsBlock()) then old(chain) + [old(a.next)] else old(chain)
    {
      var fromAlloc := None;
      if NeedsBlock() {
        ShapeWithin(chain, blocks, n);
        var id := a.Alloc();
        fromAlloc := Some(id);
      }
      r := PushCustom(item, fromAlloc);
    }

    /** `pop`: `pop_custom` with the global allocator as `free`. */
    method Pop(a: Allocator) returns (item: Option<T>)
      requires Valid() && AllocatedBy(a)
      modifies this, a
      ensures Valid() && AllocatedBy(a)
      ensures old(Contents()) == [] ==> item.None? && Contents() == []
      ensures old(Contents()) != [] ==>
        && item == Some(old(Contents())[|old(Contents())| - 1])
        && Contents() == old(Contents())[..|old(Contents())| - 1]
      ensures a.next == old(a.next)
      ensures var released := old(chain) != [] && old(blocks)[old(chain)[|old(chain)| - 1]].data == [];
        && a.freed == old(a.freed) + (if released then [old(chain)[|old(chain)| - 1]] else [])
        && chain == (if released then old(chain)[..|old(chain)| - 1] else old(chain))
      ensures old(chain) == [] ==> unchanged(this)
      ensures old(chain) != [] && old(blocks)[old(chain)[|old(chain)| - 1]].data == [] && chain != [] ==>
        blocks[chain[|chain| - 1]].header.next == Link(Some(old(chain)[|old(chain)| - 1]))
    {
      var freed;
      item, freed := PopCustom();
      if freed.Some? {
        a.Free(freed.value);
      }
    }
  }
}
