/**
 * `PointerChonks<N>` (src/owned/pointer_chonks.rs) and the root
 * `PointerChonks` (src/pointer_chonks.rs): the pool of spare blocks.
 *
 * The pool is a chain of blocks, its nodes, linked like a list's. A pushed
 * block is stashed by address in the tail node's data while there is room,
 * and otherwise becomes a new tail node itself. The pool hands out the most
 * recently pushed block first: `Held()` is the stack of every block the pool
 * holds, nodes and stashed addresses alike, oldest first, and `length`
 * counts it. The cross-type pointer casts of the source become "the same
 * block address"; a block is reset to the default block (`init`) whenever it
 * becomes a node or leaves the pool.
 *
 * The root pool's `push`, `pop` and `init` are the owned pool's, line for
 * line, with N fixed at `CHONK_SIZE`; one class models both, and the two
 * sets of constructors differ only in their constants and the N > 0 check.
 */
module PointerChonks {
  import opened Wrappers
  import opened Link
  import opened Chonk
  import opened ListChonk

  /** `CHONK_SIZE` of src/pointer_chonks.rs: the N of the root pool and lists. */
  const CHONK_SIZE: nat := 32

  /** A block leaving the pool: its address and its contents after `init`. */
  datatype Reused<X> = Reused(id: Id, block: ListChonk<X>)

  /** No address occurs twice: each one is absent from what precedes it. */
  ghost predicate Distinct(s: seq<Id>)
    decreases |s|
  {
    s != [] ==> s[|s| - 1] !in s[..|s| - 1] && Distinct(s[..|s| - 1])
  }

  /** Adding an address not yet present keeps the addresses distinct. */
  lemma DistinctPush(s: seq<Id>, x: Id)
    requires Distinct(s) && x !in s
    ensures Distinct(s + [x])
  {
    assert (s + [x])[..|s|] == s;
  }

  /** Distinct addresses stay distinct without the last one, which is not among the rest. */
  lemma DistinctPop(s: seq<Id>)
    requires Distinct(s) && s != []
    ensures Distinct(s[..|s| - 1]) && s[|s| - 1] !in s[..|s| - 1]
  {
  }

  /**
   * `init`: the block at the address is overwritten with the default block.
   * The pool has N > 0, so the owned `ListChonk::default` does not panic.
   */
  function Init<X>(): (c: ListChonk<X>)
    ensures c.header.prev.IsNone() && c.header.next.IsNone() && c.data == []
  {
    Default<X>()
  }

  class PointerChonks {
    /** N, the number of addresses a node stashes. */
    const n: nat
    var head: Link
    var tail: Link
    /** Nodes plus stashed addresses. */
    var length: Usize
    const capacity: Usize
    /** The memory of the pool's nodes. */
    var blocks: map<Id, ListChonk<Id>>
    /** The addresses of the nodes, head first. */
    ghost var chain: seq<Id>

    /**
     * The nodes are in the memory, doubly linked and full but the tail,
     * whose `next` is empty; `head` and `tail` are the first and last node,
     * both empty without nodes.
     */
    ghost predicate Linked()
      reads this
    {
      && n > 0
      && Shape(chain, blocks, n)
      && (chain == [] ==> head.IsNone() && tail.IsNone())
      && (chain != [] ==>
            && head == Link(Some(chain[0]))
            && tail == Link(Some(chain[|chain| - 1]))
            && blocks[chain[|chain| - 1]].header.next.IsNone())
    }

    /** The pool's invariant: as `Linked`, and `length` counts the held blocks, at most `capacity`. */
    ghost predicate Valid()
      reads this
    {
      Linked() && length == |Held()| <= capacity
    }

    /** Every block the pool holds, in the order they come back out last to first. */
    ghost function Held(): seq<Id>
      reads this
    {
      Stack(chain, blocks)
    }

    /** `with_capacity` of src/owned/pointer_chonks.rs; N > 0 is asserted there. */
    constructor WithCapacity(n: nat, capacity: Usize)
      requires n > 0
      ensures Valid() && this.n == n && this.capacity == capacity
      ensures Held() == [] && chain == []
    {
      this.n := n;
      head, tail := Link.Default(), Link.Default();
      length, this.capacity := 0, capacity;
      blocks := map[];
      chain := [];
    }

    /** `default` of src/owned/pointer_chonks.rs: room for 8 * (N + 1) blocks. */
    constructor Default(n: nat)
      requires n > 0 && 8 * (n + 1) <= USIZE_MAX
      ensures Valid() && this.n == n && capacity == 8 * (n + 1)
      ensures Held() == [] && chain == []
    {
      this.n := n;
      head, tail := Link.Default(), Link.Default();
      length, capacity := 0, 8 * (n + 1);
      blocks := map[];
      chain := [];
    }

    /** `with_capacity` of src/pointer_chonks.rs: N is `CHONK_SIZE`, with no check. */
    constructor RootWithCapacity(capacity: Usize)
      ensures Valid() && n == CHONK_SIZE && this.capacity == capacity
      ensures Held() == [] && chain == []
    {
      n := CHONK_SIZE;
      head, tail := Link.Default(), Link.Default();
      length, this.capacity := 0, capacity;
      blocks := map[];
      chain := [];
    }

    /** `default` of src/pointer_chonks.rs: `CHONK_SIZE * (CHONK_SIZE + 1)`, that is 1056 blocks. */
    constructor RootDefault()
      ensures Valid() && n == CHONK_SIZE && capacity == 1056
      ensures Held() == [] && chain == []
    {
      n := CHONK_SIZE;
      head, tail := Link.Default(), Link.Default();
      length, capacity := 0, CHONK_SIZE * (CHONK_SIZE + 1);
      blocks := map[];
      chain := [];
    }

    /** `len`: the number of blocks held. */
    function Len(): (r: Usize)
      reads this
      requires Valid()
      ensures r == |Held()|
    {
      length
    }

    /** `capacity`: the most blocks the pool will hold. */
    function Capacity(): (r: Usize)
      reads this
      requires Valid()
      ensures |Held()| <= r
    {
      capacity
    }

    /** `is_empty`: no block to hand out. */
    function IsEmpty(): (r: bool)
      reads this
      requires Valid()
      ensures r <==> Held() == []
    {
      length == 0
    }

    /** `is_full`: the next push is refused. */
    function IsFull(): (r: bool)
      reads this
      requires Valid()
      ensures r <==> |Held()| == capacity
    {
      length == capacity
    }

    /**
     * `pop`. Without nodes, nothing. Otherwise `length` drops by one and the
     * last stashed address of the tail node is handed out, or, with none
     * stashed, the tail node itself, whose `prev` becomes the tail. Either
     * way the most recently pushed block leaves the pool, reset by `init`.
     * The last node has no `prev` and the `unwrap` panics: popping the
     * pool's only block always panics, so the clearing of `head` for an
     * emptied pool never runs.
     */
    method Pop<X>() returns (r: Outcome<Option<Reused<X>>>)
      requires Valid()
      modifies this
      ensures old(Held()) == [] ==> r == Done(None) && unchanged(this)
      ensures r.Panicked? <==> |old(Held())| == 1
      ensures r.Panicked? ==>
        && length == old(length) - 1
        && blocks == old(blocks) && chain == old(chain) && head == old(head) && tail == old(tail)
      ensures r.Done? ==> Valid() && head == old(head)
      ensures r.Done? && old(Held()) != [] ==>
        && r.value == Some(Reused(old(Held())[|old(Held())| - 1], Init()))
        && Held() == old(Held())[..|old(Held())| - 1]
        && length == old(length) - 1
      ensures forall k :: k in blocks ==> k in old(blocks)
    {
      if tail.addr.None? {
        return Done(None);
      }
      var t := tail.addr.value;
      SoleBlockIsLoneNode(chain, blocks, n);
      length := length - 1;
      var popped := Unstash();
      if popped.Some? {
        return Done(Some(Reused(popped.value, Init())));
      }
      r := PopNode();
    }

    /**
     * `tail.0.data.pop()` in `pop`: the last address stashed in the tail
     * node, which is the top of the stack, if the node stashes any.
     */
    method Unstash() returns (popped: Option<Id>)
      requires Linked() && chain != []
      modifies this
      ensures Linked()
      ensures var d := old(blocks)[old(chain)[|old(chain)| - 1]].data;
        d == [] ==> popped.None? && unchanged(this)
      ensures var d := old(blocks)[old(chain)[|old(chain)| - 1]].data;
        d != [] ==>
          && popped == Some(old(Held())[|old(Held())| - 1])
          && Held() == old(Held())[..|old(Held())| - 1]
      ensures chain == old(chain) && head == old(head) && tail == old(tail)
      ensures length == old(length)
      ensures forall k :: k in blocks ==> k in old(blocks)
    {
      var t := tail.addr.value;
      var (c, p) := blocks[t].Pop();
      if p.Some? {
        EditTail(chain, blocks, c, n);
        StackEditTail(chain, blocks, c);
        PopFromLastPart(Stack(chain[..|chain| - 1], blocks) + [t], blocks[t].data);
        blocks := blocks[t := c];
      }
      popped := p;
    }

    /**
     * The second half of `pop`, once `length` has dropped: the empty tail
     * node gives up its `prev`, which must exist (`unwrap`), loses its `next`
     * and becomes the tail; the old tail leaves the pool.
     */
    method PopNode<X>() returns (r: Outcome<Option<Reused<X>>>)
      requires Linked() && chain != [] && blocks[chain[|chain| - 1]].data == []
      requires length == |Held()| - 1 && length < capacity
      modifies this
      ensures r.Panicked? <==> |old(chain)| == 1
      ensures r.Panicked? ==> unchanged(this)
      ensures r.Done? ==>
        && Valid()
        && r.value == Some(Reused(old(Held())[|old(Held())| - 1], Init()))
        && Held() == old(Held())[..|old(Held())| - 1]
        && chain == old(chain)[..|old(chain)| - 1]
      ensures head == old(head) && length == old(length)
      ensures forall k :: k in blocks ==> k in old(blocks)
    {
      var t := tail.addr.value;
      var bs := blocks;
      var (cleared, newTail) := bs[t].header.prev.Take();
      bs := bs[t := bs[t].(header := bs[t].header.(prev := cleared))];
      if newTail.addr.None? {
        return Panicked;
      }
      var p := newTail.addr.value;
      assert p == chain[|chain| - 2];
      var (np, _) := bs[p].header.next.Take();
      bs := bs[p := bs[p].(header := bs[p].header.(next := np))];
      var (nowTail, oldTail) := tail.Swap(newTail);
      bs := bs - {t};
      DropNode(chain, blocks, bs, n);
      var nh := head;
      if length == 0 {
        var (h, _) := head.Take();
        nh := h;
      }
      tail, head, blocks, chain := nowTail, nh, bs, chain[..|chain| - 1];
      r := Done(Some(Reused(oldTail.addr.value, Init())));
    }

    /**
     * `push`. A full pool refuses the block. Otherwise `length` grows by one
     * and the block goes on top of the stack: its address is stashed in the
     * tail node when there is room, leaving the block's own memory alone;
     * otherwise the block is reset and linked in as the new tail node.
     */
    method Push(id: Id) returns (r: Result<(), Id>)
      requires Valid() && id !in Held()
      modifies this
      ensures Valid()
      ensures old(length) == capacity ==> r == Err(id) && unchanged(this)
      ensures old(length) != capacity ==>
        && r == Ok(())
        && Held() == old(Held()) + [id]
        && length == old(length) + 1
      ensures var stash := old(chain) != [] && |old(blocks)[old(chain)[|old(chain)| - 1]].data| < n;
        chain == if stash || old(length) == capacity then old(chain) else old(chain) + [id]
      ensures chain != old(chain) ==>
        && id in blocks && blocks[id].data == []
        && blocks[id].header == Links(if old(chain) == [] then Link(None) else old(tail), Link(None))
      ensures forall k :: k in blocks ==> k in old(blocks) || k == id
    {
      if length == capacity {
        return Err(id);
      }
      length := length + 1;
      if tail.addr.Some? {
        var stashed := Stash(id);
        if !stashed {
          LinkNode(id);
        }
      } else {
        LinkFirstNode(id);
      }
      r := Ok(());
    }

    /**
     * `tail.0.data.push(..)` in `push`: stashes the address in the tail node
     * when it has room, which puts it on top of the stack; reports whether
     * it did.
     */
    method Stash(id: Id) returns (stashed: bool)
      requires Linked() && chain != []
      modifies this
      ensures Linked()
      ensures stashed <==> |old(blocks)[old(chain)[|old(chain)| - 1]].data| < n
      ensures stashed ==> Held() == old(Held()) + [id]
      ensures !stashed ==> unchanged(this)
      ensures chain == old(chain) && head == old(head) && tail == old(tail)
      ensures length == old(length)
      ensures forall k :: k in blocks ==> k in old(blocks)
    {
      var t := tail.addr.value;
      var (c, pushed) := blocks[t].Push(id, n);
      stashed := pushed.Ok?;
      if stashed {
        EditTail(chain, blocks, c, n);
        StackEditTail(chain, blocks, c);
        ghost var below := Stack(chain[..|chain| - 1], blocks) + [t];
        assert below + (blocks[t].data + [id]) == (below + blocks[t].data) + [id];
        blocks := blocks[t := c];
      }
    }

    /**
     * The fallback of `push` when the tail node is full: the block at `id`
     * is reset, the tail's `next` and the block's `prev` point at each other,
     * and the block becomes the tail.
     */
    method LinkNode(id: Id)
      requires Linked() && chain != [] && id !in Stack(chain, blocks)
      requires |blocks[chain[|chain| - 1]].data| == n
      modifies this
      ensures Linked()
      ensures chain == old(chain) + [id] && Held() == old(Held()) + [id]
      ensures tail == Link(Some(id)) && head == old(head)
      ensures id in blocks && blocks[id] == Chonk(Links(old(tail), Link(None)), [])
      ensures length == old(length)
      ensures forall k :: k in blocks ==> k in old(blocks) || k == id
    {
      NotOnStack(chain, blocks, id);
      var t := tail.addr.value;
      var chonk := Link(Some(id));
      var bs := blocks[id := Init()];
      var (tn, _) := bs[t].header.next.Replace(chonk);
      bs := bs[t := bs[t].(header := bs[t].header.(next := tn))];
      var (cp, _) := bs[id].header.prev.Replace(tail);
      bs := bs[id := bs[id].(header := bs[id].header.(prev := cp))];
      var (nt, _) := tail.Replace(chonk);
      AppendBlock(chain, blocks, bs, id, n);
      StackAppendBlock(chain, blocks, bs, id);
      assert DataAt(bs, id) == [];
      assert Stack(chain + [id], bs) == Held() + [id];
      tail, blocks, chain := nt, bs, chain + [id];
    }

    /** The other branch of `push`: without nodes, the reset block becomes head and tail. */
    method LinkFirstNode(id: Id)
      requires Linked() && chain == []
      modifies this
      ensures Linked()
      ensures chain == [id] && Held() == [id]
      ensures head == Link(Some(id)) && tail == head
      ensures id in blocks && blocks[id] == Init()
      ensures length == old(length)
      ensures forall k :: k in blocks ==> k in old(blocks) || k == id
    {
      var chonk := Link(Some(id));
      var bs := blocks[id := Init()];
      var (nt, _) := tail.Replace(chonk);
      var (nh, _) := head.Replace(chonk);
      AppendBlock([], blocks, bs, id, n);
      StackAppendBlock([], blocks, bs, id);
      tail, head, blocks, chain := nt, nh, bs, [id];
    }
  }
}
