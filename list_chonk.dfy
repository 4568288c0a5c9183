/**
 * `ListChonk<T, N>` and `Links` (src/owned/list.rs:115-164, src/list.rs:93-134):
 * the block type shared by both lists and by the free-block pool, together
 * with the shape of a doubly linked chain of such blocks.
 *
 * A structure that holds blocks owns a map from address to block contents and
 * a ghost `chain`, the addresses from head to tail. The predicates and
 * functions below describe such a chain once for every payload type `X`.
 */
module ListChonk {
  import opened Wrappers
  import opened Link
  import opened Chonk
  import opened Alloc

  /** `Links<T>`: the header of a list block. */
  datatype Links = Links(prev: Link, next: Link)

  /** `Links::default()`: neither link set. */
  function DefaultLinks(): (l: Links)
    ensures l.prev.IsNone() && l.next.IsNone()
  {
    Links(Link.Default(), Link.Default())
  }

  type ListChonk<X> = Chonk<Links, X>

  /** `ListChonk::default()` of src/list.rs. */
  function Default<X>(): (c: ListChonk<X>)
    ensures c.header == DefaultLinks() && c.data == []
  {
    From(DefaultLinks())
  }

  /** `ListChonk::default()` of src/owned/list.rs: asserts N > 0, then as `Default`. */
  function OwnedDefault<X>(n: nat): (r: Outcome<ListChonk<X>>)
    ensures r.Panicked? <==> n == 0
    ensures r.Done? ==> r.value == Default()
  {
    if n > 0 then OwnedFrom(DefaultLinks(), n) else Panicked
  }

  /**
   * What `new_in` / `new_with_allocator` do once the allocate callback has
   * returned the address `id`: write the default block there and link to it.
   */
  function NewAt<X>(id: Id): (r: (Link, ListChonk<X>))
    ensures r.0 == Link(Some(id)) && r.1 == Default()
  {
    (Link(Some(id)), Default())
  }

  /** `ListChonk::new_with_allocator` (src/list.rs) with `a` as the callback. */
  method NewWithAllocator<X>(a: Allocator) returns (l: Link, c: ListChonk<X>)
    modifies a
    ensures a.next == old(a.next) + 1 && a.freed == old(a.freed)
    ensures l == Link(Some(old(a.next))) && c == Default()
  {
    var id := a.Alloc();
    var made := NewAt<X>(id);
    l, c := made.0, made.1;
  }

  /**
   * `ListChonk::drop_with_allocator` (src/list.rs): drops the block in place,
   * which has no modelled effect, and releases it through `a`.
   */
  method DropWithAllocator(id: Id, a: Allocator)
    modifies a
    ensures a.freed == old(a.freed) + [id] && a.next == old(a.next)
  {
    a.Free(id);
  }

  /** The addresses on `chain`, as a set. */
  ghost function Addresses(chain: seq<Id>): set<Id>
    decreases |chain|
  {
    if chain == [] then {} else Addresses(chain[..|chain| - 1]) + {chain[|chain| - 1]}
  }

  /** An address is in `Addresses(chain)` exactly when it occurs on the chain. */
  lemma {:induction false} AddressesOf(chain: seq<Id>, id: Id)
    ensures id in Addresses(chain) <==> id in chain
    decreases |chain|
  {
    if chain != [] {
      var front := chain[..|chain| - 1];
      AddressesOf(front, id);
      assert chain == front + [chain[|chain| - 1]];
    }
  }

  /** `b1` and `b2` hold the same blocks at every address of `s`. */
  ghost predicate Agree<X>(s: set<Id>, b1: map<Id, ListChonk<X>>, b2: map<Id, ListChonk<X>>) {
    forall id :: id in s ==> id in b1 && id in b2 && b2[id] == b1[id]
  }

  /** The items of the block at `id`, or none when there is no block there. */
  ghost function DataAt<X>(blocks: map<Id, ListChonk<X>>, id: Id): seq<X> {
    if id in blocks then blocks[id].data else []
  }

  /**
   * Block `p` is immediately followed by block `t`: `t`'s `prev` is `p`, `p`'s
   * `next` is `t`, and `p`, which is not the tail, is full.
   */
  ghost predicate Adjacent<X>(blocks: map<Id, ListChonk<X>>, p: Id, t: Id, n: nat) {
    && p in blocks && t in blocks
    && blocks[t].header.prev == Link(Some(p))
    && blocks[p].header.next == Link(Some(t))
    && |blocks[p].data| == n
  }

  /**
   * The shape of a chain of blocks, stated from the tail back: every address
   * occurs once and has a block holding at most `n` items; the head's `prev`
   * is empty; each other block is `Adjacent` to the one before it. The tail's
   * `next` is left unconstrained: the list may leave a stale address there.
   */
  ghost predicate Shape<X>(chain: seq<Id>, blocks: map<Id, ListChonk<X>>, n: nat)
    decreases |chain|
  {
    chain != [] ==>
      var front, t := chain[..|chain| - 1], chain[|chain| - 1];
      && t in blocks && t !in Addresses(front)
      && |blocks[t].data| <= n
      && (front == [] ==> blocks[t].header.prev.IsNone())
      && (front != [] ==> Adjacent(blocks, front[|front| - 1], t, n))
      && Shape(front, blocks, n)
  }

  /** The whole chain as the list's item sequence: every block's data, head first. */
  ghost function Items<X>(chain: seq<Id>, blocks: map<Id, ListChonk<X>>): seq<X>
    decreases |chain|
  {
    if chain == [] then [] else Items(chain[..|chain| - 1], blocks) + DataAt(blocks, chain[|chain| - 1])
  }

  /**
   * The whole chain as the pool's stack of spare blocks: each node itself,
   * then the addresses stashed in its data, head first.
   */
  ghost function Stack(chain: seq<Id>, blocks: map<Id, ListChonk<Id>>): seq<Id>
    decreases |chain|
  {
    if chain == [] then [] else Stack(chain[..|chain| - 1], blocks) + [chain[|chain| - 1]] + DataAt(blocks, chain[|chain| - 1])
  }

  /** `Items` reads only the data of the chain's own blocks. */
  lemma {:induction false} ItemsFrame<X>(chain: seq<Id>, b1: map<Id, ListChonk<X>>, b2: map<Id, ListChonk<X>>)
    requires forall id :: id in Addresses(chain) ==> DataAt(b1, id) == DataAt(b2, id)
    ensures Items(chain, b1) == Items(chain, b2)
    decreases |chain|
  {
    if chain != [] {
      ItemsFrame(chain[..|chain| - 1], b1, b2);
    }
  }

  /** `Stack` reads only the data of the chain's own blocks. */
  lemma {:induction false} StackFrame(chain: seq<Id>, b1: map<Id, ListChonk<Id>>, b2: map<Id, ListChonk<Id>>)
    requires forall id :: id in Addresses(chain) ==> DataAt(b1, id) == DataAt(b2, id)
    ensures Stack(chain, b1) == Stack(chain, b2)
    decreases |chain|
  {
    if chain != [] {
      StackFrame(chain[..|chain| - 1], b1, b2);
    }
  }

  /** Every address of a chain of the right shape has a block in the memory. */
  lemma {:induction false} ShapeWithin<X>(chain: seq<Id>, blocks: map<Id, ListChonk<X>>, n: nat)
    requires Shape(chain, blocks, n)
    ensures forall id :: id in Addresses(chain) ==> id in blocks
    decreases |chain|
  {
    if chain != [] {
      ShapeWithin(chain[..|chain| - 1], blocks, n);
    }
  }

  /** `Shape` depends only on the blocks of the chain. */
  lemma {:induction false} ShapeFrame<X>(chain: seq<Id>, b1: map<Id, ListChonk<X>>, b2: map<Id, ListChonk<X>>, n: nat)
    requires Shape(chain, b1, n) && Agree(Addresses(chain), b1, b2)
    ensures Shape(chain, b2, n)
    decreases |chain|
  {
    if chain != [] {
      var front := chain[..|chain| - 1];
      if front != [] {
        assert Addresses(front) == Addresses(front[..|front| - 1]) + {front[|front| - 1]};
      }
      ShapeFrame(front, b1, b2, n);
    }
  }

  /** `Shape` survives any change to the tail block that keeps its `prev` and fits in `n`. */
  lemma ShapeEditTail<X>(chain: seq<Id>, b1: map<Id, ListChonk<X>>, b2: map<Id, ListChonk<X>>, n: nat)
    requires Shape(chain, b1, n) && chain != []
    requires Agree(Addresses(chain[..|chain| - 1]), b1, b2)
    requires chain[|chain| - 1] in b2
    requires b2[chain[|chain| - 1]].header.prev == b1[chain[|chain| - 1]].header.prev
    requires |b2[chain[|chain| - 1]].data| <= n
    ensures Shape(chain, b2, n)
  {
    var front := chain[..|chain| - 1];
    if front != [] {
      assert Addresses(front) == Addresses(front[..|front| - 1]) + {front[|front| - 1]};
    }
    ShapeFrame(front, b1, b2, n);
  }

  /**
   * Replacing the tail block by `c`, with the same `prev` and at most `n`
   * items, keeps the chain's shape and ownership; the items change only in
   * the tail's part.
   */
  lemma EditTail<X>(chain: seq<Id>, blocks: map<Id, ListChonk<X>>, c: ListChonk<X>, n: nat)
    requires Shape(chain, blocks, n) && chain != []
    requires c.header.prev == blocks[chain[|chain| - 1]].header.prev && |c.data| <= n
    ensures var b2 := blocks[chain[|chain| - 1] := c];
      && Shape(chain, b2, n)
      && Items(chain, blocks) == Items(chain[..|chain| - 1], blocks) + blocks[chain[|chain| - 1]].data
      && Items(chain, b2) == Items(chain[..|chain| - 1], blocks) + c.data
  {
    var front, t := chain[..|chain| - 1], chain[|chain| - 1];
    var b2 := blocks[t := c];
    ShapeWithin(front, blocks, n);
    ShapeEditTail(chain, blocks, b2, n);
    ItemsFrame(front, blocks, b2);
  }

  /** The stack when the tail node's data is replaced by that of `c`. */
  lemma StackEditTail(chain: seq<Id>, blocks: map<Id, ListChonk<Id>>, c: ListChonk<Id>)
    requires chain != [] && chain[|chain| - 1] in blocks
    requires chain[|chain| - 1] !in Addresses(chain[..|chain| - 1])
    ensures Stack(chain, blocks) == Stack(chain[..|chain| - 1], blocks) + [chain[|chain| - 1]] + blocks[chain[|chain| - 1]].data
    ensures Stack(chain, blocks[chain[|chain| - 1] := c]) == Stack(chain[..|chain| - 1], blocks) + [chain[|chain| - 1]] + c.data
  {
    StackFrame(chain[..|chain| - 1], blocks, blocks[chain[|chain| - 1] := c]);
  }

  /**
   * Linking a new block `id` after the tail, or as the only block: in the new
   * memory `b2` the new block's `prev` is the old tail, the old tail's `next`
   * is the new block, and every other block of the chain is as it was. The
   * new block must not be on the chain already; the memory may hold a stale
   * block at its address, which is overwritten. The chain keeps
   * its shape provided the old tail was full, and the new block's data
   * follows the old items.
   */
  lemma AppendBlock<X>(chain: seq<Id>, b1: map<Id, ListChonk<X>>, b2: map<Id, ListChonk<X>>, id: Id, n: nat)
    requires Shape(chain, b1, n) && id !in Addresses(chain)
    requires id in b2 && b2[id].header.prev == (if chain == [] then Link(None) else Link(Some(chain[|chain| - 1])))
    requires |b2[id].data| <= n
    requires chain != [] ==> var t := chain[|chain| - 1];
      && |b1[t].data| == n
      && t in b2
      && b2[t].data == b1[t].data
      && b2[t].header.prev == b1[t].header.prev
      && b2[t].header.next == Link(Some(id))
    requires forall k :: k in b1 && k != id && (chain == [] || k != chain[|chain| - 1]) ==> k in b2 && b2[k] == b1[k]
    ensures Shape(chain + [id], b2, n)
    ensures Items(chain + [id], b2) == Items(chain, b1) + b2[id].data
  {
    var c := chain + [id];
    assert c[..|c| - 1] == chain;
    ShapeWithin(chain, b1, n);
    if chain != [] {
      ShapeEditTail(chain, b1, b2, n);
    }
    ItemsFrame(chain, b1, b2);
  }

  /** The stack after `AppendBlock`: the new node, then its data, on top of the old stack. */
  lemma StackAppendBlock(chain: seq<Id>, b1: map<Id, ListChonk<Id>>, b2: map<Id, ListChonk<Id>>, id: Id)
    requires forall k :: k in Addresses(chain) ==> DataAt(b1, k) == DataAt(b2, k)
    ensures Stack(chain + [id], b2) == Stack(chain, b1) + [id] + DataAt(b2, id)
  {
    var c := chain + [id];
    assert c[..|c| - 1] == chain;
    StackFrame(chain, b1, b2);
  }

  /**
   * Unlinking the tail block: its predecessor (if any) becomes the tail and
   * may have its `next` rewritten, and every other block is as it was.
   * What remains keeps its shape and its items.
   */
  lemma DropTail<X>(chain: seq<Id>, b1: map<Id, ListChonk<X>>, b2: map<Id, ListChonk<X>>, n: nat)
    requires Shape(chain, b1, n) && chain != []
    requires forall k :: k in b1 && k != chain[|chain| - 1] && (|chain| < 2 || k != chain[|chain| - 2]) ==> k in b2 && b2[k] == b1[k]
    requires |chain| >= 2 ==> var p := chain[|chain| - 2];
      && p in b2
      && b2[p].data == b1[p].data
      && b2[p].header.prev == b1[p].header.prev
    ensures var front := chain[..|chain| - 1];
      && Shape(front, b2, n)
      && Items(front, b2) == Items(front, b1)
      && Items(chain, b1) == Items(front, b1) + b1[chain[|chain| - 1]].data
  {
    var front, t := chain[..|chain| - 1], chain[|chain| - 1];
    ShapeWithin(front, b1, n);
    if front != [] {
      assert front[..|front| - 1] == chain[..|chain| - 2];
      assert Addresses(front) == Addresses(front[..|front| - 1]) + {front[|front| - 1]};
      ShapeEditTail(front, b1, b2, n);
    }
    ItemsFrame(front, b1, b2);
  }

  /** The stack after `DropTail`: the remaining nodes' stack is unchanged. */
  lemma StackDropTail(chain: seq<Id>, b1: map<Id, ListChonk<Id>>, b2: map<Id, ListChonk<Id>>)
    requires chain != []
    requires forall k :: k in Addresses(chain[..|chain| - 1]) ==> DataAt(b1, k) == DataAt(b2, k)
    ensures Stack(chain[..|chain| - 1], b2) == Stack(chain[..|chain| - 1], b1)
    ensures Stack(chain, b1) == Stack(chain[..|chain| - 1], b1) + [chain[|chain| - 1]] + DataAt(b1, chain[|chain| - 1])
  {
    StackFrame(chain[..|chain| - 1], b1, b2);
  }

  /** Every node of a pool chain is itself on the pool's stack. */
  lemma {:induction false} NodeOnStack(chain: seq<Id>, blocks: map<Id, ListChonk<Id>>, id: Id)
    requires id in Addresses(chain)
    ensures id in Stack(chain, blocks)
    decreases |chain|
  {
    if id != chain[|chain| - 1] {
      NodeOnStack(chain[..|chain| - 1], blocks, id);
    }
  }

  /** An address the pool does not hold is not one of its nodes. */
  lemma NotOnStack(chain: seq<Id>, blocks: map<Id, ListChonk<Id>>, id: Id)
    requires id !in Stack(chain, blocks)
    ensures id !in Addresses(chain)
  {
    if id in Addresses(chain) {
      NodeOnStack(chain, blocks, id);
    }
  }

  /**
   * Unlinking an empty tail node that has a predecessor, as `DropTail`
   * allows: the node is the top of the pool's stack, and the stack of what
   * remains is the rest, in order, still holding the new tail.
   */
  lemma DropNode(chain: seq<Id>, b1: map<Id, ListChonk<Id>>, b2: map<Id, ListChonk<Id>>, n: nat)
    requires Shape(chain, b1, n) && |chain| >= 2 && b1[chain[|chain| - 1]].data == []
    requires forall k :: k in b1 && k != chain[|chain| - 1] && k != chain[|chain| - 2] ==> k in b2 && b2[k] == b1[k]
    requires var p := chain[|chain| - 2];
      && p in b2
      && b2[p].data == b1[p].data
      && b2[p].header.prev == b1[p].header.prev
    ensures Shape(chain[..|chain| - 1], b2, n)
    ensures var s := Stack(chain, b1);
      && s != [] && s[|s| - 1] == chain[|chain| - 1]
      && Stack(chain[..|chain| - 1], b2) == s[..|s| - 1]
      && Stack(chain[..|chain| - 1], b2) != []
  {
    var front, t := chain[..|chain| - 1], chain[|chain| - 1];
    DropTail(chain, b1, b2, n);
    ShapeWithin(front, b1, n);
    StackDropTail(chain, b1, b2);
    var below := Stack(front, b1);
    assert DataAt(b1, t) == [];
    assert Stack(chain, b1) == below + [t];
    assert (below + [t])[..|below|] == below;
    assert Stack(front, b1) != [];
  }

  /** In a chain of the right shape, the blocks before the tail hold n items each. */
  lemma {:induction false} ItemsOfPacked<X>(chain: seq<Id>, blocks: map<Id, ListChonk<X>>, n: nat)
    requires Shape(chain, blocks, n) && chain != []
    ensures |Items(chain, blocks)| == (|chain| - 1) * n + |blocks[chain[|chain| - 1]].data|
    decreases |chain|
  {
    var front := chain[..|chain| - 1];
    if front != [] {
      ItemsOfPacked(front, blocks, n);
    }
  }

  /**
   * The number of blocks a chain needs: when the tail is not empty, a chain
   * holding k items has exactly ceil(k / n) blocks.
   */
  lemma BlocksForItems<X>(chain: seq<Id>, blocks: map<Id, ListChonk<X>>, n: nat)
    requires Shape(chain, blocks, n) && n > 0
    requires chain != [] ==> blocks[chain[|chain| - 1]].data != []
    ensures |chain| == (|Items(chain, blocks)| + n - 1) / n
  {
    if chain != [] {
      ItemsOfPacked(chain, blocks, n);
      var m := |blocks[chain[|chain| - 1]].data|;
      assert |Items(chain, blocks)| + n - 1 == |chain| * n + (m - 1);
      DivisionOfMultiple(|chain|, n, m - 1);
    }
  }

  /** (q * n + r) / n == q when 0 <= r < n. */
  lemma DivisionOfMultiple(q: nat, n: nat, r: nat)
    requires r < n
    ensures (q * n + r) / n == q
  {
    var a := q * n + r;
    var d := a / n - q;
    assert d * n == r - a % n;
  }

  /** The pool's stack counts every node once plus its stashed addresses. */
  lemma {:induction false} StackOfPacked(chain: seq<Id>, blocks: map<Id, ListChonk<Id>>, n: nat)
    requires Shape(chain, blocks, n) && chain != []
    ensures |Stack(chain, blocks)| == (|chain| - 1) * (n + 1) + 1 + |blocks[chain[|chain| - 1]].data|
    decreases |chain|
  {
    var front := chain[..|chain| - 1];
    if front != [] {
      StackOfPacked(front, blocks, n);
      assert (|front| - 1) * (n + 1) + 1 + n == |front| * (n + 1);
    }
  }

  /**
   * A pool chain is down to one spare block exactly when its only node holds
   * no stashed address: the one state in which the tail has no predecessor
   * and nothing to hand out but itself.
   */
  lemma SoleBlockIsLoneNode(chain: seq<Id>, blocks: map<Id, ListChonk<Id>>, n: nat)
    requires Shape(chain, blocks, n) && n > 0 && chain != []
    ensures |Stack(chain, blocks)| == 1 <==> |chain| == 1 && blocks[chain[0]].data == []
  {
    StackOfPacked(chain, blocks, n);
    if |chain| > 1 {
      assert (|chain| - 1) * (n + 1) >= n + 1;
    }
  }

  /** Popping from a sequence whose last part `d` is not empty pops from `d`. */
  lemma PopFromLastPart<X>(a: seq<X>, d: seq<X>)
    requires d != []
    ensures (a + d)[|a + d| - 1] == d[|d| - 1]
    ensures (a + d)[..|a + d| - 1] == a + d[..|d| - 1]
  {
    assert (a + d)[..|a + d| - 1] == a + d[..|d| - 1];
  }
}
