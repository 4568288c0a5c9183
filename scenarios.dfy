/**
 * Whole runs of the structures from a fresh state, each with the outcome the
 * code gives. They pin down behaviour that follows from the code itself: a
 * drained list keeps a block and part of its length, a pool cannot hand out
 * its last block, and a list with N = 0 panics on its first push.
 */
module Scenarios {
  import opened Wrappers
  import opened Link
  import opened ListChonk
  import opened Alloc
  import opened PointerChonks
  import OwnedList
  import RootList
  import opened LocalPointerChonks
  import OwnedRecycling

  /**
   * A pool of blocks of N = 4 pointers and capacity 2: block 0 becomes the
   * one node, block 1 is stashed in its data. The first pop hands back
   * block 1, reset. The second pop panics instead of handing back block 0.
   */
  method PoolRunsDry() returns (pushA: Result<(), Id>, pushB: Result<(), Id>,
                                first: Outcome<Option<Reused<int>>>, second: Outcome<Option<Reused<int>>>)
    ensures pushA == Ok(()) && pushB == Ok(())
    ensures first == Done(Some(Reused(1, Init())))
    ensures second == Panicked
  {
    var pool := new PointerChonks.WithCapacity(4, 2);
    pushA := pool.Push(0);
    pushB := pool.Push(1);
    first := pool.Pop<int>();
    second := pool.Pop<int>();
  }

  /**
   * A bounded list with N = 0, which `with_capacity` accepts: it pops
   * nothing, and its first push panics at the N > 0 assertion of `new_in`
   * before any block is allocated.
   */
  method ZeroSizedList() returns (popped: Option<int>, pushed: Outcome<Result<(), int>>, blocksTaken: nat)
    ensures popped == None && pushed == Panicked && blocksTaken == 0
  {
    var a := new Allocator();
    var l := new OwnedList.List<int>.WithCapacity(0, 8);
    popped := l.Pop(a);
    pushed := l.Push(7, a);
    blocksTaken := a.next;
  }

  /**
   * The crate-root list with N = 0: its first push allocates a block, finds
   * no room in it and panics at the `unwrap` in `add_first_block`.
   */
  method ZeroSizedRootList() returns (popped: Option<int>, pushed: Outcome<()>, blocksTaken: nat)
    ensures popped == None && pushed == Panicked && blocksTaken == 1
  {
    var a := new Allocator();
    var l := new RootList.List<int>.Default(0);
    popped := l.Pop(a);
    pushed := l.Push(7, a);
    blocksTaken := a.next;
  }

  /**
   * A push onto a bounded list with room, in counts: the chain grows by a
   * block exactly when every block was full.
   */
  method PushCounted(l: OwnedList.List<int>, a: Allocator, x: int)
    requires l.Valid() && l.AllocatedBy(a) && l.len != l.cap && l.n > 0
    modifies l, a
    ensures l.Valid() && l.AllocatedBy(a)
    ensures l.Contents() == old(l.Contents()) + [x] && l.len == old(l.len) + 1
    ensures |l.chain| == |old(l.chain)| + (if |old(l.Contents())| == |old(l.chain)| * l.n then 1 else 0)
  {
    l.BlockTraffic();
    var r := l.Push(x, a);
  }

  /**
   * A pop from a bounded list, in counts: the chain loses its tail and `len`
   * drops exactly when the tail held nothing.
   */
  method PopCounted(l: OwnedList.List<int>, a: Allocator) returns (x: Option<int>)
    requires l.Valid() && l.AllocatedBy(a)
    modifies l, a
    ensures l.Valid() && l.AllocatedBy(a)
    ensures old(l.Contents()) == [] ==> x.None? && l.Contents() == []
    ensures old(l.Contents()) != [] ==>
      && x == Some(old(l.Contents())[|old(l.Contents())| - 1])
      && l.Contents() == old(l.Contents())[..|old(l.Contents())| - 1]
    ensures var released := old(l.chain) != [] && |old(l.Contents())| == (|old(l.chain)| - 1) * l.n;
      && |l.chain| == |old(l.chain)| - (if released then 1 else 0)
      && l.len == old(l.len) - (if released && old(l.Contents()) != [] then 1 else 0)
  {
    l.BlockTraffic();
    ghost var released := l.chain != [] && l.blocks[l.chain[|l.chain| - 1]].data == [];
    ghost var before, count := l.Contents(), |l.chain|;
    x := l.Pop(a);
    assert |l.chain| == count - (if released then 1 else 0);
    assert l.len == old(l.len) - (if released && before != [] then 1 else 0);
  }

  /** Items 1 to 5 pushed in order onto a fresh list with N = 2: three blocks, the last holding one item. */
  method FillList() returns (l: OwnedList.List<int>, a: Allocator)
    ensures fresh(l) && fresh(a)
    ensures l.Valid() && l.AllocatedBy(a) && l.n == 2 && l.cap == USIZE_MAX
    ensures l.Contents() == [1, 2, 3, 4, 5] && |l.chain| == 3 && l.len == 5
  {
    a := new Allocator();
    l := new OwnedList.List<int>.Default(2);
    var i := 1;
    while i <= 5
      invariant 1 <= i <= 6
      invariant l.Valid() && l.AllocatedBy(a) && l.n == 2 && l.cap == USIZE_MAX
      invariant |l.Contents()| == i - 1 && l.len == i - 1 && |l.chain| == i / 2
      invariant forall k :: 0 <= k < i - 1 ==> l.Contents()[k] == k + 1
    {
      PushCounted(l, a, i);
      i := i + 1;
    }
    assert l.Contents() == [1, 2, 3, 4, 5];
  }

  /**
   * One pop from the list holding 1 to `k` that `FillList` and its first
   * pops leave: it yields `k`, and it releases a block and decrements `len`
   * exactly when `k` is even.
   */
  method DrainStep(l: OwnedList.List<int>, a: Allocator, k: nat) returns (x: Option<int>)
    requires 0 < k <= 5 && l.Valid() && l.AllocatedBy(a) && l.n == 2
    requires |l.Contents()| == k && forall j :: 0 <= j < k ==> l.Contents()[j] == j + 1
    requires |l.chain| == k / 2 + 1 && l.len == 3 + k / 2
    modifies l, a
    ensures l.Valid() && l.AllocatedBy(a) && x == Some(k)
    ensures |l.Contents()| == k - 1 && forall j :: 0 <= j < k - 1 ==> l.Contents()[j] == j + 1
    ensures |l.chain| == (k - 1) / 2 + 1 && l.len == 3 + (k - 1) / 2
  {
    ghost var released := k % 2 == 0;
    assert released <==> |l.Contents()| == (|l.chain| - 1) * l.n;
    x := PopCounted(l, a);
  }

  /**
   * Five pops from the filled list yield 5 to 1. Only the pops that found
   * the tail empty released a block and decremented `len`, so the first
   * block stays linked as the tail, empty, and `len` is 3.
   */
  method DrainList(l: OwnedList.List<int>, a: Allocator) returns (popped: seq<Option<int>>)
    requires l.Valid() && l.AllocatedBy(a) && l.n == 2
    requires l.Contents() == [1, 2, 3, 4, 5] && |l.chain| == 3 && l.len == 5
    modifies l, a
    ensures l.Valid() && l.AllocatedBy(a) && l.Contents() == []
    ensures popped == [Some(5), Some(4), Some(3), Some(2), Some(1)]
    ensures |l.chain| == 1 && l.tail.addr.Some? && l.len == 3
  {
    popped := [];
    var k := 5;
    while k > 0
      invariant 0 <= k <= 5
      invariant l.Valid() && l.AllocatedBy(a) && l.n == 2
      invariant |l.Contents()| == k && forall j :: 0 <= j < k ==> l.Contents()[j] == j + 1
      invariant |l.chain| == k / 2 + 1 && l.len == 3 + k / 2
      invariant |popped| == 5 - k && forall j :: 0 <= j < 5 - k ==> popped[j] == Some(5 - j)
    {
      var x := DrainStep(l, a, k);
      popped := popped + [x];
      k := k - 1;
    }
  }

  /**
   * The end-to-end run of a bounded list with N = 2: after 1 to 5 are
   * pushed and popped back, a sixth pop yields nothing and releases the
   * last block, and the list is left with no blocks but `len` 3, so it
   * never again reports itself empty and admits 3 fewer pushes.
   */
  method ListKeepsLength() returns (l: OwnedList.List<int>, popped: seq<Option<int>>)
    ensures l.Valid() && l.Contents() == [] && l.chain == [] && l.tail.IsNone()
    ensures popped == [Some(5), Some(4), Some(3), Some(2), Some(1), None]
    ensures l.Len() == 3 && !l.IsEmpty()
  {
    var a;
    l, a := FillList();
    popped := DrainList(l, a);
    var x := PopCounted(l, a);
    popped := popped + [x];
  }

  /**
   * A push onto a recycling list with room, in counts: it needs a block
   * exactly when every block of the list is full, takes it from the pool
   * when the pool has one, and panics when the pool has exactly one.
   */
  method RecyclingPushCounted(l: OwnedRecycling.RecyclingList<int>, a: Allocator, x: int)
    returns (r: Outcome<Result<(), int>>)
    requires l.Valid() && l.AllocatedBy(a) && l.list.len != l.list.cap
    modifies l.list, l.key.chonks, a
    ensures var needs := |old(l.Contents())| == |old(l.list.chain)| * l.list.n;
      && (r.Panicked? <==> needs && |old(l.key.chonks.Held())| == 1)
      && (r.Done? ==>
        && l.Valid() && l.AllocatedBy(a) && r.value == Ok(())
        && l.Contents() == old(l.Contents()) + [x] && l.list.len == old(l.list.len) + 1
        && |l.list.chain| == |old(l.list.chain)| + (if needs then 1 else 0)
        && |l.key.chonks.Held()| == |old(l.key.chonks.Held())| - (if needs && old(l.key.chonks.Held()) != [] then 1 else 0))
  {
    l.list.BlockTraffic();
    r := l.Push(x, a);
  }

  /**
   * A pop from a non-empty recycling list, in counts: it releases the tail
   * block exactly when the tail held nothing, and the pool takes that block
   * unless it is full.
   */
  method RecyclingPopCounted(l: OwnedRecycling.RecyclingList<int>, a: Allocator) returns (r: Outcome<int>)
    requires l.Valid() && l.AllocatedBy(a) && l.Contents() != []
    modifies l.list, l.key.chonks, a
    ensures l.Valid() && l.AllocatedBy(a)
    ensures r == Done(old(l.Contents())[|old(l.Contents())| - 1])
    ensures l.Contents() == old(l.Contents())[..|old(l.Contents())| - 1]
    ensures var released := |old(l.Contents())| == (|old(l.list.chain)| - 1) * l.list.n;
      var full := |old(l.key.chonks.Held())| == l.key.chonks.capacity;
      && |l.list.chain| == |old(l.list.chain)| - (if released then 1 else 0)
      && |l.key.chonks.Held()| == |old(l.key.chonks.Held())| + (if released && !full then 1 else 0)
      && l.list.len == old(l.list.len) - (if released then 1 else 0)
  {
    l.list.BlockTraffic();
    r := l.Pop(a);
  }

  /** A recycling list with N = 1 and room for 8 items, on a fresh pool, after pushing 1 and 2. */
  method FillRecycling() returns (l: OwnedRecycling.RecyclingList<int>, a: Allocator, pushes: seq<Outcome<Result<(), int>>>)
    ensures fresh(l.list) && fresh(l.key.chonks) && fresh(a)
    ensures l.Valid() && l.AllocatedBy(a) && l.list.n == 1 && l.list.cap == 8 && l.key.chonks.capacity == 16
    ensures l.Contents() == [1, 2] && |l.list.chain| == 2 && l.list.len == 2 && l.key.chonks.Held() == []
    ensures pushes == [Done(Ok(())), Done(Ok(()))]
  {
    a := new Allocator();
    var key := new LocalPointerChonks.WithCapacity(1, 16);
    l := new OwnedRecycling.RecyclingList<int>(key, 8);
    var p := RecyclingPushCounted(l, a, 1);
    pushes := [p];
    p := RecyclingPushCounted(l, a, 2);
    pushes := pushes + [p];
  }

  /** Popping 2 and 1: the second pop empties the second block, which goes to the pool. */
  method DrainRecycling(l: OwnedRecycling.RecyclingList<int>, a: Allocator) returns (pops: seq<Outcome<int>>)
    requires l.Valid() && l.AllocatedBy(a) && l.list.n == 1 && l.key.chonks.capacity == 16
    requires l.Contents() == [1, 2] && |l.list.chain| == 2 && l.list.len == 2 && l.key.chonks.Held() == []
    modifies l.list, l.key.chonks, a
    ensures l.Valid() && l.AllocatedBy(a)
    ensures l.Contents() == [] && |l.list.chain| == 1 && l.list.len == 1 && |l.key.chonks.Held()| == 1
    ensures pops == [Done(2), Done(1)]
  {
    var q := RecyclingPopCounted(l, a);
    pops := [q];
    q := RecyclingPopCounted(l, a);
    pops := pops + [q];
  }

  /**
   * The whole run: two pushes take two blocks from the allocator; two pops
   * yield 2 and 1 and hand the emptied second block to the pool. Of the
   * next two pushes, the first fills the block the list kept and the
   * second, which needs a block, panics because the pool holds only one.
   */
  method RecyclingPanics() returns (pushes: seq<Outcome<Result<(), int>>>, pops: seq<Outcome<int>>)
    ensures pushes == [Done(Ok(())), Done(Ok(())), Done(Ok(())), Panicked]
    ensures pops == [Done(2), Done(1)]
  {
    var l, a;
    l, a, pushes := FillRecycling();
    pops := DrainRecycling(l, a);
    assert l.list.len == 1 && l.list.cap == 8 && l.list.n == 1;
    var p := RecyclingPushCounted(l, a, 3);
    assert p == Done(Ok(()));
    assert |l.Contents()| == |l.list.chain| * l.list.n && |l.key.chonks.Held()| == 1;
    pushes := pushes + [p];
    p := RecyclingPushCounted(l, a, 4);
    assert p == Panicked;
    pushes := pushes + [p];
  }
}
