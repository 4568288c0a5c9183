# chonky, modelled in Dafny

`chonky` is a Rust crate of bounded, chunked, doubly linked lists. Each list
keeps its items in fixed-size blocks (`ListChonk<T, N>`: two links plus an
inline vector of up to N items) and appends and pops at the tail. Callers can
plug in their own allocate and free callbacks. A free-block pool
(`PointerChonks`) keeps emptied blocks for reuse. It stores most of them as
addresses in the data of a few blocks that it links together. A thread-local
wrapper (`LocalPointerChonks`) puts the pool behind a key. `RecyclingList`
is a list whose callbacks take blocks from that pool and give them back.
The crate ships every structure twice:

- A standalone variant under `src/owned/`. It is generic in N, and its
  lists carry a capacity. Its blocks and its pool assert N > 0, but its
  list constructors do not.
- A crate-root variant under `src/`. Its N is fixed at `CHONK_SIZE` = 32
  where the pool is involved, its list is unbounded, and a single
  thread-local pool serves it.

## How the model is built

- **Memory.** There is no shared mutable heap of raw pointers. Each
  structure owns the memory of its blocks as `blocks: map<Id, ListChonk<X>>`,
  together with a ghost `chain`: the addresses of its blocks from head to
  tail. `Shape` (module `ListChonk`) says the chain is doubly linked and
  that every block but the tail is full. `Items` is the list's item
  sequence. `Stack` is the pool's stack of spare blocks: each node, then
  the addresses stashed in its data. A block a list releases leaves that
  list's memory. The pool then owns it, or the allocator's free log records
  it.
- **Callbacks.** The allocate and free callbacks, and the global
  `alloc`/`dealloc`, are an `Allocator` object. It hands out addresses
  never handed out before and logs every release in order. `push_custom`
  takes its callback's result as a parameter: `NeedsBlock()` says whether
  the Rust code would call `alloc`. `pop_custom` returns the address it
  would pass to `free`. `Push` and `Pop` run the callbacks themselves.
- **Panics.** An operation that can panic returns `Outcome`, which is
  `Done(value)` or `Panicked`. Its contract says exactly when it panics.
- **Variants sharing one class.** One `PointerChonks` class models both
  pool variants: they differ only in constructors and constants. One
  `LocalPointerChonks` class models both thread-local wrappers. The key is
  passed explicitly.
- **Scenarios.** Module `Scenarios` runs the structures from a fresh state
  and proves the outcome of each run.

The code behaves in several ways that its comments and names do not lead
one to expect. The model follows the code:

- **The bounded list's `len` overstates its contents.** `pop_custom`
  decrements `len` only when it released an empty tail block and then
  popped from the new tail (src/owned/list.rs:65-66). A pop straight from a
  non-empty tail leaves `len` alone, so the model proves
  `|Contents()| <= len <= cap` and not `len == |Contents()|`.
  `Scenarios.ListKeepsLength` shows a list with N = 2 left with no items
  after 1 to 5 are pushed and popped, yet reporting `len` 3. From then on
  it is never empty and admits 3 fewer pushes.
- **The crate-root list's `len` is always 0.** It is never written after
  `default` (src/list.rs:22).
- **A drained list keeps a stale `head`.** Releasing the last block
  empties `tail` but not `head`. When another block remains, the new
  tail's `next` link still names the released block: `pop_custom` takes
  the old tail's `prev` but never clears the new tail's `next`
  (src/owned/list.rs:61-63, src/list.rs:44-46). `Valid()` allows both, and
  `UnlinkTail`, `PopCustom` and `Pop` state the stale `next`.
- **A list with N = 0 can be built.** `with_capacity`, `default` and the
  crate-root `default` do not check N. Such a list pops nothing. Its first
  push that finds room panics: in the bounded list at the N > 0 assertion
  of `new_in` (src/owned/list.rs:137), before any allocation; in the
  crate-root list at the `unwrap` of the push into the fresh block
  (src/list.rs:69), after one allocation. `Scenarios.ZeroSizedList` and
  `Scenarios.ZeroSizedRootList` show both.
- **The pool panics on its last node.** The comment at
  src/owned/pointer_chonks.rs:62-63 says that in the worst case `pop` can
  give away the empty node itself, and the one at line 79 expects the last
  block to go out that way. But `pop` hands out a node's own block only
  after unwrapping that node's `prev` link
  (src/owned/pointer_chonks.rs:72-74). A pool down to one node and no
  stashed entries therefore panics, and the head-clearing at line 80 can
  never run. `Scenarios.PoolRunsDry` shows it: a pool with N = 4 and
  capacity 2, given blocks 0 and 1, yields block 1 and then panics.
- **A recycling list can panic on push.** The previous item also means
  that a push needing a block panics when the pool holds exactly one
  block. `Scenarios.RecyclingPanics` reaches that state from a fresh list
  and pool.
- **A recycling list panics on an empty pop.** `pop` unwraps the list's
  result (src/owned/recycling.rs:45).

## Model

| member | source | states |
|---|---|---|
| Link.Link.Take | src/link.rs:42 | the link is left empty and the old value is returned |
| Link.Link.Swap | src/link.rs:46 | the two links exchange contents |
| Link.Link.Replace | src/link.rs:44 | the link holds the new value and the old one is returned |
| Link.Link.AsRef | src/link.rs:48-52 | `None` exactly for an empty link, otherwise the block at the address |
| Link.Link.OrElse | src/link.rs:54-59 | the fallback is called exactly when the link is empty; a full link is kept |
| Link.Link.Clone | src/link.rs:6-9 | the copy holds the same address |
| Link.Link.Default | src/link.rs:36-38 | the default link is empty |
| Link.SwapTwice | src/link.rs:46 | swapping twice restores both links |
| Link.ReplaceThenRestore | src/link.rs:44 | replacing, then replacing with what came back, restores both values |
| Link.TakeThenRestore | src/link.rs:42-44 | taking, then replacing with what was taken, restores the link |
| Link.OrElseFillsOnce | src/link.rs:54-59 | once filled, a second `or_else` never calls its fallback |
| Link.CloneSameBlock | src/link.rs:6-9 | a copy denotes the same block in every memory |
| Chonk.Chonk.Push | src/owned/mod.rs:34 | appends when below N; otherwise `Err(item)` and the chonk unchanged; header kept, never more than N items (the crate-root twin, src/lib.rs:47, is the same) |
| Chonk.Chonk.Pop | src/owned/list.rs:60 | removes and yields the last item; an empty vector yields `None` unchanged |
| Chonk.Chonk.Len | src/owned/mod.rs:36 | the number of items |
| Chonk.Chonk.IsEmpty | src/owned/mod.rs:38 | true exactly when the length is 0 |
| Chonk.Chonk.IsFull | src/owned/mod.rs:40 | true exactly when the length is N |
| Chonk.Chonk.Space | src/owned/mod.rs:42 | space plus length is N; no space exactly when full |
| Chonk.From | src/lib.rs:58-61 | the given header with no items, for any N |
| Chonk.OwnedFrom | src/owned/mod.rs:45-51 | panics exactly when N = 0; otherwise the header with no items |
| Chonk.PushThenPop | src/owned/mod.rs:34 | a pop right after a successful push yields the pushed item and restores the chonk |
| Chonk.PushesStayBounded | src/owned/mod.rs:34 | any run of pushes keeps the first items that fit, in order, at most N, header unchanged |
| Alloc.Allocator.Alloc | src/owned/mod.rs:59-62 | hands out the next fresh address |
| Alloc.Allocator.Free | src/owned/mod.rs:68-71 | logs the released address and changes nothing else (the crate-root twin, src/lib.rs:33-36, is the same) |
| ListChonk.DefaultLinks | src/owned/list.rs:161-164 | neither link is set |
| ListChonk.Default | src/list.rs:96-99 | default links and no items |
| ListChonk.OwnedDefault | src/owned/list.rs:121-127 | panics exactly when N = 0; otherwise the default block |
| ListChonk.NewAt | src/owned/list.rs:135-141 | a link to the returned address and a default block written there |
| ListChonk.NewWithAllocator | src/list.rs:107-112 | calls the allocator once and links to the fresh default block |
| ListChonk.DropWithAllocator | src/list.rs:119-123 | the block goes to the free callback, and only that |
| ListChonk.EditTail | src/owned/list.rs:60 | rewriting the tail block's data keeps the chain shape; the items become the front's items plus the new data |
| ListChonk.AppendBlock | src/owned/list.rs:97-111 | linking a fresh block after a full tail keeps the shape and appends its data to the items |
| ListChonk.DropTail | src/owned/list.rs:61-64 | unlinking an empty tail keeps the shape of the rest and the item sequence |
| ListChonk.ItemsOfPacked | src/owned/list.rs:75-78 | a chain of k blocks holds (k - 1)·N items plus the tail's |
| ListChonk.BlocksForItems | src/owned/list.rs:75-81 | with a non-empty tail, a chain holding m items has exactly ceil(m / N) blocks |
| ListChonk.StackOfPacked | src/owned/pointer_chonks.rs:104-112 | a pool of k nodes holds (k - 1)·(N + 1) + 1 blocks plus the tail's stashed entries |
| ListChonk.SoleBlockIsLoneNode | src/owned/pointer_chonks.rs:72-74 | the pool holds one block exactly when it is a single node with no entries |
| ListChonk.NodeOnStack | src/owned/pointer_chonks.rs:104-119 | every node of the pool's chain is one of the blocks it holds |
| ListChonk.DropNode | src/owned/pointer_chonks.rs:72-78 | unlinking an empty tail node keeps the shape, and the held stack loses exactly that node |
| OwnedList.List.WithCapacity | src/owned/list.rs:31-33 | an empty, valid list with no blocks, `len` 0 and the given capacity, for every N including 0 |
| OwnedList.List.Default | src/owned/list.rs:24-27 | as `with_capacity(usize::MAX)`, for every N including 0 |
| OwnedList.List.Len | src/owned/list.rs:36 | bounded below by the item count and above by the capacity |
| OwnedList.List.Capacity | src/owned/list.rs:39 | never below `len` |
| OwnedList.List.IsEmpty | src/owned/list.rs:42 | true exactly when `len` is 0, and then no items are held |
| OwnedList.List.IsFull | src/owned/list.rs:45 | true exactly when `len` equals the capacity |
| OwnedList.List.BlockTraffic | src/owned/list.rs:71-85 | `push_custom` asks for a block exactly when there is room, N > 0 and every block is full; `pop_custom` frees one exactly when the tail is empty |
| OwnedList.List.PopCustom | src/owned/list.rs:57-69 | yields the last item, or `None` and no change when there is no tail; frees exactly an empty tail block, after which the new tail's `next` still names it; `len` drops only when it freed a block and then found an item |
| OwnedList.List.PopTailData | src/owned/list.rs:60 | pops the tail block's last item, if any, with the rest of the list unchanged |
| OwnedList.List.UnlinkTail | src/owned/list.rs:61-64 | removes the empty tail block from the chain and memory, items unchanged; the new tail is full, its block untouched, so its `next` still names the removed block |
| OwnedList.List.Retry | src/owned/list.rs:65-66 | pops the new tail's last item and decrements `len`, or yields `None` with no blocks left |
| OwnedList.List.PushCustom | src/owned/list.rs:71-85 | a full list hands the item back unchanged; with room and N = 0 it panics unchanged, at `new_in`'s assertion; otherwise it appends the item and increments `len`, growing the chain by the supplied block exactly when one was needed |
| OwnedList.List.PushTailData | src/owned/list.rs:77 | appends to the tail block exactly when it has room; otherwise nothing changes |
| OwnedList.List.AddFirstBlock | src/owned/list.rs:87-95 | once `new_in`'s N > 0 assertion has passed: the block becomes head and tail, holding only the item |
| OwnedList.List.AddBlock | src/owned/list.rs:97-111 | the block is linked after the full tail, holding only the item; head kept |
| OwnedList.List.Push | src/owned/list.rs:52-55 | `push_custom` with the global allocator: one fresh address exactly when a block is needed, none when N = 0; the released tail stays named by the new tail's `next` |
| OwnedList.List.Pop | src/owned/list.rs:47-50 | `pop_custom` with the global allocator: the freed block is logged, `len` and the chain change as in `pop_custom`, nothing changes without a tail, and a freed tail stays named by the new tail's `next` |
| RootList.List.Default | src/list.rs:19-24 | an empty, valid list with no blocks, for every N including 0 |
| RootList.List.Len | src/list.rs:28 | always 0 |
| RootList.List.BlockTraffic | src/list.rs:53-63 | a block is needed exactly when every block is full; one is freed exactly when the tail is empty |
| RootList.List.PopCustom | src/list.rs:40-51 | yields the last item, or `None` and no change when there is no tail; frees exactly an empty tail block, after which the new tail's `next` still names it |
| RootList.List.PopTailData | src/list.rs:43 | pops the tail block's last item, if any |
| RootList.List.UnlinkTail | src/list.rs:44-47 | removes the empty tail block, items unchanged; the new tail's block is untouched, so its `next` still names the removed block |
| RootList.List.PushCustom | src/list.rs:53-63 | panics unchanged exactly when N = 0; otherwise appends the item, growing the chain by the supplied block exactly when one was needed |
| RootList.List.PushTailData | src/list.rs:57 | appends to the tail block exactly when it has room |
| RootList.List.AddFirstBlock | src/list.rs:65-73 | panics before touching the list exactly when N = 0, as the push into the new block fails; otherwise the block becomes head and tail, holding only the item |
| RootList.List.AddBlock | src/list.rs:75-89 | the block is linked after the full tail, holding only the item |
| RootList.List.Push | src/list.rs:35-38 | `push_custom` with the global allocator, which is called even when N = 0 makes the push panic |
| RootList.List.Pop | src/list.rs:30-33 | `pop_custom` with the global allocator; the freed block is logged, nothing changes without a tail, and a freed tail stays named by the new tail's `next` |
| PointerChonks.Init | src/owned/pointer_chonks.rs:126-136 | the block handed out is reset: no links, no data (the crate-root twin, src/pointer_chonks.rs:73-83, is the same) |
| PointerChonks.PointerChonks.WithCapacity | src/owned/pointer_chonks.rs:38-46 | an empty, valid pool with the given capacity |
| PointerChonks.PointerChonks.Default | src/owned/pointer_chonks.rs:139-145 | capacity 8·(N + 1) |
| PointerChonks.PointerChonks.RootWithCapacity | src/pointer_chonks.rs:34-41 | an empty pool with N = 32 and the given capacity |
| PointerChonks.PointerChonks.RootDefault | src/pointer_chonks.rs:18-21 | capacity 32·33 = 1056 |
| PointerChonks.PointerChonks.Len | src/owned/pointer_chonks.rs:49 | the number of blocks held, nodes and stashed entries alike |
| PointerChonks.PointerChonks.Capacity | src/owned/pointer_chonks.rs:52 | never below the number held |
| PointerChonks.PointerChonks.IsEmpty | src/owned/pointer_chonks.rs:55 | true exactly when no block is held |
| PointerChonks.PointerChonks.IsFull | src/owned/pointer_chonks.rs:58 | true exactly when the pool holds its capacity |
| PointerChonks.PointerChonks.Pop | src/owned/pointer_chonks.rs:60-84 | empty: `None`, unchanged; one block left: panics; otherwise the most recently pushed block, reset, and the rest stays in order (the crate-root twin, src/pointer_chonks.rs:44-68, is the same) |
| PointerChonks.PointerChonks.Unstash | src/owned/pointer_chonks.rs:66-69 | pops the tail node's last stashed entry, if any |
| PointerChonks.PointerChonks.PopNode | src/owned/pointer_chonks.rs:72-81 | hands out the empty tail node itself, or panics when it has no predecessor |
| PointerChonks.PointerChonks.Push | src/owned/pointer_chonks.rs:87-121 | a full pool hands the block back unchanged; otherwise it is held on top, stashed in the tail or linked in as a reset tail node (the crate-root twin, src/pointer_chonks.rs:86-120, is the same) |
| PointerChonks.PointerChonks.Stash | src/owned/pointer_chonks.rs:104-106 | stores the address in the tail node exactly when it has room |
| PointerChonks.PointerChonks.LinkNode | src/owned/pointer_chonks.rs:106-111 | the reset block is linked after the full tail and held on top |
| PointerChonks.PointerChonks.LinkFirstNode | src/owned/pointer_chonks.rs:113-119 | the reset block becomes the pool's only node, head and tail |
| LocalPointerChonks.LocalPointerChonks.WithCapacity | src/owned/local_pointer_chonks.rs:45-49 | an empty pool with the given N and capacity |
| LocalPointerChonks.LocalPointerChonks.Default | src/owned/local_pointer_chonks.rs:91-94 | capacity 8·(N + 1) |
| LocalPointerChonks.LocalPointerChonks.RootDefault | src/local_pointer_chonks.rs:77-79 | the thread's pool: N = 32, capacity 1056 |
| LocalPointerChonks.LocalPointerChonks.DoPush | src/owned/local_pointer_chonks.rs:17-24 | the pool takes the block unless full; a full pool passes it to the free callback (the crate-root twin, src/local_pointer_chonks.rs:17-24, is the same) |
| LocalPointerChonks.LocalPointerChonks.DoPop | src/owned/local_pointer_chonks.rs:29-36 | an empty pool falls back to the allocate callback; otherwise the pool's block, never one it still holds (the crate-root twin, src/local_pointer_chonks.rs:29-36, is the same) |
| LocalPointerChonks.LocalPointerChonks.DoLen | src/owned/local_pointer_chonks.rs:38-41 | the number of blocks the pool holds |
| OwnedRecycling.RecyclingList.constructor | src/owned/recycling.rs:4-7 | an empty list on the given pool |
| OwnedRecycling.RecyclingList.Len | src/owned/recycling.rs:11 | the list's `len`, bounded by the item count and the capacity |
| OwnedRecycling.RecyclingList.IsEmpty | src/owned/recycling.rs:14 | true exactly when `len` is 0 |
| OwnedRecycling.RecyclingList.IsFull | src/owned/recycling.rs:17 | true exactly when `len` equals the capacity |
| OwnedRecycling.RecyclingList.Push | src/owned/recycling.rs:19-37 | a full list hands the item back; it panics exactly when a block is needed and the pool holds one; otherwise it appends, taking the block from the pool or the allocator; `push_custom`: the same, with the caller's allocator as the fallback |
| OwnedRecycling.RecyclingList.TakeBlock | src/owned/recycling.rs:24 | the block comes from the pool, or fresh from the allocator; the list and the pool never share it |
| OwnedRecycling.RecyclingList.Pop | src/owned/recycling.rs:39-56 | yields the last item, or panics when empty; a freed block goes to the pool, or to the allocator when the pool is full; `pop_custom`: the same, with the caller's free callback as the fallback |
| OwnedRecycling.RecyclingList.ReturnBlock | src/owned/recycling.rs:43-45 | the freed block goes to the pool unless it is full |
| RootRecycling.RecyclingList.constructor | src/recycling.rs:3-5 | an empty list on the thread's pool |
| RootRecycling.RecyclingList.Len | src/recycling.rs:9 | always 0 |
| RootRecycling.RecyclingList.Push | src/recycling.rs:11-17 | panics exactly when a block is needed and the pool holds one; otherwise it appends |
| RootRecycling.RecyclingList.TakeBlock | src/recycling.rs:15 | the block comes from the thread's pool, or fresh from the allocator |
| RootRecycling.RecyclingList.Pop | src/recycling.rs:19-24 | yields the last item, or panics when empty; a freed block goes to the pool |
| RootRecycling.RecyclingList.ReturnBlock | src/recycling.rs:22 | the freed block goes to the pool unless it is full |
| Scenarios.PoolRunsDry | src/owned/pointer_chonks.rs:60-121 | pool with N = 4 and capacity 2, given blocks 0 and 1: the first pop yields block 1 reset, the second panics |
| Scenarios.ZeroSizedList | src/owned/list.rs:71-85 | a bounded list with N = 0 pops `None`, and its first push panics with no block allocated |
| Scenarios.ZeroSizedRootList | src/list.rs:53-73 | a crate-root list with N = 0 pops `None`, and its first push allocates one block and panics |
| Scenarios.PushCounted | src/owned/list.rs:71-85 | a push with room grows the chain exactly when the item count fills every block |
| Scenarios.PopCounted | src/owned/list.rs:57-69 | a pop frees a block and shortens the chain exactly when the tail is empty |
| Scenarios.FillList | src/owned/list.rs:71-111 | 1 to 5 pushed with N = 2 take three blocks and set `len` to 5 |
| Scenarios.DrainStep | src/owned/list.rs:57-69 | each pop of the drain yields the top item; `len` drops exactly when the remaining count is even |
| Scenarios.DrainList | src/owned/list.rs:57-69 | five pops yield 5 to 1 and leave one empty block linked, with `len` 3 |
| Scenarios.ListKeepsLength | src/owned/list.rs:65-66 | after the run and a sixth pop, no blocks are left, yet `len` is 3 and the list is not empty |
| Scenarios.RecyclingPushCounted | src/owned/recycling.rs:19-27 | a push with room needs a block exactly when every block is full, and panics exactly when the pool then holds one block |
| Scenarios.RecyclingPopCounted | src/owned/recycling.rs:39-47 | a pop frees the tail block exactly when it is empty; the pool takes it unless full |
| Scenarios.FillRecycling | src/owned/recycling.rs:19-27 | two pushes with N = 1 take two fresh blocks, and the pool stays empty |
| Scenarios.DrainRecycling | src/owned/recycling.rs:39-47 | two pops yield 2 and 1; the emptied second block goes to the pool |
| Scenarios.RecyclingPanics | src/owned/pointer_chonks.rs:72-74 | of the next two pushes, the second needs the pool's only block and panics |

## Left out

- Raw pointers, casts, `NonNull` and layouts are not modelled. Addresses are
  natural numbers. A block's memory is a map entry owned by one structure.
- The global allocator is not modelled as memory. `alloc` and `dealloc`,
  and the callbacks that replace them, are the `Allocator` class: fresh
  addresses and a log of releases. Allocation failure is not modelled.
- `drop_in_place` is not modelled. The items are plain values and dropping
  one has no observable effect here.
- `Box::leak`, `Box::from_raw`, `Link::boxed` and the `From` conversions of
  `Link` are not modelled. They only change how ownership is typed, and
  the recycling list's items are plain values.
- `thread_local!`, `LocalKey` and `UnsafeCell` are not modelled. The pool is
  an object passed to the recycling list, and one model class stands for
  the static pool.
- Sharing one pool between several lists is left out: each model list
  holds its pool and no other structure uses it.
- The `assert!(N > 0)` and `assert!(cap > 0)` checks of the pool
  constructors are preconditions. `OwnedFrom` and `OwnedDefault` model the
  N = 0 panic of the owned block. The N > 0 assertion of `new_in` is
  modelled in `OwnedList.List.PushCustom`. The one in `drop_in` is not:
  a list with N = 0 never holds a block to drop.
- `8 * (N + 1)` overflowing `usize` is excluded by a precondition.
- The recycling list has no constructor in the source. The model adds one
  that builds the inner list on a given pool.
- Callbacks run after the structure's own update, not between its field
  writes. In the source, `free` runs before the retry pop, but nothing it
  does touches the list, so the final state is the same.
- After a panic the model only states what is unchanged. The recycling
  list's state after a panicking push or pop is left unspecified, because
  unwinding would abandon the structure anyway.
- Feature gating (`std`, `recycling`) is not modelled.
- OwnedList.List.Len: states `|Contents()| <= len <= cap` rather than
  `len` equal to the item count, because the source does not keep them
  equal.
