/**
 * `Chonk<H, T, N>`: a header plus a `heapless::Vec<T, N>` of at most N items
 * (src/owned/mod.rs and src/lib.rs, which differ only in `From`).
 *
 * The vector is a `seq<T>` whose length never exceeds `n`, the const generic
 * N. A chonk sits inline in its block, so it is a value: `Push` and `Pop`
 * return the new chonk, and the list that owns the block stores it back.
 */
module Chonk {
  import opened Wrappers

  datatype Chonk<H, T> = Chonk(header: H, data: seq<T>) {

    /** `push`: appends when there is room, otherwise hands the item back untouched. */
    function Push(item: T, n: nat): (r: (Chonk<H, T>, Result<(), T>))
      requires |data| <= n
      ensures |data| < n ==> r.1 == Ok(()) && r.0.data == data + [item]
      ensures |data| == n ==> r.1 == Err(item) && r.0 == this
      ensures r.0.header == header
      ensures |r.0.data| <= n
    {
      if |data| < n then (this.(data := data + [item]), Ok(())) else (this, Err(item))
    }

    /** `heapless::Vec::pop`: removes and yields the last item, if any. */
    function Pop(): (r: (Chonk<H, T>, Option<T>))
      ensures data == [] ==> r == (this, None)
      ensures data != [] ==> r.1 == Some(data[|data| - 1]) && r.0.data == data[..|data| - 1]
      ensures r.0.header == header
    {
      if data == [] then (this, None) else (this.(data := data[..|data| - 1]), Some(data[|data| - 1]))
    }

    /** `len`. */
    function Len(): (r: nat)
      ensures r == |data|
    {
      |data|
    }

    /** `is_empty`. */
    function IsEmpty(): (r: bool)
      ensures r <==> Len() == 0
    {
      data == []
    }

    /** `is_full`. */
    function IsFull(n: nat): (r: bool)
      requires |data| <= n
      ensures r <==> Len() == n
    {
      |data| == n
    }

    /** `space`: `N - len()`, which never underflows because len <= N. */
    function Space(n: nat): (r: nat)
      requires |data| <= n
      ensures r + Len() == n
      ensures r == 0 <==> IsFull(n)
    {
      n - |data|
    }
  }

  /** `From<H>` of src/lib.rs: the header with no items, for any N (no check). */
  function From<H, T>(header: H): (c: Chonk<H, T>)
    ensures c.header == header && c.data == []
  {
    Chonk(header, [])
  }

  /** `From<H>` of src/owned/mod.rs: as `From`, but asserts N > 0 first. */
  function OwnedFrom<H, T>(header: H, n: nat): (r: Outcome<Chonk<H, T>>)
    ensures r.Panicked? <==> n == 0
    ensures r.Done? ==> r.value.header == header && r.value.data == []
  {
    if n > 0 then Done(From(header)) else Panicked
  }

  /** A pushed item is the one the next pop yields, and the pop restores the chonk. */
  lemma PushThenPop<H, T>(c: Chonk<H, T>, item: T, n: nat)
    requires |c.data| < n
    ensures c.Push(item, n).0.Pop() == (c, Some(item))
  {
    assert (c.data + [item])[..|c.data|] == c.data;
  }

  /**
   * Any run of pushes keeps the chonk within N: the items kept are the first
   * ones that fit, in order, and the header never changes.
   */
  lemma {:induction false} PushesStayBounded<H, T>(c: Chonk<H, T>, items: seq<T>, n: nat)
    requires |c.data| <= n
    ensures var k := if |items| <= n - |c.data| then |items| else n - |c.data|;
      PushAll(c, items, n).data == c.data + items[..k]
    ensures |PushAll(c, items, n).data| <= n
    ensures PushAll(c, items, n).header == c.header
    decreases |items|
  {
    if items != [] {
      var c' := c.Push(items[0], n).0;
      PushesStayBounded(c', items[1..], n);
      if |c.data| < n {
        var k := if |items| <= n - |c.data| then |items| else n - |c.data|;
        assert items[..k] == [items[0]] + items[1..][..k - 1];
      }
    }
  }

  /** The chonk after pushing `items` one by one, rejected pushes included. */
  function PushAll<H, T>(c: Chonk<H, T>, items: seq<T>, n: nat): Chonk<H, T>
    requires |c.data| <= n
    decreases |items|
  {
    if items == [] then c else PushAll(c.Push(items[0], n).0, items[1..], n)
  }
}
