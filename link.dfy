/**
 * `Link`: a nullable, copyable block address (src/link.rs).
 *
 * A link is a `Copy` value, so it is a datatype here: the operations that
 * overwrite a link in place (`take`, `replace`, `swap`, `or_else`) are functions
 * that return the new contents of the link together with what the Rust method
 * returns, and the structures that hold links assign their fields from them.
 */
module Link {
  import opened Wrappers

  /** The address of a block in memory. */
  type Id = nat

  datatype Link = Link(addr: Option<Id>) {

    predicate IsNone() { addr.None? }

    /** `take`: yields (the link afterwards, what it held). */
    function Take(): (r: (Link, Link))
      ensures r.0.IsNone()
      ensures r.1 == this
    {
      (Link(None), this)
    }

    /** `swap`: yields (this link afterwards, the other link afterwards). */
    function Swap(other: Link): (r: (Link, Link))
      ensures r.0 == other && r.1 == this
    {
      (other, this)
    }

    /** `replace(other)`: swaps with `other` and yields (the link afterwards, what it held). */
    function Replace(other: Link): (r: (Link, Link))
      ensures r.0 == other
      ensures r.1 == this
    {
      var (now, was) := Swap(other);
      (now, was)
    }

    /**
     * `or_else(f)`: when the link is empty, `f` is called and its result
     * swapped in. Yields (the link afterwards, whether `f` was called).
     */
    function OrElse(f: () -> Link): (r: (Link, bool))
      ensures r.1 <==> IsNone()
      ensures IsNone() ==> r.0 == f()
      ensures !IsNone() ==> r.0 == this
    {
      if addr.None? then (Swap(f()).0, true) else (this, false)
    }

    /**
     * `as_ref` / `as_mut`: the block the link points to, read from the memory
     * `heap`, or `None` for an empty link. Dereferencing a dangling address is
     * undefined behaviour in the source, hence the precondition.
     */
    function AsRef<B>(heap: map<Id, B>): (r: Option<B>)
      requires addr.Some? ==> addr.value in heap
      ensures r.None? <==> IsNone()
      ensures r.Some? ==> r.value == heap[addr.value]
    {
      match addr
      case None => None
      case Some(id) => Some(heap[id])
    }

    /** `clone`: copies the address only. */
    function Clone(): (r: Link)
      ensures r.addr == addr
    {
      Link(addr)
    }

    /** `Link::default()`. */
    static function Default(): (l: Link)
      ensures l.IsNone()
    {
      Link(None)
    }
  }

  /** Swapping twice restores both links. */
  lemma SwapTwice(a: Link, b: Link)
    ensures var (a1, b1) := a.Swap(b); a1.Swap(b1) == (a, b)
  {
  }

  /** Replacing and then putting back what was returned restores the link. */
  lemma ReplaceThenRestore(l: Link, other: Link)
    ensures var (now, was) := l.Replace(other); now.Replace(was) == (l, other)
  {
  }

  /** Taking and then replacing with what was taken restores the link. */
  lemma TakeThenRestore(l: Link)
    ensures var (now, was) := l.Take(); now.Replace(was).0 == l
  {
  }

  /** A second `or_else` never calls its fallback: the first one filled the link. */
  lemma OrElseFillsOnce(l: Link, f: () -> Link, g: () -> Link)
    requires !f().IsNone()
    ensures var (now, _) := l.OrElse(f); now.OrElse(g) == (now, false)
  {
  }

  /** A copy of a link denotes the same block in every memory. */
  lemma CloneSameBlock<B>(l: Link, heap: map<Id, B>)
    requires l.addr.Some? ==> l.addr.value in heap
    ensures l.Clone().AsRef(heap) == l.AsRef(heap)
  {
  }
}
