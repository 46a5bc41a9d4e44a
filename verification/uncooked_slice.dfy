/**
 A model of `UncookedSlice<T>`: a copyable, non-owning view over a run of
 elements that some other code owns, with unchecked indexing and a consuming
 iterator.

 Memory is Dafny's heap. A raw fat pointer `*mut [T]` is a `RawSlice`: the
 allocation it points into (an array shared by every view over it), the
 element offset of its address inside that allocation, and its length.
 Because a view is a datatype value, copying a view copies the pair and
 never the elements; because the array is shared, a write through one view
 is seen by every view over the same allocation.

 Rust's `&mut self` on a `Copy` value is modelled by passing the view in and
 returning the updated view (`Next`, `ReplaceInner`). A write through a view
 (`IndexMut`) modifies the shared array and nothing else.
 */
module UncookedSlices {

  datatype Option<T> = None | Some(value: T)

  /** The raw fat pointer `*mut [T]`: an address, given as an allocation and
      an element offset inside it, and an element count. */
  datatype RawSlice<T> = RawSlice(alloc: array<T>, offset: nat, len: nat) {

    /** The caller's obligation for a view: the whole extent
        [offset, offset + len) lies inside the allocation. Inside an array
        the address arithmetic cannot wrap around. */
    predicate Valid() {
      offset + len <= alloc.Length
    }
  }

  /** The view itself. Its one field is private in the source; derived
      equality compares that field, that is, the address and the length. */
  datatype UncookedSlice<T> = UncookedSlice(inner: RawSlice<T>)

  /** The elements a valid raw slice covers, in order. */
  function Elements<T>(p: RawSlice<T>): (s: seq<T>)
    requires p.Valid()
    reads p.alloc
    ensures |s| == p.len
    ensures forall k :: 0 <= k < p.len ==> s[k] == p.alloc[p.offset + k]
  {
    p.alloc[p.offset..p.offset + p.len]
  }

  /** `UncookedSlice::new`: an unsafe constructor whose obligations (the
      extent is inside one allocation, does not wrap, is initialised) are
      this precondition. It stores the pointer unchanged. */
  function New<T>(ptr: RawSlice<T>): (v: UncookedSlice<T>)
    requires ptr.Valid()
    ensures Inner(v) == ptr && Deref(v) == ptr
    ensures Len(v) == ptr.len
  {
    UncookedSlice(ptr)
  }

  /** `UncookedSlice::inner`: the stored raw pointer, by value. */
  function Inner<T>(v: UncookedSlice<T>): (p: RawSlice<T>)
    ensures UncookedSlice(p) == v
  {
    v.inner
  }

  /** `Deref::deref`: the stored raw pointer, seen through the view. */
  function Deref<T>(v: UncookedSlice<T>): (p: RawSlice<T>)
    ensures p == Inner(v)
  {
    v.inner
  }

  /** The length a caller obtains by auto-deref (`view.len()`), which is the
      length of the raw pointer the view stores. */
  function Len<T>(v: UncookedSlice<T>): (n: nat)
    ensures n == Inner(v).len
  {
    Deref(v).len
  }

  /** Derived `PartialEq`: two views are equal exactly when they have the
      same allocation, the same address in it and the same length. No
      `reads` clause: the elements stored there play no part. */
  function Equal<T>(a: UncookedSlice<T>, b: UncookedSlice<T>): (eq: bool)
    ensures eq <==> a == b
    ensures eq <==> (Inner(a).alloc == Inner(b).alloc &&
                     Inner(a).offset == Inner(b).offset &&
                     Inner(a).len == Inner(b).len)
  {
    a.inner == b.inner
  }

  /** `Index::index`: reads the element at address `offset + i`. The length
      is not consulted; the only demand is that the address is inside the
      allocation. Inside the view's extent this is the i-th element. */
  function Index<T>(v: UncookedSlice<T>, i: nat): (r: T)
    requires v.inner.offset + i < v.inner.alloc.Length
    reads v.inner.alloc
    ensures v.inner.Valid() && i < Len(v) ==> r == Elements(v.inner)[i]
  {
    v.inner.alloc[v.inner.offset + i]
  }

  /** `IndexMut::index_mut` followed by the store through the returned
      reference (`view[i] = x`): the one cell at address `offset + i` now
      holds `x`; every other cell of the allocation, and the view itself,
      are unchanged. */
  method IndexMut<T>(v: UncookedSlice<T>, i: nat, x: T)
    requires v.inner.offset + i < v.inner.alloc.Length
    modifies v.inner.alloc
    ensures Index(v, i) == x
    ensures v.inner.alloc[..] == old(v.inner.alloc[..])[v.inner.offset + i := x]
  {
    v.inner.alloc[v.inner.offset + i] := x;
  }

  /** `DerefMut::deref_mut` followed by a store through the returned
      reference: the view now holds `p`, whatever it held before. This is a
      safe operation in the source, so nothing is demanded of `p` here; the
      obligations arise when the new pointer is indexed or iterated. */
  method ReplaceInner<T>(v: UncookedSlice<T>, p: RawSlice<T>) returns (w: UncookedSlice<T>)
    ensures Inner(w) == p && Deref(w) == p
    ensures Len(w) == p.len
  {
    w := v.(inner := p);
  }

  /** `Iterator::next`: on an empty view, `None` and the view unchanged; on a
      view of length n > 0, a copy of the element at its address, and the
      view moves one element forward with length n - 1. Only the head cell
      is read, so only the head address must be inside the allocation.
      Memory is only read (there is no `modifies` clause). */
  method Next<T>(v: UncookedSlice<T>) returns (item: Option<T>, w: UncookedSlice<T>)
    requires v.inner.len == 0 || v.inner.offset < v.inner.alloc.Length
    ensures Len(v) == 0 <==> item == None
    ensures Len(v) == 0 ==> w == v
    ensures Len(v) > 0 ==>
              item == Some(v.inner.alloc[v.inner.offset]) &&
              Inner(w) == RawSlice(v.inner.alloc, v.inner.offset + 1, v.inner.len - 1)
    ensures v.inner.Valid() ==>
              w.inner.Valid() &&
              Elements(v.inner) == (if item.Some? then [item.value] else []) + Elements(w.inner)
    ensures forall i: nat :: Len(v) > 0 && v.inner.offset + 1 + i < v.inner.alloc.Length ==>
              Index(w, i) == Index(v, i + 1)
  {
    var oldLen := v.inner.len;
    if oldLen == 0 {
      return None, v;
    }
    var oldPtr := v.inner.offset;
    var newLen := oldLen - 1;
    var newPtr := oldPtr + 1;
    w := UncookedSlice(RawSlice(v.inner.alloc, newPtr, newLen));
    item := Some(v.inner.alloc[oldPtr]);
  }

  /** A `for` loop over a copy of the view: `next` is called until it
      returns `None`. The items are exactly the elements of the view, in
      order; it takes `len + 1` calls, the last of which finds the view
      exhausted at the end of its extent. The caller's view is a separate
      value and is not changed. */
  method Collect<T>(v: UncookedSlice<T>) returns (items: seq<T>, rest: UncookedSlice<T>, calls: nat)
    requires v.inner.Valid()
    ensures items == Elements(v.inner)
    ensures calls == Len(v) + 1
    ensures Inner(rest) == RawSlice(v.inner.alloc, v.inner.offset + v.inner.len, 0)
  {
    items, rest, calls := [], v, 0;
    while true
      invariant rest.inner.alloc == v.inner.alloc && rest.inner.Valid()
      invariant rest.inner.offset + rest.inner.len == v.inner.offset + v.inner.len
      invariant items + Elements(rest.inner) == Elements(v.inner)
      invariant calls == |items|
      decreases rest.inner.len
    {
      ghost var before := rest;
      var item;
      item, rest := Next(rest);
      calls := calls + 1;
      match item
      case None =>
        assert Elements(rest.inner) == [];
        assert items + [] == items;
        return;
      case Some(x) =>
        assert Elements(before.inner) == [x] + Elements(rest.inner);
        assert (items + [x]) + Elements(rest.inner) == items + ([x] + Elements(rest.inner));
        items := items + [x];
    }
  }

  /** Views are non-owning: two views over one allocation that name the same
      address read the same element, so a write through one (`IndexMut`) is
      read back through the other. */
  lemma AliasedViewsAgree<T>(v: UncookedSlice<T>, i: nat, w: UncookedSlice<T>, j: nat)
    requires v.inner.offset + i < v.inner.alloc.Length
    requires w.inner.alloc == v.inner.alloc && w.inner.offset + j == v.inner.offset + i
    ensures Index(v, i) == Index(w, j)
  {
  }

  /** Rebuilding a view from its own valid pointer gives back an equal view. */
  lemma NewOfInner<T>(v: UncookedSlice<T>)
    requires Inner(v).Valid()
    ensures Equal(New(Inner(v)), v)
  {
  }
}
