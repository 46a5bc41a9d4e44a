# uncooked-slices in Dafny

A model of `UncookedSlice<T>`, a copyable, non-owning view over a run of
elements that other code owns. The view offers unchecked reads (`Index`),
unchecked writes (`IndexMut`), access to its raw `(pointer, length)` pair
(`Deref`/`DerefMut`, `inner`) and a consuming `Iterator::next`. The next
step copies the head element and moves the view's own extent forward by one.

How the model is laid out:

- Memory is the Dafny heap. A raw fat pointer `*mut [T]` is the datatype
  `RawSlice(alloc, offset, len)`: the allocation it points into (an
  `array<T>`, shared by every view over it), the element offset of the
  address inside it, and the length. The view is the datatype
  `UncookedSlice(inner)`.
- A view is a value, so copying it copies the pair and never the elements.
  The array is shared, so a write through one view is seen by every view over
  the same allocation.
- Rust's `&mut self` on a `Copy` value becomes a method that takes the view
  and returns the updated view (`Next`, `ReplaceInner`). `Next` has no
  `modifies` clause, so it provably never writes memory. `IndexMut` modifies
  the shared array and nothing else.
- The caller's safety obligations become `requires` clauses:
  - `New` requires the extent `[offset, offset + len)` to lie inside the
    allocation (`RawSlice.Valid`). Inside an array, address arithmetic
    cannot wrap around.
  - `Index` and `IndexMut` require the addressed cell to be inside the
    allocation.
  - `Next` requires the head address of a non-empty view to be inside the
    allocation; it is the only cell it reads.
- `uncooked_slice_tests.dfy` restates the crate's unit tests as client
  methods. Each postcondition includes what the matching test asserts, and
  everything is proved from the contracts alone.

Modelling choices that follow the code rather than the type's names:

- `Index` never compares the index with the length (src/lib.rs:42-44). It
  therefore requires only an in-allocation address. Its contract ties the
  result to the view's i-th element when `i < len`.
- `next` dereferences only the head pointer and steps it by one
  (src/lib.rs:76-84), so `Next` demands only that the head cell is inside
  the allocation, not the whole extent.
- `deref_mut` is a safe function (src/lib.rs:61-65), so `ReplaceInner`
  demands nothing of the new pair. The obligations arise only when that pair
  is later indexed or iterated.

Tests that check more than the crate's tests:

- `IterableScenario` also proves that `next` returns `None` on each of two
  calls after exhaustion and that the rebuilt view has length 6.
- `DerefRawSliceScenario` also proves that both lengths are 6.
- `IndexScenario` reads through the view; `test_index` reads the Rust array
  `data` directly (src/lib.rs:128-133).
- `IndexWriteScenario` also proves the whole buffer after the two writes.
- `AliasScenario` has no counterpart test: it shows a write through one view
  read back through another, and identity-based equality.

## Model

| member | source | states |
|---|---|---|
| `UncookedSlices.New` | src/lib.rs:31-33 | a fresh view's stored pointer, its pointer through `Deref` and its length are exactly the pointer and length supplied; requires the extent to lie inside one allocation |
| `UncookedSlices.Inner` | src/lib.rs:35-37 | `inner` returns the pair that rebuilds the same view (inverse of construction) |
| `UncookedSlices.NewOfInner` | src/lib.rs:31-37 | constructing a view from another view's `inner` pair gives a view equal to it |
| `UncookedSlices.Deref` | src/lib.rs:53-59 | the pair seen through `Deref` is the stored pair |
| `UncookedSlices.Len` | src/lib.rs:114-116 | the length reached through `Deref` equals the stored pointer's length |
| `UncookedSlices.Equal` | src/lib.rs:10 | derived equality holds exactly when allocation, address and length agree; it reads no memory, so contents play no part |
| `UncookedSlices.Index` | src/lib.rs:40-45 | reads the cell at `offset + i`, demanding only that it is inside the allocation; for `i < len` this is the view's i-th element |
| `UncookedSlices.IndexMut` | src/lib.rs:47-51 | after `view[i] = x`, `view[i]` reads `x` and the allocation equals its old contents with only cell `offset + i` replaced |
| `UncookedSlices.AliasedViewsAgree` | src/lib.rs:42-49 | two views over one allocation that name the same address read the same element, so writes through one are seen through the other |
| `UncookedSlices.ReplaceInner` | src/lib.rs:61-65 | after the pair is overwritten through `DerefMut`, the view's stored pointer, its `Deref` pointer and its length are the new ones |
| `UncookedSlices.Next` | src/lib.rs:67-86 | an empty view yields `None` and is unchanged; a view of length n > 0 whose head is inside the allocation yields the head cell and becomes `(offset + 1, n - 1)`; for a valid view the old elements are the yielded item followed by the new view's elements; index i of the new view reads index i + 1 of the old one; memory is not written |
| `UncookedSlices.Collect` | src/lib.rs:99-101 | a `for` loop over a copy of a valid view yields exactly its elements in order in `len + 1` calls of `next`, ending exhausted at the end of the extent |
| `UncookedSliceTests.IterableScenario` | src/lib.rs:93-105 | iterating over 0..5 yields 0..5 and a view rebuilt from the same pointer equals the original one; beyond the test, two further `next` calls both return `None` and the rebuilt view has length 6 |
| `UncookedSliceTests.DerefRawSliceScenario` | src/lib.rs:109-117 | the length through the view equals the stored pointer's length; beyond the test, both are 6 |
| `UncookedSliceTests.IndexScenario` | src/lib.rs:122-133 | indices 0..5 of a view over 0..5 read 0..5, read through the view where the test reads the array |
| `UncookedSliceTests.IndexWriteScenario` | src/lib.rs:142-151 | `uncooked[0] = 1` reads back 1; `uncooked[0] = uncooked[5]` reads back 5; the buffer becomes 5, 1, 2, 3, 4, 5 |
| `UncookedSliceTests.AliasScenario` | src/lib.rs:47-50 | no counterpart test: a write through a sub-view is read through a whole-buffer view; views with equal contents but a different address or length are unequal |

## Left out

- Uninitialised memory: a Dafny array always holds values of `T`, so the
  initialisation obligation of `new` (src/lib.rs:29-30) has no counterpart.
- Pointer provenance and the address space: an address is an allocation plus
  an offset. Wrap-around of `ptr::add` (src/lib.rs:18-24) cannot occur in this
  representation, and pointers into different allocations never compare equal.
- Zero-sized element types: for them `add(1)` does not move the address. The
  model always advances the offset by one element.
- Index, IndexMut: the source returns a reference to the cell. The model
  returns the element's value (`Index`) or performs the store through that
  reference (`IndexMut`). References kept alive across other operations are
  not modelled.
- The derived `PartialOrd`, `Ord`, `Hash` and `Debug` (src/lib.rs:10): the
  order and hash of raw addresses have no meaning here. Only equality is
  modelled.
- The `catch_unwind` checks in the tests (src/lib.rs:135-136,
  src/lib.rs:153-154): they test Rust's own bounds check on the array
  `data`, not the view.
- `#![no_std]`, thread safety and the aliasing discipline between concurrent
  users: the source has no concurrency operations, and exclusivity is the
  caller's responsibility.
