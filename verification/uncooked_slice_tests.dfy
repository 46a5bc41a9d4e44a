/**
 Clients of the view over a six-element buffer holding 0, 1, 2, 3, 4, 5, as
 the unit tests of the source use it. Each postcondition includes what the
 matching test asserts, and some state more (noted per method); everything
 is proved from the contracts of `UncookedSlices` alone. `AliasScenario`
 has no counterpart test.
 */
module UncookedSliceTests {
  import opened UncookedSlices

  /** A fresh allocation holding 0, 1, 2, 3, 4, 5. */
  method ZeroToFive() returns (data: array<int>)
    ensures fresh(data)
    ensures data[..] == [0, 1, 2, 3, 4, 5]
  {
    data := new int[6];
    data[0], data[1], data[2], data[3], data[4], data[5] := 0, 1, 2, 3, 4, 5;
  }

  /** Iterating a copy of the view yields the buffer in order, and a view
      built again from the same pointer equals the original one. Beyond the
      test: `next` keeps returning `None` once exhausted, and the rebuilt
      view still has length 6. */
  method IterableScenario() returns (buf: seq<int>, afterEnd1: Option<int>, afterEnd2: Option<int>, sameView: bool, len: nat)
    ensures buf == [0, 1, 2, 3, 4, 5]
    ensures afterEnd1 == None && afterEnd2 == None
    ensures sameView && len == 6
  {
    var data := ZeroToFive();
    var ptr := RawSlice(data, 0, data.Length);
    var uncooked := New(ptr);
    var rest, calls;
    buf, rest, calls := Collect(uncooked);
    afterEnd1, rest := Next(rest);
    afterEnd2, rest := Next(rest);
    var uncooked2 := New(ptr);
    sameView := Equal(uncooked, uncooked2);
    len := Len(uncooked2);
  }

  /** The length read through the view equals the length of the stored
      pointer; beyond the test, both are 6. */
  method DerefRawSliceScenario() returns (len: nat, innerLen: nat)
    ensures len == innerLen == 6
  {
    var data := ZeroToFive();
    var uncooked := New(RawSlice(data, 0, data.Length));
    len := Len(uncooked);
    innerLen := Inner(uncooked).len;
  }

  /** Every index below the length reads the element stored there. The test
      reads the Rust array directly; here the reads go through the view. */
  method IndexScenario() returns (seen: seq<int>)
    ensures seen == [0, 1, 2, 3, 4, 5]
  {
    var data := ZeroToFive();
    var uncooked := New(RawSlice(data, 0, data.Length));
    seen := [];
    for i := 0 to 6
      invariant seen == data[..i]
    {
      seen := seen + [Index(uncooked, i)];
    }
  }

  /** `uncooked[0] = 1` reads back 1; `uncooked[0] = uncooked[5]` reads back
      5. Beyond the test: the buffer itself holds 5 at index 0 with the rest
      untouched. */
  method IndexWriteScenario() returns (first: int, second: int, buffer: seq<int>)
    ensures first == 1 && second == 5
    ensures buffer == [5, 1, 2, 3, 4, 5]
  {
    var data := ZeroToFive();
    var uncooked := New(RawSlice(data, 0, data.Length));
    IndexMut(uncooked, 0, 1);
    first := Index(uncooked, 0);
    IndexMut(uncooked, 0, Index(uncooked, 5));
    second := Index(uncooked, 0);
    buffer := data[..];
  }

  /** No counterpart test: a write through one view is read through another
      view over the same allocation; views with equal contents but different
      addresses or lengths are not equal. */
  method AliasScenario() returns (seen: int, sameAddress: bool, sameLength: bool)
    ensures seen == 42
    ensures !sameAddress && !sameLength
  {
    var data := ZeroToFive();
    var copy := ZeroToFive();
    var whole := New(RawSlice(data, 0, 6));
    var middle := New(RawSlice(data, 2, 3));
    IndexMut(middle, 1, 42);
    seen := Index(whole, 3);
    sameAddress := Equal(whole, New(RawSlice(copy, 0, 6)));
    sameLength := Equal(whole, New(RawSlice(data, 0, 5)));
  }
}
