// clear() of Array.c: the array parameter decays to a pointer, so the
// element count it computes is sizeof(int*) / sizeof(int), not the length
// of the caller's array. The two sizes are parameters of the model.

module ArrayClear {

  /** Sizes on an LP64 platform. */
  const SizeofIntPointer: nat := 8
  const SizeofInt: nat := 4

  /** Zeroes the first sizeofPointer / sizeofInt elements and nothing else. */
  method Clear(a: array<int>, sizeofPointer: nat, sizeofInt: nat)
    requires sizeofInt > 0 && sizeofPointer / sizeofInt <= a.Length
    modifies a
    ensures forall i :: 0 <= i < sizeofPointer / sizeofInt ==> a[i] == 0
    ensures forall i :: sizeofPointer / sizeofInt <= i < a.Length ==> a[i] == old(a[i])
  {
    var n := sizeofPointer / sizeofInt;
    for i := 0 to n
      invariant forall k :: 0 <= k < i ==> a[k] == 0
      invariant forall k :: i <= k < a.Length ==> a[k] == old(a[k])
    {
      a[i] := 0;
    }
  }

  /**
   * main: fills dis with 1..12, then clears it on LP64; only the first two
   * values become 0.
   */
  method ClearDemo() returns (before: seq<int>, after: seq<int>)
    ensures before == [1, 2, 3, 4, 5, 6, 7, 8, 9, 10, 11, 12]
    ensures after == [0, 0, 3, 4, 5, 6, 7, 8, 9, 10, 11, 12]
  {
    var dis := new int[12];
    for i := 0 to 12
      invariant forall k :: 0 <= k < i ==> dis[k] == k + 1
    {
      dis[i] := i + 1;
    }
    before := dis[..];
    Clear(dis, SizeofIntPointer, SizeofInt);
    after := dis[..];
  }
}
