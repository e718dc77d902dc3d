/** `df.sort_values(by="fecha")`: the rows reordered so that dates ascend.
    The library's default sort is not stable, so nothing is promised about the
    order of rows that share a date. */
module Sorting {
  import opened Frames

  predicate SortedByFecha(s: seq<Row>) {
    forall i, j :: 0 <= i < j < |s| ==> DateLe(s[i].fecha, s[j].fecha)
  }

  /** Exchanges the rows at positions `j - 1` and `j`. */
  method Swap(a: array<Row>, j: int)
    requires 0 < j < a.Length
    modifies a
    ensures a[j - 1] == old(a[j]) && a[j] == old(a[j - 1])
    ensures forall k :: 0 <= k < a.Length && k != j - 1 && k != j ==> a[k] == old(a[k])
    ensures multiset(a[..]) == old(multiset(a[..]))
  {
    a[j - 1], a[j] := a[j], a[j - 1];
  }

  /** Sorts the rows in place (insertion sort). */
  method SortByFecha(a: array<Row>)
    modifies a
    ensures SortedByFecha(a[..])
    ensures multiset(a[..]) == old(multiset(a[..]))
  {
    var i := 0;
    while i < a.Length
      invariant 0 <= i <= a.Length
      invariant forall k, l :: 0 <= k < l < i ==> DateLe(a[k].fecha, a[l].fecha)
      invariant multiset(a[..]) == old(multiset(a[..]))
    {
      var j := i;
      while 0 < j && !DateLe(a[j - 1].fecha, a[j].fecha)
        invariant 0 <= j <= i
        invariant forall k, l :: 0 <= k < l <= i && k != j && l != j ==> DateLe(a[k].fecha, a[l].fecha)
        invariant forall l :: j < l <= i ==> DateLe(a[j].fecha, a[l].fecha)
        invariant multiset(a[..]) == old(multiset(a[..]))
      {
        Swap(a, j);
        j := j - 1;
      }
      i := i + 1;
    }
  }
}
