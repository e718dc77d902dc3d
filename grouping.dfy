/** `series.groupby(key).size()`: the number of entries per key, as a series
    indexed by the keys in ascending order (the library sorts group keys by
    default). Both the dashboard (records per year) and the report (days
    without water per year) use it with the year as key. */
module Grouping {

  /** One entry of the grouped series: a key and how many entries carry it. */
  datatype Group = Group(key: int, size: nat)

  function KeySet(g: seq<Group>): set<int> {
    if g == [] then {} else {g[0].key} + KeySet(g[1..])
  }

  predicate KeysIncreasing(g: seq<Group>) {
    forall i, j :: 0 <= i < j < |g| ==> g[i].key < g[j].key
  }

  predicate SizesPositive(g: seq<Group>) {
    forall i :: 0 <= i < |g| ==> g[i].size >= 1
  }

  /** The count the grouped series holds for key `k`; 0 when `k` is no group. */
  function SizeOf(g: seq<Group>, k: int): nat {
    if g == [] then 0
    else if g[0].key == k then g[0].size
    else SizeOf(g[1..], k)
  }

  /** The sum of all counts of the grouped series. */
  function TotalSize(g: seq<Group>): nat {
    if g == [] then 0 else g[0].size + TotalSize(g[1..])
  }

  lemma {:induction false} SizeOfAbsent(g: seq<Group>, k: int)
    requires k !in KeySet(g)
    ensures SizeOf(g, k) == 0
  {
    if g != [] {
      SizeOfAbsent(g[1..], k);
    }
  }

  lemma {:induction false} KeyInKeySet(g: seq<Group>, i: nat)
    requires i < |g|
    ensures g[i].key in KeySet(g)
  {
    if i > 0 {
      KeyInKeySet(g[1..], i - 1);
    }
  }

  /** Counts one more entry with key `k`, keeping the keys sorted. */
  function Insert(g: seq<Group>, k: int): seq<Group> {
    if g == [] then [Group(k, 1)]
    else if g[0].key == k then [Group(k, g[0].size + 1)] + g[1..]
    else if k < g[0].key then [Group(k, 1)] + g
    else [g[0]] + Insert(g[1..], k)
  }

  lemma TailInvariants(g: seq<Group>)
    requires g != [] && KeysIncreasing(g) && SizesPositive(g)
    ensures KeysIncreasing(g[1..]) && SizesPositive(g[1..])
    ensures forall y :: y in KeySet(g[1..]) ==> g[0].key < y
  {
    assert forall i :: 0 <= i < |g| - 1 ==> g[1..][i] == g[i + 1];
    forall y | y in KeySet(g[1..]) ensures g[0].key < y {
      KeyIndex(g[1..], y);
    }
  }

  lemma {:induction false} KeyIndex(g: seq<Group>, y: int)
    requires y in KeySet(g)
    ensures exists i :: 0 <= i < |g| && g[i].key == y
  {
    if g[0].key != y {
      KeyIndex(g[1..], y);
      var i :| 0 <= i < |g[1..]| && g[1..][i].key == y;
      assert g[i + 1].key == y;
    }
  }

  /** Inserting keeps the keys of the grouped series and adds `k` to them. */
  lemma {:induction false} InsertKeys(g: seq<Group>, k: int)
    ensures KeySet(Insert(g, k)) == KeySet(g) + {k}
  {
    if g != [] && g[0].key != k && k >= g[0].key {
      InsertKeys(g[1..], k);
    }
  }

  /** Inserting keeps the grouped series well formed: sorted keys and no empty
      group. */
  lemma {:induction false} InsertShape(g: seq<Group>, k: int)
    requires KeysIncreasing(g) && SizesPositive(g)
    ensures KeysIncreasing(Insert(g, k)) && SizesPositive(Insert(g, k))
  {
    var r := Insert(g, k);
    if g != [] {
      TailInvariants(g);
      if g[0].key == k {
        assert r[1..] == g[1..];
      } else if k < g[0].key {
        assert r[1..] == g;
      } else {
        var rest := Insert(g[1..], k);
        InsertShape(g[1..], k);
        InsertKeys(g[1..], k);
        assert r[1..] == rest;
        forall j | 0 <= j < |rest| ensures g[0].key < rest[j].key {
          KeyInKeySet(rest, j);
        }
      }
    }
  }

  /** Inserting adds one to the count of `k`, to the total, and to nothing else. */
  lemma {:induction false} InsertCounts(g: seq<Group>, k: int)
    requires KeysIncreasing(g) && SizesPositive(g)
    ensures TotalSize(Insert(g, k)) == TotalSize(g) + 1
    ensures forall y :: SizeOf(Insert(g, k), y) == SizeOf(g, y) + (if y == k then 1 else 0)
  {
    var r := Insert(g, k);
    if g != [] {
      if g[0].key == k {
        assert r[1..] == g[1..];
      } else if k < g[0].key {
        assert r[1..] == g;
        TailInvariants(g);
        SizeOfAbsent(g, k);
      } else {
        TailInvariants(g);
        InsertCounts(g[1..], k);
        assert r[1..] == Insert(g[1..], k);
      }
    }
  }

  /** `groupby(key).size()` over the series of keys `ks`. */
  function GroupSize(ks: seq<int>): (g: seq<Group>)
    ensures KeysIncreasing(g) && SizesPositive(g)
    ensures KeySet(g) == set k | k in ks
    ensures TotalSize(g) == |ks|
    ensures forall y :: SizeOf(g, y) == multiset(ks)[y]
  {
    if ks == [] then []
    else
      var init := ks[..|ks| - 1];
      assert ks == init + [ks[|ks| - 1]];
      var g := GroupSize(init);
      InsertShape(g, ks[|ks| - 1]);
      InsertKeys(g, ks[|ks| - 1]);
      InsertCounts(g, ks[|ks| - 1]);
      Insert(g, ks[|ks| - 1])
  }
}
