/** `series.rolling(window=w).mean()`: the mean of the last `w` entries up to
    and including each position. With the library's default `min_periods`
    (equal to the window) the first `w - 1` results are NaN, written None. */
module Rolling {
  import opened Frames

  function Sum(s: seq<real>): real {
    if s == [] then 0.0 else Sum(s[..|s| - 1]) + s[|s| - 1]
  }

  /** The sum can also be taken from the front. */
  lemma {:induction false} SumDropFirst(s: seq<real>)
    requires |s| > 0
    ensures Sum(s) == s[0] + Sum(s[1..])
  {
    if |s| > 1 {
      var init := s[..|s| - 1];
      SumDropFirst(init);
      assert init[1..] == s[1..][..|s| - 2];
    } else {
      assert s[1..] == [];
    }
  }

  /** What position `i` of the rolling mean holds: None while fewer than `w`
      entries are available, else the mean of entries `i - w + 1 .. i`. */
  function WindowMean(v: seq<real>, w: nat, i: nat): Option<real>
    requires 0 < w && i < |v|
  {
    if i + 1 < w then None else Some(Sum(v[i + 1 - w..i + 1]) / w as real)
  }

  /** A defined entry lies within any bounds that hold for every value of its
      window, as a mean must. */
  lemma WindowMeanBounds(v: seq<real>, w: nat, i: nat, lo: real, hi: real)
    requires 0 < w && w - 1 <= i < |v|
    requires forall k :: i + 1 - w <= k <= i ==> lo <= v[k] <= hi
    ensures WindowMean(v, w, i).Some?
    ensures lo <= WindowMean(v, w, i).value <= hi
  {
    var s := v[i + 1 - w..i + 1];
    assert forall k :: 0 <= k < |s| ==> s[k] == v[i + 1 - w + k];
    SumBounds(s, lo, hi);
    MeanBounds(lo, Sum(s), hi, |s| as real);
  }

  lemma MeanBounds(lo: real, total: real, hi: real, n: real)
    requires 0.0 < n && lo * n <= total <= hi * n
    ensures lo <= total / n <= hi
  {
  }

  lemma {:induction false} SumBounds(s: seq<real>, lo: real, hi: real)
    requires forall i :: 0 <= i < |s| ==> lo <= s[i] <= hi
    ensures lo * |s| as real <= Sum(s) <= hi * |s| as real
  {
    if s != [] {
      var init := s[..|s| - 1];
      assert forall i :: 0 <= i < |init| ==> init[i] == s[i];
      SumBounds(init, lo, hi);
      assert lo * |s| as real == lo * |init| as real + lo;
      assert hi * |s| as real == hi * |init| as real + hi;
    }
  }

  /** Where the window that ends just before position `n` starts. */
  function Start(n: nat, w: nat): nat {
    if n >= w then n - w else 0
  }

  /** Moving the window one position: the new entry comes in and, once the
      window is full, the oldest goes out. */
  lemma SlideStep(v: seq<real>, w: nat, i: nat)
    requires 0 < w && i < |v|
    ensures Sum(v[Start(i + 1, w)..i + 1]) == Sum(v[Start(i, w)..i]) + v[i] - (if i >= w then v[i - w] else 0.0)
  {
    var lo := Start(i, w);
    assert v[lo..i + 1][..i - lo] == v[lo..i];
    if i >= w {
      SumDropFirst(v[lo..i + 1]);
      assert v[lo..i + 1][1..] == v[lo + 1..i + 1];
    }
  }

  /** The next accumulated sum of the sliding window. */
  function NextAcc(v: seq<real>, w: nat, i: nat, acc: real): real
    requires i < |v|
  {
    acc + v[i] - (if i >= w then v[i - w] else 0.0)
  }

  /** The next entry of the rolling mean, from the accumulated sum. */
  function NextEntry(w: nat, i: nat, acc: real): Option<real>
    requires 0 < w
  {
    if i + 1 >= w then Some(acc / w as real) else None
  }

  /** One step of the sliding sum keeps it equal to the sum of the current
      window and appends the right entry. */
  lemma {:induction false} Step(v: seq<real>, w: nat, i: nat, t: seq<Option<real>>, acc: real)
    requires 0 < w && i < |v| && |t| == i
    requires forall j :: 0 <= j < i ==> t[j] == WindowMean(v, w, j)
    requires acc == Sum(v[Start(i, w)..i])
    ensures NextAcc(v, w, i, acc) == Sum(v[Start(i + 1, w)..i + 1])
    ensures forall j :: 0 <= j < i + 1 ==> (t + [NextEntry(w, i, NextAcc(v, w, i, acc))])[j] == WindowMean(v, w, j)
  {
    SlideStep(v, w, i);
    var t' := t + [NextEntry(w, i, NextAcc(v, w, i, acc))];
    assert t'[i] == WindowMean(v, w, i);
    assert forall j :: 0 <= j < i ==> t'[j] == t[j];
  }

  /** The rolling mean as a sliding sum: add the entry that enters the window,
      subtract the one that leaves it. */
  method RollingMean(v: seq<real>, w: nat) returns (t: seq<Option<real>>)
    requires 0 < w
    ensures |t| == |v|
    ensures forall i :: 0 <= i < |v| ==> t[i] == WindowMean(v, w, i)
  {
    t := [];
    var acc := 0.0;
    var i := 0;
    while i < |v|
      invariant 0 <= i <= |v|
      invariant |t| == i
      invariant forall j :: 0 <= j < i ==> t[j] == WindowMean(v, w, j)
      invariant acc == Sum(v[Start(i, w)..i])
    {
      Step(v, w, i, t, acc);
      acc := NextAcc(v, w, i, acc);
      t := t + [NextEntry(w, i, acc)];
      i := i + 1;
    }
  }

  /** `a < b` on two entries of a rolling mean: false whenever either is NaN. */
  predicate Menor(a: Option<real>, b: Option<real>) {
    a.Some? && b.Some? && a.value < b.value
  }
}
