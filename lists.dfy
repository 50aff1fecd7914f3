/** The array operations the stores build their updates from, with the
    semantics of JavaScript's `Array.prototype.slice`, `findIndex` and
    `filter`. Records are told apart by a key function (their `_id`). */
module Lists {

  /** Where a `slice` bound lands in an array of length `n`: a negative bound
      counts from the end, and either kind is clamped to the array. */
  function SliceBound(i: int, n: nat): (b: nat)
    ensures b <= n
    ensures i >= 0 ==> b == (if i <= n then i else n)
    ensures i < 0 ==> b == (if -i <= n then n + i else 0)
  {
    if i < 0 then (if n + i < 0 then 0 else n + i)
    else if i > n then n
    else i
  }

  /** `xs.slice(start, end)`. */
  function Slice<T>(xs: seq<T>, start: int, end: int): (r: seq<T>)
    ensures var s, e := SliceBound(start, |xs|), SliceBound(end, |xs|);
      |r| == (if s < e then e - s else 0) && s + |r| <= |xs| && r == xs[s..s + |r|]
  {
    var s := SliceBound(start, |xs|);
    var e := SliceBound(end, |xs|);
    if s < e then xs[s..e] else []
  }

  /** The (at most) `w` elements just before the last `k`. */
  function Recent<T>(xs: seq<T>, w: nat, k: nat): (r: seq<T>)
    requires k <= |xs|
    ensures |r| == if |xs| - k < w then |xs| - k else w
    ensures r == xs[|xs| - k - |r|..|xs| - k]
  {
    if |xs| - k < w then xs[..|xs| - k] else xs[|xs| - k - w..|xs| - k]
  }

  /** `xs.slice(-k)`, for k > 0, is the last `k` elements, or all of them
      when there are fewer. (`slice(-0)` is `slice(0)`: the whole array.) */
  lemma SliceLast<T>(xs: seq<T>, k: nat)
    requires k > 0
    ensures Slice(xs, -(k as int), |xs|) == Recent(xs, k, 0)
  {
  }

  /** `xs.slice(0, -k)` drops the last `k` elements. */
  lemma SliceDropLast<T>(xs: seq<T>, k: nat)
    requires 0 < k <= |xs|
    ensures Slice(xs, 0, -(k as int)) == xs[..|xs| - k]
  {
  }

  /** `xs.slice(i)` and `xs.slice(0, i)`, for an index inside the array,
      split it in two at `i`. */
  lemma SliceSplit<T>(xs: seq<T>, i: nat)
    requires i <= |xs|
    ensures Slice(xs, i, |xs|) == xs[i..]
    ensures Slice(xs, 0, i) == xs[..i]
    ensures Slice(xs, 0, i) + Slice(xs, i, |xs|) == xs
  {
  }

  /** `xs.slice(-(w + k), -k)`, for k > 0, is the `w` elements just before
      the last `k`. */
  lemma SliceWindow<T>(xs: seq<T>, w: nat, k: nat)
    requires 0 < k <= |xs|
    ensures Slice(xs, -((w + k) as int), -(k as int)) == Recent(xs, w, k)
  {
  }

  /** `xs.findIndex(x => key(x) === id)`: the first position holding the key,
      or -1 when there is none. */
  function FirstIndex<T>(xs: seq<T>, key: T -> string, id: string): (r: int)
    ensures -1 <= r < |xs|
    ensures r == -1 <==> forall i :: 0 <= i < |xs| ==> key(xs[i]) != id
    ensures r >= 0 ==> key(xs[r]) == id && forall i :: 0 <= i < r ==> key(xs[i]) != id
    decreases |xs|
  {
    if xs == [] then -1
    else if key(xs[0]) == id then 0
    else
      var r := FirstIndex(xs[1..], key, id);
      assert forall i :: 1 <= i < |xs| ==> xs[i] == xs[1..][i - 1];
      if r == -1 then -1 else r + 1
  }

  /** `xs.filter(x => key(x) !== id)`. */
  function WithoutKey<T>(xs: seq<T>, key: T -> string, id: string): (r: seq<T>)
    ensures |r| <= |xs|
    ensures forall i :: 0 <= i < |r| ==> r[i] in xs && key(r[i]) != id
    ensures forall i :: 0 <= i < |xs| && key(xs[i]) != id ==> xs[i] in r
    decreases |xs|
  {
    if xs == [] then []
    else
      var rest := WithoutKey(xs[1..], key, id);
      assert forall i :: 1 <= i < |xs| ==> xs[i] == xs[1..][i - 1];
      if key(xs[0]) == id then rest else [xs[0]] + rest
  }

  /** Filtering works piece by piece, so the elements kept stay in their
      relative order. */
  lemma {:induction false} WithoutKeyAppend<T>(xs: seq<T>, ys: seq<T>, key: T -> string, id: string)
    ensures WithoutKey(xs + ys, key, id) == WithoutKey(xs, key, id) + WithoutKey(ys, key, id)
    decreases |xs|
  {
    if xs == [] {
      assert xs + ys == ys;
    } else {
      assert (xs + ys)[0] == xs[0];
      assert (xs + ys)[1..] == xs[1..] + ys;
      WithoutKeyAppend(xs[1..], ys, key, id);
    }
  }

  /** Filtering out a key that no element holds changes nothing. */
  lemma {:induction false} WithoutAbsentKey<T>(xs: seq<T>, key: T -> string, id: string)
    requires forall i :: 0 <= i < |xs| ==> key(xs[i]) != id
    ensures WithoutKey(xs, key, id) == xs
    decreases |xs|
  {
    if xs != [] {
      assert forall i :: 0 <= i < |xs[1..]| ==> xs[1..][i] == xs[i + 1];
      WithoutAbsentKey(xs[1..], key, id);
      assert [xs[0]] + xs[1..] == xs;
    }
  }

  /** Filtering twice by the same key is filtering once. */
  lemma WithoutKeyIdempotent<T>(xs: seq<T>, key: T -> string, id: string)
    ensures WithoutKey(WithoutKey(xs, key, id), key, id) == WithoutKey(xs, key, id)
  {
    WithoutAbsentKey(WithoutKey(xs, key, id), key, id);
  }

  /** The keys of the elements, in order (`xs.map(x => x._id)`). */
  function Keys<T>(xs: seq<T>, key: T -> string): (r: seq<string>)
    ensures |r| == |xs| && forall i :: 0 <= i < |xs| ==> r[i] == key(xs[i])
  {
    seq(|xs|, i requires 0 <= i < |xs| => key(xs[i]))
  }

  /** No two elements share a key. */
  predicate DistinctKeys<T>(xs: seq<T>, key: T -> string) {
    forall i, j :: 0 <= i < j < |xs| ==> key(xs[i]) != key(xs[j])
  }
}
