/** `chunked(seq, size)`: the generator that cuts the normalized rows into
    consecutive slices of at most `size` rows. */
module Batching {

  /** The batches laid end to end. */
  function Flatten<T>(batches: seq<seq<T>>): (s: seq<T>)
  {
    if batches == [] then []
    else Flatten(batches[..|batches| - 1]) + batches[|batches| - 1]
  }

  /** ceil(n / size): the number of slices `range(0, n, size)` produces. */
  function CeilDiv(n: nat, size: nat): nat
    requires size > 0
  {
    (n + size - 1) / size
  }

  lemma FlattenAppend<T>(batches: seq<seq<T>>, b: seq<T>)
    ensures Flatten(batches + [b]) == Flatten(batches) + b
  {
    assert (batches + [b])[..|batches|] == batches;
  }

  /** k full slices cover at least n items and k - 1 do not: then k = ceil(n / size). */
  lemma CeilDivExact(n: nat, size: nat, k: nat)
    requires size > 0
    requires n <= k * size
    requires k == 0 || (k - 1) * size < n
    ensures CeilDiv(n, size) == k
  {
    var q := (n + size - 1) / size;
    var r := (n + size - 1) % size;
    assert n + size - 1 == q * size + r && 0 <= r < size;
    if k < q {
      MulMonotone(k, q - 1, size);
      assert false;
    } else if k > q {
      MulMonotone(q, k - 1, size);
      assert false;
    }
  }

  lemma MulMonotone(a: nat, b: nat, size: nat)
    requires a <= b
    ensures a * size <= b * size
  {
  }

  /** The `k`-th slice `seq[k*size : k*size + size]`, clipped to the end of
      `s` as Python slicing clips it (empty once `k*size` is past the end). */
  function Slice<T>(s: seq<T>, size: nat, k: nat): seq<T> {
    var lo := k * size;
    if lo <= |s| then s[lo..if lo + size <= |s| then lo + size else |s|] else []
  }

  /** When `n` slices just cover `s`, each is non-empty, none is longer than
      `size`, and all but the last are exactly `size` long. */
  lemma SliceShape<T>(s: seq<T>, size: nat, n: nat, k: nat)
    requires size > 0 && k < n
    requires (n - 1) * size < |s|
    ensures 0 < |Slice(s, size, k)| <= size
    ensures k < n - 1 ==> |Slice(s, size, k)| == size
  {
    MulMonotone(k, n - 1, size);
    if k < n - 1 {
      MulMonotone(k + 1, n - 1, size);
      assert k * size + size == (k + 1) * size;
    }
  }

  /** Slices 0 to n - 1, when n slices just cover `s`: there are ceil(|s| / size)
      of them, each non-empty and at most `size` long, all but the last full. */
  lemma SlicesShape<T>(s: seq<T>, size: nat, batches: seq<seq<T>>)
    requires size > 0
    requires |s| <= |batches| * size
    requires batches == [] || (|batches| - 1) * size < |s|
    requires forall k :: 0 <= k < |batches| ==> batches[k] == Slice(s, size, k)
    ensures |batches| == CeilDiv(|s|, size)
    ensures forall k :: 0 <= k < |batches| ==> 0 < |batches[k]| <= size
    ensures forall k :: 0 <= k < |batches| - 1 ==> |batches[k]| == size
  {
    CeilDivExact(|s|, size, |batches|);
    forall k | 0 <= k < |batches|
      ensures 0 < |batches[k]| <= size
      ensures k < |batches| - 1 ==> |batches[k]| == size
    {
      SliceShape(s, size, |batches|, k);
    }
  }

  /** One turn of the generator's loop: the slice taken at `i` is slice
      number |batches|, and the slices so far still lay out a prefix of `s`. */
  lemma ChunkStep<T>(s: seq<T>, size: nat, batches: seq<seq<T>>, i: nat)
    requires size > 0 && i < |s| && i == |batches| * size
    requires Flatten(batches) == s[..i]
    requires forall k :: 0 <= k < |batches| ==> batches[k] == Slice(s, size, k)
    ensures var j := if i + size <= |s| then i + size else |s|;
      var next := batches + [s[i..j]];
      && i + size == |next| * size
      && (|next| - 1) * size < |s|
      && Flatten(next) == (if i + size <= |s| then s[..i + size] else s)
      && forall k :: 0 <= k < |next| ==> next[k] == Slice(s, size, k)
  {
    var j := if i + size <= |s| then i + size else |s|;
    assert s[i..j] == Slice(s, size, |batches|);
    FlattenAppend(batches, s[i..j]);
    assert s[..i] + s[i..j] == s[..j];
    assert (|batches| + 1) * size == |batches| * size + size;
  }

  /** `chunked(seq, size)`: the loop steps `i` through `range(0, len(seq), size)`
      and yields `seq[i:i + size]` each time. */
  method Chunked<T>(s: seq<T>, size: nat) returns (batches: seq<seq<T>>)
    requires size > 0
    ensures Flatten(batches) == s
    ensures |batches| == CeilDiv(|s|, size)
    ensures forall k :: 0 <= k < |batches| ==> batches[k] == Slice(s, size, k)
    ensures forall k :: 0 <= k < |batches| ==> 0 < |batches[k]| <= size
    ensures forall k :: 0 <= k < |batches| - 1 ==> |batches[k]| == size
  {
    batches := [];
    var i := 0;
    while i < |s|
      invariant i == |batches| * size
      invariant batches == [] || (|batches| - 1) * size < |s|
      invariant Flatten(batches) == if i <= |s| then s[..i] else s
      invariant forall k :: 0 <= k < |batches| ==> batches[k] == Slice(s, size, k)
    {
      var j := if i + size <= |s| then i + size else |s|;
      ChunkStep(s, size, batches, i);
      batches := batches + [s[i..j]];
      i := i + size;
    }
    SlicesShape(s, size, batches);
  }
}
