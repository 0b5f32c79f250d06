/** How `sumData` divides the record indices among the goroutines
    (main.go:55-66): a chunk size, and one index range per loop iteration. */
module Partition {

  /** The index range `[start, end)` of one loop iteration, before Go's
      slice expression checks it. */
  datatype Range = Range(start: int, end: int)

  /** `chunkSize = (dataLen + numGoroutines - 1) / numGoroutines`. Go's `/`
      truncates toward zero and Dafny's is Euclidean; they agree here because
      the numerator is never negative when `w >= 1`. The result is the
      ceiling of `n / w`. */
  function ChunkSize(n: nat, w: int): (c: nat)
    requires w >= 1
    ensures c * w >= n
    ensures n > 0 ==> (c - 1) * w < n
    ensures n == 0 ==> c == 0
  {
    var c := (n + w - 1) / w;
    assert c * w + (n + w - 1) % w == n + w - 1;
    c
  }

  /** The range computed in iteration `i`: the start is `i * c`, unclamped,
      and the end is `start + c` clamped to `n`, i.e. the smaller of the two. */
  function RangeOf(i: nat, n: nat, c: nat): (r: Range)
    ensures r.start == i * c >= 0
    ensures r.end <= n && r.end <= r.start + c
    ensures r.end == n || r.end == r.start + c
  {
    var start := i * c;
    var end := if start + c > n then n else start + c;
    Range(start, end)
  }

  /** Go accepts `data[start:end]` exactly when `0 <= start <= end <= len`
      (the capacity bound is never the binding one, since `end <= len`). */
  predicate Sliceable(r: Range, n: nat)
  {
    0 <= r.start <= r.end <= n
  }

  /** The ranges of all `w` loop iterations, in iteration order. */
  function Ranges(n: nat, w: int): (rs: seq<Range>)
    requires w >= 1
    ensures |rs| == w
    ensures forall i :: 0 <= i < w ==> rs[i] == RangeOf(i, n, ChunkSize(n, w))
  {
    seq(w, i requires 0 <= i < w => RangeOf(i, n, ChunkSize(n, w)))
  }

  /** The last iteration's unclamped start, `(w - 1) * c`, lies within the
      data. */
  predicate StartsInRange(n: nat, w: int)
    requires w >= 1
  {
    (w - 1) * ChunkSize(n, w) <= n
  }

  lemma MulMono(a: nat, b: nat, c: nat)
    requires a <= b
    ensures a * c <= b * c
  {
  }

  /** Iteration `i`'s slice is accepted exactly when its unclamped start does
      not pass the end of the data. */
  lemma SliceableIff(i: nat, n: nat, c: nat)
    ensures Sliceable(RangeOf(i, n, c), n) <==> i * c <= n
  {
  }

  /** Every one of the `w` slices is accepted exactly when the last
      iteration's start, `(w - 1) * c`, is within the data. */
  lemma AllSliceableIff(n: nat, w: int)
    requires w >= 1
    ensures (forall i :: 0 <= i < w ==> Sliceable(Ranges(n, w)[i], n)) <==> StartsInRange(n, w)
  {
    var c := ChunkSize(n, w);
    var rs := Ranges(n, w);
    if StartsInRange(n, w) {
      forall i | 0 <= i < w
        ensures Sliceable(rs[i], n)
      {
        MulMono(i, w - 1, c);
        SliceableIff(i, n, c);
      }
    } else {
      SliceableIff(w - 1, n, c);
      assert !Sliceable(rs[w - 1], n);
    }
  }

  /** When no slice panics, the ranges tile `[0, n)`: the first starts at 0,
      each ends where the next starts, the last ends at `n`, and none is
      reversed. */
  lemma Tiling(n: nat, w: int)
    requires w >= 1 && StartsInRange(n, w)
    ensures Ranges(n, w)[0].start == 0
    ensures Ranges(n, w)[w - 1].end == n
    ensures forall i :: 0 <= i < w - 1 ==> Ranges(n, w)[i].end == Ranges(n, w)[i + 1].start
    ensures forall i :: 0 <= i < w ==> Sliceable(Ranges(n, w)[i], n)
  {
    var c := ChunkSize(n, w);
    var rs := Ranges(n, w);
    AllSliceableIff(n, w);
    assert (w - 1) * c + c == w * c;
    forall i | 0 <= i < w - 1
      ensures rs[i].end == rs[i + 1].start
    {
      MulMono(i + 1, w - 1, c);
      assert i * c + c == (i + 1) * c;
    }
  }

  /** A later iteration's range never starts before an earlier one ends. */
  lemma RangesOrdered(n: nat, w: int, i: int, j: int)
    requires w >= 1 && 0 <= i < j < w
    ensures Ranges(n, w)[i].end <= Ranges(n, w)[j].start
  {
    var c := ChunkSize(n, w);
    MulMono(i + 1, j, c);
    assert i * c + c == (i + 1) * c;
  }

  /** The range of iteration `k / c` holds index `k`. */
  lemma RangeHolding(n: nat, w: int, k: int) returns (i: nat)
    requires w >= 1 && StartsInRange(n, w)
    requires 0 <= k < n
    ensures i < w && Ranges(n, w)[i].start <= k < Ranges(n, w)[i].end
  {
    var c := ChunkSize(n, w);
    i := k / c;
    assert i * c + k % c == k;
    assert i * c <= k < i * c + c;
    if i >= w {
      MulMono(w, i, c);
      assert false;
    }
  }

  /** When no slice panics, every index of the data lies in exactly one range. */
  lemma CoverExactlyOnce(n: nat, w: int, k: int)
    requires w >= 1 && StartsInRange(n, w)
    requires 0 <= k < n
    ensures exists i :: 0 <= i < w && Ranges(n, w)[i].start <= k < Ranges(n, w)[i].end
    ensures forall i, j :: 0 <= i < w && 0 <= j < w
                           && Ranges(n, w)[i].start <= k < Ranges(n, w)[i].end
                           && Ranges(n, w)[j].start <= k < Ranges(n, w)[j].end
                           ==> i == j
  {
    var rs := Ranges(n, w);
    var h := RangeHolding(n, w, k);
    forall i, j | 0 <= i < w && 0 <= j < w
                  && rs[i].start <= k < rs[i].end
                  && rs[j].start <= k < rs[j].end
      ensures i == j
    {
      if i < j {
        RangesOrdered(n, w, i, j);
      } else if j < i {
        RangesOrdered(n, w, j, i);
      }
    }
  }
}
