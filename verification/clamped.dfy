/** The partition with every range inside the data: a range whose start
    lies past the data is empty and contributes 0. `sumData` clamps only the end of each
    range; this variant clamps the start as well, and never panics on a
    slice. */
module Clamped {
  import opened Records
  import opened Partition
  import opened Aggregate
  import opened Reduce

  /** Iteration `i`'s range with both ends clamped to `n`: always accepted
      by Go's slice check, equal to the unclamped range wherever that one
      is accepted, and empty at the end of the data otherwise. */
  function ClampedRangeOf(i: nat, n: nat, c: nat): (r: Range)
    ensures Sliceable(r, n)
    ensures i * c <= n ==> r == RangeOf(i, n, c)
    ensures i * c > n ==> r == Range(n, n)
  {
    var start := if i * c > n then n else i * c;
    var end := if i * c + c > n then n else i * c + c;
    Range(start, end)
  }

  function ClampedRanges(n: nat, w: int): (rs: seq<Range>)
    requires w >= 1
    ensures |rs| == w
    ensures forall i :: 0 <= i < w ==> rs[i] == ClampedRangeOf(i, n, ChunkSize(n, w))
  {
    seq(w, i requires 0 <= i < w => ClampedRangeOf(i, n, ChunkSize(n, w)))
  }

  /** `sumData` with the start clamped too. */
  function SumDataClamped(data: seq<Data>, w: int): (r: Result<int>)
    ensures w >= 1 ==> r == Ok(Total(data))
    ensures w == 0 ==> r == Panic(DivideByZero)
    ensures w < 0 ==> r == Panic(NegativeChannelSize)
  {
    if w == 0 then
      Panic(DivideByZero)
    else if w < 0 then
      Panic(NegativeChannelSize)
    else
      var rs := ClampedRanges(|data|, w);
      ClampedTiling(|data|, w);
      LaunchContiguous(data, rs, 0);
      assert data[rs[0].start..rs[w - 1].end] == data;
      match Launch(data, rs, 0)
      case Panic(p) => Panic(p)
      case Ok(partials) => Ok(Fold(partials))
  }

  /** Consecutive clamped ranges meet: iteration `i` ends where `i + 1` starts. */
  lemma ClampedStep(i: nat, n: nat, c: nat)
    ensures ClampedRangeOf(i, n, c).end == ClampedRangeOf(i + 1, n, c).start
  {
    assert i * c + c == (i + 1) * c;
  }

  /** For every positive count the clamped ranges tile `[0, n)`. */
  lemma ClampedTiling(n: nat, w: int)
    requires w >= 1
    ensures ClampedRanges(n, w)[0].start == 0
    ensures ClampedRanges(n, w)[w - 1].end == n
    ensures forall i :: 0 <= i < w - 1 ==> ClampedRanges(n, w)[i].end == ClampedRanges(n, w)[i + 1].start
    ensures forall i :: 0 <= i < w ==> Sliceable(ClampedRanges(n, w)[i], n)
  {
    var c := ChunkSize(n, w);
    var rs := ClampedRanges(n, w);
    assert (w - 1) * c + c == w * c;
    forall i | 0 <= i < w - 1
      ensures rs[i].end == rs[i + 1].start
    {
      ClampedStep(i, n, c);
    }
  }

  /** Where `sumData` returns, the clamped variant returns the same total;
      where it panics on a slice, the clamped variant still returns the
      sequential sum. */
  lemma ClampedAgrees(data: seq<Data>, w: int)
    ensures SumData(data, w).Ok? ==> SumDataClamped(data, w) == SumData(data, w)
    ensures w >= 1 && SumData(data, w).Panic? ==> SumDataClamped(data, w) == Ok(Total(data))
  {
    if SumData(data, w).Ok? {
      SumDataCorrect(data, w);
    }
  }

  /** The five-record, four-goroutine input that makes `sumData` panic is
      summed by the clamped variant, the fourth range being `[5, 5)`. */
  lemma ClampedFiveRecordsFourWorkers(data: seq<Data>)
    requires |data| == 5
    ensures ClampedRanges(5, 4) == [Range(0, 2), Range(2, 4), Range(4, 5), Range(5, 5)]
    ensures SumData(data, 4).Panic?
    ensures SumDataClamped(data, 4) == Ok(Total(data))
  {
    assert ChunkSize(5, 4) == 2;
    PanicFiveRecordsFourWorkers(data);
  }
}
