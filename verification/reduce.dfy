/** `sumData` (main.go:54-80) as a pure function: the goroutines run one
    after another, each contributing the sum of its chunk, and the partial
    results are folded into the total. A Go runtime panic is a result. */
module Reduce {
  import opened Records
  import opened Partition
  import opened Aggregate

  /** The runtime panics `sumData` can raise. */
  datatype PanicReason =
    | DivideByZero                                   // chunkSize with zero goroutines (main.go:56)
    | NegativeChannelSize                            // make(chan int, n) with n < 0 (main.go:58)
    | SliceBounds(index: nat, start: int, end: int)  // data[start:end] in iteration index (main.go:68)

  /** The outcome of a call: a value, or the panic that ended the program. */
  datatype Result<T> = Ok(value: T) | Panic(reason: PanicReason)

  /** The range loop (main.go:61-69): for each range in turn, Go evaluates
      `data[start:end]` (panicking at the first range it refuses) and the
      goroutine started on that slice yields the slice's sum. `base` is the
      loop index of `rs[0]`. */
  function Launch(data: seq<Data>, rs: seq<Range>, base: nat): (r: Result<seq<int>>)
    ensures r.Ok? <==> forall j :: 0 <= j < |rs| ==> Sliceable(rs[j], |data|)
    ensures r.Ok? ==> |r.value| == |rs|
    ensures r.Ok? ==> forall j :: 0 <= j < |rs| ==> r.value[j] == Total(data[rs[j].start..rs[j].end])
    ensures r.Panic? ==> exists k :: 0 <= k < |rs| && !Sliceable(rs[k], |data|)
                                     && r.reason == SliceBounds(base + k, rs[k].start, rs[k].end)
                                     && forall j :: 0 <= j < k ==> Sliceable(rs[j], |data|)
    decreases |rs|
  {
    if |rs| == 0 then
      Ok([])
    else if !Sliceable(rs[0], |data|) then
      Panic(SliceBounds(base, rs[0].start, rs[0].end))
    else
      match Launch(data, rs[1..], base + 1)
      case Panic(p) => Panic(p)
      case Ok(rest) => Ok([Total(data[rs[0].start..rs[0].end])] + rest)
  }

  /** The loop panics at the first refused range. */
  lemma LaunchRefusedAt(data: seq<Data>, rs: seq<Range>, i: int)
    requires 0 <= i < |rs| && !Sliceable(rs[i], |data|)
    requires forall j :: 0 <= j < i ==> Sliceable(rs[j], |data|)
    ensures Launch(data, rs, 0) == Panic(SliceBounds(i, rs[i].start, rs[i].end))
  {
  }

  /** The whole of `sumData`: compute the chunk size, launch one worker per
      loop iteration, and fold what the channel delivers. */
  function SumData(data: seq<Data>, w: int): Result<int>
  {
    if w == 0 then
      Panic(DivideByZero)
    else if w < 0 then
      Panic(NegativeChannelSize)
    else
      match Launch(data, Ranges(|data|, w), 0)
      case Panic(p) => Panic(p)
      case Ok(partials) => Ok(Fold(partials))
  }

  /** In a chain of accepted ranges, each ending where the next starts, no
      range starts before the first one. */
  lemma {:induction false} ChainStartsGrow(rs: seq<Range>, n: nat, j: int)
    requires forall i :: 0 <= i < |rs| ==> Sliceable(rs[i], n)
    requires forall i :: 0 <= i < |rs| - 1 ==> rs[i].end == rs[i + 1].start
    requires 0 <= j < |rs|
    ensures rs[0].start <= rs[j].start
  {
    if j > 0 {
      ChainStartsGrow(rs, n, j - 1);
    }
  }

  /** When the ranges are contiguous and each is accepted, the partial sums
      add up to the sum over the span from the first start to the last end. */
  lemma {:induction false} LaunchContiguous(data: seq<Data>, rs: seq<Range>, base: nat)
    requires |rs| > 0
    requires forall j :: 0 <= j < |rs| ==> Sliceable(rs[j], |data|)
    requires forall j :: 0 <= j < |rs| - 1 ==> rs[j].end == rs[j + 1].start
    requires rs[0].start <= rs[|rs| - 1].end
    ensures Launch(data, rs, base).Ok?
    ensures Fold(Launch(data, rs, base).value) == Total(data[rs[0].start..rs[|rs| - 1].end])
    decreases |rs|
  {
    var head := Total(data[rs[0].start..rs[0].end]);
    if |rs| == 1 {
      assert Launch(data, rs, base).value == [head];
    } else {
      var tail := rs[1..];
      ChainStartsGrow(tail, |data|, |tail| - 1);
      LaunchContiguous(data, tail, base + 1);
      var rest := Launch(data, tail, base + 1).value;
      assert Launch(data, rs, base).value == [head] + rest;
      FoldAppend([head], rest);
      var lo, mid, hi := rs[0].start, rs[0].end, rs[|rs| - 1].end;
      assert tail[0].start == mid && tail[|tail| - 1].end == hi;
      assert data[lo..hi] == data[lo..mid] + data[mid..hi];
      TotalAppend(data[lo..mid], data[mid..hi]);
    }
  }

  /** `sumData` returns instead of panicking exactly when the goroutine
      count is positive and the last iteration's unclamped start,
      `(W - 1) * chunkSize`, does not pass the end of the data. */
  lemma NoPanicIff(data: seq<Data>, w: int)
    ensures SumData(data, w).Ok? <==> w >= 1 && StartsInRange(|data|, w)
  {
    if w >= 1 {
      AllSliceableIff(|data|, w);
    }
  }

  /** When `sumData` panics on a slice, it is at the first iteration whose
      unclamped start passes the end of the data; that slice's end is the
      clamped `len(data)`. */
  lemma PanicShape(data: seq<Data>, w: int)
    requires w >= 1 && !StartsInRange(|data|, w)
    ensures SumData(data, w).Panic? && SumData(data, w).reason.SliceBounds?
    ensures var p := SumData(data, w).reason;
            var c := ChunkSize(|data|, w);
            && p.index < w
            && p.start == p.index * c > |data|
            && p.end == |data|
            && (p.index - 1) * c <= |data|
  {
    NoPanicIff(data, w);
    var n, c := |data|, ChunkSize(|data|, w);
    var p := SumData(data, w).reason;
    var i := p.index;
    SliceableIff(i, n, c);
    if i > 0 {
      SliceableIff(i - 1, n, c);
    }
  }

  /** Whenever `sumData` returns, the total is the sequential sum of
      `A + B` over all the records, whatever the goroutine count. */
  lemma SumDataCorrect(data: seq<Data>, w: int)
    requires SumData(data, w).Ok?
    ensures SumData(data, w).value == Total(data)
  {
    NoPanicIff(data, w);
    var n := |data|;
    Tiling(n, w);
    var rs := Ranges(n, w);
    ChainStartsGrow(rs, n, w - 1);
    LaunchContiguous(data, rs, 0);
    assert data[rs[0].start..rs[w - 1].end] == data;
  }

  /** No records: no panic and a total of 0, for every positive count. */
  lemma EmptyInputSumsToZero(w: int)
    requires w >= 1
    ensures SumData([], w) == Ok(0)
  {
    NoPanicIff([], w);
    SumDataCorrect([], w);
  }

  /** One goroutine: a single range `[0, N)` and a single sequential pass. */
  lemma SingleWorkerSinglePass(data: seq<Data>)
    ensures Ranges(|data|, 1) == [Range(0, |data|)]
    ensures SumData(data, 1) == Ok(Total(data))
  {
    NoPanicIff(data, 1);
    SumDataCorrect(data, 1);
  }

  /** A goroutine count that is not positive panics before any chunk is
      computed: zero divides by zero, a negative count is refused by `make`. */
  lemma NonPositiveCountPanics(data: seq<Data>, w: int)
    requires w <= 0
    ensures SumData(data, w).Panic?
    ensures SumData(data, w).reason == (if w == 0 then DivideByZero else NegativeChannelSize)
  {
  }

  /** Records (1,2), (3,4), (5,6) with two goroutines: ranges `[0, 2)` and
      `[2, 3)`, partial sums 10 and 11, total 21. */
  lemma ThreeRecordsTwoWorkers()
    ensures Ranges(3, 2) == [Range(0, 2), Range(2, 3)]
    ensures Launch([Data(1, 2), Data(3, 4), Data(5, 6)], Ranges(3, 2), 0) == Ok([10, 11])
    ensures SumData([Data(1, 2), Data(3, 4), Data(5, 6)], 2) == Ok(21)
  {
    var data := [Data(1, 2), Data(3, 4), Data(5, 6)];
    assert ChunkSize(3, 2) == 2;
    assert data[0..2] == [Data(1, 2), Data(3, 4)];
    assert data[2..3] == [Data(5, 6)];
    var rs := Ranges(3, 2);
    assert rs == [Range(0, 2), Range(2, 3)];
    assert [Data(1, 2), Data(3, 4)][1..] == [Data(3, 4)];
    assert Total([Data(3, 4)]) == 7;
    assert Total(data[0..2]) == 10;
    assert Total(data[2..3]) == 11;
    assert Sliceable(rs[0], 3) && Sliceable(rs[1], 3);
    var partials := Launch(data, rs, 0).value;
    assert partials[0] == 10 && partials[1] == 11;
    assert partials == [10, 11];
    assert Fold([11]) == 11;
  }

  /** Five records, four goroutines: chunkSize is 2 and iteration 3 asks
      for `data[6:5]`, so `sumData` panics instead of leaving the fourth
      chunk empty. */
  lemma PanicFiveRecordsFourWorkers(data: seq<Data>)
    requires |data| == 5
    ensures SumData(data, 4) == Panic(SliceBounds(3, 6, 5))
  {
    assert ChunkSize(5, 4) == 2;
    PanicShape(data, 4);
  }

  /** One record, four goroutines: chunkSize is 1 and iteration 2 asks for
      `data[2:1]`. */
  lemma PanicOneRecordFourWorkers(data: seq<Data>)
    requires |data| == 1
    ensures SumData(data, 4) == Panic(SliceBounds(2, 2, 1))
  {
    assert ChunkSize(1, 4) == 1;
    PanicShape(data, 4);
  }
}
