/** `sumData` (main.go:54-80) written as the loops it is: the range loop
    that starts one worker per iteration and sends its result into a
    buffered channel, then the loop that drains the channel. The channel is
    a multiset, and each receive takes an arbitrary element of it, so every
    arrival order the goroutines can produce is covered. */
module ReduceLoop {
  import opened Records
  import opened Partition
  import opened Aggregate
  import opened Reduce
  import Worker

  /** The range loop (main.go:61-69): iteration `i` computes its range,
      slices the data (Go panics on a reversed range) and starts a worker
      whose result lands in the channel. */
  method LaunchLoop(data: seq<Data>, w: int, chunkSize: nat) returns (r: Result<multiset<int>>, ghost sent: seq<int>)
    requires w >= 1 && chunkSize == ChunkSize(|data|, w)
    ensures Launch(data, Ranges(|data|, w), 0).Panic? ==> r == Panic(Launch(data, Ranges(|data|, w), 0).reason)
    ensures Launch(data, Ranges(|data|, w), 0).Ok? ==> r == Ok(multiset(sent)) && sent == Launch(data, Ranges(|data|, w), 0).value
    ensures r.Ok? ==> |sent| == w
  {
    var n := |data|;
    ghost var rs := Ranges(n, w);
    var channel: multiset<int> := multiset{};
    sent := [];
    for i := 0 to w
      invariant |sent| == i
      invariant forall j :: 0 <= j < i ==> Sliceable(rs[j], n)
      invariant forall j :: 0 <= j < i ==> sent[j] == Total(data[rs[j].start..rs[j].end])
      invariant channel == multiset(sent)
    {
      var start := i * chunkSize;
      var end := start + chunkSize;
      if end > n {
        end := n;
      }
      assert rs[i] == Range(start, end);
      if !(0 <= start <= end <= n) {
        LaunchRefusedAt(data, rs, i);
        return Panic(SliceBounds(i, start, end)), sent;
      }
      var partial := Worker.Worker(data[start..end]);
      channel := channel + multiset{partial};
      sent := sent + [partial];
    }
    assert Launch(data, rs, 0).value == sent;
    r := Ok(channel);
  }

  /** The receive loop (main.go:74-77): each receive takes whichever
      partial result arrives, in any order, until the closed channel is
      empty. */
  method Drain(channel: multiset<int>, ghost sent: seq<int>) returns (totalSum: int, ghost received: seq<int>)
    requires channel == multiset(sent)
    ensures multiset(received) == multiset(sent)
    ensures totalSum == Fold(sent)
    ensures totalSum == Fold(received)
  {
    var pending := channel;
    totalSum := 0;
    received := [];
    ghost var unreceived: seq<int> := sent;
    while pending != multiset{}
      invariant pending == multiset(unreceived)
      invariant multiset(received) + pending == multiset(sent)
      invariant totalSum == Fold(received)
      decreases |pending|
    {
      ghost var first := unreceived[0];
      assert first in pending;
      assert exists x: int :: x in pending;
      var arrived: int :| arrived in pending;
      unreceived := RemoveOne(unreceived, arrived);
      FoldAppend(received, [arrived]);
      totalSum := totalSum + arrived;
      received := received + [arrived];
      pending := pending - multiset{arrived};
    }
    FoldPermutation(received, sent);
  }

  /** The whole of `sumData`: the chunk size, the range loop, the barrier
      (every send has happened once the range loop ends), and the drain. */
  method SumDataLoop(data: seq<Data>, w: int) returns (r: Result<int>)
    ensures r == SumData(data, w)
    ensures r.Ok? <==> w >= 1 && StartsInRange(|data|, w)
    ensures r.Ok? ==> r.value == Total(data)
  {
    NoPanicIff(data, w);
    if w == 0 {
      return Panic(DivideByZero);
    }
    if w < 0 {
      return Panic(NegativeChannelSize);
    }
    var n := |data|;
    var chunkSize := (n + w - 1) / w;
    var launched, sent := LaunchLoop(data, w, chunkSize);
    match launched {
      case Panic(p) =>
        return Panic(p);
      case Ok(channel) =>
        var totalSum, _ := Drain(channel, sent);
        r := Ok(totalSum);
        SumDataCorrect(data, w);
    }
  }
}
