# Parallel sum reducer — a Dafny model

This project models `sumData` and `worker` from `main.go`: the fork-join
reduction that sums `A + B` over a sequence of `Data` records. `sumData`
computes a chunk size `ceil(N / W)` for `N` records and `W` goroutines. Each
loop iteration `i` takes the index range `[i*chunkSize, min(i*chunkSize + chunkSize, N))`
and starts a `worker` on that slice. Each worker sends its partial sum into a
buffered channel. After the barrier the partial sums are drained and added up.

The model is split by concern:

- `records.dfy` (`Records`): the `Data` record and `Total`, the
  single-threaded reference sum that everything is compared against.
- `worker.dfy` (`Worker`): the per-chunk loop.
- `partition.dfy` (`Partition`): the chunk size and the range of each
  iteration. It proves that the ranges tile `[0, N)` exactly when no slice
  panics.
- `aggregate.dfy` (`Aggregate`): the fold over partial results. It proves
  that every arrival order gives the same total.
- `reduce.dfy` (`Reduce`): `sumData` as a pure function with Go's runtime
  panics as results, and the correctness theorems.
- `reduce_loop.dfy` (`ReduceLoop`): the same computation as the two loops of
  the source. The channel is a multiset, and each receive takes an arbitrary
  element of it.
- `clamped.dfy` (`Clamped`): the partition with the start clamped as well
  (see Findings).

Go's runtime panics are values of `Reduce.Result`:

- zero goroutines divide by zero at main.go:56;
- a negative count makes `make(chan int, W)` panic at main.go:58;
- a reversed range makes `data[start:end]` panic at main.go:68.

For ranges that start past the end of the data, one would expect each to
be empty and add 0, so that every positive worker count yields the sum. One
would also expect a non-positive worker count to be rejected as an input error.
The code does neither. It clamps only `end`, so `data[start:end]` panics
whenever `(W - 1) * chunkSize > N` (for example N = 5, W = 4), and `W <= 0`
panics. The model follows the code.

A record is the datatype `Records.Data`, a pair of unbounded integers `a`
and `b` (main.go:12-15). Each record contributes `a + b` to every sum, and
`Records.Total` sums that over a whole sequence. That sum is the reference
each result below is compared against.

## Model

| member | source | states |
|---|---|---|
| Reduce.SumData | main.go:54-80 | the model of `sumData`: chunk size, range loop, fold; its properties are carried by `Reduce.NoPanicIff` (returns exactly when W >= 1 and `(W - 1) * chunkSize <= N`), `Reduce.SumDataCorrect` (the total is the sequential sum) and `Reduce.PanicShape` (where it panics) |
| Aggregate.Fold | main.go:74-77 | the running total over received partial results; `Aggregate.FoldPermutation` states that it does not depend on arrival order and `Aggregate.FoldAppend` that it splits over concatenation |
| Partition.Ranges | main.go:61-66 | the W ranges of the loop in iteration order, range i being `RangeOf(i, N, chunkSize)`; `Partition.Tiling`, `Partition.RangesOrdered` and `Partition.CoverExactlyOnce` state how they cover `[0, N)` |
| Partition.Sliceable | main.go:68 | Go's bounds rule for `data[start:end]`, `0 <= start <= end <= len`; `Partition.SliceableIff` and `Partition.AllSliceableIff` say when the loop's ranges meet it |
| Clamped.ClampedRangeOf | main.go:62-66 | the corrected range is always accepted by the slice check, equals the source's range wherever that one is accepted, and is the empty range `[N, N)` otherwise |
| Worker.Worker | main.go:45-52 | the value a worker sends is the sum of `A + B` over exactly the slice it was given; an empty slice gives 0 |
| Partition.ChunkSize | main.go:56 | for W >= 1, chunkSize is the ceiling of N / W: `chunkSize * W >= N`, `(chunkSize - 1) * W < N` when N > 0, and 0 when N = 0 |
| Partition.RangeOf | main.go:62-66 | iteration i starts at `i * chunkSize` (never clamped); its end is at most N and at most `start + chunkSize`, and equals one of them, i.e. `end = min(start + chunkSize, N)` |
| Partition.SliceableIff | main.go:62-68 | the slice of iteration i is accepted by Go exactly when `i * chunkSize <= N` |
| Partition.AllSliceableIff | main.go:61-68 | all W slices are accepted exactly when `(W - 1) * chunkSize <= N` |
| Partition.Tiling | main.go:61-69 | with no panic, the first range starts at 0, each range ends where the next starts, the last ends at N, and no range is reversed |
| Partition.RangesOrdered | main.go:61-66 | a later iteration's range never starts before an earlier one ends, so the ranges are disjoint |
| Partition.CoverExactlyOnce | main.go:61-69 | with no panic, every index in `[0, N)` lies in one range and in no other |
| Reduce.Launch | main.go:61-69 | the range loop yields exactly one partial result per range, in order, each the sum of its slice; it panics exactly when some range is refused, and the panic names the first refused iteration |
| Aggregate.FoldPermutation | main.go:74-79 | the total is the same for every order in which the partial results arrive |
| Reduce.LaunchContiguous | main.go:61-77 | partial sums of contiguous, accepted ranges add up to the sum over the whole span they cover |
| Reduce.NoPanicIff | main.go:54-69 | `sumData` returns instead of panicking exactly when W >= 1 and `(W - 1) * chunkSize <= N` |
| Reduce.PanicShape | main.go:61-68 | when W >= 1 and `(W - 1) * chunkSize > N`, `sumData` panics on a slice, at the first iteration whose start `i * chunkSize` exceeds N, and that slice's end is N |
| Reduce.SumDataCorrect | main.go:54-79 | whenever `sumData` returns, its total is the sequential sum of `A + B` over all records, for every W |
| Reduce.EmptyInputSumsToZero | main.go:54-79 | no records: the total is 0 for every W >= 1 |
| Reduce.SingleWorkerSinglePass | main.go:54-79 | W = 1 uses the single range `[0, N)` and returns the sequential sum |
| Reduce.NonPositiveCountPanics | main.go:55-58 | W = 0 panics by dividing by zero and W < 0 panics at the channel allocation, before any slice |
| Reduce.ThreeRecordsTwoWorkers | main.go:54-79 | records (1,2), (3,4), (5,6) with W = 2 give ranges `[0,2)` and `[2,3)`, partial sums 10 and 11, and total 21 |
| Reduce.PanicFiveRecordsFourWorkers | main.go:61-68 | any 5 records with W = 4 panic at iteration 3 on `data[6:5]` |
| Reduce.PanicOneRecordFourWorkers | main.go:61-68 | any 1 record with W = 4 panics at iteration 2 on `data[2:1]` |
| ReduceLoop.LaunchLoop | main.go:61-69 | the range loop panics exactly as `Reduce.Launch` does; otherwise it puts exactly W results into the channel, one per iteration, each the sum of its slice |
| ReduceLoop.Drain | main.go:71-77 | receiving the buffered results in any order consumes each sent value exactly once (the received sequence has the same multiset as the sent one), and the running total is the fold of both |
| ReduceLoop.SumDataLoop | main.go:54-80 | the two loops compute `Reduce.SumData`; they return exactly when W >= 1 and `(W - 1) * chunkSize <= N`, and then return the sequential sum |
| Clamped.ClampedTiling | main.go:61-66 | with the start clamped to N too, the ranges tile `[0, N)` for every W >= 1 |
| Clamped.SumDataClamped | main.go:54-79 | the clamped reduction never panics on a slice and returns the sequential sum for every W >= 1 |
| Clamped.ClampedAgrees | main.go:54-79 | where `sumData` returns, the clamped variant returns the same total; where it panics on a slice, the clamped variant returns the sequential sum |
| Clamped.ClampedFiveRecordsFourWorkers | main.go:61-68 | for 5 records and W = 4 the clamped ranges are `[0,2) [2,4) [4,5) [5,5)`; `sumData` panics and the clamped variant returns the sum |

## Left out

- `main` and `readFile` (main.go:17-43): flag parsing, file reading, JSON decoding and printing are I/O with no logic of their own. The model starts from the decoded record sequence.
- Goroutines, `sync.WaitGroup` and the channel's blocking are not modelled as concurrency. The workers run one after another. The barrier is the end of the range loop. The channel is a multiset drained in arbitrary order. Scheduling itself is not modelled.
- Go's fixed-width `int`: all arithmetic is on unbounded integers, so the 64-bit wrap-around of very large sums, and of `i * chunkSize`, is not modelled.
- Go's `/` truncates toward zero while Dafny's is Euclidean. The only division (main.go:56) is used with W >= 1 and a non-negative numerator, where the two agree. For W < 0 the quotient is never used, because the channel allocation panics first.
- Panics raised by `make` for counts too large to allocate are not modelled.

## Findings

| source | as written | input that shows it | evidently intended | confidence | as-written member | corrected member |
|---|---|---|---|---|---|---|
| main.go:62-68 | only `end` is clamped to `len(data)`; `start := i * chunkSize` is not, so `data[start:end]` is reversed once `i * chunkSize > len(data)` | 5 records, 4 goroutines: chunkSize 2, iteration 3 slices `data[6:5]` and panics | ranges past the end of the data are empty and contribute 0, so every W >= 1 yields the sequential sum | high; not executed | Reduce.PanicFiveRecordsFourWorkers | Clamped.SumDataClamped |
