/** The per-chunk reduction run by each goroutine (main.go:45-52). */
module Worker {
  import opened Records

  /** Sums `A + B` over the records of one chunk, front to back. The
      `wg.Done()` and the send on the result channel are left to the caller:
      the returned value is what the worker sends. */
  method Worker(chunk: seq<Data>) returns (localSum: int)
    ensures localSum == Total(chunk)
    ensures |chunk| == 0 ==> localSum == 0
  {
    localSum := 0;
    for k := 0 to |chunk|
      invariant localSum == Total(chunk[..k])
    {
      assert chunk[..k + 1] == chunk[..k] + [chunk[k]];
      TotalAppend(chunk[..k], [chunk[k]]);
      localSum := localSum + chunk[k].a + chunk[k].b;
    }
    assert chunk[..|chunk|] == chunk;
  }
}
