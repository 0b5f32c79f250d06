/** The records the reducer consumes, and the single-threaded reference sum
    against which the parallel reduction is judged. */
module Records {

  /** One input record, the JSON object with integer keys `a` and `b`
      (main.go:12-15). Go's `int` is modelled as an unbounded `int`. */
  datatype Data = Data(a: int, b: int)

  /** What one record contributes to every sum: `A + B`. */
  function Value(d: Data): int
  {
    d.a + d.b
  }

  /** The sequential reference: the sum of `A + B` over the whole sequence,
      taken front to back in one pass. */
  function Total(s: seq<Data>): int
  {
    if |s| == 0 then 0 else Value(s[0]) + Total(s[1..])
  }

  /** Summing a concatenation is summing the parts: this is what lets the
      sequence be split into chunks that are summed independently. */
  lemma {:induction false} TotalAppend(s: seq<Data>, t: seq<Data>)
    ensures Total(s + t) == Total(s) + Total(t)
  {
    if |s| == 0 {
      assert s + t == t;
    } else {
      assert (s + t)[1..] == s[1..] + t;
      TotalAppend(s[1..], t);
    }
  }
}
