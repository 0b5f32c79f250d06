/** The aggregation of partial results (main.go:74-79): a running total
    over the values received from the result channel. */
module Aggregate {

  /** The total of a sequence of partial results, in the order given. */
  function Fold(partials: seq<int>): int
  {
    if |partials| == 0 then 0 else partials[0] + Fold(partials[1..])
  }

  /** Folding a concatenation is adding the folds of the parts. */
  lemma {:induction false} FoldAppend(p: seq<int>, q: seq<int>)
    ensures Fold(p + q) == Fold(p) + Fold(q)
  {
    if |p| == 0 {
      assert p + q == q;
    } else {
      assert (p + q)[1..] == p[1..] + q;
      FoldAppend(p[1..], q);
    }
  }

  /** Taking one value out of the middle leaves a sequence that folds to
      the rest of the total. */
  lemma {:induction false} FoldRemove(q: seq<int>, k: int)
    requires 0 <= k < |q|
    ensures Fold(q) == q[k] + Fold(q[..k] + q[k + 1..])
  {
    if k == 0 {
      assert q[..0] + q[1..] == q[1..];
    } else {
      var tail := q[1..];
      FoldRemove(tail, k - 1);
      var shorter := tail[..k - 1] + tail[k..];
      assert q[..k] + q[k + 1..] == [q[0]] + shorter;
      assert ([q[0]] + shorter)[1..] == shorter;
    }
  }

  /** Taking one value out of the middle removes one copy of it from the
      multiset of values. */
  lemma MultisetRemove(q: seq<int>, k: int)
    requires 0 <= k < |q|
    ensures multiset(q) == multiset(q[..k] + q[k + 1..]) + multiset{q[k]}
  {
    assert q == q[..k] + [q[k]] + q[k + 1..];
    assert multiset(q) == multiset(q[..k]) + multiset{q[k]} + multiset(q[k + 1..]);
  }

  /** A value in the multiset of a sequence occurs at some index of it. */
  lemma IndexOf(q: seq<int>, x: int) returns (k: int)
    requires x in multiset(q)
    ensures 0 <= k < |q| && q[k] == x
  {
    assert x in q;
    k :| 0 <= k < |q| && q[k] == x;
  }

  /** One copy of the same value can be cancelled from both sides. */
  lemma Cancel(a: multiset<int>, b: multiset<int>, x: int)
    requires a + multiset{x} == b + multiset{x}
    ensures a == b
  {
    assert a == (a + multiset{x}) - multiset{x};
  }

  /** Some sequence holds the values of a multiset minus one copy of `x`. */
  lemma RemoveOne(q: seq<int>, x: int) returns (rest: seq<int>)
    requires x in multiset(q)
    ensures multiset(rest) == multiset(q) - multiset{x}
  {
    var k := IndexOf(q, x);
    MultisetRemove(q, k);
    rest := q[..k] + q[k + 1..];
    assert multiset(rest) == (multiset(rest) + multiset{x}) - multiset{x};
  }

  /** The channel delivers the partial results in any order: every
      rearrangement of the same values folds to the same total. */
  lemma {:induction false} FoldPermutation(p: seq<int>, q: seq<int>)
    requires multiset(p) == multiset(q)
    ensures Fold(p) == Fold(q)
    decreases |p|
  {
    if |q| == 0 {
      assert |p| == |multiset(p)| == 0;
      assert p == [] && q == [];
    } else {
      var x := q[0];
      assert x in multiset(p) by {
        assert x in q;
      }
      var k := IndexOf(p, x);
      var p', q' := p[..k] + p[k + 1..], q[1..];
      MultisetRemove(p, k);
      assert multiset(p) == multiset(p') + multiset{x};
      assert q == [x] + q';
      assert multiset(q) == multiset(q') + multiset{x};
      Cancel(multiset(p'), multiset(q'), x);
      assert |p'| < |p|;
      FoldPermutation(p', q');
      FoldRemove(p, k);
      assert Fold(p) == x + Fold(p');
      assert Fold(q) == x + Fold(q');
    }
  }
}
