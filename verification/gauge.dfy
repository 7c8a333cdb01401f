/** The concurrency high-water mark and how it moves. */
module Gauge {

  /** The mark after one `updateConcurrency(n)`: raised to `n` when `n` exceeds
      it, otherwise left alone. */
  function Raised(mark: int, n: int): (r: int)
    ensures r >= mark && r >= n
    ensures r == mark || r == n
    ensures r > mark <==> n > mark
  {
    if n > mark then n else mark
  }

  /** The mark after the updates `ns`, applied one after the other. */
  function RaisedAll(mark: int, ns: seq<int>): int
    decreases |ns|
  {
    if ns == [] then mark else RaisedAll(Raised(mark, ns[0]), ns[1..])
  }

  /** After serialized updates the mark is exactly the largest of the starting
      mark and all the values passed: at least each of them, and one of them. */
  lemma {:induction false} RaisedAllIsMaximum(mark: int, ns: seq<int>)
    ensures RaisedAll(mark, ns) >= mark
    ensures forall i :: 0 <= i < |ns| ==> RaisedAll(mark, ns) >= ns[i]
    ensures RaisedAll(mark, ns) == mark || RaisedAll(mark, ns) in ns
    decreases |ns|
  {
    if ns != [] {
      var m := Raised(mark, ns[0]);
      RaisedAllIsMaximum(m, ns[1..]);
      assert forall i :: 1 <= i < |ns| ==> ns[i] == ns[1..][i - 1];
    }
  }
}
