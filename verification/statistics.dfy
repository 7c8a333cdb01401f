/** The running statistics a counter keeps over the values added to it.

    The reference definitions (Sum, Min, Max, Mean) are over the sequence of
    samples; `Summary` is the incremental accumulator the counter actually holds,
    which keeps no samples. `Summarises` ties the two, and `AddValue` keeps it. */
module Statistics {

  function Smaller(x: real, y: real): real { if x <= y then x else y }

  function Larger(x: real, y: real): real { if x <= y then y else x }

  /** Total of the samples; 0 for none. */
  function Sum(s: seq<real>): real
  {
    if s == [] then 0.0 else s[0] + Sum(s[1..])
  }

  /** The least sample (see MinIsLeast). */
  function Min(s: seq<real>): real
    requires s != []
  {
    if |s| == 1 then s[0] else Smaller(s[0], Min(s[1..]))
  }

  /** The greatest sample (see MaxIsGreatest). */
  function Max(s: seq<real>): real
    requires s != []
  {
    if |s| == 1 then s[0] else Larger(s[0], Max(s[1..]))
  }

  /** Arithmetic mean of non-empty samples. */
  function Mean(s: seq<real>): real
    requires s != []
  {
    Sum(s) / |s| as real
  }

  /** Min is one of the samples and no greater than any of them. */
  lemma {:induction false} MinIsLeast(s: seq<real>)
    requires s != []
    ensures Min(s) in s
    ensures forall i :: 0 <= i < |s| ==> Min(s) <= s[i]
  {
    if |s| > 1 {
      MinIsLeast(s[1..]);
      assert forall i :: 1 <= i < |s| ==> s[i] == s[1..][i - 1];
    }
  }

  /** Max is one of the samples and no less than any of them. */
  lemma {:induction false} MaxIsGreatest(s: seq<real>)
    requires s != []
    ensures Max(s) in s
    ensures forall i :: 0 <= i < |s| ==> s[i] <= Max(s)
  {
    if |s| > 1 {
      MaxIsGreatest(s[1..]);
      assert forall i :: 1 <= i < |s| ==> s[i] == s[1..][i - 1];
    }
  }

  lemma {:induction false} SumAppend(s: seq<real>, x: real)
    ensures Sum(s + [x]) == Sum(s) + x
  {
    if s != [] {
      assert (s + [x])[1..] == s[1..] + [x];
      SumAppend(s[1..], x);
    }
  }

  lemma {:induction false} MinAppend(s: seq<real>, x: real)
    requires s != []
    ensures Min(s + [x]) == Smaller(Min(s), x)
  {
    if |s| > 1 {
      assert (s + [x])[1..] == s[1..] + [x];
      MinAppend(s[1..], x);
    }
  }

  lemma {:induction false} MaxAppend(s: seq<real>, x: real)
    requires s != []
    ensures Max(s + [x]) == Larger(Max(s), x)
  {
    if |s| > 1 {
      assert (s + [x])[1..] == s[1..] + [x];
      MaxAppend(s[1..], x);
    }
  }

  /** The total of `n` samples is at least n * least ... */
  lemma {:induction false} SumAtLeast(s: seq<real>, n: real)
    requires s != [] && n == |s| as real
    ensures n * Min(s) <= Sum(s)
  {
    if |s| > 1 {
      var t := s[1..];
      SumAtLeast(t, n - 1.0);
      StepLower(n - 1.0, s[0], Sum(t), Min(s), Min(t));
    }
  }

  /** ... and at most n * greatest. */
  lemma {:induction false} SumAtMost(s: seq<real>, n: real)
    requires s != [] && n == |s| as real
    ensures Sum(s) <= n * Max(s)
  {
    if |s| > 1 {
      var t := s[1..];
      SumAtMost(t, n - 1.0);
      StepUpper(n - 1.0, s[0], Sum(t), Max(t), Max(s));
    }
  }

  /** One induction step of the bound of SumAtLeast, as plain arithmetic. */
  lemma StepLower(n: real, x: real, rest: real, lo: real, lo': real)
    requires n >= 0.0 && lo <= x && lo <= lo' && n * lo' <= rest
    ensures (n + 1.0) * lo <= x + rest
  {
  }

  /** One induction step of the bound of SumAtMost, as plain arithmetic. */
  lemma StepUpper(n: real, x: real, rest: real, hi': real, hi: real)
    requires n >= 0.0 && x <= hi && hi' <= hi && rest <= n * hi'
    ensures x + rest <= (n + 1.0) * hi
  {
  }

  lemma DivideBounds(n: real, lo: real, total: real, hi: real)
    requires n > 0.0 && n * lo <= total <= n * hi
    ensures lo <= total / n <= hi
  {
  }

  /** The mean of the samples lies between their least and greatest value. */
  lemma MeanBounds(s: seq<real>)
    requires s != []
    ensures Min(s) <= Mean(s) <= Max(s)
  {
    var n := |s| as real;
    SumAtLeast(s, n);
    SumAtMost(s, n);
    DivideBounds(n, Min(s), Sum(s), Max(s));
  }

  /** The accumulator: how many values, their total, and the least and the
      greatest of them (the last two carry no meaning while `n` is 0). */
  datatype Summary = Summary(n: nat, sum: real, min: real, max: real)

  /** `acc` is the summary of exactly the samples `s`. */
  ghost predicate Summarises(acc: Summary, s: seq<real>)
  {
    acc.n == |s| && acc.sum == Sum(s) && (s != [] ==> acc.min == Min(s) && acc.max == Max(s))
  }

  /** The identity state: what a fresh or cleared accumulator holds. */
  function Cleared(): (acc: Summary)
    ensures Summarises(acc, [])
    ensures forall s :: Summarises(acc, s) ==> s == []
  {
    Summary(0, 0.0, 0.0, 0.0)
  }

  /** Folds one more value into the accumulator. */
  function AddValue(acc: Summary, x: real): Summary
  {
    if acc.n == 0 then Summary(1, acc.sum + x, x, x)
    else Summary(acc.n + 1, acc.sum + x, Smaller(acc.min, x), Larger(acc.max, x))
  }

  /** Adding a value to the summary of `s` gives the summary of `s + [x]`. */
  lemma AddValueSummarises(acc: Summary, s: seq<real>, x: real)
    requires Summarises(acc, s)
    ensures Summarises(AddValue(acc, x), s + [x])
  {
    SumAppend(s, x);
    if s == [] {
      assert s + [x] == [x];
    } else {
      MinAppend(s, x);
      MaxAppend(s, x);
    }
  }
}
