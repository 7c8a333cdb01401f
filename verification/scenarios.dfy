/** Client code that uses the registry and its counters only through their
    contracts, showing what a caller can rely on. */
module Scenarios {
  import opened Wrappers
  import opened Keys
  import opened Monitoring
  import Statistics
  import Gauge

  /** A linear scale for the two units the scenario below uses. */
  function Millis(u: Unit): real
  {
    if u.name == "seconds" then 1000.0 else 1.0
  }

  /** Values added in another unit are stored in the unit of the key's role:
      100 ms and 2 s on a millisecond metric are stored as 100 and 2000. */
  method UnitConversionScenario() returns (hits: nat, sum: real, min: Option<real>, max: Option<real>)
    ensures hits == 2 && sum == 2100.0
    ensures min == Some(100.0) && max == Some(2000.0)
  {
    var ms, s := Unit("milliseconds"), Unit("seconds");
    var store := new InMemoryCounterBaseStore();
    var counter := store.GetOrCreateCounter(Key("latency", Role("timing", ms)));
    var convert := (target: Unit, v: real, source: Unit) => v * Millis(source) / Millis(target);
    counter.AddInUnit(100.0, ms, convert);
    counter.AddInUnit(2.0, s, convert);
    assert counter.samples == [100.0, 2000.0];
    assert Statistics.Sum([2000.0]) == 2000.0;
    hits := counter.GetHits();
    sum := counter.GetSum();
    min := counter.GetMin();
    max := counter.GetMax();
  }

  /** Asking twice for the same key yields the same counter, and the registry
      then holds that one counter only. */
  method SameInstanceScenario(key: Key) returns (first: DefaultCounter, second: DefaultCounter, all: set<DefaultCounter>)
    ensures first == second && all == {first}
  {
    var store := new InMemoryCounterBaseStore();
    first := store.GetOrCreateCounter(key);
    second := store.GetOrCreateCounter(key);
    all := store.GetCounters();
    assert store.counters == map[key := first];
  }

  /** After a clear the registry is empty, the counter handed out before keeps
      its state, and the same key now gives a brand-new counter with no hits. */
  method ClearScenario(a: Key, b: Key) returns (before: DefaultCounter, after: DefaultCounter,
                                                remaining: set<DefaultCounter>, beforeHits: nat, afterHits: nat)
    ensures remaining == {} && before != after
    ensures beforeHits == 1 && afterHits == 0
  {
    var store := new InMemoryCounterBaseStore();
    before := store.GetOrCreateCounter(a);
    var other := store.GetOrCreateCounter(b);
    before.Add(5.0);
    store.ClearCounters();
    remaining := store.GetCounters();
    after := store.GetOrCreateCounter(a);
    beforeHits := before.GetHits();
    afterHits := after.GetHits();
  }

  /** A counter of another implementation is refused, and the registered
      counter is untouched. */
  method ForeignCounterScenario(key: Key, className: string) returns (outcome: Outcome, hits: nat)
    ensures outcome.InvalidArgument? && hits == 0
  {
    var store := new InMemoryCounterBaseStore();
    var counter := store.GetOrCreateCounter(key);
    outcome := store.AddToCounter(Foreign(className), 1.0);
    hits := counter.GetHits();
  }

  /** After reset, adding behaves as on a brand-new counter, except that the
      concurrency high-water mark survives the reset. */
  method ResetScenario(key: Key, x: real, y: real, peak: nat)
    returns (hits: nat, sum: real, mark: int, freshHits: nat, freshSum: real, freshMark: int)
    ensures hits == freshHits == 1 && sum == freshSum == y
    ensures mark == peak && freshMark == 0
  {
    var store := new InMemoryCounterBaseStore();
    var counter := store.GetOrCreateCounter(key);
    counter.Add(x);
    counter.UpdateConcurrency(peak);
    counter.Reset();
    counter.Add(y);
    hits := counter.GetHits();
    sum := counter.GetSum();
    mark := counter.GetMaxConcurrency();

    var freshStore := new InMemoryCounterBaseStore();
    var newCounter := freshStore.GetOrCreateCounter(key);
    newCounter.Add(y);
    freshHits := newCounter.GetHits();
    freshSum := newCounter.GetSum();
    freshMark := newCounter.GetMaxConcurrency();
  }

  /** A run of serialized concurrency updates leaves the high-water mark at the
      largest value passed (or at 0 when none is positive); for 3, 1, 5 it is 5. */
  method UpdateConcurrencyScenario(key: Key, a: int, b: int, c: int) returns (mark: int)
    ensures mark == Gauge.RaisedAll(0, [a, b, c])
    ensures mark >= 0 && mark >= a && mark >= b && mark >= c
    ensures mark == 0 || mark == a || mark == b || mark == c
    ensures a == 3 && b == 1 && c == 5 ==> mark == 5
  {
    var store := new InMemoryCounterBaseStore();
    var counter := store.GetOrCreateCounter(key);
    counter.UpdateConcurrency(a);
    counter.UpdateConcurrency(b);
    counter.UpdateConcurrency(c);
    mark := counter.GetMaxConcurrency();
    var ns := [a, b, c];
    var m1, m2 := Gauge.Raised(0, a), Gauge.Raised(Gauge.Raised(0, a), b);
    assert ns[1..] == [b, c] && [b, c][1..] == [c] && [c][1..] == [];
    assert Gauge.RaisedAll(m2, [c]) == Gauge.RaisedAll(Gauge.Raised(m2, c), []);
    assert Gauge.RaisedAll(m1, [b, c]) == Gauge.RaisedAll(m2, [c]);
    assert Gauge.RaisedAll(0, ns) == Gauge.RaisedAll(m1, [b, c]);
    Gauge.RaisedAllIsMaximum(0, ns);
  }
}
