# Counting core of the monitoring engine, modelled in Dafny

This project models the counting core of the monitoring engine. It covers two Java classes.

- `DefaultCounter` is the per-metric counter aggregate. It keeps running statistics over the values added to it, a live concurrency gauge and a concurrency high-water mark.
- `InMemoryCounterBaseStore` is the in-memory registry. It maps a metric `Key` to its counter. It creates a counter on first use, enumerates and clears the counters, and `addToCounter` is the path by which values are added to a counter. `reset` clears a counter's statistics directly, without the store. `addInternal` is public, so neither the Java code nor this model enforces that values arrive only through the store.

Modules:

- `Keys` (keys.dfy): the value types `Unit`, `Role` and `Key`. A `Converter` function stands for `Unit.convert`, whose code is not part of this model.
- `Statistics` (statistics.dfy): the statistics over exact reals.
  - Reference definitions over the sequence of samples: `Sum`, `Min`, `Max` and `Mean`.
  - `Summary`, the incremental accumulator a counter holds. It stands in for commons-math's `SummaryStatistics`.
  - Lemmas that tie the accumulator to the reference definitions.
- `Gauge` (gauge.dfy): how the high-water mark moves under `updateConcurrency`.
- `Maps` (maps.dfy): a fact about maps whose values carry their own key.
- `Monitoring` (monitoring.dfy): the classes `DefaultCounter` and `InMemoryCounterBaseStore`.
  - `Counter` is a closed sum type: a `DefaultCounter`, or a foreign implementation known by its class name. This lets the type check in `addToCounter` be expressed.
  - The two classes share a module because each refers to the other: a counter keeps a back-reference to its store.
- `Scenarios` (scenarios.dfy): client methods. They use only the contracts above to show the unit-conversion example, get-or-create identity, clear, a refused foreign counter, reset, and a run of concurrency updates.

The model is sequential: every call is one atomic step.

Each counter has a ghost field `samples`, the values added since creation or the last reset. `DefaultCounter.Valid()` states that the accumulator summarises `samples` and that the high-water mark is never negative. `InMemoryCounterBaseStore.Valid()` states three things about each registered counter:

- it was built for the key it is stored under;
- it points back to this store;
- it is valid.

`reset` clears the samples and the live gauge but keeps the high-water mark. This follows `DefaultCounter.java:67-71`, and the contract of `DefaultCounter.Reset` states it (`maxConcurrency == old(maxConcurrency)`).

## Model

| member | source | states |
|---|---|---|
| `Monitoring.DefaultCounter.constructor` | core/src/main/java/org/apache/commons/monitoring/counters/DefaultCounter.java:28-39 | A new counter has the given key and store, no samples, a fresh live gauge at 0 and a high-water mark of 0. |
| `Monitoring.DefaultCounter.AddInternal` | core/src/main/java/org/apache/commons/monitoring/counters/DefaultCounter.java:41-43 | Appends exactly the one sample `delta`. Earlier samples are kept and the accumulator still summarises the samples. Nothing else in the counter changes. |
| `Monitoring.DefaultCounter.UpdateConcurrency` | core/src/main/java/org/apache/commons/monitoring/counters/DefaultCounter.java:46-50 | The mark becomes `Raised(old mark, n)`: raised to `n` exactly when `n` exceeds it, never lowered. Only the mark is written. |
| `Gauge.Raised` | core/src/main/java/org/apache/commons/monitoring/counters/DefaultCounter.java:46-50 | One update leaves the mark at least the old mark and at least `n`. The mark is one of the two, and it rises iff `n` exceeds the old mark. |
| `Gauge.RaisedAllIsMaximum` | core/src/main/java/org/apache/commons/monitoring/counters/DefaultCounter.java:46-50 | After serialized updates with `n1..nm`, the mark is at least every `ni` and the starting mark, and equals one of them. So it is exactly their maximum. |
| `Monitoring.DefaultCounter.GetMaxConcurrency` | core/src/main/java/org/apache/commons/monitoring/counters/DefaultCounter.java:53-55 | Returns the high-water mark, which is never negative. |
| `Monitoring.DefaultCounter.CurrentConcurrency` | core/src/main/java/org/apache/commons/monitoring/counters/DefaultCounter.java:58-60 | Returns the counter's own live gauge object, not a copy. |
| `Monitoring.DefaultCounter.GetKey` | core/src/main/java/org/apache/commons/monitoring/counters/DefaultCounter.java:62-65 | Returns the key given to the constructor. The key is a constant field, so no operation changes it. |
| `Monitoring.DefaultCounter.Reset` | core/src/main/java/org/apache/commons/monitoring/counters/DefaultCounter.java:67-71 | Empties the samples (hits 0) and sets the live gauge to 0. The high-water mark, key and store stay unchanged. |
| `Monitoring.DefaultCounter.Add` | core/src/main/java/org/apache/commons/monitoring/counters/DefaultCounter.java:73-76 | Passes `(this, delta)` to the owning store's `AddToCounter`. The net effect is exactly one appended sample `delta`; the mark is untouched. |
| `Monitoring.DefaultCounter.AddInUnit` | core/src/main/java/org/apache/commons/monitoring/counters/DefaultCounter.java:78-81 | Same as `Add` of `convert(role unit, delta, deltaUnit)`: one sample, converted into the unit of the key's role. |
| `Monitoring.DefaultCounter.GetMax` | core/src/main/java/org/apache/commons/monitoring/counters/DefaultCounter.java:83-92 | None (NaN) iff there are no samples. Otherwise returns a value that is one of the samples and no less than any of them. |
| `Monitoring.DefaultCounter.GetMin` | core/src/main/java/org/apache/commons/monitoring/counters/DefaultCounter.java:94-103 | None (NaN) iff there are no samples. Otherwise returns a value that is one of the samples and no greater than any of them. |
| `Monitoring.DefaultCounter.GetSum` | core/src/main/java/org/apache/commons/monitoring/counters/DefaultCounter.java:105-114 | The total of the samples since creation or the last reset. |
| `Monitoring.DefaultCounter.GetMean` | core/src/main/java/org/apache/commons/monitoring/counters/DefaultCounter.java:138-147 | None (NaN) iff there are no samples. Otherwise returns sum / hits, which lies between the minimum and the maximum. |
| `Monitoring.DefaultCounter.GetHits` | core/src/main/java/org/apache/commons/monitoring/counters/DefaultCounter.java:160-169 | The number of samples since creation or the last reset. |
| `Statistics.Cleared` | core/src/main/java/org/apache/commons/monitoring/counters/DefaultCounter.java:35-39 | The cleared accumulator summarises the empty sample sequence and no other. |
| `Statistics.AddValueSummarises` | core/src/main/java/org/apache/commons/monitoring/counters/DefaultCounter.java:41-43 | Folding `x` into the summary of `s` gives the summary of `s + [x]`: count, sum, min and max all stay exact. |
| `Statistics.SumAppend` | core/src/main/java/org/apache/commons/monitoring/counters/DefaultCounter.java:105-114 | The sum after one more value is the old sum plus that value. |
| `Statistics.MinAppend` | core/src/main/java/org/apache/commons/monitoring/counters/DefaultCounter.java:94-103 | The minimum after one more value is the smaller of the old minimum and that value. |
| `Statistics.MaxAppend` | core/src/main/java/org/apache/commons/monitoring/counters/DefaultCounter.java:83-92 | The maximum after one more value is the larger of the old maximum and that value. |
| `Statistics.MinIsLeast` | core/src/main/java/org/apache/commons/monitoring/counters/DefaultCounter.java:94-103 | The minimum is one of the samples and no greater than any of them. |
| `Statistics.MaxIsGreatest` | core/src/main/java/org/apache/commons/monitoring/counters/DefaultCounter.java:83-92 | The maximum is one of the samples and no less than any of them. |
| `Statistics.SumAtLeast` | core/src/main/java/org/apache/commons/monitoring/counters/DefaultCounter.java:105-114 | The sum of n samples is at least n times their minimum. |
| `Statistics.SumAtMost` | core/src/main/java/org/apache/commons/monitoring/counters/DefaultCounter.java:105-114 | The sum of n samples is at most n times their maximum. |
| `Statistics.MeanBounds` | core/src/main/java/org/apache/commons/monitoring/counters/DefaultCounter.java:138-147 | The mean of non-empty samples lies between their minimum and maximum. |
| `Monitoring.InMemoryCounterBaseStore.constructor` | core/src/main/java/org/apache/commons/monitoring/store/InMemoryCounterBaseStore.java:28 | A new store holds no counters. |
| `Monitoring.InMemoryCounterBaseStore.PutIfAbsent` | core/src/main/java/org/apache/commons/monitoring/store/InMemoryCounterBaseStore.java:35 | Inserts only when the key is absent and then answers None. When the key is present it answers the existing entry and leaves the map alone. |
| `Monitoring.InMemoryCounterBaseStore.GetOrCreateCounter` | core/src/main/java/org/apache/commons/monitoring/store/InMemoryCounterBaseStore.java:31-41 | A present key gives its counter and the map does not change. An absent key gets a fresh counter (its key, this store, no samples, gauge and mark 0), added under that key only; other keys keep their entries. Either way the map sends the key to the result and stays valid. |
| `Monitoring.InMemoryCounterBaseStore.ClearCounters` | core/src/main/java/org/apache/commons/monitoring/store/InMemoryCounterBaseStore.java:43-46 | The map becomes empty. The counters handed out before are not written. |
| `Monitoring.InMemoryCounterBaseStore.GetCounters` | core/src/main/java/org/apache/commons/monitoring/store/InMemoryCounterBaseStore.java:48-51 | Returns exactly the map's values. Each is the counter registered under its own key, and there are as many counters as keys. |
| `Maps.SelfKeyedValuesCount` | core/src/main/java/org/apache/commons/monitoring/store/InMemoryCounterBaseStore.java:31-41 | When every value is stored under its own key, no value appears twice, so a map has as many distinct values as keys. |
| `Monitoring.InMemoryCounterBaseStore.AddToCounter` | core/src/main/java/org/apache/commons/monitoring/store/InMemoryCounterBaseStore.java:53-67 | A foreign counter fails with InvalidArgument carrying the source's message, and nothing changes (empty frame). A `DefaultCounter` gets exactly one appended sample `delta` with its mark kept. The map never changes, and a valid store stays valid. |
| `Scenarios.UnitConversionScenario` | core/src/main/java/org/apache/commons/monitoring/counters/DefaultCounter.java:78-81 | Adding 100 ms and then 2 s to a millisecond metric gives hits 2, sum 2100, min 100 and max 2000. |
| `Scenarios.SameInstanceScenario` | core/src/main/java/org/apache/commons/monitoring/store/InMemoryCounterBaseStore.java:31-41 | Two get-or-create calls with one key give the same instance, and the registry then lists only that instance. |
| `Scenarios.ClearScenario` | core/src/main/java/org/apache/commons/monitoring/store/InMemoryCounterBaseStore.java:43-46 | After clear the registry lists nothing. The old counter keeps its hit, and the same key gives a different counter with 0 hits. |
| `Scenarios.ForeignCounterScenario` | core/src/main/java/org/apache/commons/monitoring/store/InMemoryCounterBaseStore.java:54-57 | A foreign counter is refused with InvalidArgument, and the registered counter still has 0 hits. |
| `Scenarios.ResetScenario` | core/src/main/java/org/apache/commons/monitoring/counters/DefaultCounter.java:67-71 | After a reset, an add leaves the same hits and sum as on a brand-new counter, but the high-water mark reached before the reset survives. |
| `Scenarios.UpdateConcurrencyScenario` | core/src/main/java/org/apache/commons/monitoring/counters/DefaultCounter.java:46-55 | Three serialized `updateConcurrency` calls on a fresh counter leave the mark at `RaisedAll(0, [a, b, c])`: at least 0 and each value, and equal to one of them, so 3, 1, 5 give 5. |

## Left out

- Locks: the read-write lock taken by the getters and by `addToCounter` is not modelled (`DefaultCounter.java:33,83-169`, `InMemoryCounterBaseStore.java:60-66`). Every call is one atomic, sequential step, so blocking and the lack of multi-statistic snapshots are not represented. As written, `InMemoryCounterBaseStore.java:60` assigns the `ReadWriteLock` returned by `getLock()` (`DefaultCounter.java:171-173`) to a `Lock` and calls `lock()` on it, which does not type-check. The evident intent is the counter's write lock, and either way the lock has no effect in a sequential model.
- Atomics: `AtomicInteger` is a plain cell with `set`. The instrumentation's increment and decrement of the live gauge belong to callers and are not modelled.
- Races: the `putIfAbsent` race in `getOrCreateCounter` is not modelled. `PutIfAbsent` keeps the first inserter's entry, but sequentially the branch where it finds an existing entry cannot be reached.
- `Monitoring.DefaultCounter.UpdateConcurrency`: proved for serialized calls only. Under racing writers the Java check-then-set can lose a peak, and the model does not capture that.
- Floating point: `double` arithmetic is modelled as exact reals, so rounding, overflow to infinity and NaN propagation from non-finite inputs are not captured. NaN as the answer of min, max and mean on no samples is modelled as `None`.
- `getVariance`, `getStandardDeviation` and `getSecondMoment` (`DefaultCounter.java:116-136,149-158`): floating-point numerics computed inside commons-math's `SummaryStatistics`, whose code is not part of this model. The mean is kept, as sum / hits over reals.
- `SummaryStatistics` itself is not part of this model. It is replaced by the `Summary` accumulator (count, sum, min, max) that these getters read.
- `getLock` and `toString` (`DefaultCounter.java:171-184`): a lock accessor and string formatting.
- `Unit.convert` is not part of this model. It is a function parameter of `AddInUnit`; the scenario supplies a linear conversion.
- Integer width: `maxConcurrency` is a Java `int` and `getHits` a `long`. Both are unbounded here. The mark only takes values passed in by callers, so the width never matters, and a `long` hit count does not overflow in practice.
- `getCounters` returns a live view of the map in Java; here it is a snapshot set of the map's values.
- Other implementations of the `CounterDataStore` interface are not modelled. A counter's store is always an `InMemoryCounterBaseStore`.
- In Java, `InMemoryCounterBaseStore` is abstract (`InMemoryCounterBaseStore.java:27`). The model makes it concrete and builds it directly. This assumes that the concrete subclass (`DefaultDataStore`, named in the error message) does not override `getOrCreateCounter`, `clearCounters`, `getCounters` or `addToCounter`. That subclass is not part of this model.
- Null arguments cannot be represented. In Java, `addToCounter(null, d)` throws IllegalArgumentException, because `isInstance(null)` is false (`InMemoryCounterBaseStore.java:55-56`). `getOrCreateCounter(null)` throws NullPointerException from `ConcurrentHashMap.get`. Every counter and key here is non-null.
