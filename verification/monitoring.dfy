/** The counter aggregate (DefaultCounter) and the in-memory registry that maps
    keys to counters (InMemoryCounterBaseStore).

    The two classes refer to each other (a counter keeps a back-reference to the
    store that owns it and routes its writes through it), so they share one
    module. Every call is treated as atomic: locks and atomics are not modelled. */
module Monitoring {
  import opened Wrappers
  import opened Keys
  import opened Statistics
  import opened Gauge
  import Maps

  /** java.util.concurrent.atomic.AtomicInteger, reduced to a plain cell. */
  class AtomicInteger {
    var value: int

    constructor (initial: int)
      ensures value == initial
    {
      value := initial;
    }

    method Set(v: int)
      modifies this
      ensures value == v
    {
      value := v;
    }
  }

  /** The outcome of routing a write through the store; the Java code throws
      IllegalArgumentException where this says InvalidArgument. */
  datatype Outcome = Done | InvalidArgument(message: string)

  /** The message the store reports for a counter of another implementation. */
  const OnlyDefaultCounters: string :=
    "org.apache.commons.monitoring.store.DefaultDataStore only supports org.apache.commons.monitoring.counters.DefaultCounter"

  /** A value of the Counter interface. The set of implementations is closed:
      this module's DefaultCounter, or one from elsewhere, known only by the
      name of its class. */
  datatype Counter = Default(dc: DefaultCounter) | Foreign(className: string)
  {
    /** The objects a write to this counter may touch. */
    function Objects(): set<object>
    {
      if Default? then {dc} else {}
    }
  }

  class DefaultCounter {
    /** The live number of in-flight operations, handed out to instrumentation. */
    const concurrency: AtomicInteger
    const key: Key
    const dataStore: InMemoryCounterBaseStore
    /** High-water mark of the concurrency; reset() leaves it alone. */
    var maxConcurrency: int
    /** The running statistics (SummaryStatistics in the Java code). */
    var statistics: Summary
    /** Every value added since creation or the last reset, in order. */
    ghost var samples: seq<real>

    ghost predicate Valid()
      reads this
    {
      Summarises(statistics, samples) && maxConcurrency >= 0
    }

    constructor (key: Key, store: InMemoryCounterBaseStore)
      ensures Valid()
      ensures this.key == key && dataStore == store
      ensures samples == [] && maxConcurrency == 0
      ensures fresh(concurrency) && concurrency.value == 0
    {
      concurrency := new AtomicInteger(0);
      this.key := key;
      statistics := Cleared();
      samples := [];
      dataStore := store;
      maxConcurrency := 0;
    }

    /** Folds one value into the statistics; only the store calls it. */
    method AddInternal(delta: real)
      requires Valid()
      modifies this`statistics, this`samples
      ensures Valid()
      ensures samples == old(samples) + [delta]
    {
      AddValueSummarises(statistics, samples, delta);
      statistics := AddValue(statistics, delta);
      samples := samples + [delta];
    }

    method UpdateConcurrency(n: int)
      requires Valid()
      modifies this`maxConcurrency
      ensures Valid()
      ensures maxConcurrency == Raised(old(maxConcurrency), n)
    {
      if n > maxConcurrency {
        maxConcurrency := n;
      }
    }

    method GetMaxConcurrency() returns (m: int)
      requires Valid()
      ensures m == maxConcurrency && m >= 0
    {
      m := maxConcurrency;
    }

    /** The live gauge itself, so that callers can move it. */
    method CurrentConcurrency() returns (gauge: AtomicInteger)
      ensures gauge == concurrency
    {
      gauge := concurrency;
    }

    method GetKey() returns (k: Key)
      ensures k == key
    {
      k := key;
    }

    /** Clears the statistics and the live gauge; the high-water mark, the key
        and the store stay as they were. */
    method Reset()
      requires Valid()
      modifies this`statistics, this`samples, concurrency
      ensures Valid()
      ensures samples == [] && concurrency.value == 0
      ensures maxConcurrency == old(maxConcurrency)
    {
      statistics := Cleared();
      samples := [];
      concurrency.Set(0);
    }

    /** Adds a value by handing this counter and the value to the owning store. */
    method Add(delta: real)
      requires Valid()
      modifies this
      ensures Valid()
      ensures samples == old(samples) + [delta]
      ensures maxConcurrency == old(maxConcurrency)
    {
      var outcome := dataStore.AddToCounter(Default(this), delta);
    }

    /** Adds a value given in `deltaUnit`, first converted into the unit of the
        key's role. */
    method AddInUnit(delta: real, deltaUnit: Unit, convert: Converter)
      requires Valid()
      modifies this
      ensures Valid()
      ensures samples == old(samples) + [convert(key.role.unit, delta, deltaUnit)]
      ensures maxConcurrency == old(maxConcurrency)
    {
      Add(convert(key.role.unit, delta, deltaUnit));
    }

    method GetHits() returns (hits: nat)
      requires Valid()
      ensures hits == |samples|
    {
      hits := statistics.n;
    }

    method GetSum() returns (sum: real)
      requires Valid()
      ensures sum == Sum(samples)
    {
      sum := statistics.sum;
    }

    /** The least value added, or None (NaN in Java) when there is none. */
    method GetMin() returns (min: Option<real>)
      requires Valid()
      ensures min.None? <==> samples == []
      ensures min.Some? ==> min.value == Min(samples) && min.value in samples
      ensures min.Some? ==> forall i :: 0 <= i < |samples| ==> min.value <= samples[i]
    {
      if statistics.n == 0 {
        min := None;
      } else {
        MinIsLeast(samples);
        min := Some(statistics.min);
      }
    }

    /** The greatest value added, or None (NaN in Java) when there is none. */
    method GetMax() returns (max: Option<real>)
      requires Valid()
      ensures max.None? <==> samples == []
      ensures max.Some? ==> max.value == Max(samples) && max.value in samples
      ensures max.Some? ==> forall i :: 0 <= i < |samples| ==> samples[i] <= max.value
    {
      if statistics.n == 0 {
        max := None;
      } else {
        MaxIsGreatest(samples);
        max := Some(statistics.max);
      }
    }

    /** The mean of the values added, or None (NaN in Java) when there is none. */
    method GetMean() returns (mean: Option<real>)
      requires Valid()
      ensures mean.None? <==> samples == []
      ensures mean.Some? ==> mean.value == Mean(samples)
      ensures mean.Some? ==> Min(samples) <= mean.value <= Max(samples)
    {
      if statistics.n == 0 {
        mean := None;
      } else {
        MeanBounds(samples);
        mean := Some(statistics.sum / statistics.n as real);
      }
    }
  }

  class InMemoryCounterBaseStore {
    var counters: map<Key, DefaultCounter>

    /** Each registered counter is the one built for its own key by this store. */
    ghost predicate Valid()
      reads this, counters.Values
    {
      forall k :: k in counters ==>
        counters[k].key == k && counters[k].dataStore == this && counters[k].Valid()
    }

    constructor ()
      ensures Valid() && counters == map[]
    {
      counters := map[];
    }

    /** ConcurrentMap.putIfAbsent: inserts only when the key is absent, and
        answers the entry that was already there. */
    method PutIfAbsent(key: Key, counter: DefaultCounter) returns (previous: Option<DefaultCounter>)
      modifies this`counters
      ensures key in old(counters) ==> previous == Some(old(counters)[key]) && counters == old(counters)
      ensures key !in old(counters) ==> previous == None && counters == old(counters)[key := counter]
    {
      if key in counters {
        previous := Some(counters[key]);
      } else {
        previous := None;
        counters := counters[key := counter];
      }
    }

    /** The counter registered for `key`, made and registered first if there is none. */
    method GetOrCreateCounter(key: Key) returns (counter: DefaultCounter)
      requires Valid()
      modifies this`counters
      ensures Valid()
      ensures key in counters && counters[key] == counter
      ensures counter.key == key && counter.dataStore == this
      ensures key in old(counters) ==> counter == old(counters)[key] && counters == old(counters)
      ensures key !in old(counters) ==> counters == old(counters)[key := counter]
      ensures key !in old(counters) ==> fresh(counter) && fresh(counter.concurrency) && counter.samples == [] &&
                                        counter.maxConcurrency == 0 && counter.concurrency.value == 0
    {
      var existing := if key in counters then Some(counters[key]) else None;
      match existing {
        case Some(c) =>
          counter := c;
        case None =>
          counter := new DefaultCounter(key, this);
          var previous := PutIfAbsent(key, counter);
          match previous {
            case Some(winner) => counter := winner;
            case None =>
          }
      }
    }

    /** Forgets every counter; the counters themselves are left as they are. */
    method ClearCounters()
      modifies this`counters
      ensures Valid() && counters == map[]
    {
      counters := map[];
    }

    /** The registered counters: exactly the values of the map, one per key. */
    method GetCounters() returns (all: set<DefaultCounter>)
      requires Valid()
      ensures all == counters.Values
      ensures forall c :: c in all ==> c.key in counters && counters[c.key] == c
      ensures |all| == |counters|
    {
      all := counters.Values;
      Maps.SelfKeyedValuesCount(counters, (c: DefaultCounter) => c.key);
    }

    /** The one path that writes a counter's statistics. Counters of another
        implementation are refused and nothing changes. */
    method AddToCounter(counter: Counter, delta: real) returns (outcome: Outcome)
      requires counter.Default? ==> counter.dc.Valid()
      modifies counter.Objects()
      ensures counter.Foreign? ==> outcome == InvalidArgument(OnlyDefaultCounters)
      ensures counter.Default? ==> outcome == Done && counter.dc.Valid() &&
                                   counter.dc.samples == old(counter.dc.samples) + [delta] &&
                                   counter.dc.maxConcurrency == old(counter.dc.maxConcurrency)
      ensures unchanged(this)
      ensures old(Valid()) ==> Valid()
    {
      match counter {
        case Foreign(_) =>
          outcome := InvalidArgument(OnlyDefaultCounters);
        case Default(c) =>
          c.AddInternal(delta);
          outcome := Done;
      }
    }
  }
}
