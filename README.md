# Memory-bandwidth rates of the Malachite metrics fetcher

This project models the part of the Katalyst Malachite metrics fetcher that
turns a container's hardware counters into memory read and write bandwidth,
in megabytes per second. It then proves properties of that model in Dafny.

The calculation has three layers:

- `Counter.CounterDelta` (`uint64CounterDelta`) gives the increase of an
  unsigned 64-bit counter between two readings. When the counter went
  backwards (rollover or reset) it reports 0.
- `MalachiteMetricsFetcher.SetContainerRateMetric` (`setContainerRateMetric`)
  is a guarded commit into the fetcher's metric store. It writes
  nothing when there is no previous sample (previous time 0) or when the
  current time is not after the previous one (no time elapsed, or time went
  backwards). Otherwise exactly one series,
  (pod, container, metric name), gets the numerator divided by the elapsed
  seconds, stamped with the current time. The numerator is passed as a
  function value, and that function is only called after the guard passes.
- `MalachiteMetricsFetcher.ProcessContainerMemBandwidth`
  (`processContainerMemBandwidth`) runs in three steps. It reads the four
  previous raw counters of the container from the store. It picks the current
  counters and time from the cgroup statistics: `"V1"` and `"V2"` select
  their layouts, and any other type leaves all of them at zero. It then
  commits the read and the write bandwidth over the same time interval.

The fetcher is a class whose only field is the metric store, a
`map<Key, Sample>`. Its two methods are proved against the pure functions
`RateUpdate` and `MemBandwidthUpdate`. The properties are proved as lemmas
about those functions. The lemmas are in `fetcher_calculate_lemmas.dfy`
(module `FetcherCalculateLemmas`), and the delta lemmas are in
`counter.dfy`.

Values are `real` and the counters are integers in `[0, 2^64)`. Timestamps
are integer Unix seconds.

The previous time is a parameter that the caller of
`processContainerMemBandwidth` supplies. The stored time of the raw-counter
samples is not consulted. A missing raw-counter series reads as value 0,
because the source ignores the store's `found` flag.

## Model

| member | source | states |
|---|---|---|
| `Counter.CounterDelta` | pkg/metaserver/agent/metric/malachite/fetcher_calculate.go:113-121 | the delta stays in uint64 range, never exceeds the current reading, and is either 0 or exactly the amount by which the reading rose; it is 0 exactly when the current reading is not above the previous one |
| `Counter.DeltaWithoutRollover` | pkg/metaserver/agent/metric/malachite/fetcher_calculate.go:113-116 | when current >= previous the delta is current - previous, with no underflow, and it agrees with Go's wrapping uint64 subtraction |
| `Counter.DeltaOnRollover` | pkg/metaserver/agent/metric/malachite/fetcher_calculate.go:118-120 | when current < previous the delta is 0, whereas the wrapping subtraction would report current - previous + 2^64, more than the current reading itself |
| `Counter.DeltaNeverOverestimates` | pkg/metaserver/agent/metric/malachite/fetcher_calculate.go:110-121 | for any true event count that moves the counter from previous to current modulo 2^64, the delta is at most that count, and exact when fewer than 2^64 events happened without a visible regression |
| `Counter.TotalIncreaseTelescopes` | pkg/metaserver/agent/metric/malachite/fetcher_calculate.go:113-116 | for a counter that never goes backwards, the deltas of consecutive readings add up to last minus first reading, so no event is lost or counted twice |
| `MetricStore.Lookup` | pkg/metaserver/agent/metric/malachite/fetcher_calculate.go:33-36 | a read returns the stored sample of the key, and a missing key reads as value 0 at time 0, since the `found` result is ignored |
| `FetcherCalculate.SelectCpuStats` | pkg/metaserver/agent/metric/malachite/fetcher_calculate.go:45-62 | type "V1" selects the V1 counters and time, "V2" the V2 ones, and any other type leaves all four counters and the time at their zero defaults |
| `FetcherCalculate.PriorCounter` | pkg/metaserver/agent/metric/malachite/fetcher_calculate.go:33-42 | the previous reading of a raw counter is the stored value with its fraction dropped, and 0 when the series is missing |
| `FetcherCalculate.HasNewSample` | pkg/metaserver/agent/metric/malachite/fetcher_calculate.go:93-101 | the guard fails for each of the three skip reasons (previous time 0, no time elapsed, time going backwards) and passes exactly when the previous time is non-zero and the current time is at least one second later |
| `FetcherCalculate.ToCounter` | pkg/metaserver/agent/metric/malachite/fetcher_calculate.go:39-42 | a stored value in uint64 range converts back to the counter obtained by dropping its fraction |
| `FetcherCalculate.ReadNumerator` | pkg/metaserver/agent/metric/malachite/fetcher_calculate.go:66-69 | the read megabytes times 1048576 equal the read-counter delta times 64 bytes; the value is non-negative and is 0 exactly when the counter did not rise |
| `FetcherCalculate.WriteNumerator` | pkg/metaserver/agent/metric/malachite/fetcher_calculate.go:74-85 | the write megabytes are 0 whenever the all-stores delta is 0, whatever the other counters; otherwise they are the IMC-write bytes scaled by the share of instrumented stores in all stores (mb * storeAll * 1048576 == storeIns * imcWrites * 64); never negative |
| `FetcherCalculate.RateUpdate` | pkg/metaserver/agent/metric/malachite/fetcher_calculate.go:92-108 | with previous time 0, or current time not after the previous one, the store is unchanged; otherwise exactly the key is added or overwritten, with value numerator / (cur - last) and time cur, and every other key keeps its sample |
| `FetcherCalculate.MemBandwidthUpdate` | pkg/metaserver/agent/metric/malachite/fetcher_calculate.go:31-87 | a round changes at most the two bandwidth series; with no new sample nothing changes; with a new sample both are written, stamped with the current time |
| `FetcherCalculate.MalachiteMetricsFetcher.SetContainerRateMetric` | pkg/metaserver/agent/metric/malachite/fetcher_calculate.go:92-108 | the new store is `RateUpdate` of the old one for (podUID, containerName, targetMetricName); the body calls the numerator function only after the guard has passed, which a contract cannot state because the call has no effect; its contract-level counterpart is `NumeratorIgnoredWithoutNewSample` |
| `FetcherCalculate.MalachiteMetricsFetcher.ProcessContainerMemBandwidth` | pkg/metaserver/agent/metric/malachite/fetcher_calculate.go:31-87 | the new store is `MemBandwidthUpdate` of the old one; the method reads the four previous counters, dispatches on the cgroup type and makes the two guarded commits |
| `FetcherCalculateLemmas.NumeratorIgnoredWithoutNewSample` | pkg/metaserver/agent/metric/malachite/fetcher_calculate.go:93-101 | when the guard fails, any two numerators give the same store, which is the old one; the numerator is only needed when the guard passes |
| `FetcherCalculateLemmas.RateUpdateWritesOneSeries` | pkg/metaserver/agent/metric/malachite/fetcher_calculate.go:105-107 | a commit changes the store only when the guard passes and then only at its own key; every other key reads the same afterwards |
| `FetcherCalculateLemmas.RawCountersUntouched` | pkg/metaserver/agent/metric/malachite/fetcher_calculate.go:33-36 | the four raw-counter series the round reads are never written by it |
| `FetcherCalculateLemmas.MemBandwidthValues` | pkg/metaserver/agent/metric/malachite/fetcher_calculate.go:64-86 | with a new sample, the read and write series hold their numerators, computed from the counters read before either write, divided by the elapsed seconds, stamped with the current time |
| `FetcherCalculateLemmas.MemBandwidthNonNegative` | pkg/metaserver/agent/metric/malachite/fetcher_calculate.go:64-86 | every bandwidth a round writes is >= 0 |
| `FetcherCalculateLemmas.WriteNumeratorBounded` | pkg/metaserver/agent/metric/malachite/fetcher_calculate.go:80-84 | when the instrumented-store delta does not exceed the all-stores delta, the write megabytes do not exceed the IMC-write bytes over 1048576 |
| `FetcherCalculateLemmas.V1LayoutSelected` | pkg/metaserver/agent/metric/malachite/fetcher_calculate.go:50-55 | type "V1" selects the V1 counters and time; the result does not depend on the V2 layout at all |
| `FetcherCalculateLemmas.V2LayoutSelected` | pkg/metaserver/agent/metric/malachite/fetcher_calculate.go:56-61 | type "V2" selects the V2 counters and time; the result does not depend on the V1 layout at all |
| `FetcherCalculateLemmas.UnknownCgroupTypeWritesNothing` | pkg/metaserver/agent/metric/malachite/fetcher_calculate.go:45-62 | any other type yields all-zero counters at time 0, and the store is unchanged whenever the previous time is non-negative |
| `FetcherCalculateLemmas.UnknownCgroupTypeNegativeLastTime` | pkg/metaserver/agent/metric/malachite/fetcher_calculate.go:45-100 | with a negative previous time an unknown type does pass the guard and writes a zero rate at time 0 into both series |
| `FetcherCalculateLemmas.MemBandwidthUpdateIdempotent` | pkg/metaserver/agent/metric/malachite/fetcher_calculate.go:31-87 | repeating a round with the same statistics and previous time leaves the store as the first round left it |
| `FetcherCalculateLemmas.ScenarioReadBandwidth` | pkg/metaserver/agent/metric/malachite/fetcher_calculate.go:64-70 | read counter 100 at t=10, then 164 at t=11: read bandwidth 64 * 64 / 1048576 = 0.00390625 MB/s at t=11 |
| `FetcherCalculateLemmas.ScenarioBothBandwidths` | pkg/metaserver/agent/metric/malachite/fetcher_calculate.go:64-86 | 64 DRAM reads, 1024 IMC writes and 4 of 8 stores instrumented in one second: read 0.00390625 MB/s and write 0.03125 MB/s at t=11 |
| `FetcherCalculateLemmas.ScenarioNoStores` | pkg/metaserver/agent/metric/malachite/fetcher_calculate.go:73-86 | no store instructions counted, 50 IMC writes: write bandwidth 0 at t=11 |
| `FetcherCalculateLemmas.ScenarioNoHistory` | pkg/metaserver/agent/metric/malachite/fetcher_calculate.go:93-100 | previous time 0: no series is written, for any counters |
| `FetcherCalculateLemmas.ScenarioReadRollover` | pkg/metaserver/agent/metric/malachite/fetcher_calculate.go:113-120 | read counter 500, then 20: read bandwidth 0 for that interval |

`FetcherCalculateLemmas.FetcherHarness` is a client of the class. It checks
one round with V1 counters through the methods: 0.00390625 MB/s read and
0.03125 MB/s write. It then checks that a second round with the same
timestamp changes nothing.

## Left out

- IEEE-754 floating point. Values and numerators are exact `real`s, so the model has no rounding. It also leaves out the `float64` and `int64` round trips of the timestamps and the precision lost when a large counter is stored as a `float64`.
- FetcherCalculate.ToCounter: the `uint64(metric.Value)` conversion is modelled only for stored values in `[0, 2^64)`, as a precondition (`CountersReadable`). Go leaves the result for other values to the implementation.
- Go `int64` overflow in `curUpdateTime - lastUpdateTime`. Timestamps are unbounded integers, which is faithful for real epoch seconds.
- The conversion of the commit time with `time.Unix`. The stored time is the integer second `curUpdateTime`.
- The metric store's internals (`GetContainerMetric`, `SetContainerMetric`, history and retention). The store is the latest sample per key. A missing key reads as value 0 at time 0.
- Nil `V1` or `V2` pointers in the cgroup statistics. Both layouts are always present in `CgroupInfo`, and the cgroup type says which one is read.
- The collection of raw statistics and the actual values of the six metric-name constants; both are defined outside this file. The model uses six distinct placeholder strings.
- Concurrent callers racing on one key. The source does an unsynchronised read-modify-write and relies on its caller to serialise calls.
