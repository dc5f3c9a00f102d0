/** Properties of the memory-bandwidth calculation that relate several
    calls or hold across all inputs. */
module FetcherCalculateLemmas {
  import opened Counter
  import opened MetricStore
  import opened FetcherCalculate

  /** The numerator of a suppressed commit is never looked at: when there is
      no new sample, every numerator gives the same store. */
  lemma NumeratorIgnoredWithoutNewSample(
    store: Store, key: Key, numerator: real, otherNumerator: real,
    lastUpdateTime: int, curUpdateTime: int)
    requires !HasNewSample(lastUpdateTime, curUpdateTime)
    ensures RateUpdate(store, key, numerator, lastUpdateTime, curUpdateTime)
         == RateUpdate(store, key, otherNumerator, lastUpdateTime, curUpdateTime)
         == store
  {
  }

  /** A committed rate is the only series that changes; with a new sample,
      exactly one series is written. */
  lemma RateUpdateWritesOneSeries(store: Store, key: Key, numerator: real, lastUpdateTime: int, curUpdateTime: int)
    ensures var r := RateUpdate(store, key, numerator, lastUpdateTime, curUpdateTime);
            (r != store ==> key in r && HasNewSample(lastUpdateTime, curUpdateTime)) &&
            forall k | k != key :: Lookup(r, k) == Lookup(store, k)
  {
  }

  /** None of the four raw-counter series is ever written by a round. */
  lemma RawCountersUntouched(
    store: Store, podUID: string, containerName: string,
    cgStats: CgroupInfo, lastUpdateTimeInSec: int)
    requires CountersReadable(store, podUID, containerName)
    ensures var r := MemBandwidthUpdate(store, podUID, containerName, cgStats, lastUpdateTimeInSec);
            forall k | k in RawCounterKeys(podUID, containerName) :: Lookup(r, k) == Lookup(store, k)
  {
    var r := MemBandwidthUpdate(store, podUID, containerName, cgStats, lastUpdateTimeInSec);
    forall k | k in RawCounterKeys(podUID, containerName)
      ensures Lookup(r, k) == Lookup(store, k)
    {
      assert k !in BandwidthKeys(podUID, containerName) by {
        assert k.metricName != MetricMemBandwidthReadContainer;
        assert k.metricName != MetricMemBandwidthWriteContainer;
      }
    }
  }

  /** The values a round commits: each bandwidth, in megabytes per second,
      is its numerator over the seconds elapsed since the previous sample,
      with the previous counters read from the store before either write. */
  lemma MemBandwidthValues(
    store: Store, podUID: string, containerName: string,
    cgStats: CgroupInfo, lastUpdateTimeInSec: int)
    requires CountersReadable(store, podUID, containerName)
    requires HasNewSample(lastUpdateTimeInSec, SelectCpuStats(cgStats).updateTime)
    ensures var r := MemBandwidthUpdate(store, podUID, containerName, cgStats, lastUpdateTimeInSec);
            var cur := SelectCpuStats(cgStats);
            var seconds := (cur.updateTime - lastUpdateTimeInSec) as real;
            r[ReadBandwidthKey(podUID, containerName)] ==
              Sample(ReadNumerator(PriorCounter(store, podUID, containerName, MetricOCRReadDRAMsContainer),
                                   cur.ocrReadDRAMs) / seconds,
                     cur.updateTime) &&
            r[WriteBandwidthKey(podUID, containerName)] ==
              Sample(WriteNumerator(PriorCounter(store, podUID, containerName, MetricIMCWriteContainer), cur.imcWrites,
                                    PriorCounter(store, podUID, containerName, MetricStoreAllInsContainer), cur.storeAllInstructions,
                                    PriorCounter(store, podUID, containerName, MetricStoreInsContainer), cur.storeInstructions)
                     / seconds,
                     cur.updateTime)
  {
    assert ReadBandwidthKey(podUID, containerName) != WriteBandwidthKey(podUID, containerName);
  }

  /** The bandwidths a round commits are never negative. */
  lemma MemBandwidthNonNegative(
    store: Store, podUID: string, containerName: string,
    cgStats: CgroupInfo, lastUpdateTimeInSec: int)
    requires CountersReadable(store, podUID, containerName)
    requires HasNewSample(lastUpdateTimeInSec, SelectCpuStats(cgStats).updateTime)
    ensures var r := MemBandwidthUpdate(store, podUID, containerName, cgStats, lastUpdateTimeInSec);
            r[ReadBandwidthKey(podUID, containerName)].value >= 0.0 &&
            r[WriteBandwidthKey(podUID, containerName)].value >= 0.0
  {
    MemBandwidthValues(store, podUID, containerName, cgStats, lastUpdateTimeInSec);
  }

  /** As long as the instrumented stores are a subset of all stores, the
      apportioned write volume never exceeds the memory-controller writes. */
  lemma WriteNumeratorBounded(
    lastIMCWrites: Uint64, curIMCWrites: Uint64,
    lastStoreAllIns: Uint64, curStoreAllIns: Uint64,
    lastStoreIns: Uint64, curStoreIns: Uint64)
    requires CounterDelta(lastStoreIns, curStoreIns) <= CounterDelta(lastStoreAllIns, curStoreAllIns)
    ensures WriteNumerator(lastIMCWrites, curIMCWrites, lastStoreAllIns, curStoreAllIns, lastStoreIns, curStoreIns)
            * BytesPerMegabyte <= CounterDelta(lastIMCWrites, curIMCWrites) as real * BytesPerTransfer
  {
    var mb := WriteNumerator(lastIMCWrites, curIMCWrites, lastStoreAllIns, curStoreAllIns, lastStoreIns, curStoreIns);
    var all := CounterDelta(lastStoreAllIns, curStoreAllIns) as real;
    if all > 0.0 {
      ApportionedAtMostWhole(mb, all, BytesPerMegabyte, CounterDelta(lastStoreIns, curStoreIns) as real,
                             CounterDelta(lastIMCWrites, curIMCWrites) as real, BytesPerTransfer);
    }
  }

  /** share * whole, with share = part / all and part <= all, is at most whole. */
  lemma ApportionedAtMostWhole(mb: real, all: real, perMB: real, part: real, imc: real, perWrite: real)
    requires all > 0.0 && perMB > 0.0 && 0.0 <= part <= all && imc >= 0.0 && perWrite >= 0.0
    requires mb * all * perMB == part * imc * perWrite
    ensures mb * perMB <= imc * perWrite
  {
    var scaled := mb * perMB;
    var whole := imc * perWrite;
    assert whole >= 0.0;
    assert scaled * all == part * whole;
    ScaleByNonNegative(part, all, whole);
    CancelPositiveFactor(scaled, whole, all);
  }

  lemma ScaleByNonNegative(x: real, y: real, c: real)
    requires x <= y && c >= 0.0
    ensures x * c <= y * c
  {
    assert (y - x) * c >= 0.0;
  }

  lemma CancelPositiveFactor(x: real, y: real, a: real)
    requires a > 0.0 && x * a <= y * a
    ensures x <= y
  {
    var gap := (y - x) * a;
    assert gap >= 0.0;
    assert y - x == gap / a;
  }

  /** A "V1" cgroup is read from its V1 layout only. */
  lemma V1LayoutSelected(
    store: Store, podUID: string, containerName: string,
    cgStats: CgroupInfo, otherV2: CpuStats, lastUpdateTimeInSec: int)
    requires CountersReadable(store, podUID, containerName)
    requires cgStats.cgroupType == "V1"
    ensures SelectCpuStats(cgStats) == cgStats.v1
    ensures MemBandwidthUpdate(store, podUID, containerName, cgStats, lastUpdateTimeInSec)
         == MemBandwidthUpdate(store, podUID, containerName, cgStats.(v2 := otherV2), lastUpdateTimeInSec)
  {
  }

  /** A "V2" cgroup is read from its V2 layout only. */
  lemma V2LayoutSelected(
    store: Store, podUID: string, containerName: string,
    cgStats: CgroupInfo, otherV1: CpuStats, lastUpdateTimeInSec: int)
    requires CountersReadable(store, podUID, containerName)
    requires cgStats.cgroupType == "V2"
    ensures SelectCpuStats(cgStats) == cgStats.v2
    ensures MemBandwidthUpdate(store, podUID, containerName, cgStats, lastUpdateTimeInSec)
         == MemBandwidthUpdate(store, podUID, containerName, cgStats.(v1 := otherV1), lastUpdateTimeInSec)
  {
  }

  /** Any other cgroup type reads as all-zero counters at time 0, so with a
      non-negative previous time nothing is written. */
  lemma UnknownCgroupTypeWritesNothing(
    store: Store, podUID: string, containerName: string,
    cgStats: CgroupInfo, lastUpdateTimeInSec: int)
    requires CountersReadable(store, podUID, containerName)
    requires cgStats.cgroupType != "V1" && cgStats.cgroupType != "V2"
    requires lastUpdateTimeInSec >= 0
    ensures SelectCpuStats(cgStats) == NoCpuStats
    ensures MemBandwidthUpdate(store, podUID, containerName, cgStats, lastUpdateTimeInSec) == store
  {
  }

  /** The exception to the above: with a negative previous time, an unknown
      cgroup type does pass the guard and writes a zero rate at time 0 into
      both bandwidth series. */
  lemma UnknownCgroupTypeNegativeLastTime(
    store: Store, podUID: string, containerName: string,
    cgStats: CgroupInfo, lastUpdateTimeInSec: int)
    requires CountersReadable(store, podUID, containerName)
    requires cgStats.cgroupType != "V1" && cgStats.cgroupType != "V2"
    requires lastUpdateTimeInSec < 0
    ensures var r := MemBandwidthUpdate(store, podUID, containerName, cgStats, lastUpdateTimeInSec);
            r[ReadBandwidthKey(podUID, containerName)] == Sample(0.0, 0) &&
            r[WriteBandwidthKey(podUID, containerName)] == Sample(0.0, 0)
  {
    MemBandwidthValues(store, podUID, containerName, cgStats, lastUpdateTimeInSec);
  }

  /** Repeating a round with the same statistics changes nothing more: the
      raw counters it reads are not among the series it writes. */
  lemma MemBandwidthUpdateIdempotent(
    store: Store, podUID: string, containerName: string,
    cgStats: CgroupInfo, lastUpdateTimeInSec: int)
    requires CountersReadable(store, podUID, containerName)
    ensures CountersReadable(MemBandwidthUpdate(store, podUID, containerName, cgStats, lastUpdateTimeInSec),
                             podUID, containerName)
    ensures var once := MemBandwidthUpdate(store, podUID, containerName, cgStats, lastUpdateTimeInSec);
            MemBandwidthUpdate(once, podUID, containerName, cgStats, lastUpdateTimeInSec) == once
  {
    var once := MemBandwidthUpdate(store, podUID, containerName, cgStats, lastUpdateTimeInSec);
    RawCountersUntouched(store, podUID, containerName, cgStats, lastUpdateTimeInSec);
    assert CountersReadable(once, podUID, containerName);
    var twice := MemBandwidthUpdate(once, podUID, containerName, cgStats, lastUpdateTimeInSec);
    if HasNewSample(lastUpdateTimeInSec, SelectCpuStats(cgStats).updateTime) {
      MemBandwidthValues(store, podUID, containerName, cgStats, lastUpdateTimeInSec);
      MemBandwidthValues(once, podUID, containerName, cgStats, lastUpdateTimeInSec);
      assert twice.Keys == once.Keys;
    }
  }

  // Concrete rounds for one container that already has history.

  const Pod: string := "pod-1"
  const Container: string := "main"

  function RawSamples(ocrReadDRAMs: real, imcWrites: real, storeAllIns: real, storeIns: real, time: int): Store
  {
    map[Key(Pod, Container, MetricOCRReadDRAMsContainer) := Sample(ocrReadDRAMs, time),
        Key(Pod, Container, MetricIMCWriteContainer) := Sample(imcWrites, time),
        Key(Pod, Container, MetricStoreAllInsContainer) := Sample(storeAllIns, time),
        Key(Pod, Container, MetricStoreInsContainer) := Sample(storeIns, time)]
  }

  /** 64 DRAM reads in one second: 4096 bytes, 1/256 MB/s. */
  lemma ScenarioReadBandwidth()
    ensures var store := RawSamples(100.0, 0.0, 0.0, 0.0, 10);
            var cg := CgroupInfo("V1", CpuStats(164, 0, 0, 0, 11), NoCpuStats);
            CountersReadable(store, Pod, Container) &&
            MemBandwidthUpdate(store, Pod, Container, cg, 10)[ReadBandwidthKey(Pod, Container)]
              == Sample(0.00390625, 11)
  {
    var store := RawSamples(100.0, 0.0, 0.0, 0.0, 10);
    var cg := CgroupInfo("V1", CpuStats(164, 0, 0, 0, 11), NoCpuStats);
    assert CountersReadable(store, Pod, Container);
    MemBandwidthValues(store, Pod, Container, cg, 10);
  }

  /** No store instructions counted: the write bandwidth is written as 0,
      whatever the memory-controller writes. */
  lemma ScenarioNoStores()
    ensures var store := RawSamples(0.0, 0.0, 0.0, 0.0, 10);
            var cg := CgroupInfo("V2", NoCpuStats, CpuStats(0, 50, 0, 0, 11));
            CountersReadable(store, Pod, Container) &&
            MemBandwidthUpdate(store, Pod, Container, cg, 10)[WriteBandwidthKey(Pod, Container)]
              == Sample(0.0, 11)
  {
    var store := RawSamples(0.0, 0.0, 0.0, 0.0, 10);
    var cg := CgroupInfo("V2", NoCpuStats, CpuStats(0, 50, 0, 0, 11));
    assert CountersReadable(store, Pod, Container);
    MemBandwidthValues(store, Pod, Container, cg, 10);
  }

  /** No history (previous time 0): neither series is written. */
  lemma ScenarioNoHistory(store: Store, cgStats: CgroupInfo)
    requires CountersReadable(store, Pod, Container)
    ensures MemBandwidthUpdate(store, Pod, Container, cgStats, 0) == store
  {
  }

  /** The read counter went backwards: the read bandwidth is written as 0. */
  lemma ScenarioReadRollover()
    ensures var store := RawSamples(500.0, 0.0, 0.0, 0.0, 10);
            var cg := CgroupInfo("V1", CpuStats(20, 0, 0, 0, 12), NoCpuStats);
            CountersReadable(store, Pod, Container) &&
            MemBandwidthUpdate(store, Pod, Container, cg, 10)[ReadBandwidthKey(Pod, Container)]
              == Sample(0.0, 12)
  {
    var store := RawSamples(500.0, 0.0, 0.0, 0.0, 10);
    var cg := CgroupInfo("V1", CpuStats(20, 0, 0, 0, 12), NoCpuStats);
    assert CountersReadable(store, Pod, Container);
    MemBandwidthValues(store, Pod, Container, cg, 10);
  }

  /** 64 reads, 1024 IMC writes, 4 of 8 stores instrumented, in one second:
      1/256 MB/s read, and half of 1024 writes of 64 bytes, 1/32 MB/s, written. */
  lemma ScenarioBothBandwidths()
    ensures var store := RawSamples(100.0, 10.0, 40.0, 20.0, 10);
            var cg := CgroupInfo("V1", CpuStats(164, 1034, 48, 24, 11), NoCpuStats);
            var r := MemBandwidthUpdate(store, Pod, Container, cg, 10);
            CountersReadable(store, Pod, Container) &&
            r[ReadBandwidthKey(Pod, Container)] == Sample(0.00390625, 11) &&
            r[WriteBandwidthKey(Pod, Container)] == Sample(0.03125, 11)
  {
    var store := RawSamples(100.0, 10.0, 40.0, 20.0, 10);
    var cg := CgroupInfo("V1", CpuStats(164, 1034, 48, 24, 11), NoCpuStats);
    assert CountersReadable(store, Pod, Container);
    assert PriorCounter(store, Pod, Container, MetricOCRReadDRAMsContainer) == 100;
    assert PriorCounter(store, Pod, Container, MetricIMCWriteContainer) == 10;
    assert PriorCounter(store, Pod, Container, MetricStoreAllInsContainer) == 40;
    assert PriorCounter(store, Pod, Container, MetricStoreInsContainer) == 20;
    assert CounterDelta(40, 48) == 8 && CounterDelta(20, 24) == 4 && CounterDelta(10, 1034) == 1024;
    var mb := WriteNumerator(10, 1034, 40, 48, 20, 24);
    assert mb * 8.0 * 1048576.0 == 4.0 * 1024.0 * 64.0;
    MemBandwidthValues(store, Pod, Container, cg, 10);
  }

  /** A caller of the fetcher obtains the same results through its methods. */
  method FetcherHarness()
  {
    var raw := RawSamples(100.0, 10.0, 40.0, 20.0, 10);
    var cg := CgroupInfo("V1", CpuStats(164, 1034, 48, 24, 11), NoCpuStats);
    ScenarioBothBandwidths();
    var fetcher := new MalachiteMetricsFetcher(raw);
    fetcher.ProcessContainerMemBandwidth(Pod, Container, cg, 10);
    assert fetcher.metricStore[ReadBandwidthKey(Pod, Container)] == Sample(0.00390625, 11);
    assert fetcher.metricStore[WriteBandwidthKey(Pod, Container)] == Sample(0.03125, 11);

    // Same statistics again: the time has not moved on, nothing is written.
    RawCountersUntouched(raw, Pod, Container, cg, 10);
    ghost var before := fetcher.metricStore;
    fetcher.ProcessContainerMemBandwidth(Pod, Container, cg, 11);
    assert fetcher.metricStore == before;
  }
}
