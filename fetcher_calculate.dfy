/** Memory-bandwidth rates of a container, derived from two readings of its
    hardware counters: the previous one kept in the metric store, the
    current one taken from the cgroup statistics. */
module FetcherCalculate {
  import opened Counter
  import opened MetricStore

  // Names of the store series involved. Their actual values live outside
  // this model; only their being pairwise distinct matters.
  const MetricOCRReadDRAMsContainer: string := "cpu.read.drams.container"
  const MetricIMCWriteContainer: string := "cpu.imc.writes.container"
  const MetricStoreAllInsContainer: string := "cpu.store.all.ins.container"
  const MetricStoreInsContainer: string := "cpu.store.ins.container"
  const MetricMemBandwidthReadContainer: string := "mem.bandwidth.read.container"
  const MetricMemBandwidthWriteContainer: string := "mem.bandwidth.write.container"

  /** Bytes moved by one DRAM read request or memory-controller write. */
  const BytesPerTransfer: real := 64.0

  /** Bytes per megabyte, `1024 * 1024`. */
  const BytesPerMegabyte: real := 1048576.0

  /** The CPU counters of one cgroup layout, and the Unix second they were
      sampled at. */
  datatype CpuStats = CpuStats(
    ocrReadDRAMs: Uint64,
    imcWrites: Uint64,
    storeAllInstructions: Uint64,
    storeInstructions: Uint64,
    updateTime: int)

  /** Raw statistics of a container's cgroup; `cgroupType` says which of the
      two layouts is meaningful. */
  datatype CgroupInfo = CgroupInfo(cgroupType: string, v1: CpuStats, v2: CpuStats)

  /** The readings an unknown cgroup type yields: all zero, time 0. */
  const NoCpuStats: CpuStats := CpuStats(0, 0, 0, 0, 0)

  /** The current readings, picked by the cgroup type. */
  function SelectCpuStats(cgStats: CgroupInfo): (cur: CpuStats)
    ensures cgStats.cgroupType == "V1" ==> cur == cgStats.v1
    ensures cgStats.cgroupType == "V2" ==> cur == cgStats.v2
    ensures cgStats.cgroupType != "V1" && cgStats.cgroupType != "V2" ==>
              cur.ocrReadDRAMs == cur.imcWrites == cur.storeAllInstructions == cur.storeInstructions == 0 &&
              cur.updateTime == 0
  {
    if cgStats.cgroupType == "V1" then cgStats.v1
    else if cgStats.cgroupType == "V2" then cgStats.v2
    else NoCpuStats
  }

  function ReadBandwidthKey(podUID: string, containerName: string): Key
  {
    Key(podUID, containerName, MetricMemBandwidthReadContainer)
  }

  function WriteBandwidthKey(podUID: string, containerName: string): Key
  {
    Key(podUID, containerName, MetricMemBandwidthWriteContainer)
  }

  /** The two series the calculator may write for one container. */
  function BandwidthKeys(podUID: string, containerName: string): set<Key>
  {
    {ReadBandwidthKey(podUID, containerName), WriteBandwidthKey(podUID, containerName)}
  }

  /** The four raw-counter series the calculator reads for one container. */
  function RawCounterKeys(podUID: string, containerName: string): set<Key>
  {
    {Key(podUID, containerName, MetricOCRReadDRAMsContainer),
     Key(podUID, containerName, MetricIMCWriteContainer),
     Key(podUID, containerName, MetricStoreAllInsContainer),
     Key(podUID, containerName, MetricStoreInsContainer)}
  }

  /** A stored value can be read back as a `uint64` counter. */
  predicate CounterValue(v: real)
  {
    0.0 <= v < UINT64_BOUND as real
  }

  /** The four raw-counter samples of a container hold counter values. */
  predicate CountersReadable(store: Store, podUID: string, containerName: string)
  {
    forall k | k in RawCounterKeys(podUID, containerName) :: CounterValue(Lookup(store, k).value)
  }

  /** Conversion of a stored value back to a counter, dropping any fraction. */
  function ToCounter(v: real): (c: Uint64)
    requires CounterValue(v)
    ensures c as real <= v < c as real + 1.0
  {
    v.Floor
  }

  /** The previous reading of a raw counter of a container. */
  function PriorCounter(store: Store, podUID: string, containerName: string, metricName: string): (c: Uint64)
    requires CountersReadable(store, podUID, containerName)
    requires Key(podUID, containerName, metricName) in RawCounterKeys(podUID, containerName)
    ensures Key(podUID, containerName, metricName) !in store ==> c == 0
    ensures Key(podUID, containerName, metricName) in store ==>
              c as real <= store[Key(podUID, containerName, metricName)].value < c as real + 1.0
  {
    ToCounter(Lookup(store, Key(podUID, containerName, metricName)).value)
  }

  /** Megabytes read from DRAM between two readings of the read counter. */
  function ReadNumerator(lastOCRReadDRAMs: Uint64, curOCRReadDRAMs: Uint64): (mb: real)
    ensures mb * BytesPerMegabyte == CounterDelta(lastOCRReadDRAMs, curOCRReadDRAMs) as real * BytesPerTransfer
    ensures mb >= 0.0
    ensures mb == 0.0 <==> curOCRReadDRAMs <= lastOCRReadDRAMs
  {
    CounterDelta(lastOCRReadDRAMs, curOCRReadDRAMs) as real * 64.0 / (1024.0 * 1024.0)
  }

  /** Megabytes written between two readings: the memory-controller writes,
      apportioned by the share of the instrumented stores among all stores;
      0 when no store at all was counted. */
  function WriteNumerator(
    lastIMCWrites: Uint64, curIMCWrites: Uint64,
    lastStoreAllIns: Uint64, curStoreAllIns: Uint64,
    lastStoreIns: Uint64, curStoreIns: Uint64): (mb: real)
    ensures mb >= 0.0
    ensures CounterDelta(lastStoreAllIns, curStoreAllIns) == 0 ==> mb == 0.0
    ensures CounterDelta(lastStoreAllIns, curStoreAllIns) > 0 ==>
              mb * CounterDelta(lastStoreAllIns, curStoreAllIns) as real * BytesPerMegabyte
              == CounterDelta(lastStoreIns, curStoreIns) as real
                 * CounterDelta(lastIMCWrites, curIMCWrites) as real * BytesPerTransfer
  {
    var storeAllInsInc := CounterDelta(lastStoreAllIns, curStoreAllIns);
    if storeAllInsInc == 0 then 0.0
    else
      var storeInsInc := CounterDelta(lastStoreIns, curStoreIns);
      var imcWritesInc := CounterDelta(lastIMCWrites, curIMCWrites);
      var share := storeInsInc as real / storeAllInsInc as real;
      assert share >= 0.0 && share * storeAllInsInc as real == storeInsInc as real;
      var perMegabyte := share / (1024.0 * 1024.0);
      assert perMegabyte >= 0.0 && perMegabyte * BytesPerMegabyte == share;
      assert perMegabyte * imcWritesInc as real >= 0.0;
      perMegabyte * imcWritesInc as real * 64.0
  }

  /** There is a previous sample and time has moved on since it. Each of
      the three reasons to skip a commit rules it out: no previous sample,
      no time elapsed, time going backwards. */
  predicate HasNewSample(lastUpdateTime: int, curUpdateTime: int): (due: bool)
    ensures lastUpdateTime == 0 ==> !due
    ensures curUpdateTime == lastUpdateTime ==> !due
    ensures curUpdateTime < lastUpdateTime ==> !due
    ensures due <==> lastUpdateTime != 0 && curUpdateTime >= lastUpdateTime + 1
  {
    lastUpdateTime != 0 && curUpdateTime - lastUpdateTime > 0
  }

  /** The store after committing a rate with numerator `numerator` for the
      interval from `lastUpdateTime` to `curUpdateTime` under `key`. */
  function RateUpdate(store: Store, key: Key, numerator: real, lastUpdateTime: int, curUpdateTime: int): (r: Store)
    ensures lastUpdateTime == 0 ==> r == store
    ensures curUpdateTime <= lastUpdateTime ==> r == store
    ensures lastUpdateTime != 0 && curUpdateTime > lastUpdateTime ==>
              r.Keys == store.Keys + {key} &&
              r[key] == Sample(numerator / (curUpdateTime - lastUpdateTime) as real, curUpdateTime)
    ensures forall k | k in store && k != key :: k in r && r[k] == store[k]
  {
    var timeDeltaInSec := curUpdateTime - lastUpdateTime;
    if lastUpdateTime == 0 || timeDeltaInSec <= 0 then store
    else store[key := Sample(numerator / timeDeltaInSec as real, curUpdateTime)]
  }

  /** The store after one round of the memory-bandwidth calculation for a
      container: the previous counters are read first, then the read and
      the write bandwidth are committed over the same interval. */
  function MemBandwidthUpdate(
    store: Store, podUID: string, containerName: string,
    cgStats: CgroupInfo, lastUpdateTimeInSec: int): (r: Store)
    requires CountersReadable(store, podUID, containerName)
    ensures forall k | k in store && k !in BandwidthKeys(podUID, containerName) :: k in r && r[k] == store[k]
    ensures r.Keys <= store.Keys + BandwidthKeys(podUID, containerName)
    ensures !HasNewSample(lastUpdateTimeInSec, SelectCpuStats(cgStats).updateTime) ==> r == store
    ensures HasNewSample(lastUpdateTimeInSec, SelectCpuStats(cgStats).updateTime) ==>
              BandwidthKeys(podUID, containerName) <= r.Keys &&
              r[ReadBandwidthKey(podUID, containerName)].time == SelectCpuStats(cgStats).updateTime &&
              r[WriteBandwidthKey(podUID, containerName)].time == SelectCpuStats(cgStats).updateTime
  {
    var cur := SelectCpuStats(cgStats);
    var readMB := ReadNumerator(
      PriorCounter(store, podUID, containerName, MetricOCRReadDRAMsContainer), cur.ocrReadDRAMs);
    var writeMB := WriteNumerator(
      PriorCounter(store, podUID, containerName, MetricIMCWriteContainer), cur.imcWrites,
      PriorCounter(store, podUID, containerName, MetricStoreAllInsContainer), cur.storeAllInstructions,
      PriorCounter(store, podUID, containerName, MetricStoreInsContainer), cur.storeInstructions);
    var afterRead := RateUpdate(store, ReadBandwidthKey(podUID, containerName), readMB,
                                lastUpdateTimeInSec, cur.updateTime);
    RateUpdate(afterRead, WriteBandwidthKey(podUID, containerName), writeMB,
               lastUpdateTimeInSec, cur.updateTime)
  }

  /** The fetcher, reduced to the metric store the calculation updates. */
  class MalachiteMetricsFetcher {
    var metricStore: Store

    constructor (store: Store)
      ensures metricStore == store
    {
      metricStore := store;
    }

    /** Commits the rate `deltaValueFunc() / (curUpdateTime - lastUpdateTime)`
        under (podUID, containerName, targetMetricName), unless there is no
        previous sample or no time has passed; `deltaValueFunc` is called
        only once the guard has passed. */
    method SetContainerRateMetric(
      podUID: string, containerName: string, targetMetricName: string,
      deltaValueFunc: () -> real, lastUpdateTime: int, curUpdateTime: int)
      modifies this
      ensures metricStore == RateUpdate(old(metricStore), Key(podUID, containerName, targetMetricName),
                                        deltaValueFunc(), lastUpdateTime, curUpdateTime)
    {
      var timeDeltaInSec := curUpdateTime - lastUpdateTime;
      if lastUpdateTime == 0 || timeDeltaInSec <= 0 {
        return;
      }
      var updateTime := curUpdateTime;
      metricStore := metricStore[Key(podUID, containerName, targetMetricName) :=
                                   Sample(deltaValueFunc() / timeDeltaInSec as real, updateTime)];
    }

    /** One round of the memory-bandwidth calculation for a container. */
    method ProcessContainerMemBandwidth(
      podUID: string, containerName: string, cgStats: CgroupInfo, lastUpdateTimeInSec: int)
      requires CountersReadable(metricStore, podUID, containerName)
      modifies this
      ensures metricStore == MemBandwidthUpdate(old(metricStore), podUID, containerName,
                                                cgStats, lastUpdateTimeInSec)
    {
      var lastOCRReadDRAMs := PriorCounter(metricStore, podUID, containerName, MetricOCRReadDRAMsContainer);
      var lastIMCWrites := PriorCounter(metricStore, podUID, containerName, MetricIMCWriteContainer);
      var lastStoreAllIns := PriorCounter(metricStore, podUID, containerName, MetricStoreAllInsContainer);
      var lastStoreIns := PriorCounter(metricStore, podUID, containerName, MetricStoreInsContainer);

      var curOCRReadDRAMs: Uint64, curIMCWrites: Uint64, curStoreAllIns: Uint64, curStoreIns: Uint64 := 0, 0, 0, 0;
      var curUpdateTimeInSec: int := 0;

      if cgStats.cgroupType == "V1" {
        curOCRReadDRAMs := cgStats.v1.ocrReadDRAMs;
        curIMCWrites := cgStats.v1.imcWrites;
        curStoreAllIns := cgStats.v1.storeAllInstructions;
        curStoreIns := cgStats.v1.storeInstructions;
        curUpdateTimeInSec := cgStats.v1.updateTime;
      } else if cgStats.cgroupType == "V2" {
        curOCRReadDRAMs := cgStats.v2.ocrReadDRAMs;
        curIMCWrites := cgStats.v2.imcWrites;
        curStoreAllIns := cgStats.v2.storeAllInstructions;
        curStoreIns := cgStats.v2.storeInstructions;
        curUpdateTimeInSec := cgStats.v2.updateTime;
      }

      // read bandwidth
      SetContainerRateMetric(podUID, containerName, MetricMemBandwidthReadContainer,
        () => ReadNumerator(lastOCRReadDRAMs, curOCRReadDRAMs),
        lastUpdateTimeInSec, curUpdateTimeInSec);

      // write bandwidth
      SetContainerRateMetric(podUID, containerName, MetricMemBandwidthWriteContainer,
        () => WriteNumerator(lastIMCWrites, curIMCWrites, lastStoreAllIns, curStoreAllIns,
                             lastStoreIns, curStoreIns),
        lastUpdateTimeInSec, curUpdateTimeInSec);
    }
  }
}
