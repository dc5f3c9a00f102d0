/** The fetcher's metric store, seen as the latest sample per
    (pod, container, metric name). */
module MetricStore {

  /** Identifies one container-level series. */
  datatype Key = Key(podUID: string, containerName: string, metricName: string)

  /** One stored value with the Unix second it is stamped with. */
  datatype Sample = Sample(value: real, time: int)

  type Store = map<Key, Sample>

  /** What a read of a missing series yields: the zero value, time 0. */
  const ZeroSample: Sample := Sample(0.0, 0)

  /** The latest sample of a series; the `found` flag of the store's read
      is not consulted by the calculator, so a missing series reads as
      `ZeroSample`. */
  function Lookup(store: Store, key: Key): (s: Sample)
    ensures key in store ==> s == store[key]
    ensures key !in store ==> s.value == 0.0 && s.time == 0
  {
    if key in store then store[key] else ZeroSample
  }
}
