/** Unsigned 64-bit hardware counters and the wraparound-safe difference
    between two readings of one counter (`uint64CounterDelta`). */
module Counter {

  /** 2^64: one more than the largest value of a Go `uint64`. */
  const UINT64_BOUND: int := 0x1_0000_0000_0000_0000

  type Uint64 = x: int | 0 <= x < UINT64_BOUND

  /** The increase of a counter from `previous` to `current`. A reading
      below the previous one (the counter rolled over or was reset) is
      reported as no increase at all. */
  function CounterDelta(previous: Uint64, current: Uint64): (delta: Uint64)
    ensures delta <= current
    ensures delta == 0 || previous + delta == current
    ensures delta == 0 <==> current <= previous
  {
    if current >= previous then current - previous else 0
  }

  /** Go's own `current - previous` on `uint64`, which wraps modulo 2^64.
      Independent reference for `CounterDelta`. */
  function WrappingSub(current: Uint64, previous: Uint64): Uint64
  {
    (current - previous) % UINT64_BOUND
  }

  /** Without a regression the delta is the plain difference, and it agrees
      with Go's wrapping subtraction there. */
  lemma DeltaWithoutRollover(previous: Uint64, current: Uint64)
    requires previous <= current
    ensures CounterDelta(previous, current) == current - previous
    ensures CounterDelta(previous, current) == WrappingSub(current, previous)
  {
  }

  /** On a regression the delta is 0, whereas the wrapping subtraction would
      report an increase larger than the current reading itself. */
  lemma DeltaOnRollover(previous: Uint64, current: Uint64)
    requires current < previous
    ensures CounterDelta(previous, current) == 0
    ensures WrappingSub(current, previous) == current - previous + UINT64_BOUND
    ensures WrappingSub(current, previous) > current
  {
  }

  /** The delta never overstates the true number of events: whatever number
      `increase` of events took the counter, modulo 2^64, from `previous` to
      `current`, the delta is at most that number; and when fewer than 2^64
      events happened without a visible regression, the delta is exact. */
  lemma DeltaNeverOverestimates(previous: Uint64, current: Uint64, increase: nat)
    requires (previous + increase) % UINT64_BOUND == current
    ensures CounterDelta(previous, current) <= increase
    ensures increase < UINT64_BOUND && previous <= current ==>
              CounterDelta(previous, current) == increase
  {
    var laps := (previous + increase) / UINT64_BOUND;
    assert previous + increase == laps * UINT64_BOUND + current;
    assert laps >= 0;
    if previous <= current {
      assert current - previous == increase - laps * UINT64_BOUND;
      if increase < UINT64_BOUND {
        assert laps == 0;
      }
    }
  }

  /** Sum of the deltas between consecutive readings of one counter. */
  function TotalIncrease(readings: seq<Uint64>): nat
    decreases |readings|
  {
    if |readings| < 2 then 0
    else CounterDelta(readings[0], readings[1]) + TotalIncrease(readings[1..])
  }

  predicate NonDecreasing(readings: seq<Uint64>)
  {
    forall i :: 0 < i < |readings| ==> readings[i - 1] <= readings[i]
  }

  /** For a counter that never regresses, the per-interval deltas add up to
      the overall increase: nothing is counted twice and nothing is lost. */
  lemma {:induction false} TotalIncreaseTelescopes(readings: seq<Uint64>)
    requires |readings| > 0 && NonDecreasing(readings)
    ensures TotalIncrease(readings) == readings[|readings| - 1] as int - readings[0] as int
    decreases |readings|
  {
    if |readings| >= 2 {
      var rest := readings[1..];
      assert NonDecreasing(rest) by {
        forall i | 0 < i < |rest| ensures rest[i - 1] <= rest[i] {
          assert rest[i - 1] == readings[i] && rest[i] == readings[i + 1];
        }
      }
      TotalIncreaseTelescopes(rest);
      assert readings[0] <= readings[1];
    }
  }
}
