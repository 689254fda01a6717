/**
 * The 32-bit counters of the world: the change tick, advanced by a
 * fetch-and-add, and the trigger id, advanced by `wrapping_add`.
 */
module TickCounter {

  const U32_MODULUS: int := 0x1_0000_0000

  newtype u32 = x: int | 0 <= x < 0x1_0000_0000

  /** A change-detection tick (a `u32` that wraps around). */
  type Tick = u32

  /** `u32::wrapping_add`: the sum, reduced modulo 2^32. */
  function WrappingAdd(a: u32, b: u32): (r: u32)
    ensures (r as int - a as int - b as int) % U32_MODULUS == 0
    ensures r as int == a as int + b as int || r as int == a as int + b as int - U32_MODULUS
  {
    ((a as int + b as int) % U32_MODULUS) as u32
  }

  /**
   * The ticks returned by `n` consecutive fetch-and-add calls on a counter
   * that holds `start` before the first call.
   */
  function FetchAddRun(start: u32, n: nat): (run: seq<u32>)
    ensures |run| == n
    decreases n
  {
    if n == 0 then [] else [start] + FetchAddRun(WrappingAdd(start, 1), n - 1)
  }

  /** Adding `k` to a successor modulo 2^32 is adding `k + 1` to the original. */
  lemma WrappingSuccessorShift(a: u32, k: nat)
    ensures (WrappingAdd(a, 1) as int + k) % U32_MODULUS == (a as int + k + 1) % U32_MODULUS
  {
  }

  /** The value of the counter after `n` fetch-and-add calls from `start`: `start + n` modulo 2^32. */
  function CounterAfter(start: u32, n: nat): (r: u32)
    ensures r as int == (start as int + n) % U32_MODULUS
    decreases n
  {
    if n == 0 then start
    else
      WrappingSuccessorShift(start, n - 1);
      CounterAfter(WrappingAdd(start, 1), n - 1)
  }

  /** One more call appends what the counter held to the run. */
  lemma {:induction false} FetchAddRunSnoc(start: u32, n: nat)
    ensures FetchAddRun(start, n + 1) == FetchAddRun(start, n) + [CounterAfter(start, n)]
    decreases n
  {
    if n > 0 {
      var next := WrappingAdd(start, 1);
      FetchAddRunSnoc(next, n - 1);
      assert FetchAddRun(start, n + 1) == [start] + (FetchAddRun(next, n - 1) + [CounterAfter(next, n - 1)]);
      assert [start] + (FetchAddRun(next, n - 1) + [CounterAfter(next, n - 1)])
          == ([start] + FetchAddRun(next, n - 1)) + [CounterAfter(next, n - 1)];
    }
  }

  /** One more call leaves the successor of what the counter held. */
  lemma {:induction false} CounterAfterSnoc(start: u32, n: nat)
    ensures CounterAfter(start, n + 1) == WrappingAdd(CounterAfter(start, n), 1)
    decreases n
  {
    if n > 0 {
      CounterAfterSnoc(WrappingAdd(start, 1), n - 1);
    }
  }

  /** The `i`-th call of a run returns `start + i` modulo 2^32. */
  lemma {:induction false} FetchAddRunAt(start: u32, n: nat, i: nat)
    requires i < n
    ensures FetchAddRun(start, n)[i] as int == (start as int + i) % U32_MODULUS
    decreases n
  {
    if i > 0 {
      var next := WrappingAdd(start, 1);
      assert FetchAddRun(start, n)[i] == FetchAddRun(next, n - 1)[i - 1];
      FetchAddRunAt(next, n - 1, i - 1);
      WrappingSuccessorShift(start, i - 1);
    }
  }

  /**
   * Ticks handed out one after another increase by exactly one modulo 2^32,
   * and the next call after the run returns what the counter then holds.
   */
  lemma FetchAddRunSteps(start: u32, n: nat)
    ensures forall i | 0 <= i < n - 1 :: FetchAddRun(start, n)[i + 1] == WrappingAdd(FetchAddRun(start, n)[i], 1)
    ensures n > 0 ==> WrappingAdd(FetchAddRun(start, n)[n - 1], 1) == CounterAfter(start, n)
  {
    var run := FetchAddRun(start, n);
    forall i | 0 <= i < n - 1
      ensures run[i + 1] == WrappingAdd(run[i], 1)
    {
      FetchAddRunAt(start, n, i);
      FetchAddRunAt(start, n, i + 1);
    }
    if n > 0 {
      FetchAddRunSnoc(start, n - 1);
      CounterAfterSnoc(start, n - 1);
    }
  }

  /** No tick is handed out twice before the counter has wrapped all the way round. */
  lemma FetchAddRunDistinct(start: u32, n: nat)
    requires n <= U32_MODULUS
    ensures forall i, j | 0 <= i < j < n :: FetchAddRun(start, n)[i] != FetchAddRun(start, n)[j]
  {
    var run := FetchAddRun(start, n);
    forall i, j | 0 <= i < j < n
      ensures run[i] != run[j]
    {
      FetchAddRunAt(start, n, i);
      FetchAddRunAt(start, n, j);
      var a, b := start as int + i, start as int + j;
      assert 0 < b - a < U32_MODULUS;
    }
  }
}
