/**
 * The arithmetic of the registration wait: the doubling sleep schedule
 * 1, 2, 4, ... seconds, its running total, and the number of failed
 * discovery queries after which the total first exceeds the budget.
 */
module Backoff {

  function Pow2(k: nat): (p: nat)
    ensures p >= 1
  {
    if k == 0 then 1 else 2 * Pow2(k - 1)
  }

  lemma {:induction false} Pow2Monotone(i: nat, k: nat)
    requires i <= k
    ensures Pow2(i) <= Pow2(k)
  {
    if i < k {
      Pow2Monotone(i, k - 1);
    }
  }

  /** The largest `L` with `2^L <= n`. */
  function Log2Floor(n: nat): nat
    requires n >= 1
  {
    if n == 1 then 0 else 1 + Log2Floor(n / 2)
  }

  lemma {:induction false} Log2FloorBounds(n: nat)
    requires n >= 1
    ensures Pow2(Log2Floor(n)) <= n < Pow2(Log2Floor(n) + 1)
  {
    if n > 1 {
      Log2FloorBounds(n / 2);
    }
  }

  /** The sleeps performed by the first `k` failed queries: 1, 2, 4, ..., 2^(k-1). */
  function Schedule(k: nat): seq<int> {
    if k == 0 then [] else Schedule(k - 1) + [Pow2(k - 1)]
  }

  function Sum(s: seq<int>): int {
    if s == [] then 0 else Sum(s[..|s| - 1]) + s[|s| - 1]
  }

  /** The i-th sleep of the schedule lasts 2^i seconds, and there are k of them. */
  lemma {:induction false} ScheduleAt(k: nat, i: nat)
    requires i < k
    ensures |Schedule(k)| == k && Schedule(k)[i] == Pow2(i)
  {
    if i < k - 1 {
      ScheduleAt(k - 1, i);
    } else {
      ScheduleLength(k - 1);
    }
  }

  lemma {:induction false} ScheduleLength(k: nat)
    ensures |Schedule(k)| == k
  {
    if k > 0 {
      ScheduleLength(k - 1);
    }
  }

  /** After k failed queries the total sleep time is 2^k - 1. */
  lemma {:induction false} ScheduleSum(k: nat)
    ensures Sum(Schedule(k)) == Pow2(k) - 1
  {
    if k > 0 {
      ScheduleLength(k - 1);
      assert Schedule(k)[..k - 1] == Schedule(k - 1);
      ScheduleSum(k - 1);
    }
  }

  /**
   * The number of failed queries after which the poller gives up: the
   * total sleep 2^j - 1 first exceeds `maxWait` at j = floor(log2(maxWait + 1)) + 1,
   * and at j = 1 already when the budget is negative.
   */
  function FailLimit(maxWait: int): (j: nat)
    ensures j >= 1
  {
    if maxWait < 0 then 1 else Log2Floor(maxWait + 1) + 1
  }

  /** FailLimit is the least j >= 1 whose total sleep 2^j - 1 exceeds the budget. */
  lemma FailLimitIsLeast(maxWait: int)
    ensures forall i: nat :: 1 <= i < FailLimit(maxWait) ==> Pow2(i) - 1 <= maxWait
    ensures forall i: nat :: FailLimit(maxWait) <= i ==> Pow2(i) - 1 > maxWait
  {
    var j := FailLimit(maxWait);
    if maxWait >= 0 {
      Log2FloorBounds(maxWait + 1);
      forall i: nat | 1 <= i < j
        ensures Pow2(i) - 1 <= maxWait
      {
        Pow2Monotone(i, j - 1);
      }
      forall i: nat | j <= i
        ensures Pow2(i) - 1 > maxWait
      {
        Pow2Monotone(j, i);
      }
    }
  }

  /**
   * The last sleep may overshoot the budget, but never by more than the
   * budget plus one: the total when giving up lies in (maxWait, 2 * maxWait + 1].
   */
  lemma Overshoot(maxWait: int)
    requires maxWait >= 0
    ensures maxWait < Sum(Schedule(FailLimit(maxWait))) <= 2 * maxWait + 1
  {
    Log2FloorBounds(maxWait + 1);
    ScheduleSum(FailLimit(maxWait));
  }

  /** A total within budget means the poller has not yet reached its last query. */
  lemma BelowFailLimit(maxWait: int, k: nat)
    requires Pow2(k) - 1 <= maxWait
    ensures k < FailLimit(maxWait)
  {
    FailLimitIsLeast(maxWait);
  }

  /** The first total over budget is reached after exactly FailLimit(maxWait) failed queries. */
  lemma AtFailLimit(maxWait: int, k: nat)
    requires 1 <= k <= FailLimit(maxWait)
    requires Pow2(k) - 1 > maxWait
    ensures k == FailLimit(maxWait)
  {
    FailLimitIsLeast(maxWait);
  }

  /**
   * For a non-negative budget the poller makes floor(log2(maxWait + 1)) + 1
   * queries at most, and its last sleep 2^(FailLimit - 1) is at most
   * maxWait + 1 while the next one would exceed it.
   */
  lemma FailLimitBound(maxWait: int)
    requires maxWait >= 0
    ensures FailLimit(maxWait) == Log2Floor(maxWait + 1) + 1
    ensures Pow2(FailLimit(maxWait) - 1) <= maxWait + 1 < Pow2(FailLimit(maxWait))
  {
    Log2FloorBounds(maxWait + 1);
  }
}
