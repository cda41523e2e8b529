/** How long the controller waits between two cycles, under a policy that may change while it waits. Times are
    nanoseconds; intervals are seconds. */
module Waiting {
  import opened Replies

  const SECOND := 1_000_000_000
  const SHORTEST := 30 * SECOND
  const LONGEST := 15 * 60 * SECOND

  function Max(a: int, b: int): int {
    if a < b then b else a
  }

  function Min(a: int, b: int): int {
    if a < b then a else b
  }

  function Power2(n: nat): (p: nat)
    ensures p >= 1
  {
    if n == 0 then 1 else 2 * Power2(n - 1)
  }

  /** Exponential back-off from the policy's interval, between thirty seconds and a quarter of an hour. */
  function Backoff(interval: int, failures: nat): int {
    Min(LONGEST, Max(SHORTEST, interval * SECOND) * Power2(failures))
  }

  lemma DoubleOnce(base: int, i: nat)
    ensures base * Power2(i + 1) == (base * Power2(i)) * 2
  {
  }

  lemma {:induction false} Grows(base: nat, i: nat, j: nat)
    requires i <= j
    ensures base * Power2(i) <= base * Power2(j)
    decreases j - i
  {
    if i < j {
      DoubleOnce(base, i);
      Grows(base, i + 1, j);
    }
  }

  /** Without a failure the wait is the interval, within its bounds; every failure doubles it up to the longest. */
  lemma BackoffDoubles(interval: int, failures: nat)
    ensures SHORTEST <= Backoff(interval, failures) <= LONGEST
    ensures 30 <= interval <= 900 ==> Backoff(interval, 0) == interval * SECOND
    ensures Backoff(interval, failures + 1) == Min(LONGEST, 2 * Backoff(interval, failures))
  {
    var base := Max(SHORTEST, interval * SECOND);
    Grows(base, 0, failures);
    DoubleOnce(base, failures);
  }

  method Delay(interval: int, failures: nat) returns (d: int)
    ensures d == Backoff(interval, failures)
  {
    d := interval * SECOND;
    if d < SHORTEST {
      d := SHORTEST;
    }
    ghost var base := d;
    var i := 0;
    while i < failures && d < LONGEST
      invariant 0 <= i <= failures && d == base * Power2(i)
    {
      DoubleOnce(base, i);
      d := d * 2;
      i := i + 1;
    }
    Grows(base, i, failures);
    if d > LONGEST {
      d := LONGEST;
    }
  }

  /** The surroundings of a wait, by round: the policy that can be loaded, how late the timer fires, and whether
      the context is cancelled before or during the round. */
  datatype Surroundings = Surroundings(
    loads: nat -> Option<int>,
    late: nat -> nat,
    cancelledBefore: nat -> bool,
    cancelledDuring: nat -> bool
  )

  /** The wait asked for in a round. */
  function Wanted(env: Surroundings, fallback: int, failures: nat, retryAfter: int, round: nat): int {
    var interval := if env.loads(round).Some? then env.loads(round).value else fallback;
    Max(Backoff(interval, failures), retryAfter)
  }

  function Jitter(start: nat): nat {
    start % SECOND
  }

  lemma WantedIsBounded(env: Surroundings, fallback: int, failures: nat, retryAfter: int, round: nat)
    ensures Wanted(env, fallback, failures, retryAfter, round) <= Max(LONGEST, retryAfter)
  {
  }

  ghost predicate Punctual(env: Surroundings) {
    forall round: nat :: env.late(round) == 0
  }

  /** The policy asks for this wait in every round. */
  ghost predicate Steady(env: Surroundings, fallback: int, failures: nat, retryAfter: int, wait: int) {
    forall round: nat :: Wanted(env, fallback, failures, retryAfter, round) == wait
  }

  /** Waits for the next cycle and says whether it is due; `now` is the time at which that is decided and `round`
      the number of the last round. A cycle is never due before the wait asked for by the policy loaded last, nor,
      with timers that fire on time, after the longest wait there is; under a policy that does not change it is due
      exactly on time. */
  method WaitForNextCycle(start: nat, env: Surroundings, fallback: int, failures: nat, retryAfter: int,
                          ghost steady: int)
      returns (due: bool, now: int, round: nat)
    ensures due ==> now >= start + Wanted(env, fallback, failures, retryAfter, round) + Jitter(start)
    ensures var interval := if env.loads(round).Some? then env.loads(round).value else fallback;
            var waited := now - start - Jitter(start);
            due ==> waited >= retryAfter && waited >= Backoff(interval, failures)
    ensures due <==> !env.cancelledBefore(round) && !env.cancelledDuring(round)
    ensures forall k: nat | k < round :: !env.cancelledBefore(k) && !env.cancelledDuring(k)
    ensures Punctual(env) ==> now <= start + Max(LONGEST, retryAfter) + Jitter(start)
    ensures due && Punctual(env) && Steady(env, fallback, failures, retryAfter, steady) ==>
              now == start + steady + Jitter(start)
  {
    var jitter := start % SECOND;
    round := 0;
    now := start;
    assert Steady(env, fallback, failures, retryAfter, steady) ==>
        Wanted(env, fallback, failures, retryAfter, 0) == steady;
    while true
      invariant Punctual(env) ==> now <= start + Max(LONGEST, retryAfter) + jitter
      invariant Punctual(env) && Steady(env, fallback, failures, retryAfter, steady) ==> now <= start + steady + jitter
      invariant forall k: nat | k < round :: !env.cancelledBefore(k) && !env.cancelledDuring(k)
      decreases start + Max(LONGEST, retryAfter) + jitter - now
    {
      if env.cancelledBefore(round) {
        return false, now, round;
      }
      var p := env.loads(round);
      var interval := if p.Some? then p.value else fallback;
      var d := Delay(interval, failures);
      if retryAfter > d {
        d := retryAfter;
      }
      assert d == Wanted(env, fallback, failures, retryAfter, round);
      WantedIsBounded(env, fallback, failures, retryAfter, round);
      var remaining := start + d + jitter - now;
      if remaining <= 0 {
        return !env.cancelledDuring(round), now, round;
      }
      if remaining > SECOND {
        remaining := SECOND;
      }
      if env.cancelledDuring(round) {
        return false, now, round;
      }
      now := now + remaining + env.late(round);
      round := round + 1;
    }
  }
}
