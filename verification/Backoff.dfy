/** Connection retries with capped exponential backoff, in 64-bit nanoseconds. */
module Backoff {

  const INT64_BOUND := 0x8000_0000_0000_0000
  const HALF_BOUND := 0x4000_0000_0000_0000
  const SECOND := 1_000_000_000

  /** `time.Duration`. */
  type Duration = d: int | -INT64_BOUND <= d < INT64_BOUND

  /** What is left of a product in 64 bits. */
  function Wrap(n: int): Duration {
    (n + INT64_BOUND) % (2 * INT64_BOUND) - INT64_BOUND
  }

  function NextBackoff(current: Duration, max: Duration): Duration {
    var next := Wrap(current * 2);
    if next > max then max else next
  }

  /** The wait after failure number `k`, counted from 0. */
  function Wait(initial: Duration, max: Duration, k: nat): Duration {
    if k == 0 then initial else NextBackoff(Wait(initial, max, k - 1), max)
  }

  function Pow2(k: nat): nat {
    if k == 0 then 1 else 2 * Pow2(k - 1)
  }

  /** `initial` doubled `k` times, without any bound. */
  function Doubled(initial: nat, k: nat): nat {
    if k == 0 then initial else 2 * Doubled(initial, k - 1)
  }

  lemma {:induction false} DoubledIsPower(initial: nat, k: nat)
    ensures Doubled(initial, k) == initial * Pow2(k)
  {
    if k > 0 {
      DoubledIsPower(initial, k - 1);
      var p := Pow2(k - 1);
      assert initial * (2 * p) == 2 * (initial * p);
    }
  }

  lemma {:induction false} DoubledGrows(initial: nat, k: nat)
    requires initial > 0
    ensures Doubled(initial, k) > k && Doubled(initial, k) >= initial
  {
    if k > 0 { DoubledGrows(initial, k - 1); }
  }

  function Min(a: int, b: int): int {
    if a <= b then a else b
  }

  lemma WrapExact(n: int)
    ensures -INT64_BOUND <= n < INT64_BOUND ==> Wrap(n) == n
    ensures INT64_BOUND <= n < 2 * INT64_BOUND ==> Wrap(n) == n - 2 * INT64_BOUND
  {
  }

  /** The wait is the doubled one, capped. */
  lemma {:induction false} WaitIsCappedDoubling(initial: Duration, max: Duration, k: nat)
    requires 0 < initial <= max < HALF_BOUND
    ensures Wait(initial, max, k) == Min(Doubled(initial, k), max)
  {
    hide Wrap;
    if k > 0 {
      WaitIsCappedDoubling(initial, max, k - 1);
      DoubledGrows(initial, k - 1);
      WrapExact(Wait(initial, max, k - 1) * 2);
    }
  }

  /** `min(initial * 2^k, max)`, and the next doubling still fits 64 bits. */
  lemma WaitClosedForm(initial: Duration, max: Duration, k: nat)
    requires 0 < initial <= max < HALF_BOUND
    ensures Wait(initial, max, k) == Min(initial * Pow2(k), max)
    ensures Wrap(Wait(initial, max, k) * 2) == Wait(initial, max, k) * 2
  {
    hide Wrap, Wait;
    WaitIsCappedDoubling(initial, max, k);
    DoubledIsPower(initial, k);
    DoubledGrows(initial, k);
    WrapExact(Wait(initial, max, k) * 2);
  }

  lemma WaitsNeverShrink(initial: Duration, max: Duration, k: nat)
    requires 0 < initial <= max < HALF_BOUND
    ensures Wait(initial, max, k) <= Wait(initial, max, k + 1) <= max
  {
    hide Wait;
    WaitIsCappedDoubling(initial, max, k);
    WaitIsCappedDoubling(initial, max, k + 1);
  }

  lemma Pow2TenMore(k: nat)
    ensures Pow2(k + 10) == 1024 * Pow2(k)
  {
    assert Pow2(k + 5) == 2 * Pow2(k + 4) == 4 * Pow2(k + 3) == 8 * Pow2(k + 2) == 16 * Pow2(k + 1) == 32 * Pow2(k);
    assert Pow2(k + 10) == 2 * Pow2(k + 9) == 4 * Pow2(k + 8) == 8 * Pow2(k + 7) == 16 * Pow2(k + 6);
    assert Pow2(k + 6) == 2 * Pow2(k + 5);
  }

  /** Nothing below 2^62 withstands 62 doublings. */
  lemma {:induction false} Pow2Reaches(k: nat)
    requires k >= 62
    ensures Pow2(k) >= HALF_BOUND
  {
    if k == 62 {
      assert Pow2(2) == 4;
      Pow2TenMore(2);
      Pow2TenMore(12);
      Pow2TenMore(22);
      Pow2TenMore(32);
      Pow2TenMore(42);
      Pow2TenMore(52);
    } else {
      Pow2Reaches(k - 1);
    }
  }

  /** The cap is in force exactly once the doublings reach it, which takes at most 62 failures. */
  lemma CapIsReached(initial: Duration, max: Duration, k: nat)
    requires 0 < initial <= max < HALF_BOUND
    ensures Wait(initial, max, k) == max <==> initial * Pow2(k) >= max
    ensures k >= 62 ==> Wait(initial, max, k) == max
  {
    WaitIsCappedDoubling(initial, max, k);
    DoubledIsPower(initial, k);
    if k >= 62 {
      Pow2Reaches(k);
      PositiveFactor(initial, Pow2(k));
    }
  }

  lemma PositiveFactor(a: int, b: nat)
    requires a > 0
    ensures a * b >= b
  {
    assert a * b == (a - 1) * b + b;
  }

  ghost predicate WaitsAsIntended(initial: Duration, max: Duration)
    requires 0 < initial
  {
    forall k: nat :: Wait(initial, max, k) == Min(Doubled(initial, k), max)
  }

  /** The waits are the capped doublings exactly when the cap is below 2^62 nanoseconds. */
  lemma WaitsAsIntendedIff(initial: Duration, max: Duration)
    requires 0 < initial <= max
    ensures WaitsAsIntended(initial, max) <==> max < HALF_BOUND
  {
    hide Wrap;
    if max < HALF_BOUND {
      forall k: nat ensures Wait(initial, max, k) == Min(Doubled(initial, k), max) {
        WaitIsCappedDoubling(initial, max, k);
      }
    } else {
      var k: nat := max;
      DoubledGrows(initial, k);
      DoubledGrows(initial, k + 1);
      WrapExact(max * 2);
      assert Min(Doubled(initial, k), max) == max == Min(Doubled(initial, k + 1), max);
      assert Wait(initial, max, k) == max ==> Wait(initial, max, k + 1) == NextBackoff(max, max) < 0;
    }
  }

  /** A cap of 2^62 ns: the second wait is negative, so the timer fires at once. */
  lemma OverflowingCap()
    ensures Wait(HALF_BOUND, HALF_BOUND, 1) == -INT64_BOUND
  {
    assert Wait(HALF_BOUND, HALF_BOUND, 0) == HALF_BOUND;
    WrapExact(HALF_BOUND * 2);
  }

  /** One round of the loop as the environment decides it. */
  datatype Round = Connected | FailedThenElapsed | FailedThenCancelled

  datatype Outcome = Connection(retries: nat) | ContextError | StillTrying

  class Manager {
    const reconnectInitial: Duration
    const reconnectMax: Duration

    /** Non-positive settings get the defaults, and the cap is never below the first wait. */
    constructor (reconnectInitial: Duration, reconnectMax: Duration)
      ensures 0 < this.reconnectInitial <= this.reconnectMax
      ensures this.reconnectInitial == if reconnectInitial <= 0 then SECOND else reconnectInitial
      ensures 0 < this.reconnectInitial <= reconnectMax ==> this.reconnectMax == reconnectMax
      ensures reconnectMax <= 0 ==>
                this.reconnectMax == if this.reconnectInitial > 30 * SECOND then this.reconnectInitial else 30 * SECOND
      ensures 0 < reconnectMax < this.reconnectInitial ==> this.reconnectMax == this.reconnectInitial
    {
      var initial, max := reconnectInitial, reconnectMax;
      if initial <= 0 {
        initial := 1 * SECOND;
      }
      if max <= 0 {
        max := 30 * SECOND;
      }
      if max < initial {
        max := initial;
      }
      this.reconnectInitial, this.reconnectMax := initial, max;
    }

    /** Retries until a connection or a cancelled context; `timers` are the waits it started.
        `rounds` is what the environment does, round by round. */
    method ConnectWithRetry(rounds: seq<Round>) returns (outcome: Outcome, timers: seq<Duration>)
      ensures forall i | 0 <= i < |timers| :: timers[i] == Wait(reconnectInitial, reconnectMax, i)
      ensures |timers| <= |rounds|
      ensures outcome == StillTrying ==>
                |timers| == |rounds| && forall i | 0 <= i < |rounds| :: rounds[i] == FailedThenElapsed
      ensures outcome == ContextError ==>
                0 < |timers| && rounds[|timers| - 1] == FailedThenCancelled
                && forall i | 0 <= i < |timers| - 1 :: rounds[i] == FailedThenElapsed
      ensures outcome.Connection? ==>
                outcome.retries == |timers| < |rounds| && rounds[|timers|] == Connected
                && forall i | 0 <= i < |timers| :: rounds[i] == FailedThenElapsed
    {
      hide NextBackoff;
      var delay := reconnectInitial;
      var attempt := 0;
      timers := [];
      while attempt < |rounds|
        invariant 0 <= attempt == |timers| <= |rounds|
        invariant delay == Wait(reconnectInitial, reconnectMax, attempt)
        invariant forall i | 0 <= i < attempt :: timers[i] == Wait(reconnectInitial, reconnectMax, i)
        invariant forall i | 0 <= i < attempt :: rounds[i] == FailedThenElapsed
      {
        if rounds[attempt] == Connected {
          return Connection(attempt), timers;
        }
        timers := timers + [delay];
        if rounds[attempt] == FailedThenCancelled {
          return ContextError, timers;
        }
        attempt := attempt + 1;
        delay := NextBackoff(delay, reconnectMax);
      }
      outcome := StillTrying;
    }
  }
}
