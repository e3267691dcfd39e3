/** The wait between two attempts: doubled after each, and capped. */
module Backoff {
  import opened Money

  /** The doublings alone, without a cap. */
  function Doubled(base: nat, times: nat): nat {
    if times == 0 then base else 2 * Doubled(base, times - 1)
  }

  function Ideal(base: nat, attempts: int): nat {
    Doubled(base, if attempts > 1 then attempts - 1 else 0)
  }

  /** An ideal wait one short of an odd cap, reached by doubling, is rounded up to the cap. */
  predicate RoundedUp(base: nat, maximum: nat, attempts: int) {
    attempts > 1 && maximum % 2 == 1 && Ideal(base, attempts) == maximum - 1
  }

  function Delay(base: nat, maximum: nat, attempts: int): nat {
    if RoundedUp(base, maximum, attempts) || Ideal(base, attempts) > maximum then maximum else Ideal(base, attempts)
  }

  lemma {:induction false} DoublingIsPositive(base: nat, n: nat)
    requires base > 0
    ensures Doubled(base, n) > 0
  {
    if n > 0 {
      DoublingIsPositive(base, n - 1);
    }
  }

  lemma {:induction false} DoublingsGrow(base: nat, k: nat, n: nat)
    requires k <= n && base > 0
    ensures Doubled(base, k) <= Doubled(base, n)
    ensures k < n ==> Doubled(base, k) < Doubled(base, n)
    decreases n
  {
    if k < n {
      DoublingsGrow(base, k, n - 1);
      DoublingIsPositive(base, n - 1);
    }
  }

  /** Every value is an int64: the wait is doubled only while half the cap exceeds it. */
  method Backoff(base: int64, maximum: int64, attempts: int) returns (delay: int64)
    requires 0 < base <= maximum
    ensures delay as int == Delay(base as int, maximum as int, attempts)
  {
    delay := base;
    var k := 0;
    while k < attempts - 1
      invariant 0 <= k <= if attempts > 1 then attempts - 1 else 0
      invariant 0 < delay <= maximum
      invariant delay as int == Doubled(base as int, k)
      invariant k > 0 ==> delay < maximum / 2 * 2
    {
      if delay >= maximum / 2 {
        DoublingsGrow(base as int, k + 1, attempts - 1);
        return maximum;
      }
      delay := delay * 2;
      k := k + 1;
    }
    if delay > maximum {
      delay := maximum;
    }
  }

  /** The wait is never shorter after more attempts, never below the base nor above the cap,
      and stays at the cap once there. */
  lemma WaitsGrowToTheCap(base: nat, maximum: nat, n: int, m: int)
    requires 0 < base <= maximum && n <= m
    ensures base <= Delay(base, maximum, n) <= Delay(base, maximum, m) <= maximum
  {
    var k, l := if n > 1 then n - 1 else 0, if m > 1 then m - 1 else 0;
    DoublingsGrow(base, 0, k);
    DoublingsGrow(base, k, l);
  }

  /** The wait is the capped doubling exactly unless it is rounded up. */
  lemma CappedDoubling(base: nat, maximum: nat, attempts: int)
    requires 0 < base <= maximum
    ensures var ideal := Ideal(base, attempts);
            Delay(base, maximum, attempts) == (if ideal < maximum then ideal else maximum)
            <==> !RoundedUp(base, maximum, attempts)
    ensures RoundedUp(2, 5, 2) && Delay(2, 5, 2) == 5
  {
    assert Doubled(2, 1) == 4;
  }

  /** The base, doubled for each attempt but the first, up to the cap. */
  function NthWait(base: nat, cap: nat, n: nat): nat
    requires n >= 1
  {
    if n == 1 then base
    else if NthWait(base, cap, n - 1) >= cap / 2 then cap
    else 2 * NthWait(base, cap, n - 1)
  }

  lemma WaitsDouble(base: nat, maximum: nat, attempts: int)
    requires 0 < base <= maximum
    ensures attempts <= 1 ==> Delay(base, maximum, attempts) == base
    ensures attempts >= 1 ==>
              Delay(base, maximum, attempts + 1)
              == (if Delay(base, maximum, attempts) >= maximum / 2 then maximum else 2 * Delay(base, maximum, attempts))
  {
    if attempts >= 1 {
      DoublingsGrow(base, attempts - 1, attempts);
      DoublingsGrow(base, 0, attempts - 1);
      if attempts > 1 {
        DoublingsGrow(base, attempts - 2, attempts - 1);
      }
    }
  }

  /** The wait is the base at first, and then twice the one before it, but the cap as soon as
      that one was at least half the cap, rounded down. */
  lemma {:induction false} NthWaitIsDelay(base: nat, cap: nat, n: nat)
    requires 0 < base <= cap && n >= 1
    ensures NthWait(base, cap, n) == Delay(base, cap, n)
  {
    if n == 1 {
      WaitsDouble(base, cap, 1);
    } else {
      NthWaitIsDelay(base, cap, n - 1);
      WaitsDouble(base, cap, n - 1);
    }
  }
}
