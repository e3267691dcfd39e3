/** When waiting operations are tried again: the column that schedules them, and what settling
    an operation does to it. */
module Schedule {
  import opened Domain
  import opened Money
  import opened Wager
  import opened Accounting
  import opened Conservation
  import opened UseCases
  import B = Backoff

  /** The instants of the next attempts, by operation; absent where the column is empty. */
  type Schedule = map<ID, Time>

  /** The configuration refuses any other delays and leases, and fewer attempts than one. */
  datatype Policy = Policy(maxAttempts: int, baseDelay: int64, maxDelay: int64, lease: int, batchSize: int) {
    predicate Valid() {
      0 < baseDelay <= maxDelay && maxAttempts >= 1 && lease > 0
    }

    function LeaseUntil(now: Time): Time {
      now + lease
    }

    /** The wait before the attempt that follows the given number of unsuccessful ones. */
    function Wait(attempts: int): int
      requires Valid()
    {
      B.Delay(baseDelay as int, maxDelay as int, attempts)
    }

    function NextAttempt(at: Time, attempts: int): Time
      requires Valid()
    {
      at + Wait(attempts)
    }
  }

  /** Inserting or updating an operation writes the column only while it waits. */
  function Scheduled(schedule: Schedule, t: Tx, at: Time): Schedule {
    if t.state == PendingReference then schedule[t.id := at] else schedule - {t.id}
  }

  /** An operation received is due at once when it must wait; a replay writes nothing. */
  function ScheduledOnArrival(schedule: Schedule, answer: WagerResult, now: Time): Schedule {
    if answer.replay then schedule
    else if answer.state == Some(PendingReference) then schedule[answer.transactionId := now]
    else schedule - {answer.transactionId}
  }

  /** A retried operation waits for its delay, or is scheduled no more. One that no longer
      waited is left as it was. */
  function ScheduledOnRetry(schedule: Schedule, before: Option<Tx>, after: Option<Tx>, policy: Policy, at: Time): Schedule
    requires policy.Valid()
  {
    if before.None? || before.value.state != PendingReference || after.None? then schedule
    else Scheduled(schedule, after.value, policy.NextAttempt(at, after.value.attempts))
  }

  /** The operation is due again after its n-th wait, or concluded and due no more; every other is
      due when it was. */
  predicate Postpones(schedule: Schedule, later: Schedule, x: Tx, n: nat, policy: Policy, at: Time)
    requires policy.Valid()
  {
    if x.state == PendingReference
    then
      && x.attempts == n >= 1
      && later == schedule[x.id := at + B.NthWait(policy.baseDelay as int, policy.maxDelay as int, n)]
    else later == schedule - {x.id}
  }

  lemma ScheduledPostpones(schedule: Schedule, x: Tx, policy: Policy, at: Time)
    requires policy.Valid() && (x.state == PendingReference ==> x.attempts >= 1)
    ensures Postpones(schedule, Scheduled(schedule, x, policy.NextAttempt(at, x.attempts)), x, x.attempts, policy, at)
  {
    if x.state == PendingReference {
      B.NthWaitIsDelay(policy.baseDelay as int, policy.maxDelay as int, x.attempts);
    }
  }

  /** The operations scheduled are exactly those that wait. */
  ghost predicate ScheduledExactly(txs: seq<Tx>, schedule: Schedule) {
    && (forall k :: 0 <= k < |txs| ==> (txs[k].id in schedule <==> txs[k].state == PendingReference))
    && (forall id :: id in schedule ==> HasId(txs, id))
  }

  lemma PutStaysDistinct(txs: seq<Tx>, i: nat, x: Tx)
    requires DistinctIds(txs) && Replaces(txs, i, x)
    ensures DistinctIds(Put(txs, i, x))
  {
    if i == |txs| {
      forall k | 0 <= k < |txs| ensures txs[k].id != x.id {
        assert txs[k] in txs;
      }
    }
  }

  /** Whatever settles keeps the schedule exact. */
  lemma ScheduleStaysExact(txs: seq<Tx>, schedule: Schedule, i: nat, x: Tx, at: Time)
    requires ScheduledExactly(txs, schedule) && Replaces(txs, i, x) && DistinctIds(txs)
    ensures ScheduledExactly(Put(txs, i, x), Scheduled(schedule, x, at))
  {
    var p, later := Put(txs, i, x), Scheduled(schedule, x, at);
    PutStaysDistinct(txs, i, x);
    forall k | 0 <= k < |p| ensures p[k].id in later <==> p[k].state == PendingReference {
      SameId(p, k, i);
    }
    forall id | id in later ensures HasId(p, id) {
      PutKeepsIds(txs, i, x, id);
    }
  }
}
