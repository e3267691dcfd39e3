/** What so many rounds come to when each runs past the leases and the delays given by those
    before it: counts of rounds, for rounds spaced so far apart. */
module Spacing {
  import opened Domain
  import opened Wager
  import opened Database
  import opened Accounting
  import opened Schedule
  import opened Runs
  import opened Retrying
  import opened Failing
  import opened Counting
  import opened Rounds
  import opened Worker
  import opened Headroom
  import opened Stalling

  // ----------------------------------------------------------------- due times

  /** Whatever waits is due from a round on: leases run out and delays end. */
  ghost predicate DueFrom(schedule: Schedule, now: nat -> Time, start: nat) {
    forall n: nat, id :: start <= n && id in schedule ==> schedule[id] <= now(n)
  }

  /** From a round on, each is past the leases and the delays given by those before it. */
  ghost predicate Spaced(policy: Policy, now: nat -> Time, draws: nat -> nat -> Draws, start: nat) {
    && (forall m: nat, n: nat :: m < n && start <= n ==> policy.LeaseUntil(now(m)) <= now(n))
    && (forall m: nat, n: nat, i: nat :: m < n && start <= n ==> draws(m)(i).at + policy.maxDelay as int <= now(n))
  }

  function From(start: nat, n: nat): nat {
    if n < start then start else n
  }

  /** What a round schedules is due in the rounds after it. */
  lemma RoundKeepsDue(x: Tables, picks: seq<nat>, policy: Policy, n: nat, now: nat -> Time, start: nat,
                      draws: nat -> nat -> Draws, later: Tables, answers: seq<Answer>)
    requires policy.Valid() && |answers| == |picks| && forall i :: 0 <= i < |picks| ==> picks[i] < |x.db.txs|
    requires EachTaken(x, picks, policy, now(n), draws(n), later, answers)
    requires ScheduledExactly(later.db.txs, later.schedule)
    requires DueFrom(x.schedule, now, From(start, n)) && Spaced(policy, now, draws, start)
    ensures DueFrom(later.schedule, now, From(start, n + 1))
  {
    forall m: nat, id | From(start, n + 1) <= m && id in later.schedule ensures later.schedule[id] <= now(m) {
      assert HasId(later.db.txs, id);
      var k :| 0 <= k < |later.db.txs| && later.db.txs[k].id == id;
      if k in picks {
        var i :| 0 <= i < |picks| && picks[i] == k;
        TakenIsDueLater(x, picks, policy, n, now, start, draws, later, answers, i, m);
      } else {
        assert Stands(x, later, k);
      }
    }
  }

  lemma TakenIsDueLater(x: Tables, picks: seq<nat>, policy: Policy, n: nat, now: nat -> Time, start: nat,
                        draws: nat -> nat -> Draws, later: Tables, answers: seq<Answer>, i: nat, m: nat)
    requires policy.Valid() && i < |picks| == |answers| && picks[i] < |x.db.txs| == |later.db.txs|
    requires TriedAt(x.db.txs[picks[i]], later.db.txs[picks[i]], answers[i], draws(n)(i).at, policy,
                     policy.LeaseUntil(now(n)), later.schedule)
    requires Spaced(policy, now, draws, start) && n < m && start <= m
    requires later.db.txs[picks[i]].id in later.schedule
    ensures later.schedule[later.db.txs[picks[i]].id] <= now(m)
  {
    if answers[i].Ok? {
      var attempts := later.db.txs[picks[i]].attempts;
      B.WaitsGrowToTheCap(policy.baseDelay as int, policy.maxDelay as int, attempts, attempts);
    }
  }

  /** A round that takes nothing when everything that waits is due finds nothing waiting. */
  lemma NothingTakenNoneWaits(x: Tables, now: Time, limit: int)
    requires ScheduledExactly(x.db.txs, x.schedule) && Picked(x.db.txs, x.schedule, [], now, {}, limit) && limit >= 1
    requires forall id :: id in x.schedule ==> x.schedule[id] <= now
    ensures NoneWaits(x.db.txs)
  {
    forall k | 0 <= k < |x.db.txs| ensures x.db.txs[k].state != PendingReference {
      if x.db.txs[k].state == PendingReference {
        assert IsDue(x.db.txs, x.schedule, k, now, {});
      }
    }
  }

  /** How far the rounds got: each from the start on lowers what is left, until none waits. */
  ghost predicate Progressed(left: int, txs: seq<Tx>, maxAttempts: int, start: nat, n: nat) {
    && TotalLeft(txs, maxAttempts) <= left
    && (n >= start ==> NoneWaits(txs) || n - start + TotalLeft(txs, maxAttempts) <= left)
  }

  /** A round from the start on in which no attempt fails gets further. */
  lemma RoundProgresses(x: Tables, picks: seq<nat>, policy: Policy, n: nat, now: nat -> Time, start: nat,
                        draws: nat -> nat -> Draws, later: Tables, answers: seq<Answer>, left: int)
    requires policy.Valid() && policy.batchSize >= 1 && |answers| == |picks|
    requires TxsOk(x.db.txs, policy.maxAttempts) && ScheduledExactly(x.db.txs, x.schedule)
    requires Picked(x.db.txs, x.schedule, picks, now(n), {}, policy.batchSize)
    requires EachTaken(x, picks, policy, now(n), draws(n), later, answers)
    requires DueFrom(x.schedule, now, From(start, n))
    requires n >= start ==> forall i :: 0 <= i < |answers| ==> answers[i].Ok?
    requires Progressed(left, x.db.txs, policy.maxAttempts, start, n)
    ensures Progressed(left, later.db.txs, policy.maxAttempts, start, n + 1)
  {
    ExecutionLowersTheTotal(x, picks, policy, now(n), {}, draws(n), later, answers);
    if n >= start {
      if picks == [] {
        NothingTakenNoneWaits(x, now(n), policy.batchSize);
        forall k | 0 <= k < |x.db.txs| ensures later.db.txs[k] == x.db.txs[k] {
          assert Stands(x, later, k);
        }
      } else {
        assert IsDue(x.db.txs, x.schedule, picks[0], now(n), {});
        assert answers[0].Ok?;
      }
    }
  }

  // --------------------------------------------------------------------- timely

  /** Before a round among spaced ones: ready, and all that waits due from then on. */
  ghost function Timely(policy: Policy, now: nat -> Time, draws: nat -> nat -> Draws, start: nat, n: nat): Tables -> bool {
    (x: Tables) =>
      && Ready(policy, draws, start, n)(x) && policy.batchSize >= 1
      && Spaced(policy, now, draws, start) && DueFrom(x.schedule, now, From(start, n))
  }

  lemma TimelyMeans(x: Tables, policy: Policy, now: nat -> Time, draws: nat -> nat -> Draws, start: nat, n: nat)
    requires Timely(policy, now, draws, start, n)(x)
    ensures Ready(policy, draws, start, n)(x) && policy.batchSize >= 1 && policy.Valid()
    ensures Spaced(policy, now, draws, start) && DueFrom(x.schedule, now, From(start, n))
    ensures Orderly(policy.maxAttempts)(x)
  {
    ReadyMeans(x, policy, draws, start, n);
  }

  lemma RoundStaysDue(x: Tables, round: Round, policy: Policy, now: nat -> Time, draws: nat -> nat -> Draws, start: nat,
                      n: nat, later: Tables)
    requires policy.Valid() && Timely(policy, now, draws, start, n)(x) && ScheduledExactly(later.db.txs, later.schedule)
    requires Executes(policy, now(n), draws(n))(x, round, later)
    ensures DueFrom(later.schedule, now, From(start, n + 1))
  {
    TimelyMeans(x, policy, now, draws, start, n);
    RoundTriesEach(x, round, policy, now, draws, start, n, later);
    RoundKeepsDue(x, round.picks, policy, n, now, start, draws, later, round.answers);
  }

  lemma RoundStaysTimely(x: Tables, round: Round, policy: Policy, now: nat -> Time, draws: nat -> nat -> Draws, start: nat,
                         n: nat, later: Tables)
    requires policy.Valid() && Timely(policy, now, draws, start, n)(x)
    requires Executes(policy, now(n), draws(n))(x, round, later)
    ensures Timely(policy, now, draws, start, n + 1)(later)
  {
    TimelyMeans(x, policy, now, draws, start, n);
    RoundStaysReady(x, round, policy, now, draws, start, n, later);
    ReadyIsScheduled(later, policy, draws, start, n + 1);
    RoundStaysDue(x, round, policy, now, draws, start, n, later);
    ReadyIsTimely(later, policy, now, draws, start, n + 1);
  }

  lemma ReadyIsScheduled(x: Tables, policy: Policy, draws: nat -> nat -> Draws, start: nat, n: nat)
    requires Ready(policy, draws, start, n)(x)
    ensures ScheduledExactly(x.db.txs, x.schedule)
  {
    ReadyMeans(x, policy, draws, start, n);
    OrderlyMeans(x, policy.maxAttempts);
  }

  lemma ReadyIsTimely(x: Tables, policy: Policy, now: nat -> Time, draws: nat -> nat -> Draws, start: nat, n: nat)
    requires Ready(policy, draws, start, n)(x) && policy.batchSize >= 1
    requires Spaced(policy, now, draws, start) && DueFrom(x.schedule, now, From(start, n))
    ensures Timely(policy, now, draws, start, n)(x)
  {
  }

  lemma {:induction false} RunStaysTimely(policy: Policy, now: nat -> Time, draws: nat -> nat -> Draws, start: nat,
                                          trace: nat -> Tables, rounds: nat -> Round, length: nat, n: nat)
    requires policy.Valid() && RoundsRun(policy, now, draws, trace, rounds, length) && n <= length
    requires Timely(policy, now, draws, start, 0)(trace(0))
    ensures Timely(policy, now, draws, start, n)(trace(n))
  {
    if n > 0 {
      var k: nat := n - 1;
      RunStaysTimely(policy, now, draws, start, trace, rounds, length, k);
      ThatRound(policy, now, draws, trace, rounds, length, k);
      RoundStaysTimely(trace(k), rounds(k), policy, now, draws, start, k, trace(k + 1));
    }
  }

  /** Spaced rounds from tables prepared, with all that waits due from the start on. */
  ghost predicate InTime(x: Tables, policy: Policy, now: nat -> Time, draws: nat -> nat -> Draws, start: nat) {
    && Prepared(x, policy, draws, start) && policy.batchSize >= 1
    && Spaced(policy, now, draws, start) && DueFrom(x.schedule, now, start)
  }

  lemma InTimeIsTimely(x: Tables, policy: Policy, now: nat -> Time, draws: nat -> nat -> Draws, start: nat)
    requires InTime(x, policy, now, draws, start)
    ensures Timely(policy, now, draws, start, 0)(x)
  {
    PreparedIsReady(x, policy, draws, start);
    assert From(start, 0) == start;
  }

  // ------------------------------------------------------------------- progress

  lemma {:induction false} RunProgresses(policy: Policy, now: nat -> Time, draws: nat -> nat -> Draws, start: nat,
                                         trace: nat -> Tables, rounds: nat -> Round, length: nat, n: nat)
    requires policy.Valid()
    requires RoundsRun(policy, now, draws, trace, rounds, length) && n <= length
    requires Timely(policy, now, draws, start, 0)(trace(0))
    requires forall m :: start <= m < length ==> !Fails(rounds(m))
    ensures Progressed(TotalLeft(trace(0).db.txs, policy.maxAttempts), trace(n).db.txs, policy.maxAttempts, start, n)
  {
    if n > 0 {
      var k: nat := n - 1;
      RunProgresses(policy, now, draws, start, trace, rounds, length, k);
      RunStaysTimely(policy, now, draws, start, trace, rounds, length, k);
      ThatRound(policy, now, draws, trace, rounds, length, k);
      RoundOfRunProgresses(trace(k), rounds(k), policy, k, now, start, draws, trace(k + 1),
                           TotalLeft(trace(0).db.txs, policy.maxAttempts));
    }
  }

  lemma RoundOfRunProgresses(x: Tables, round: Round, policy: Policy, n: nat, now: nat -> Time, start: nat,
                             draws: nat -> nat -> Draws, later: Tables, left: int)
    requires policy.Valid()
    requires Timely(policy, now, draws, start, n)(x) && Executes(policy, now(n), draws(n))(x, round, later)
    requires n >= start ==> !Fails(round)
    requires Progressed(left, x.db.txs, policy.maxAttempts, start, n)
    ensures Progressed(left, later.db.txs, policy.maxAttempts, start, n + 1)
  {
    TimelyMeans(x, policy, now, draws, start, n);
    OrderlyMeans(x, policy.maxAttempts);
    RoundTriesEach(x, round, policy, now, draws, start, n, later);
    RoundProgresses(x, round.picks, policy, n, now, start, draws, later, round.answers, left);
  }

  /** Unless some attempt fails, no operation waits after as many spaced rounds as there were
      attempts left in all, and one. */
  lemma RoundsEndWaiting(policy: Policy, now: nat -> Time, draws: nat -> nat -> Draws, start: nat, trace: nat -> Tables,
                         rounds: nat -> Round, length: nat)
    requires policy.Valid() && RoundsRun(policy, now, draws, trace, rounds, length)
    requires InTime(trace(0), policy, now, draws, start)
    requires length > start + TotalLeft(trace(0).db.txs, policy.maxAttempts)
    ensures NoneWaits(trace(length).db.txs) || exists n :: start <= n < length && Fails(rounds(n))
  {
    if forall n :: start <= n < length ==> !Fails(rounds(n)) {
      InTimeIsTimely(trace(0), policy, now, draws, start);
      LeftIsPositive(LeftOfEach(trace(length).db.txs, policy.maxAttempts));
      LeftIsPositive(LeftOfEach(trace(0).db.txs, policy.maxAttempts));
      RunProgresses(policy, now, draws, start, trace, rounds, length, length);
    }
  }

  function Waits(txs: seq<Tx>): set<nat> {
    set k: nat | k < |txs| && txs[k].state == PendingReference
  }

  // ------------------------------------------------------------------ measure

  /** Since a table last changed, the operations in tried were taken, overflowed, and are due
      after every other that waits. */
  ghost predicate Quiet(x: Tables, tried: set<nat>) {
    && (forall k :: k in tried ==>
          && k < |x.db.txs| && x.db.txs[k].state == PendingReference && x.db.txs[k].id in x.schedule
          && Overflows(x.db, x.db.txs[k]))
    && (forall k, u :: k in tried && u in Waits(x.db.txs) && u !in tried && x.db.txs[u].id in x.schedule ==>
          x.schedule[x.db.txs[u].id] < x.schedule[x.db.txs[k].id])
  }

  /** What the rounds have yet to do: the attempts left, each with a turn for every operation,
      and the operations not taken since a table last changed. */
  function Toil(txs: seq<Tx>, maxAttempts: int, tried: set<nat>): nat {
    Times(TotalLeft(txs, maxAttempts), |txs| + 1) + |Waits(txs) - tried|
  }

  /** While an operation waits that was not taken, the batch takes one that was not. */
  lemma SomethingNewIsTaken(x: Tables, picks: seq<nat>, dueAt: Time, limit: int, tried: set<nat>, u: nat)
    requires Picked(x.db.txs, x.schedule, picks, dueAt, {}, limit) && limit >= 1
    requires ScheduledExactly(x.db.txs, x.schedule) && forall id :: id in x.schedule ==> x.schedule[id] <= dueAt
    requires Quiet(x, tried) && u in Waits(x.db.txs) && u !in tried
    ensures exists p :: p in picks && p in Waits(x.db.txs) && p !in tried
  {
    assert IsDue(x.db.txs, x.schedule, u, dueAt, {});
    if u !in picks {
      var p := picks[0];
      assert p in picks && IsDue(x.db.txs, x.schedule, p, dueAt, {});
      assert x.schedule[x.db.txs[p].id] <= x.schedule[x.db.txs[u].id];
    }
  }

  lemma QuietGrows(x: Tables, picks: seq<nat>, policy: Policy, now: Time, draws: nat -> Draws, later: Tables,
                   answers: seq<Answer>, tried: set<nat>, more: set<nat>)
    requires policy.Valid() && |answers| == |picks| && ScheduledExactly(x.db.txs, x.schedule)
    requires AreDue(x.db.txs, x.schedule, picks, now, {}) && EachTaken(x, picks, policy, now, draws, later, answers)
    requires forall i :: 0 <= i < |answers| ==> answers[i].Err? && Overflows(x.db, x.db.txs[picks[i]])
    requires forall id :: id in x.schedule ==> x.schedule[id] <= now
    requires later.db == x.db && Quiet(x, tried) && more == tried + (set p | p in picks)
    ensures Quiet(later, more)
  {
    forall k | k in picks ensures k < |x.db.txs| && x.db.txs[k].state == PendingReference
                                  && x.db.txs[k].id in later.schedule && Overflows(x.db, x.db.txs[k])
                                  && later.schedule[x.db.txs[k].id] == policy.LeaseUntil(now)
    {
      var i :| 0 <= i < |picks| && picks[i] == k;
      assert IsDue(x.db.txs, x.schedule, picks[i], now, {});
      assert TriedAt(x.db.txs[picks[i]], later.db.txs[picks[i]], answers[i], draws(i).at, policy, policy.LeaseUntil(now),
                     later.schedule);
    }
    forall k | 0 <= k < |x.db.txs| && k !in picks ensures Stands(x, later, k) {}
  }

  lemma QuietRoundToils(x: Tables, picks: seq<nat>, maxAttempts: int, tried: set<nat>, more: set<nat>, p: nat)
    requires more == tried + (set k | k in picks) && p in picks && p in Waits(x.db.txs) && p !in tried
    ensures Toil(x.db.txs, maxAttempts, more) < Toil(x.db.txs, maxAttempts, tried)
  {
    FitsWithin(Waits(x.db.txs) - more, Waits(x.db.txs) - tried, p);
  }

  lemma LowerTotalToilsLess(txs: seq<Tx>, txs': seq<Tx>, maxAttempts: int, tried: set<nat>)
    requires |txs'| == |txs| && TotalLeft(txs', maxAttempts) < TotalLeft(txs, maxAttempts)
    ensures Toil(txs', maxAttempts, {}) < Toil(txs, maxAttempts, tried)
  {
    Below(Waits(txs') - {}, |txs|);
    LeftIsPositive(LeftOfEach(txs', maxAttempts));
    MoreTimes(TotalLeft(txs', maxAttempts), TotalLeft(txs, maxAttempts), |txs| + 1);
  }

  // --------------------------------------------------------------------- runs

  lemma AnsweredRoundToils(x: Tables, round: Round, policy: Policy, now: nat -> Time, draws: nat -> nat -> Draws,
                           start: nat, n: nat, later: Tables, tried: set<nat>, i: nat)
    requires policy.Valid() && Timely(policy, now, draws, start, n)(x)
    requires Executes(policy, now(n), draws(n))(x, round, later)
    requires i < |round.answers| && round.answers[i].Ok?
    ensures |later.db.txs| == |x.db.txs|
    ensures Toil(later.db.txs, policy.maxAttempts, {}) < Toil(x.db.txs, policy.maxAttempts, tried)
  {
    TimelyMeans(x, policy, now, draws, start, n);
    OrderlyMeans(x, policy.maxAttempts);
    RoundTriesEach(x, round, policy, now, draws, start, n, later);
    ExecutionLowersTheTotal(x, round.picks, policy, now(n), {}, draws(n), later, round.answers);
    LowerTotalToilsLess(x.db.txs, later.db.txs, policy.maxAttempts, tried);
  }

  lemma RoundTakesWhatIsDue(x: Tables, round: Round, policy: Policy, now: nat -> Time, draws: nat -> nat -> Draws, start: nat,
                         n: nat, later: Tables)
    requires policy.Valid() && n >= start
    requires Timely(policy, now, draws, start, n)(x) && Executes(policy, now(n), draws(n))(x, round, later)
    ensures Picked(x.db.txs, x.schedule, round.picks, now(n), {}, policy.batchSize) && |round.picks| == |round.answers|
    ensures EachTaken(x, round.picks, policy, now(n), draws(n), later, round.answers)
    ensures ScheduledExactly(x.db.txs, x.schedule) && forall id :: id in x.schedule ==> x.schedule[id] <= now(n)
  {
    TimelyMeans(x, policy, now, draws, start, n);
    OrderlyMeans(x, policy.maxAttempts);
    RoundTriesEach(x, round, policy, now, draws, start, n, later);
  }

  lemma FailedRoundStaysQuiet(x: Tables, round: Round, policy: Policy, now: nat -> Time, draws: nat -> nat -> Draws,
                              start: nat, n: nat, later: Tables, tried: set<nat>)
    requires policy.Valid() && n >= start && Quiet(x, tried)
    requires Timely(policy, now, draws, start, n)(x) && Executes(policy, now(n), draws(n))(x, round, later)
    requires forall i :: 0 <= i < |round.answers| ==> round.answers[i].Err?
    ensures later.db == x.db && Quiet(later, tried + (set p | p in round.picks))
  {
    RoundTakesWhatIsDue(x, round, policy, now, draws, start, n, later);
    FailedRoundFoundOverflows(x, round, policy, now, draws, start, n, later);
    QuietGrows(x, round.picks, policy, now(n), draws(n), later, round.answers, tried,
               tried + (set p | p in round.picks));
  }

  lemma FailedRoundToils(x: Tables, round: Round, policy: Policy, now: nat -> Time, draws: nat -> nat -> Draws, start: nat,
                         n: nat, later: Tables, tried: set<nat>, u: nat)
    requires policy.Valid() && n >= start && Quiet(x, tried) && u in Waits(x.db.txs) && u !in tried
    requires Timely(policy, now, draws, start, n)(x) && Executes(policy, now(n), draws(n))(x, round, later)
    ensures Toil(x.db.txs, policy.maxAttempts, tried + (set p | p in round.picks))
            < Toil(x.db.txs, policy.maxAttempts, tried)
  {
    TimelyMeans(x, policy, now, draws, start, n);
    OrderlyMeans(x, policy.maxAttempts);
    ExecutesWhatItPicked(x, round, policy, now(n), draws(n), later);
    SomethingNewIsTaken(x, round.picks, now(n), policy.batchSize, tried, u);
    var p :| p in round.picks && p in Waits(x.db.txs) && p !in tried;
    QuietRoundToils(x, round.picks, policy.maxAttempts, tried, tried + (set p | p in round.picks), p);
  }

  /** A round toils: it concludes or counts something, or takes something new that overflows. */
  lemma RoundToils(x: Tables, round: Round, policy: Policy, now: nat -> Time, draws: nat -> nat -> Draws, start: nat,
                   n: nat, later: Tables, tried: set<nat>, u: nat) returns (more: set<nat>)
    requires policy.Valid() && n >= start && Quiet(x, tried) && u in Waits(x.db.txs) && u !in tried
    requires Timely(policy, now, draws, start, n)(x) && Executes(policy, now(n), draws(n))(x, round, later)
    ensures Quiet(later, more) && |later.db.txs| == |x.db.txs|
    ensures Toil(later.db.txs, policy.maxAttempts, more) < Toil(x.db.txs, policy.maxAttempts, tried)
  {
    if i :| 0 <= i < |round.answers| && round.answers[i].Ok? {
      more := {};
      AnsweredRoundToils(x, round, policy, now, draws, start, n, later, tried, i);
    } else {
      more := tried + (set p | p in round.picks);
      FailedRoundStaysQuiet(x, round, policy, now, draws, start, n, later, tried);
      FailedRoundToils(x, round, policy, now, draws, start, n, later, tried, u);
    }
  }

  /** After n rounds, only operations that overflow wait, or the rounds toiled for all but a
      bounded number of them. */
  ghost predicate Toiled(x: Tables, maxAttempts: int, start: nat, n: nat, bound: int) {
    OnlyOverflowsWait(x.db) || exists tried :: Quiet(x, tried) && ToiledWith(x, maxAttempts, start, n, bound, tried)
  }

  predicate ToiledWith(x: Tables, maxAttempts: int, start: nat, n: nat, bound: int, tried: set<nat>) {
    n - start + Toil(x.db.txs, maxAttempts, tried) <= bound
  }

  lemma QuietEverywhere(x: Tables, tried: set<nat>)
    requires Quiet(x, tried) && Waits(x.db.txs) <= tried
    ensures OnlyOverflowsWait(x.db)
  {
    forall k | 0 <= k < |x.db.txs| && x.db.txs[k].state == PendingReference ensures Overflows(x.db, x.db.txs[k]) {
      assert k in Waits(x.db.txs);
    }
  }

  lemma RoundStaysToiled(x: Tables, round: Round, policy: Policy, now: nat -> Time, draws: nat -> nat -> Draws, start: nat,
                         n: nat, later: Tables, bound: int)
    requires policy.Valid() && n >= start && Toiled(x, policy.maxAttempts, start, n, bound)
    requires Timely(policy, now, draws, start, n)(x) && Executes(policy, now(n), draws(n))(x, round, later)
    ensures Toiled(later, policy.maxAttempts, start, n + 1, bound)
  {
    if OnlyOverflowsWait(x.db) {
      StalledRoundIsIdle(x, round, policy, now, draws, start, n, later);
    } else {
      var tried :| Quiet(x, tried) && ToiledWith(x, policy.maxAttempts, start, n, bound, tried);
      if Waits(x.db.txs) <= tried {
        QuietEverywhere(x, tried);
      } else {
        var u :| u in Waits(x.db.txs) && u !in tried;
        var more := RoundToils(x, round, policy, now, draws, start, n, later, tried, u);
        assert ToiledWith(later, policy.maxAttempts, start, n + 1, bound, more);
      }
    }
  }

  /** How many rounds it may take: one for every operation, after each attempt left in all. */
  function Patience(txs: seq<Tx>, maxAttempts: int): nat {
    Times(TotalLeft(txs, maxAttempts), |txs| + 1) + |txs|
  }

  lemma StartsToiled(x: Tables, maxAttempts: int, start: nat, before: seq<Tx>)
    requires |before| == |x.db.txs| && TotalLeft(x.db.txs, maxAttempts) <= TotalLeft(before, maxAttempts)
    ensures Toiled(x, maxAttempts, start, start, Patience(before, maxAttempts))
  {
    Below(Waits(x.db.txs) - {}, |x.db.txs|);
    LeftIsPositive(LeftOfEach(x.db.txs, maxAttempts));
    if TotalLeft(x.db.txs, maxAttempts) < TotalLeft(before, maxAttempts) {
      MoreTimes(TotalLeft(x.db.txs, maxAttempts), TotalLeft(before, maxAttempts), |before| + 1);
    }
    assert Quiet(x, {}) && ToiledWith(x, maxAttempts, start, start, Patience(before, maxAttempts), {});
  }

  lemma RoundKeepsTheTotal(x: Tables, round: Round, policy: Policy, now: nat -> Time, draws: nat -> nat -> Draws,
                           start: nat, n: nat, later: Tables)
    requires policy.Valid() && Timely(policy, now, draws, start, n)(x)
    requires Executes(policy, now(n), draws(n))(x, round, later)
    ensures |later.db.txs| == |x.db.txs|
    ensures TotalLeft(later.db.txs, policy.maxAttempts) <= TotalLeft(x.db.txs, policy.maxAttempts)
  {
    TimelyMeans(x, policy, now, draws, start, n);
    OrderlyMeans(x, policy.maxAttempts);
    RoundTriesEach(x, round, policy, now, draws, start, n, later);
    ExecutionLowersTheTotal(x, round.picks, policy, now(n), {}, draws(n), later, round.answers);
  }

  lemma {:induction false} RunStaysToiled(policy: Policy, now: nat -> Time, draws: nat -> nat -> Draws, start: nat,
                                          trace: nat -> Tables, rounds: nat -> Round, length: nat, n: nat)
    requires policy.Valid() && RoundsRun(policy, now, draws, trace, rounds, length) && n <= length
    requires Timely(policy, now, draws, start, 0)(trace(0))
    ensures |trace(n).db.txs| == |trace(0).db.txs|
    ensures TotalLeft(trace(n).db.txs, policy.maxAttempts) <= TotalLeft(trace(0).db.txs, policy.maxAttempts)
    ensures n >= start ==>
              Toiled(trace(n), policy.maxAttempts, start, n, Patience(trace(0).db.txs, policy.maxAttempts))
  {
    if n > 0 {
      var k: nat := n - 1;
      RunStaysToiled(policy, now, draws, start, trace, rounds, length, k);
      RunStaysTimely(policy, now, draws, start, trace, rounds, length, k);
      ThatRound(policy, now, draws, trace, rounds, length, k);
      RoundKeepsTheTotal(trace(k), rounds(k), policy, now, draws, start, k, trace(k + 1));
      if k >= start {
        RoundStaysToiled(trace(k), rounds(k), policy, now, draws, start, k, trace(k + 1),
                         Patience(trace(0).db.txs, policy.maxAttempts));
      }
    }
    if n == start {
      StartsToiled(trace(n), policy.maxAttempts, start, trace(0).db.txs);
    }
  }

  lemma ToiledEnough(x: Tables, maxAttempts: int, start: nat, n: nat, bound: int)
    requires Toiled(x, maxAttempts, start, n, bound) && n - start > bound
    ensures OnlyOverflowsWait(x.db)
  {
  }

  lemma PatientRoundsLeaveOverflows(policy: Policy, now: nat -> Time, draws: nat -> nat -> Draws, start: nat,
                                    trace: nat -> Tables, rounds: nat -> Round, length: nat)
    requires policy.Valid() && RoundsRun(policy, now, draws, trace, rounds, length)
    requires Timely(policy, now, draws, start, 0)(trace(0))
    requires length > start + Patience(trace(0).db.txs, policy.maxAttempts)
    ensures OnlyOverflowsWait(trace(length).db)
  {
    RunStaysToiled(policy, now, draws, start, trace, rounds, length, length);
    ToiledEnough(trace(length), policy.maxAttempts, start, length, Patience(trace(0).db.txs, policy.maxAttempts));
  }

  lemma PatienceIsTheProduct(txs: seq<Tx>, maxAttempts: int)
    ensures TotalLeft(txs, maxAttempts) >= 0
    ensures Patience(txs, maxAttempts) == TotalLeft(txs, maxAttempts) * (|txs| + 1) + |txs|
  {
    LeftIsPositive(LeftOfEach(txs, maxAttempts));
    TimesIsTheProduct(TotalLeft(txs, maxAttempts), |txs| + 1);
  }

  /** Whatever the amounts, whatever batch a round takes: after so many spaced rounds, an operation
      still waits only if the rules accept it and its credit overflows. */
  lemma SpacedRoundsLeaveOverflows(policy: Policy, now: nat -> Time, draws: nat -> nat -> Draws, start: nat,
                                   trace: nat -> Tables, rounds: nat -> Round, length: nat)
    requires policy.Valid() && RoundsRun(policy, now, draws, trace, rounds, length)
    requires InTime(trace(0), policy, now, draws, start)
    requires var txs := trace(0).db.txs; length > start + TotalLeft(txs, policy.maxAttempts) * (|txs| + 1) + |txs|
    ensures OnlyOverflowsWait(trace(length).db)
  {
    PatienceIsTheProduct(trace(0).db.txs, policy.maxAttempts);
    InTimeIsTimely(trace(0), policy, now, draws, start);
    PatientRoundsLeaveOverflows(policy, now, draws, start, trace, rounds, length);
  }

  /** What so many spaced rounds come to: an operation still waits only if its credit overflows,
      and none does, after fewer, when the wallets had room for the credits that waited. */
  ghost predicate ComesTo(before: Db, after: Db, maxAttempts: int, start: nat, rounds: nat) {
    var left, n := TotalLeft(before.txs, maxAttempts), |before.txs|;
    && (rounds > start + left * (n + 1) + n ==> OnlyOverflowsWait(after))
    && (HasRoom(before) && rounds > start + left ==> NoneWaits(after.txs))
  }

  lemma WhatSpacedRoundsComeTo(policy: Policy, now: nat -> Time, draws: nat -> nat -> Draws, start: nat,
                               trace: nat -> Tables, rounds: nat -> Round, length: nat)
    requires policy.Valid() && RoundsRun(policy, now, draws, trace, rounds, length)
    requires InTime(trace(0), policy, now, draws, start)
    ensures ComesTo(trace(0).db, trace(length).db, policy.maxAttempts, start, length)
  {
    var left, n := TotalLeft(trace(0).db.txs, policy.maxAttempts), |trace(0).db.txs|;
    if length > start + left * (n + 1) + n {
      SpacedRoundsLeaveOverflows(policy, now, draws, start, trace, rounds, length);
    }
    if HasRoom(trace(0).db) && length > start + left {
      RoomIsEnough(policy, now, draws, start, trace, rounds, length);
      RoundsEndWaiting(policy, now, draws, start, trace, rounds, length);
    }
  }
}
