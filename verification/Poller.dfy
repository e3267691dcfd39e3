/** The worker that tries waiting operations again, as it runs: round after round over the
    store. */
module Poller {
  import opened Domain
  import opened Sequences
  import opened Schedule
  import opened Execution
  import opened Retrying
  import opened Worker
  import opened Headroom
  import opened Stalling
  import opened Spacing

  /** One round, as a step from the tables before it to those after. */
  method WorkOnce(store: Store, policy: Policy, now: Time, draws: nat -> Draws) returns (ghost round: Round)
    requires policy.Valid()
    modifies store
    ensures Executes(policy, now, draws)(old(Tables(store.Db(), store.schedule)), round, Tables(store.Db(), store.schedule))
  {
    var answers;
    ghost var picks;
    answers, picks := Execute(store, policy, now, {}, draws);
    round := Round(picks, answers);
  }

  /** Whatever the clocks and the draws, the rounds run. */
  method WorkOn(store: Store, policy: Policy, now: nat -> Time, draws: nat -> nat -> Draws, rounds: nat)
    returns (ghost trace: nat -> Tables, ghost done: nat -> Round)
    requires policy.Valid()
    modifies store
    ensures RoundsRun(policy, now, draws, trace, done, rounds)
    ensures trace(0) == old(Tables(store.Db(), store.schedule)) && trace(rounds) == Tables(store.Db(), store.schedule)
  {
    ghost var first := Tables(store.Db(), store.schedule);
    trace, done := (n: nat) => first, (n: nat) => Round([], []);
    for n := 0 to rounds
      invariant trace(0) == first && trace(n) == Tables(store.Db(), store.schedule)
      invariant RoundsRun(policy, now, draws, trace, done, n)
    {
      ghost var round := WorkOnce(store, policy, now(n), draws(n));
      OneMoreFollows(Executions(policy, now, draws), trace, done, n, round, Tables(store.Db(), store.schedule));
      trace, done := With(trace, n + 1, Tables(store.Db(), store.schedule)), With(done, n, round);
    }
  }

  /** So many rounds of a worker, alone with the tables, keep them in order and keep what room the
      wallets had; when only operations that overflow waited, they change no table. Spaced past the
      leases and delays given, they come to no more waiting than overflows call for. */
  method Work(store: Store, policy: Policy, now: nat -> Time, draws: nat -> nat -> Draws, ghost start: nat, rounds: nat)
    requires Prepared(Tables(store.Db(), store.schedule), policy, draws, start)
    modifies store
    ensures InOrder(Tables(store.Db(), store.schedule), policy.maxAttempts)
    ensures HasRoom(old(store.Db())) ==> HasRoom(store.Db())
    ensures start == 0 && OnlyOverflowsWait(old(store.Db())) ==> store.Db() == old(store.Db())
    ensures InTime(old(Tables(store.Db(), store.schedule)), policy, now, draws, start) ==>
              ComesTo(old(store.Db()), store.Db(), policy.maxAttempts, start, rounds)
  {
    ghost var trace, done := WorkOn(store, policy, now, draws, rounds);
    RunStaysInOrder(policy, now, draws, start, trace, done, rounds);
    if HasRoom(trace(0).db) {
      RoomIsEnough(policy, now, draws, start, trace, done, rounds);
    }
    if start == 0 && OnlyOverflowsWait(trace(0).db) {
      OverflowsWaitForever(policy, now, draws, start, trace, done, 0, rounds);
    }
    if InTime(trace(0), policy, now, draws, start) {
      WhatSpacedRoundsComeTo(policy, now, draws, start, trace, done, rounds);
    }
  }

  lemma RunStaysInOrder(policy: Policy, now: nat -> Time, draws: nat -> nat -> Draws, start: nat, trace: nat -> Tables,
                        rounds: nat -> Round, length: nat)
    requires policy.Valid() && RoundsRun(policy, now, draws, trace, rounds, length)
    requires Prepared(trace(0), policy, draws, start)
    ensures InOrder(trace(length), policy.maxAttempts)
  {
    PreparedIsReady(trace(0), policy, draws, start);
    RunStaysReady(policy, now, draws, start, trace, rounds, length, length);
    ReadyMeans(trace(length), policy, draws, start, length);
  }
}
