/** A round of the worker that tries waiting operations again: what one execution does to each
    operation, to the attempts left in all and to what is due. */
module Rounds {
  import opened Domain
  import opened Sequences
  import opened Wager
  import opened Accounting
  import opened Conservation
  import opened Schedule
  import opened Runs
  import opened Retrying

  // ------------------------------------------------------------------- lease

  lemma LeaseHolds(x: Tables, picks: seq<nat>, dueAt: Time, locked: set<nat>, leaseUntil: Time)
    requires AreDue(x.db.txs, x.schedule, picks, dueAt, locked)
    ensures Held(Leased(x, picks, leaseUntil), picks, leaseUntil)
  {
  }

  lemma LeaseKeepsTheSchedule(x: Tables, picks: seq<nat>, dueAt: Time, locked: set<nat>, leaseUntil: Time)
    requires ScheduledExactly(x.db.txs, x.schedule) && AreDue(x.db.txs, x.schedule, picks, dueAt, locked)
    ensures ScheduledExactly(x.db.txs, Leased(x, picks, leaseUntil).schedule)
  {
  }

  /** A lease postpones what it takes, and nothing else. */
  lemma OnlyTheTakenWait(x: Tables, picks: seq<nat>, k: nat, leaseUntil: Time)
    requires DistinctIds(x.db.txs) && k < |x.db.txs| && k !in picks
    ensures Stands(x, Leased(x, picks, leaseUntil), k)
  {
    forall j | j in picks && j < |x.db.txs| ensures x.db.txs[j].id != x.db.txs[k].id {
      SameId(x.db.txs, j, k);
    }
  }

  /** Until it runs out nobody else takes what it took. */
  lemma LeaseExcludes(x: Tables, picks: seq<nat>, leaseUntil: Time, others: seq<nat>, dueAt: Time, locked: set<nat>)
    requires AreDue(x.db.txs, Leased(x, picks, leaseUntil).schedule, others, dueAt, locked) && dueAt < leaseUntil
    requires DistinctIds(x.db.txs)
    ensures forall i :: 0 <= i < |others| ==> others[i] !in picks
  {
    forall i | 0 <= i < |others| ensures others[i] !in picks {
      assert IsDue(x.db.txs, Leased(x, picks, leaseUntil).schedule, others[i], dueAt, locked);
    }
  }

  // --------------------------------------------------------------- execution

  /** What one execution leaves: of the operations it took, each tried once; the others as they
      stood, due when they were. */
  ghost predicate EachTaken(x: Tables, picks: seq<nat>, policy: Policy, now: Time, draws: nat -> Draws, later: Tables,
                            answers: seq<Answer>)
    requires policy.Valid() && |answers| == |picks| && forall i :: 0 <= i < |picks| ==> picks[i] < |x.db.txs|
  {
    && |later.db.txs| == |x.db.txs|
    && (forall i :: 0 <= i < |picks| ==>
          TriedAt(x.db.txs[picks[i]], later.db.txs[picks[i]], answers[i], draws(i).at, policy, now + policy.lease,
                  later.schedule))
    && (forall k :: 0 <= k < |x.db.txs| && k !in picks ==> Stands(x, later, k))
  }

  lemma TriedIsTaken(x: Tables, picks: seq<nat>, policy: Policy, now: Time, draws: nat -> Draws, later: Tables,
                     answers: seq<Answer>)
    requires policy.Valid() && DistinctIds(x.db.txs)
    requires Held(Leased(x, picks, policy.LeaseUntil(now)), picks, policy.LeaseUntil(now))
    requires FirstTried(Leased(x, picks, policy.LeaseUntil(now)), picks, |picks|, draws, policy, policy.LeaseUntil(now),
                        later, answers)
    ensures EachTaken(x, picks, policy, now, draws, later, answers)
  {
    var leaseUntil := policy.LeaseUntil(now);
    forall k | 0 <= k < |x.db.txs| && k !in picks ensures Stands(x, later, k) {
      OnlyTheTakenWait(x, picks, k, leaseUntil);
      assert Stands(Leased(x, picks, leaseUntil), later, k);
    }
  }

  lemma LeaseKeepsOrder(x: Tables, picks: seq<nat>, maxAttempts: int, dueAt: Time, locked: set<nat>, leaseUntil: Time)
    requires InOrder(x, maxAttempts) && AreDue(x.db.txs, x.schedule, picks, dueAt, locked)
    ensures InOrder(Leased(x, picks, leaseUntil), maxAttempts)
  {
    LeaseKeepsTheSchedule(x, picks, dueAt, locked, leaseUntil);
  }

  lemma ExecutionTriesEach(x: Tables, picks: seq<nat>, policy: Policy, now: Time, locked: set<nat>, draws: nat -> Draws,
                           later: Tables, answers: seq<Answer>)
    requires policy.Valid() && InOrder(x, policy.maxAttempts)
    requires Picked(x.db.txs, x.schedule, picks, now, locked, policy.batchSize)
    requires (later, answers) == Executed(x, picks, policy, now, draws)
    ensures InOrder(later, policy.maxAttempts) && |answers| == |picks|
    ensures EachTaken(x, picks, policy, now, draws, later, answers)
  {
    var leaseUntil := policy.LeaseUntil(now);
    LeaseHolds(x, picks, now, locked, leaseUntil);
    LeaseKeepsOrder(x, picks, policy.maxAttempts, now, locked, leaseUntil);
    EachIsTried(Leased(x, picks, leaseUntil), picks, draws, policy, leaseUntil, later, answers);
    TriedIsTaken(x, picks, policy, now, draws, later, answers);
  }

  // ------------------------------------------------------------------- total

  lemma {:induction false} SumFalls(s: seq<int>, t: seq<int>)
    requires |s| == |t| && forall k :: 0 <= k < |s| ==> t[k] <= s[k]
    ensures Sum(t) <= Sum(s)
    ensures (exists k :: 0 <= k < |s| && t[k] < s[k]) ==> Sum(t) < Sum(s)
  {
    if s != [] {
      SumFalls(s[..|s| - 1], t[..|t| - 1]);
    }
  }

  /** An execution lowers what the operations have left, unless every attempt of it failed. */
  lemma ExecutionLowersTheTotal(x: Tables, picks: seq<nat>, policy: Policy, now: Time, locked: set<nat>,
                                draws: nat -> Draws, later: Tables, answers: seq<Answer>)
    requires policy.Valid() && TxsOk(x.db.txs, policy.maxAttempts) && |answers| == |picks|
    requires AreDue(x.db.txs, x.schedule, picks, now, locked)
    requires EachTaken(x, picks, policy, now, draws, later, answers)
    ensures TotalLeft(later.db.txs, policy.maxAttempts) <= TotalLeft(x.db.txs, policy.maxAttempts)
    ensures (exists i :: 0 <= i < |answers| && answers[i].Ok?) ==>
              TotalLeft(later.db.txs, policy.maxAttempts) < TotalLeft(x.db.txs, policy.maxAttempts)
  {
    var s, t := LeftOfEach(x.db.txs, policy.maxAttempts), LeftOfEach(later.db.txs, policy.maxAttempts);
    forall i | 0 <= i < |picks| ensures t[picks[i]] <= s[picks[i]] && (answers[i].Ok? ==> t[picks[i]] < s[picks[i]]) {
      assert RowOk(x.db.txs[picks[i]], policy.maxAttempts) && IsDue(x.db.txs, x.schedule, picks[i], now, locked);
      assert TriedAt(x.db.txs[picks[i]], later.db.txs[picks[i]], answers[i], draws(i).at, policy, policy.LeaseUntil(now),
                     later.schedule);
    }
    forall k | 0 <= k < |s| ensures t[k] <= s[k] {
      if k in picks {
        var i :| 0 <= i < |picks| && picks[i] == k;
        assert t[picks[i]] <= s[picks[i]];
      } else {
        assert Stands(x, later, k);
      }
    }
    SumFalls(s, t);
  }

  // ------------------------------------------------------------------ rounds

  ghost predicate NoneWaits(txs: seq<Tx>) {
    forall k :: 0 <= k < |txs| ==> txs[k].state != PendingReference
  }

  lemma {:induction false} LeftIsPositive(s: seq<int>)
    requires forall k :: 0 <= k < |s| ==> s[k] >= 0
    ensures Sum(s) >= 0
  {
    if s != [] {
      LeftIsPositive(s[..|s| - 1]);
    }
  }
}
