/** The rounds of the worker that tries waiting operations again: which attempts fail, and what
    the rounds come to. */
module Worker {
  import opened Domain
  import opened Sequences
  import opened Wager
  import opened Database
  import opened Accounting
  import opened Conservation
  import opened Schedule
  import opened Retrying
  import opened Failing
  import opened Rounds

  // ------------------------------------------------------------------- draws

  /** From a round on, no two attempts draw the same identifier or number. Clocks are free. */
  ghost predicate DrawnApart(draws: nat -> nat -> Draws, start: nat) {
    forall n: nat, i: nat, m: nat, j: nat :: start <= m && (n != m || i != j) ==>
      draws(n)(i).entryId != draws(m)(j).entryId && Apart(draws(n)(i).marks, draws(m)(j).marks)
  }

  /** What the attempts from the i-th of the n-th round on draw is in no table yet. */
  ghost predicate FreshAhead(db: Db, draws: nat -> nat -> Draws, start: nat, n: nat, i: nat) {
    forall m: nat, j: nat :: start <= m && (n < m || (n == m && i <= j)) ==>
      FreshFor(db, draws(m)(j).entryId, draws(m)(j).marks, draws(m)(j).at)
  }

  lemma TriedLeavesBehind(x: Tables, k: nat, d: Draws, policy: Policy, done: (Tables, Option<State>))
    requires policy.Valid() && TxsOk(x.db.txs, policy.maxAttempts) && WalletsOk(x.db)
    requires k < |x.db.txs| && x.db.txs[k].state == PendingReference
    requires TriedOnce(x, Taken(x.db.txs[k].id, x.db.txs[k].walletId), d, policy) == Ok(done)
    ensures |done.0.db.txs| == |x.db.txs|
    ensures LeftBehind(x.db, done.0.db, x.db.txs[k], done.0.db.txs[k], d.entryId, d.marks)
  {
    var t := x.db.txs[k];
    TriedOnceIsRetried(x, Taken(t.id, t.walletId), d, policy, done);
    WhereItIs(x.db.txs, k);
    var y := RetriedIsTriedAgain(x.db, t.id, t.walletId, t, d.entryId, d.marks, policy.maxAttempts, d.at,
                                 (done.0.db, done.1));
    var w := x.db.wallets[t.walletId];
    TriedAgainPutsTheRow(x.db, w, t, d.entryId, d.marks, policy.maxAttempts, d.at, (done.0.db, y));
    TriedAgainLeavesBehind(x.db, t, d.entryId, d.marks, policy.maxAttempts, d.at, (done.0.db, y));
  }

  lemma FreshOnward(db: Db, db': Db, t: Tx, y: Tx, draws: nat -> nat -> Draws, start: nat, n: nat, i: nat)
    requires LeftBehind(db, db', t, y, draws(n)(i).entryId, draws(n)(i).marks)
    requires DrawnApart(draws, start) && FreshAhead(db, draws, start, n, i)
    ensures FreshAhead(db', draws, start, n, i + 1)
  {
    forall m: nat, j: nat | start <= m && (n < m || (n == m && i + 1 <= j))
      ensures FreshFor(db', draws(m)(j).entryId, draws(m)(j).marks, draws(m)(j).at)
    {
      var d, e := draws(n)(i), draws(m)(j);
      StaysFresh(db, db', t, y, d.entryId, d.marks, e.entryId, e.marks, e.at);
    }
  }

  lemma OneTriedStaysFresh(x: Tables, k: nat, policy: Policy, draws: nat -> nat -> Draws, start: nat, n: nat, i: nat,
                           tried: (Tables, Answer))
    requires policy.Valid() && TxsOk(x.db.txs, policy.maxAttempts) && WalletsOk(x.db)
    requires k < |x.db.txs| && x.db.txs[k].state == PendingReference
    requires DrawnApart(draws, start) && FreshAhead(x.db, draws, start, n, i)
    requires tried == OneTried(x, Taken(x.db.txs[k].id, x.db.txs[k].walletId), draws(n)(i), policy)
    ensures FreshAhead(tried.0.db, draws, start, n, i + 1)
  {
    if tried.1.Ok? {
      TriedLeavesBehind(x, k, draws(n)(i), policy, (tried.0, tried.1.value));
      FreshOnward(x.db, tried.0.db, x.db.txs[k], tried.0.db.txs[k], draws, start, n, i);
    }
  }

  // -------------------------------------------------------------------- turns

  /** The tables at the turn of the i-th operation a round took. */
  function AtTurn(x: Tables, picks: seq<nat>, policy: Policy, now: Time, draws: nat -> Draws, i: nat): Tables
    requires policy.Valid() && forall j :: 0 <= j < |picks| ==> picks[j] < |x.db.txs|
  {
    AllTried(Leased(x, picks, policy.LeaseUntil(now)), ReferencesAt(x.db.txs, picks), i, draws, policy).0
  }

  /** At its turn, the i-th operation a round took is accepted by the rules and overflows. */
  predicate OverflowsAt(x: Tables, picks: seq<nat>, policy: Policy, now: Time, draws: nat -> Draws, i: nat)
    requires policy.Valid() && i < |picks| && forall j :: 0 <= j < |picks| ==> picks[j] < |x.db.txs|
  {
    Overflows(AtTurn(x, picks, policy, now, draws, i).db, x.db.txs[picks[i]])
  }

  ghost function Freshness(draws: nat -> nat -> Draws, start: nat, n: nat): (Tables, nat) -> bool {
    (x: Tables, i: nat) => FreshAhead(x.db, draws, start, n, i)
  }

  lemma OneMoreStaysFresh(x: Tables, picks: seq<nat>, policy: Policy, draws: nat -> nat -> Draws, start: nat, n: nat,
                          leaseUntil: Time, now: (Tables, seq<Answer>))
    requires policy.Valid() && Held(x, picks, leaseUntil) && DrawnApart(draws, start) && |now.1| < |picks|
    requires Orderly(policy.maxAttempts)(now.0) && SameRow(x, now.0, picks[|now.1|])
    requires Freshness(draws, start, n)(now.0, |now.1|)
    ensures Freshness(draws, start, n)(OneMore(x, picks, draws(n), policy, now).0, |now.1| + 1)
  {
    OneTriedStaysFresh(now.0, picks[|now.1|], policy, draws, start, n, |now.1|,
                       OneTried(now.0, ReferencesAt(x.db.txs, picks)[|now.1|], draws(n)(|now.1|), policy));
  }

  /** At every turn the tables are in order, the operation is as it was, and what is drawn is
      fresh. */
  lemma TurnsAreFresh(x: Tables, picks: seq<nat>, policy: Policy, draws: nat -> nat -> Draws, start: nat, n: nat, i: nat,
                      leaseUntil: Time)
    requires policy.Valid() && Orderly(policy.maxAttempts)(x) && DistinctIds(x.db.txs) && Held(x, picks, leaseUntil)
    requires i <= |picks| && DrawnApart(draws, start) && Freshness(draws, start, n)(x, 0)
    ensures var now := AllTried(x, ReferencesAt(x.db.txs, picks), i, draws(n), policy);
            && Orderly(policy.maxAttempts)(now.0) && Freshness(draws, start, n)(now.0, i)
            && (i < |picks| ==> SameRow(x, now.0, picks[i]))
  {
    forall now: (Tables, seq<Answer>) |
      Freshness(draws, start, n)(now.0, |now.1|) && |now.1| < |picks| && Orderly(policy.maxAttempts)(now.0)
      && SameRow(x, now.0, picks[|now.1|])
      ensures Freshness(draws, start, n)(OneMore(x, picks, draws(n), policy, now).0, |now.1| + 1)
    {
      OneMoreStaysFresh(x, picks, policy, draws, start, n, leaseUntil, now);
    }
    AttemptsKeep(x, picks, i, draws(n), policy, leaseUntil, Freshness(draws, start, n));
  }

  lemma TriedFailsOnOverflow(x: Tables, k: nat, d: Draws, policy: Policy)
    requires policy.Valid() && Orderly(policy.maxAttempts)(x) && k < |x.db.txs| && x.db.txs[k].state == PendingReference
    requires FreshFor(x.db, d.entryId, d.marks, d.at)
    ensures OneTried(x, Taken(x.db.txs[k].id, x.db.txs[k].walletId), d, policy).1.Err? <==> Overflows(x.db, x.db.txs[k])
  {
    assert x.db.txs[k] in x.db.txs;
    AttemptFailsOnOverflow(x.db, x.db.txs[k], d.entryId, d.marks, policy.maxAttempts, d.at);
  }

  /** An attempt of a round fails exactly when, at its turn, its credit overflows. */
  lemma AnswerIsOverflow(x: Tables, picks: seq<nat>, policy: Policy, draws: nat -> nat -> Draws, start: nat, n: nat,
                         i: nat, leaseUntil: Time)
    requires policy.Valid() && Orderly(policy.maxAttempts)(x) && DistinctIds(x.db.txs) && Held(x, picks, leaseUntil)
    requires i < |picks| && n >= start && DrawnApart(draws, start) && Freshness(draws, start, n)(x, 0)
    ensures var leased := ReferencesAt(x.db.txs, picks);
            AllTried(x, leased, |picks|, draws(n), policy).1[i].Err?
            <==> Overflows(AllTried(x, leased, i, draws(n), policy).0.db, x.db.txs[picks[i]])
  {
    var leased := ReferencesAt(x.db.txs, picks);
    var turn := Turn(leased, draws(n), policy);
    AnswerOfTurn(x, |picks|, turn, i);
    TurnsAreFresh(x, picks, policy, draws, start, n, i, leaseUntil);
    TriedFailsOnOverflow(Turns(x, i, turn).0, picks[i], draws(n)(i), policy);
  }

  // ------------------------------------------------------------------- rounds

  lemma OrderlyMeans(x: Tables, maxAttempts: int)
    requires Orderly(maxAttempts)(x)
    ensures TxsOk(x.db.txs, maxAttempts) && WalletsOk(x.db) && DistinctIds(x.db.txs) && ScheduledExactly(x.db.txs, x.schedule)
    ensures HasWallets(x.db) && maxAttempts >= 1
  {
  }

  /** Before a round: the tables in order, and the draws from it on apart and unused. */
  ghost function Ready(policy: Policy, draws: nat -> nat -> Draws, start: nat, n: nat): Tables -> bool {
    (x: Tables) =>
      && policy.Valid() && DrawnApart(draws, start)
      && Orderly(policy.maxAttempts)(x) && Freshness(draws, start, n)(x, 0)
  }

  lemma ReadyMeans(x: Tables, policy: Policy, draws: nat -> nat -> Draws, start: nat, n: nat)
    requires Ready(policy, draws, start, n)(x)
    ensures policy.Valid() && DrawnApart(draws, start)
    ensures Orderly(policy.maxAttempts)(x) && Freshness(draws, start, n)(x, 0)
  {
  }

  lemma RoundStaysFresh(x: Tables, picks: seq<nat>, policy: Policy, draws: nat -> nat -> Draws, start: nat, n: nat,
                        leaseUntil: Time)
    requires policy.Valid() && Orderly(policy.maxAttempts)(x) && DistinctIds(x.db.txs) && Held(x, picks, leaseUntil)
    requires DrawnApart(draws, start) && Freshness(draws, start, n)(x, 0)
    ensures Freshness(draws, start, n + 1)(AllTried(x, ReferencesAt(x.db.txs, picks), |picks|, draws(n), policy).0, 0)
  {
    TurnsAreFresh(x, picks, policy, draws, start, n, |picks|, leaseUntil);
    var later := AllTried(x, ReferencesAt(x.db.txs, picks), |picks|, draws(n), policy).0;
    assert FreshAhead(later.db, draws, start, n, |picks|);
  }

  lemma LeaseStaysReady(x: Tables, picks: seq<nat>, policy: Policy, now: Time, draws: nat -> nat -> Draws, start: nat, n: nat)
    requires Orderly(policy.maxAttempts)(x) && AreDue(x.db.txs, x.schedule, picks, now, {})
    requires Freshness(draws, start, n)(x, 0)
    ensures var leased := Leased(x, picks, policy.LeaseUntil(now));
            && Orderly(policy.maxAttempts)(leased) && DistinctIds(leased.db.txs) && Held(leased, picks, policy.LeaseUntil(now))
            && Freshness(draws, start, n)(leased, 0)
  {
    LeaseHolds(x, picks, now, {}, policy.LeaseUntil(now));
    LeaseKeepsOrder(x, picks, policy.maxAttempts, now, {}, policy.LeaseUntil(now));
  }

  /** A round: what it took, and what the attempts answered. */
  datatype Round = Round(picks: seq<nat>, answers: seq<Answer>)

  /** An execution that takes x to later. */
  ghost function Executes(policy: Policy, now: Time, draws: nat -> Draws): (Tables, Round, Tables) -> bool
    requires policy.Valid()
  {
    (x: Tables, round: Round, later: Tables) =>
      && Picked(x.db.txs, x.schedule, round.picks, now, {}, policy.batchSize)
      && (later, round.answers) == Executed(x, round.picks, policy, now, draws)
  }

  lemma ExecutesWhatItPicked(x: Tables, round: Round, policy: Policy, now: Time, draws: nat -> Draws, later: Tables)
    requires policy.Valid() && Executes(policy, now, draws)(x, round, later)
    ensures Picked(x.db.txs, x.schedule, round.picks, now, {}, policy.batchSize) && |round.answers| == |round.picks|
    ensures (later, round.answers) == Executed(x, round.picks, policy, now, draws)
  {
  }

  lemma ExecutionStaysReady(x: Tables, picks: seq<nat>, policy: Policy, now: nat -> Time, draws: nat -> nat -> Draws,
                            start: nat, n: nat, later: Tables, answers: seq<Answer>)
    requires policy.Valid()
    requires Ready(policy, draws, start, n)(x)
    requires Picked(x.db.txs, x.schedule, picks, now(n), {}, policy.batchSize)
    requires (later, answers) == Executed(x, picks, policy, now(n), draws(n))
    ensures Ready(policy, draws, start, n + 1)(later)
    ensures EachTaken(x, picks, policy, now(n), draws(n), later, answers)
  {
    ReadyMeans(x, policy, draws, start, n);
    LeaseStaysReady(x, picks, policy, now(n), draws, start, n);
    RoundStaysFresh(Leased(x, picks, policy.LeaseUntil(now(n))), picks, policy, draws, start, n, policy.LeaseUntil(now(n)));
    ExecutionTriesEach(x, picks, policy, now(n), {}, draws(n), later, answers);
  }

  /** A round leaves the next one ready. */
  lemma RoundStaysReady(x: Tables, round: Round, policy: Policy, now: nat -> Time, draws: nat -> nat -> Draws, start: nat,
                        n: nat, later: Tables)
    requires policy.Valid()
    requires Ready(policy, draws, start, n)(x) && Executes(policy, now(n), draws(n))(x, round, later)
    ensures Ready(policy, draws, start, n + 1)(later)
  {
    ExecutesWhatItPicked(x, round, policy, now(n), draws(n), later);
    ExecutionStaysReady(x, round.picks, policy, now, draws, start, n, later, round.answers);
  }

  lemma RoundTriesEach(x: Tables, round: Round, policy: Policy, now: nat -> Time, draws: nat -> nat -> Draws, start: nat,
                       n: nat, later: Tables)
    requires policy.Valid()
    requires Ready(policy, draws, start, n)(x) && Executes(policy, now(n), draws(n))(x, round, later)
    ensures Picked(x.db.txs, x.schedule, round.picks, now(n), {}, policy.batchSize) && |round.answers| == |round.picks|
    ensures EachTaken(x, round.picks, policy, now(n), draws(n), later, round.answers)
  {
    ExecutesWhatItPicked(x, round, policy, now(n), draws(n), later);
    ExecutionStaysReady(x, round.picks, policy, now, draws, start, n, later, round.answers);
  }

  lemma AnswersAreOverflows(x: Tables, picks: seq<nat>, policy: Policy, now: nat -> Time, draws: nat -> nat -> Draws,
                            start: nat, n: nat, later: Tables, answers: seq<Answer>, i: nat)
    requires policy.Valid() && n >= start && i < |picks| == |answers|
    requires Ready(policy, draws, start, n)(x)
    requires Picked(x.db.txs, x.schedule, picks, now(n), {}, policy.batchSize)
    requires (later, answers) == Executed(x, picks, policy, now(n), draws(n))
    ensures answers[i].Err? <==> OverflowsAt(x, picks, policy, now(n), draws(n), i)
  {
    ReadyMeans(x, policy, draws, start, n);
    LeaseStaysReady(x, picks, policy, now(n), draws, start, n);
    AnswerIsOverflow(Leased(x, picks, policy.LeaseUntil(now(n))), picks, policy, draws, start, n, i,
                     policy.LeaseUntil(now(n)));
  }

  /** From the start on, an attempt of a round fails exactly when its credit overflows at its
      turn. */
  lemma RoundFailsOnOverflow(x: Tables, round: Round, policy: Policy, now: nat -> Time, draws: nat -> nat -> Draws,
                             start: nat, n: nat, later: Tables, i: nat)
    requires policy.Valid() && n >= start && i < |round.picks| == |round.answers|
    requires forall j :: 0 <= j < |round.picks| ==> round.picks[j] < |x.db.txs|
    requires Ready(policy, draws, start, n)(x) && Executes(policy, now(n), draws(n))(x, round, later)
    ensures round.answers[i].Err? <==> OverflowsAt(x, round.picks, policy, now(n), draws(n), i)
  {
    ExecutesWhatItPicked(x, round, policy, now(n), draws(n), later);
    AnswersAreOverflows(x, round.picks, policy, now, draws, start, n, later, round.answers, i);
  }

  lemma FailedTurnIsIdle(leased: seq<Taken>, draws: nat -> Draws, policy: Policy, now: Tables, i: nat)
    requires policy.Valid() && Turn(leased, draws, policy)(now, i).1.Err?
    ensures Turn(leased, draws, policy)(now, i).0 == now
  {
    if i < |leased| {
      var tried := OneTried(now, leased[i], draws(i), policy);
      assert Turn(leased, draws, policy)(now, i) == tried && tried.1.Err?;
    }
  }

  /** A round whose every attempt fails changes no table, whatever it leased. */
  lemma FailedRoundIsIdle(x: Tables, leased: seq<Taken>, draws: nat -> Draws, policy: Policy)
    requires policy.Valid()
    requires forall i :: 0 <= i < |leased| ==> AllTried(x, leased, |leased|, draws, policy).1[i].Err?
    ensures forall n: nat :: n <= |leased| ==> AllTried(x, leased, n, draws, policy).0 == x
  {
    var turn, failed := Turn(leased, draws, policy), (a: Answer) => a.Err?;
    forall now: Tables, i: nat | failed(turn(now, i).1) ensures turn(now, i).0 == now {
      FailedTurnIsIdle(leased, draws, policy, now, i);
    }
    forall n: nat | n <= |leased| ensures AllTried(x, leased, n, draws, policy).0 == x {
      forall i | 0 <= i < n ensures failed(Turns(x, n, turn).1[i]) {
        AnswerOfTurn(x, n, turn, i);
        AnswerOfTurn(x, |leased|, turn, i);
        assert AllTried(x, leased, |leased|, draws, policy).1[i].Err?;
      }
      FailedTurnsChangeNothing(x, n, turn, failed);
    }
  }

  // --------------------------------------------------------------------- runs

  /** What the rounds start from: the tables in order and, from a round on, draws apart and
      unused. Operations may be leased by workers that died or wait out their delays, and before
      that round any attempt may fail. */
  ghost predicate Prepared(x: Tables, policy: Policy, draws: nat -> nat -> Draws, start: nat) {
    policy.Valid() && InOrder(x, policy.maxAttempts) && DrawnApart(draws, start) && FreshAhead(x.db, draws, start, 0, 0)
  }

  lemma PreparedIsReady(x: Tables, policy: Policy, draws: nat -> nat -> Draws, start: nat)
    requires Prepared(x, policy, draws, start)
    ensures Ready(policy, draws, start, 0)(x)
  {
    assert Orderly(policy.maxAttempts)(x) && Freshness(draws, start, 0)(x, 0);
  }

  ghost function Executions(policy: Policy, now: nat -> Time, draws: nat -> nat -> Draws): nat -> (Tables, Round, Tables) -> bool
    requires policy.Valid()
  {
    (n: nat) => Executes(policy, now(n), draws(n))
  }

  /** The tables round by round, for so many rounds. */
  ghost predicate RoundsRun(policy: Policy, now: nat -> Time, draws: nat -> nat -> Draws, trace: nat -> Tables,
                            rounds: nat -> Round, length: nat)
    requires policy.Valid()
  {
    Follow(Executions(policy, now, draws), trace, rounds, length)
  }

  lemma ThatRound(policy: Policy, now: nat -> Time, draws: nat -> nat -> Draws, trace: nat -> Tables,
                  rounds: nat -> Round, length: nat, n: nat)
    requires policy.Valid() && RoundsRun(policy, now, draws, trace, rounds, length) && n < length
    ensures Executes(policy, now(n), draws(n))(trace(n), rounds(n), trace(n + 1))
  {
    assert Executions(policy, now, draws)(n)(trace(n), rounds(n), trace(n + 1));
  }

  lemma {:induction false} RunStaysReady(policy: Policy, now: nat -> Time, draws: nat -> nat -> Draws, start: nat,
                                         trace: nat -> Tables, rounds: nat -> Round, length: nat, n: nat)
    requires policy.Valid() && RoundsRun(policy, now, draws, trace, rounds, length) && n <= length
    requires Ready(policy, draws, start, 0)(trace(0))
    ensures Ready(policy, draws, start, n)(trace(n))
  {
    if n > 0 {
      var k: nat := n - 1;
      RunStaysReady(policy, now, draws, start, trace, rounds, length, k);
      ThatRound(policy, now, draws, trace, rounds, length, k);
      RoundStaysReady(trace(k), rounds(k), policy, now, draws, start, k, trace(k + 1));
    }
  }

  /** From the start on, an attempt fails exactly when its credit overflows at its turn. */
  lemma RunFailsOnOverflow(policy: Policy, now: nat -> Time, draws: nat -> nat -> Draws, start: nat,
                           trace: nat -> Tables, rounds: nat -> Round, length: nat, n: nat, i: nat)
    requires policy.Valid() && RoundsRun(policy, now, draws, trace, rounds, length)
    requires Prepared(trace(0), policy, draws, start)
    requires start <= n < length && i < |rounds(n).answers|
    ensures |rounds(n).picks| == |rounds(n).answers|
    ensures forall j :: 0 <= j < |rounds(n).picks| ==> rounds(n).picks[j] < |trace(n).db.txs|
    ensures rounds(n).answers[i].Err? <==> OverflowsAt(trace(n), rounds(n).picks, policy, now(n), draws(n), i)
  {
    PreparedIsReady(trace(0), policy, draws, start);
    RunStaysReady(policy, now, draws, start, trace, rounds, length, n);
    ThatRound(policy, now, draws, trace, rounds, length, n);
    ExecutesWhatItPicked(trace(n), rounds(n), policy, now(n), draws(n), trace(n + 1));
    RoundFailsOnOverflow(trace(n), rounds(n), policy, now, draws, start, n, trace(n + 1), i);
  }

  /** Some attempt of the round fails. */
  predicate Fails(round: Round) {
    exists i :: 0 <= i < |round.answers| && round.answers[i].Err?
  }
}
