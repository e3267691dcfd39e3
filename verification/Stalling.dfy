/** What endless rounds leave waiting, however close together they run and however the clock
    wanders: the operations whose credit overflows, and no others. */
module Stalling {
  import opened Domain
  import opened Sequences
  import opened Wager
  import opened Database
  import opened Conservation
  import opened Schedule
  import opened Runs
  import opened Retrying
  import opened Failing
  import opened Rounds
  import opened Worker
  import opened Headroom
  import opened Clocks
  import opened Counting

  /** Every operation that waits is accepted by the rules and overflows. */
  ghost predicate OnlyOverflowsWait(db: Db) {
    forall k :: 0 <= k < |db.txs| && db.txs[k].state == PendingReference ==> Overflows(db, db.txs[k])
  }

  // ------------------------------------------------------------ failed rounds

  lemma FailedTurnsFoundOverflows(x: Tables, picks: seq<nat>, policy: Policy, draws: nat -> nat -> Draws, start: nat,
                                  n: nat, leaseUntil: Time)
    requires policy.Valid() && Orderly(policy.maxAttempts)(x) && DistinctIds(x.db.txs) && Held(x, picks, leaseUntil)
    requires n >= start && DrawnApart(draws, start) && Freshness(draws, start, n)(x, 0)
    requires var done := AllTried(x, ReferencesAt(x.db.txs, picks), |picks|, draws(n), policy);
             forall i :: 0 <= i < |done.1| ==> done.1[i].Err?
    ensures AllTried(x, ReferencesAt(x.db.txs, picks), |picks|, draws(n), policy).0 == x
    ensures forall i :: 0 <= i < |picks| ==> Overflows(x.db, x.db.txs[picks[i]])
  {
    FailedRoundIsIdle(x, ReferencesAt(x.db.txs, picks), draws(n), policy);
    forall i | 0 <= i < |picks| ensures Overflows(x.db, x.db.txs[picks[i]]) {
      AnswerIsOverflow(x, picks, policy, draws, start, n, i, leaseUntil);
    }
  }

  /** A round whose every attempt fails leaves the tables, and every operation it took overflows
      on them. */
  lemma FailedRoundFoundOverflows(x: Tables, round: Round, policy: Policy, now: nat -> Time, draws: nat -> nat -> Draws,
                                  start: nat, n: nat, later: Tables)
    requires policy.Valid() && n >= start
    requires Ready(policy, draws, start, n)(x) && Executes(policy, now(n), draws(n))(x, round, later)
    requires forall i :: 0 <= i < |round.answers| ==> round.answers[i].Err?
    ensures later.db == x.db && |round.picks| == |round.answers|
    ensures forall i :: 0 <= i < |round.picks| ==>
              round.picks[i] < |x.db.txs| && Overflows(x.db, x.db.txs[round.picks[i]])
  {
    ExecutesWhatItPicked(x, round, policy, now(n), draws(n), later);
    ReadyMeans(x, policy, draws, start, n);
    LeaseStaysReady(x, round.picks, policy, now(n), draws, start, n);
    FailedTurnsFoundOverflows(Leased(x, round.picks, policy.LeaseUntil(now(n))), round.picks, policy, draws, start, n,
                              policy.LeaseUntil(now(n)));
  }

  lemma NextDrawIsFresh(x: Tables, draws: nat -> nat -> Draws, start: nat, n: nat, i: nat)
    requires n >= start && Freshness(draws, start, n)(x, 0)
    ensures FreshFor(x.db, draws(n)(i).entryId, draws(n)(i).marks, draws(n)(i).at)
  {
    assert FreshAhead(x.db, draws, start, n, 0);
  }

  lemma OverflowingTurnFails(x: Tables, picks: seq<nat>, policy: Policy, draws: nat -> nat -> Draws, start: nat, n: nat,
                             i: nat, leaseUntil: Time)
    requires policy.Valid() && Orderly(policy.maxAttempts)(x) && Held(x, picks, leaseUntil)
    requires n >= start && Freshness(draws, start, n)(x, 0)
    requires i < |picks| && Overflows(x.db, x.db.txs[picks[i]])
    ensures Turn(ReferencesAt(x.db.txs, picks), draws(n), policy)(x, i).0 == x
  {
    NextDrawIsFresh(x, draws, start, n, i);
    TriedFailsOnOverflow(x, picks[i], draws(n)(i), policy);
    FailedTurnIsIdle(ReferencesAt(x.db.txs, picks), draws(n), policy, x, i);
  }

  lemma StalledTurnsAreIdle(x: Tables, picks: seq<nat>, policy: Policy, draws: nat -> nat -> Draws, start: nat, n: nat,
                            leaseUntil: Time)
    requires policy.Valid() && Orderly(policy.maxAttempts)(x) && Held(x, picks, leaseUntil)
    requires n >= start && Freshness(draws, start, n)(x, 0) && OnlyOverflowsWait(x.db)
    ensures AllTried(x, ReferencesAt(x.db.txs, picks), |picks|, draws(n), policy).0 == x
  {
    var turn := Turn(ReferencesAt(x.db.txs, picks), draws(n), policy);
    forall i | 0 <= i < |picks| ensures turn(x, i).0 == x {
      OverflowingTurnFails(x, picks, policy, draws, start, n, i, leaseUntil);
    }
    TurnsThatChangeNothing(x, |picks|, turn);
  }

  /** Once only operations that overflow wait, no round changes any table. */
  lemma StalledRoundIsIdle(x: Tables, round: Round, policy: Policy, now: nat -> Time, draws: nat -> nat -> Draws,
                           start: nat, n: nat, later: Tables)
    requires policy.Valid() && n >= start && OnlyOverflowsWait(x.db)
    requires Ready(policy, draws, start, n)(x) && Executes(policy, now(n), draws(n))(x, round, later)
    ensures later.db == x.db
  {
    ExecutesWhatItPicked(x, round, policy, now(n), draws(n), later);
    ReadyMeans(x, policy, draws, start, n);
    LeaseStaysReady(x, round.picks, policy, now(n), draws, start, n);
    StalledTurnsAreIdle(Leased(x, round.picks, policy.LeaseUntil(now(n))), round.picks, policy, draws, start, n,
                        policy.LeaseUntil(now(n)));
  }

  lemma ShorterRun(policy: Policy, now: nat -> Time, draws: nat -> nat -> Draws, trace: nat -> Tables,
                   rounds: nat -> Round, length: nat, shorter: nat)
    requires policy.Valid() && RoundsRun(policy, now, draws, trace, rounds, length) && shorter <= length
    ensures RoundsRun(policy, now, draws, trace, rounds, shorter)
  {
  }

  lemma {:induction false} StalledRunIsIdle(policy: Policy, now: nat -> Time, draws: nat -> nat -> Draws, start: nat,
                                            trace: nat -> Tables, rounds: nat -> Round, n: nat, m: nat)
    requires policy.Valid() && RoundsRun(policy, now, draws, trace, rounds, m)
    requires Ready(policy, draws, start, 0)(trace(0))
    requires start <= n <= m && OnlyOverflowsWait(trace(n).db)
    ensures trace(m).db == trace(n).db
    decreases m
  {
    if n < m {
      var k: nat := m - 1;
      ShorterRun(policy, now, draws, trace, rounds, m, k);
      StalledRunIsIdle(policy, now, draws, start, trace, rounds, n, k);
      RunStaysReady(policy, now, draws, start, trace, rounds, m, k);
      ThatRound(policy, now, draws, trace, rounds, m, k);
      StalledRoundIsIdle(trace(k), rounds(k), policy, now, draws, start, k, trace(k + 1));
    }
  }

  /** Once only operations that overflow wait, they wait for good: no later round changes any
      table. */
  lemma OverflowsWaitForever(policy: Policy, now: nat -> Time, draws: nat -> nat -> Draws, start: nat,
                             trace: nat -> Tables, rounds: nat -> Round, n: nat, m: nat)
    requires policy.Valid() && RoundsRun(policy, now, draws, trace, rounds, m)
    requires Prepared(trace(0), policy, draws, start)
    requires start <= n <= m && OnlyOverflowsWait(trace(n).db)
    ensures trace(m).db == trace(n).db
  {
    PreparedIsReady(trace(0), policy, draws, start);
    StalledRunIsIdle(policy, now, draws, start, trace, rounds, n, m);
  }

  // ---------------------------------------------------------------- due in turn

  /** The operations that wait and are due by an instant. */
  function DueBy(x: Tables, s: Time): set<nat> {
    set k: nat | k < |x.db.txs| && IsDue(x.db.txs, x.schedule, k, s, {})
  }

  /** Attempts that leave an operation waiting are made at the instant or later. */
  ghost predicate AnswersPast(round: Round, draws: nat -> Draws, s: Time) {
    forall i :: 0 <= i < |round.answers| && round.answers[i].Ok? ==> s <= draws(i).at
  }

  /** An operation taken is due later than it was, and past any instant the clock has reached. */
  lemma TakenIsPostponed(x: Tables, round: Round, policy: Policy, now: Time, draws: nat -> Draws, later: Tables, s: Time,
                         i: nat)
    requires policy.Valid() && i < |round.picks| == |round.answers|
    requires AreDue(x.db.txs, x.schedule, round.picks, now, {}) && AnswersPast(round, draws, s)
    requires EachTaken(x, round.picks, policy, now, draws, later, round.answers)
    requires round.picks[i] in DueBy(later, s)
    ensures now < s && round.picks[i] in DueBy(x, s)
  {
    var k := round.picks[i];
    assert IsDue(x.db.txs, x.schedule, round.picks[i], now, {});
    assert TriedAt(x.db.txs[k], later.db.txs[k], round.answers[i], draws(i).at, policy, policy.LeaseUntil(now), later.schedule);
    if round.answers[i].Ok? {
      var attempts := later.db.txs[k].attempts;
      B.WaitsGrowToTheCap(policy.baseDelay as int, policy.maxDelay as int, attempts, attempts);
      assert false;
    }
  }

  /** A round adds nothing to what is due by an instant. */
  lemma RoundAddsNothingDue(x: Tables, round: Round, policy: Policy, now: Time, draws: nat -> Draws, later: Tables, s: Time)
    requires policy.Valid() && |round.picks| == |round.answers|
    requires AreDue(x.db.txs, x.schedule, round.picks, now, {}) && AnswersPast(round, draws, s)
    requires EachTaken(x, round.picks, policy, now, draws, later, round.answers)
    ensures DueBy(later, s) <= DueBy(x, s)
    ensures forall u :: u in DueBy(x, s) && u !in round.picks ==> u in DueBy(later, s)
  {
    forall k | k in DueBy(later, s) ensures k in DueBy(x, s) {
      if k in round.picks {
        var i :| 0 <= i < |round.picks| && round.picks[i] == k;
        TakenIsPostponed(x, round, policy, now, draws, later, s, i);
      } else {
        assert Stands(x, later, k);
      }
    }
    forall u | u in DueBy(x, s) && u !in round.picks ensures u in DueBy(later, s) {
      assert Stands(x, later, u);
    }
  }

  /** Once the clock reached the instant, a round that does not take an operation due by it takes
      another, and postpones it past the instant. */
  lemma AnotherIsPostponed(x: Tables, round: Round, policy: Policy, now: Time, draws: nat -> Draws, later: Tables, s: Time,
                           u: nat)
    requires policy.Valid() && policy.batchSize >= 1 && |round.picks| == |round.answers| && s <= now
    requires Picked(x.db.txs, x.schedule, round.picks, now, {}, policy.batchSize) && AnswersPast(round, draws, s)
    requires EachTaken(x, round.picks, policy, now, draws, later, round.answers)
    requires u in DueBy(x, s) && u !in round.picks
    ensures DueBy(later, s) != DueBy(x, s)
  {
    assert IsDue(x.db.txs, x.schedule, u, now, {});
    var p := round.picks[0];
    assert IsDue(x.db.txs, x.schedule, round.picks[0], now, {});
    assert x.schedule[x.db.txs[p].id] <= x.schedule[x.db.txs[u].id];
    assert p in DueBy(x, s);
    if p in DueBy(later, s) {
      TakenIsPostponed(x, round, policy, now, draws, later, s, 0);
      assert false;
    }
  }

  // ------------------------------------------------------------- endless rounds

  ghost predicate RunsOn(policy: Policy, now: nat -> Time, draws: nat -> nat -> Draws, trace: nat -> Tables,
                         rounds: nat -> Round)
    requires policy.Valid()
  {
    forall length: nat :: RoundsRun(policy, now, draws, trace, rounds, length)
  }

  lemma RoundOfRun(policy: Policy, now: nat -> Time, draws: nat -> nat -> Draws, start: nat, trace: nat -> Tables,
                   rounds: nat -> Round, n: nat)
    requires policy.Valid() && RunsOn(policy, now, draws, trace, rounds) && Ready(policy, draws, start, 0)(trace(0))
    ensures Ready(policy, draws, start, n)(trace(n))
    ensures Executes(policy, now(n), draws(n))(trace(n), rounds(n), trace(n + 1))
  {
    assert RoundsRun(policy, now, draws, trace, rounds, n + 1);
    RunStaysReady(policy, now, draws, start, trace, rounds, n + 1, n);
    ThatRound(policy, now, draws, trace, rounds, n + 1, n);
  }

  /** Some attempt of the round does not fail. */
  predicate Answers(round: Round) {
    exists i :: 0 <= i < |round.answers| && round.answers[i].Ok?
  }

  function Lefts(trace: nat -> Tables, maxAttempts: int): nat -> nat {
    (n: nat) => if TotalLeft(trace(n).db.txs, maxAttempts) < 0 then 0 else TotalLeft(trace(n).db.txs, maxAttempts)
  }

  lemma RoundLowersWhatIsLeft(x: Tables, round: Round, policy: Policy, now: nat -> Time, draws: nat -> nat -> Draws,
                              start: nat, n: nat, later: Tables)
    requires policy.Valid() && Ready(policy, draws, start, n)(x) && Executes(policy, now(n), draws(n))(x, round, later)
    ensures |later.db.txs| == |x.db.txs|
    ensures TotalLeft(later.db.txs, policy.maxAttempts) <= TotalLeft(x.db.txs, policy.maxAttempts)
    ensures Answers(round) ==> TotalLeft(later.db.txs, policy.maxAttempts) < TotalLeft(x.db.txs, policy.maxAttempts)
  {
    ReadyMeans(x, policy, draws, start, n);
    OrderlyMeans(x, policy.maxAttempts);
    RoundTriesEach(x, round, policy, now, draws, start, n, later);
    ExecutionLowersTheTotal(x, round.picks, policy, now(n), {}, draws(n), later, round.answers);
  }

  lemma RoundLowersTheTotal(policy: Policy, now: nat -> Time, draws: nat -> nat -> Draws, start: nat, trace: nat -> Tables,
                            rounds: nat -> Round, n: nat)
    requires policy.Valid() && RunsOn(policy, now, draws, trace, rounds) && Ready(policy, draws, start, 0)(trace(0))
    ensures var left := Lefts(trace, policy.maxAttempts);
            left(n + 1) <= left(n) && (Answers(rounds(n)) ==> left(n + 1) < left(n))
  {
    RoundOfRun(policy, now, draws, start, trace, rounds, n);
    RoundLowersWhatIsLeft(trace(n), rounds(n), policy, now, draws, start, n, trace(n + 1));
    LeftIsPositive(LeftOfEach(trace(n).db.txs, policy.maxAttempts));
    LeftIsPositive(LeftOfEach(trace(n + 1).db.txs, policy.maxAttempts));
  }

  /** From some round on, every attempt fails: each that does not uses up an attempt. */
  lemma AttemptsRunOut(policy: Policy, now: nat -> Time, draws: nat -> nat -> Draws, start: nat, trace: nat -> Tables,
                       rounds: nat -> Round) returns (n: nat)
    requires policy.Valid() && RunsOn(policy, now, draws, trace, rounds) && Ready(policy, draws, start, 0)(trace(0))
    ensures start <= n && forall m: nat :: n <= m ==> !Answers(rounds(m))
  {
    var left := Lefts(trace, policy.maxAttempts);
    forall m: nat | start <= m ensures left(m + 1) <= left(m) {
      RoundLowersTheTotal(policy, now, draws, start, trace, rounds, m);
    }
    n := ComesToRest(left, start);
    forall m: nat | n <= m ensures !Answers(rounds(m)) {
      RoundLowersTheTotal(policy, now, draws, start, trace, rounds, m);
      assert left(m) == left(n) && left(m + 1) == left(n);
    }
  }

  lemma FailedRoundStands(policy: Policy, now: nat -> Time, draws: nat -> nat -> Draws, start: nat, trace: nat -> Tables,
                          rounds: nat -> Round, n: nat)
    requires policy.Valid() && RunsOn(policy, now, draws, trace, rounds) && Ready(policy, draws, start, 0)(trace(0))
    requires start <= n && !Answers(rounds(n))
    ensures trace(n + 1).db == trace(n).db
  {
    RoundOfRun(policy, now, draws, start, trace, rounds, n);
    FailedRoundLeaves(trace(n), rounds(n), policy, now, draws, start, n, trace(n + 1));
  }

  lemma FailedRoundLeaves(x: Tables, round: Round, policy: Policy, now: nat -> Time, draws: nat -> nat -> Draws,
                          start: nat, n: nat, later: Tables)
    requires policy.Valid() && n >= start && !Answers(round)
    requires Ready(policy, draws, start, n)(x) && Executes(policy, now(n), draws(n))(x, round, later)
    ensures later.db == x.db
  {
    FailedRoundFoundOverflows(x, round, policy, now, draws, start, n, later);
  }

  lemma FailedRoundOverflowed(x: Tables, round: Round, policy: Policy, now: nat -> Time, draws: nat -> nat -> Draws,
                              start: nat, n: nat, later: Tables, u: nat)
    requires policy.Valid() && n >= start && !Answers(round) && u in round.picks
    requires Ready(policy, draws, start, n)(x) && Executes(policy, now(n), draws(n))(x, round, later)
    ensures u < |x.db.txs| && Overflows(x.db, x.db.txs[u])
  {
    FailedRoundFoundOverflows(x, round, policy, now, draws, start, n, later);
  }

  /** And then no table changes. */
  lemma {:induction false} TablesStand(policy: Policy, now: nat -> Time, draws: nat -> nat -> Draws, start: nat,
                                       trace: nat -> Tables, rounds: nat -> Round, n: nat, m: nat)
    requires policy.Valid() && RunsOn(policy, now, draws, trace, rounds) && Ready(policy, draws, start, 0)(trace(0))
    requires start <= n <= m && forall j: nat :: n <= j ==> !Answers(rounds(j))
    ensures trace(m).db == trace(n).db
    decreases m
  {
    if n < m {
      var k: nat := m - 1;
      TablesStand(policy, now, draws, start, trace, rounds, n, k);
      FailedRoundStands(policy, now, draws, start, trace, rounds, k);
    }
  }

  function Queue(trace: nat -> Tables, s: Time): nat -> set<nat> {
    (n: nat) => DueBy(trace(n), s)
  }

  lemma QueueMoves(policy: Policy, now: nat -> Time, draws: nat -> nat -> Draws, start: nat, trace: nat -> Tables,
                   rounds: nat -> Round, n: nat, s: Time, u: nat)
    requires policy.Valid() && policy.batchSize >= 1
    requires RunsOn(policy, now, draws, trace, rounds) && Ready(policy, draws, start, 0)(trace(0))
    requires !Answers(rounds(n)) && u in Queue(trace, s)(n) && u !in rounds(n).picks
    ensures u in Queue(trace, s)(n + 1) && Queue(trace, s)(n + 1) <= Queue(trace, s)(n)
    ensures s <= now(n) ==> Queue(trace, s)(n + 1) != Queue(trace, s)(n)
  {
    RoundOfRun(policy, now, draws, start, trace, rounds, n);
    RoundTriesEach(trace(n), rounds(n), policy, now, draws, start, n, trace(n + 1));
    assert AnswersPast(rounds(n), draws(n), s);
    RoundAddsNothingDue(trace(n), rounds(n), policy, now(n), draws(n), trace(n + 1), s);
    if s <= now(n) {
      AnotherIsPostponed(trace(n), rounds(n), policy, now(n), draws(n), trace(n + 1), s, u);
    }
  }

  /** The clock reached the instant. */
  function Reached(now: nat -> Time, s: Time): nat -> bool {
    (n: nat) => s <= now(n)
  }

  lemma ReachedAgain(now: nat -> Time, s: Time)
    requires KeepsReaching(now)
    ensures KeepsRecurring(Reached(now, s))
  {
    forall n: nat ensures RecursFrom(Reached(now, s), n) {
      assert Reaches(now, s, n);
      var m: nat :| n <= m && s <= now(m);
      assert Reached(now, s)(m);
    }
  }

  function Takes(rounds: nat -> Round, u: nat): nat -> bool {
    (n: nat) => u in rounds(n).picks
  }

  lemma WaitingIsQueued(x: Tables, u: nat) returns (s: Time)
    requires ScheduledExactly(x.db.txs, x.schedule) && u < |x.db.txs| && x.db.txs[u].state == PendingReference
    ensures u in DueBy(x, s)
  {
    s := x.schedule[x.db.txs[u].id];
    assert IsDue(x.db.txs, x.schedule, u, s, {});
  }

  lemma QueueMovesOn(policy: Policy, now: nat -> Time, draws: nat -> nat -> Draws, start: nat, trace: nat -> Tables,
                     rounds: nat -> Round, n: nat, s: Time, u: nat)
    requires policy.Valid() && policy.batchSize >= 1
    requires RunsOn(policy, now, draws, trace, rounds) && Ready(policy, draws, start, 0)(trace(0))
    requires forall j: nat :: n <= j ==> !Answers(rounds(j))
    ensures MovesOn(Queue(trace, s), Takes(rounds, u), Reached(now, s), u, n)
  {
    forall j: nat | n <= j && u in Queue(trace, s)(j) && !Takes(rounds, u)(j)
      ensures u in Queue(trace, s)(j + 1) && Queue(trace, s)(j + 1) <= Queue(trace, s)(j)
      ensures Reached(now, s)(j) ==> Queue(trace, s)(j + 1) != Queue(trace, s)(j)
    {
      QueueMoves(policy, now, draws, start, trace, rounds, j, s, u);
    }
  }

  /** Once every attempt fails, every operation that waits is taken again. */
  lemma WaitingIsTaken(policy: Policy, now: nat -> Time, draws: nat -> nat -> Draws, start: nat, trace: nat -> Tables,
                       rounds: nat -> Round, n: nat, u: nat) returns (m: nat)
    requires policy.Valid() && policy.batchSize >= 1 && KeepsReaching(now)
    requires RunsOn(policy, now, draws, trace, rounds) && Ready(policy, draws, start, 0)(trace(0))
    requires start <= n && forall j: nat :: n <= j ==> !Answers(rounds(j))
    requires u < |trace(n).db.txs| && trace(n).db.txs[u].state == PendingReference
    ensures n <= m && u in rounds(m).picks
  {
    RoundOfRun(policy, now, draws, start, trace, rounds, n);
    ReadyMeans(trace(n), policy, draws, start, n);
    OrderlyMeans(trace(n), policy.maxAttempts);
    var s := WaitingIsQueued(trace(n), u);
    QueueMovesOn(policy, now, draws, start, trace, rounds, n, s, u);
    ReachedAgain(now, s);
    m := ServedSomeTime(Queue(trace, s), Takes(rounds, u), Reached(now, s), u, n);
  }

  lemma RestingIsOverflowing(policy: Policy, now: nat -> Time, draws: nat -> nat -> Draws, start: nat,
                             trace: nat -> Tables, rounds: nat -> Round, n: nat, u: nat)
    requires policy.Valid() && policy.batchSize >= 1 && KeepsReaching(now)
    requires RunsOn(policy, now, draws, trace, rounds) && Ready(policy, draws, start, 0)(trace(0))
    requires start <= n && forall j: nat :: n <= j ==> !Answers(rounds(j))
    requires u < |trace(n).db.txs| && trace(n).db.txs[u].state == PendingReference
    ensures Overflows(trace(n).db, trace(n).db.txs[u])
  {
    var m := WaitingIsTaken(policy, now, draws, start, trace, rounds, n, u);
    TablesStand(policy, now, draws, start, trace, rounds, n, m);
    RoundOfRun(policy, now, draws, start, trace, rounds, m);
    FailedRoundOverflowed(trace(m), rounds(m), policy, now, draws, start, m, trace(m + 1), u);
  }

  lemma RoomForAll(db: Db)
    requires HasRoom(db) && OnlyOverflowsWait(db)
    ensures NoneWaits(db.txs)
  {
    forall u | 0 <= u < |db.txs| ensures db.txs[u].state != PendingReference {
      if db.txs[u].state == PendingReference {
        RoomForEach(db, u);
      }
    }
  }

  /** Whatever the amounts, whatever the batch holds, however close together the rounds run and
      however the clock wanders: from some round on no table changes, and an operation still waits
      only if the rules accept it and its credit overflows; none does when, at the start, the
      wallets had room for the credits that waited. */
  lemma OnlyOverflowsGoOnWaiting(policy: Policy, now: nat -> Time, draws: nat -> nat -> Draws, start: nat,
                                 trace: nat -> Tables, rounds: nat -> Round) returns (m: nat)
    requires policy.Valid() && policy.batchSize >= 1 && KeepsReaching(now)
    requires RunsOn(policy, now, draws, trace, rounds) && Prepared(trace(0), policy, draws, start)
    ensures start <= m && OnlyOverflowsWait(trace(m).db) && forall n: nat :: m <= n ==> trace(n).db == trace(m).db
    ensures HasRoom(trace(0).db) ==> NoneWaits(trace(m).db.txs)
  {
    PreparedIsReady(trace(0), policy, draws, start);
    m := AttemptsRunOut(policy, now, draws, start, trace, rounds);
    forall n: nat | m <= n ensures trace(n).db == trace(m).db {
      TablesStand(policy, now, draws, start, trace, rounds, m, n);
    }
    forall u | 0 <= u < |trace(m).db.txs| && trace(m).db.txs[u].state == PendingReference
      ensures Overflows(trace(m).db, trace(m).db.txs[u])
    {
      RestingIsOverflowing(policy, now, draws, start, trace, rounds, m, u);
    }
    if HasRoom(trace(0).db) {
      assert RoundsRun(policy, now, draws, trace, rounds, m);
      RunStaysRoomy(policy, now, draws, start, trace, rounds, m, m);
      RoomForAll(trace(m).db);
    }
  }
}
