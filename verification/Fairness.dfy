/** One operation over an endless run of rounds, while the service goes on receiving others: it
    concludes, or overflows whenever its turn comes. */
module Fairness {
  import opened Domain
  import opened Sequences
  import opened Wager
  import opened Accounting
  import opened Schedule
  import opened Clocks
  import opened Counting
  import opened Retrying
  import opened Rounds
  import opened Worker
  import opened Stalling

  /** A step: a round of a worker, or what the service does between two of them. */
  type Turning = Option<Round>

  /** Operations are received and settled, wallets opened: the operations stored before stay, due
      when they were, and one that waits anew is due no earlier than it arrived. */
  ghost predicate Meanwhile(x: Tables, later: Tables, arrived: Time) {
    && |x.db.txs| <= |later.db.txs|
    && (forall k :: 0 <= k < |x.db.txs| ==> later.db.txs[k] == x.db.txs[k])
    && (forall k :: 0 <= k < |x.db.txs| && x.db.txs[k].state == PendingReference && x.db.txs[k].id in x.schedule ==>
          var id := x.db.txs[k].id; id in later.schedule && later.schedule[id] == x.schedule[id])
    && (forall k :: |x.db.txs| <= k < |later.db.txs| && later.db.txs[k].id in later.schedule ==>
          arrived <= later.schedule[later.db.txs[k].id])
  }

  ghost predicate Steps(policy: Policy, now: nat -> Time, draws: nat -> nat -> Draws, start: nat, arrived: nat -> Time, n: nat,
                        x: Tables, turning: Turning, later: Tables)
    requires policy.Valid()
  {
    match turning
    case None => Meanwhile(x, later, arrived(n)) && Ready(policy, draws, start, n + 1)(later)
    case Some(round) => Executes(policy, now(n), draws(n))(x, round, later)
  }

  ghost function Serving(policy: Policy, now: nat -> Time, draws: nat -> nat -> Draws, start: nat, arrived: nat -> Time)
    : nat -> (Tables, Turning, Tables) -> bool
    requires policy.Valid()
  {
    (n: nat) => (x: Tables, turning: Turning, later: Tables) =>
      Steps(policy, now, draws, start, arrived, n, x, turning, later)
  }

  ghost predicate AttemptedPast(draws: nat -> nat -> Draws, s: Time, from: nat) {
    forall n: nat, i: nat :: from <= n ==> s <= draws(n)(i).at
  }

  ghost predicate AttemptsLeave(draws: nat -> nat -> Draws, s: Time) {
    exists from: nat :: AttemptedPast(draws, s, from)
  }

  /** An endless run from tables prepared, whose rounds keep coming, whatever their clocks; the
      instants of arrivals and of attempts leave every instant behind. */
  ghost function Serves(policy: Policy, now: nat -> Time, draws: nat -> nat -> Draws, start: nat, arrived: nat -> Time)
    : (nat -> Tables, nat -> Turning) -> bool
    requires policy.Valid()
  {
    (trace: nat -> Tables, turning: nat -> Turning) =>
      && policy.batchSize >= 1 && Ready(policy, draws, start, 0)(trace(0))
      && (forall length: nat :: Follow(Serving(policy, now, draws, start, arrived), trace, turning, length))
      && KeepsRunning(Running(turning), now) && LeavesAll(arrived) && forall s: Time :: AttemptsLeave(draws, s)
  }

  lemma ServesMeans(policy: Policy, now: nat -> Time, draws: nat -> nat -> Draws, start: nat, arrived: nat -> Time,
                    trace: nat -> Tables, turning: nat -> Turning)
    requires policy.Valid() && Serves(policy, now, draws, start, arrived)(trace, turning)
    ensures policy.batchSize >= 1 && Ready(policy, draws, start, 0)(trace(0))
    ensures KeepsRunning(Running(turning), now) && LeavesAll(arrived) && forall s: Time :: AttemptsLeave(draws, s)
  {
  }

  // -------------------------------------------------------------------- steps

  lemma StepOf(policy: Policy, now: nat -> Time, draws: nat -> nat -> Draws, start: nat, arrived: nat -> Time,
               trace: nat -> Tables, turning: nat -> Turning, n: nat)
    requires policy.Valid() && Serves(policy, now, draws, start, arrived)(trace, turning)
    ensures Steps(policy, now, draws, start, arrived, n, trace(n), turning(n), trace(n + 1))
  {
    assert Follow(Serving(policy, now, draws, start, arrived), trace, turning, n + 1);
    assert Serving(policy, now, draws, start, arrived)(n)(trace(n), turning(n), trace(n + 1));
  }

  lemma StepStaysReady(policy: Policy, now: nat -> Time, draws: nat -> nat -> Draws, start: nat, arrived: nat -> Time,
                       n: nat, x: Tables, turning: Turning, later: Tables)
    requires policy.Valid() && Ready(policy, draws, start, n)(x)
    requires Steps(policy, now, draws, start, arrived, n, x, turning, later)
    ensures Ready(policy, draws, start, n + 1)(later)
  {
    if turning.Some? {
      RoundStaysReady(x, turning.value, policy, now, draws, start, n, later);
    }
  }

  lemma NextIsReady(policy: Policy, now: nat -> Time, draws: nat -> nat -> Draws, start: nat, arrived: nat -> Time,
                    trace: nat -> Tables, turning: nat -> Turning, n: nat)
    requires policy.Valid() && Serves(policy, now, draws, start, arrived)(trace, turning)
    requires Ready(policy, draws, start, n)(trace(n))
    ensures Ready(policy, draws, start, n + 1)(trace(n + 1))
  {
    StepOf(policy, now, draws, start, arrived, trace, turning, n);
    StepStaysReady(policy, now, draws, start, arrived, n, trace(n), turning(n), trace(n + 1));
  }

  lemma {:induction false} StaysReady(policy: Policy, now: nat -> Time, draws: nat -> nat -> Draws, start: nat,
                                      arrived: nat -> Time, trace: nat -> Tables, turning: nat -> Turning, n: nat)
    requires policy.Valid() && Serves(policy, now, draws, start, arrived)(trace, turning)
    ensures Ready(policy, draws, start, n)(trace(n))
  {
    ServesMeans(policy, now, draws, start, arrived, trace, turning);
    if n > 0 {
      var k: nat := n - 1;
      StaysReady(policy, now, draws, start, arrived, trace, turning, k);
      NextIsReady(policy, now, draws, start, arrived, trace, turning, k);
    }
  }

  predicate IsTaken(turning: Turning, u: nat) {
    turning.Some? && u in turning.value.picks
  }

  /** The operation waits, due at the instant. */
  predicate WaitsUntil(x: Tables, u: nat, s: Time) {
    u < |x.db.txs| && x.db.txs[u].state == PendingReference && x.db.txs[u].id in x.schedule
    && x.schedule[x.db.txs[u].id] == s
  }

  /** An operation that is not taken waits on, due when it was. */
  lemma UntakenStands(policy: Policy, now: nat -> Time, draws: nat -> nat -> Draws, start: nat, arrived: nat -> Time,
                      n: nat, x: Tables, turning: Turning, later: Tables, u: nat, s: Time)
    requires policy.Valid() && Ready(policy, draws, start, n)(x)
    requires Steps(policy, now, draws, start, arrived, n, x, turning, later)
    requires WaitsUntil(x, u, s) && !IsTaken(turning, u)
    ensures WaitsUntil(later, u, s)
  {
    if turning.Some? {
      RoundTriesEach(x, turning.value, policy, now, draws, start, n, later);
      assert Stands(x, later, u);
    }
  }

  lemma UntakenWaitsOn(policy: Policy, now: nat -> Time, draws: nat -> nat -> Draws, start: nat, arrived: nat -> Time,
                       trace: nat -> Tables, turning: nat -> Turning, n: nat, u: nat, s: Time)
    requires policy.Valid() && Serves(policy, now, draws, start, arrived)(trace, turning)
    requires WaitsUntil(trace(n), u, s) && !IsTaken(turning(n), u)
    ensures WaitsUntil(trace(n + 1), u, s)
  {
    StaysReady(policy, now, draws, start, arrived, trace, turning, n);
    StepOf(policy, now, draws, start, arrived, trace, turning, n);
    UntakenStands(policy, now, draws, start, arrived, n, trace(n), turning(n), trace(n + 1), u, s);
  }

  /** Up to a step, an operation waits as it did, or is taken. */
  lemma {:induction false} WaitsOrIsTaken(policy: Policy, now: nat -> Time, draws: nat -> nat -> Draws, start: nat,
                                          arrived: nat -> Time, trace: nat -> Tables, turning: nat -> Turning, n: nat,
                                          until: nat, u: nat, s: Time) returns (m: nat)
    requires policy.Valid() && Serves(policy, now, draws, start, arrived)(trace, turning) && n <= until && WaitsUntil(trace(n), u, s)
    ensures n <= m <= until && WaitsUntil(trace(m), u, s) && (m < until ==> IsTaken(turning(m), u))
    decreases until - n
  {
    if n == until || IsTaken(turning(n), u) {
      m := n;
    } else {
      UntakenWaitsOn(policy, now, draws, start, arrived, trace, turning, n, u, s);
      m := WaitsOrIsTaken(policy, now, draws, start, arrived, trace, turning, n + 1, until, u, s);
    }
  }

  // ------------------------------------------------------------------- ageing

  /** An operation stored waits, or has concluded. */
  predicate OnRecord(x: Tables, u: nat) {
    u < |x.db.txs| && (x.db.txs[u].state == PendingReference || x.db.txs[u].state.IsTerminal())
  }

  /** It is the same operation with no more attempts left, and once concluded it stays as it is. */
  ghost predicate Ages(x: Tables, later: Tables, u: nat, maxAttempts: int) {
    && OnRecord(x, u) && OnRecord(later, u) && x.db.txs[u].SameIdentity(later.db.txs[u])
    && Remaining(later.db.txs[u], maxAttempts) <= Remaining(x.db.txs[u], maxAttempts)
    && (x.db.txs[u].state.IsTerminal() ==> later.db.txs[u] == x.db.txs[u])
  }

  lemma StepAges(policy: Policy, now: nat -> Time, draws: nat -> nat -> Draws, start: nat, arrived: nat -> Time, n: nat,
                 x: Tables, turning: Turning, later: Tables, u: nat)
    requires policy.Valid() && Ready(policy, draws, start, n)(x) && OnRecord(x, u)
    requires Steps(policy, now, draws, start, arrived, n, x, turning, later)
    ensures Ages(x, later, u, policy.maxAttempts)
  {
    if turning.Some? {
      var round := turning.value;
      RoundTriesEach(x, round, policy, now, draws, start, n, later);
      if u in round.picks {
        var i :| 0 <= i < |round.picks| && round.picks[i] == u;
        TakenAges(x, round, policy, now(n), draws(n), later, i);
      } else {
        assert Stands(x, later, u);
      }
    }
  }

  /** An attempt that does not fail uses up one that was left. */
  lemma TakenAges(x: Tables, round: Round, policy: Policy, now: Time, draws: nat -> Draws, later: Tables, i: nat)
    requires policy.Valid() && i < |round.picks| == |round.answers|
    requires AreDue(x.db.txs, x.schedule, round.picks, now, {})
    requires EachTaken(x, round.picks, policy, now, draws, later, round.answers)
    ensures Ages(x, later, round.picks[i], policy.maxAttempts)
    ensures round.answers[i].Ok? && !later.db.txs[round.picks[i]].state.IsTerminal() ==>
              later.db.txs[round.picks[i]].attempts == x.db.txs[round.picks[i]].attempts + 1
  {
    var k := round.picks[i];
    assert IsDue(x.db.txs, x.schedule, round.picks[i], now, {});
    assert TriedAt(x.db.txs[k], later.db.txs[k], round.answers[i], draws(i).at, policy, policy.LeaseUntil(now), later.schedule);
  }

  lemma {:induction false} RunAges(policy: Policy, now: nat -> Time, draws: nat -> nat -> Draws, start: nat,
                                   arrived: nat -> Time, trace: nat -> Tables, turning: nat -> Turning, n: nat, m: nat,
                                   u: nat)
    requires policy.Valid() && Serves(policy, now, draws, start, arrived)(trace, turning) && n <= m && OnRecord(trace(n), u)
    ensures Ages(trace(n), trace(m), u, policy.maxAttempts)
    decreases m
  {
    if n < m {
      var k: nat := m - 1;
      RunAges(policy, now, draws, start, arrived, trace, turning, n, k, u);
      NextAges(policy, now, draws, start, arrived, trace, turning, k, u);
      AgesOn(trace(n), trace(k), trace(k + 1), u, policy.maxAttempts);
    }
  }

  lemma NextAges(policy: Policy, now: nat -> Time, draws: nat -> nat -> Draws, start: nat, arrived: nat -> Time,
                 trace: nat -> Tables, turning: nat -> Turning, n: nat, u: nat)
    requires policy.Valid() && Serves(policy, now, draws, start, arrived)(trace, turning) && OnRecord(trace(n), u)
    ensures Ages(trace(n), trace(n + 1), u, policy.maxAttempts)
  {
    StaysReady(policy, now, draws, start, arrived, trace, turning, n);
    StepOf(policy, now, draws, start, arrived, trace, turning, n);
    StepAges(policy, now, draws, start, arrived, n, trace(n), turning(n), trace(n + 1), u);
  }

  lemma AgesOn(x: Tables, y: Tables, z: Tables, u: nat, maxAttempts: int)
    requires Ages(x, y, u, maxAttempts) && Ages(y, z, u, maxAttempts)
    ensures Ages(x, z, u, maxAttempts)
  {
  }

  // -------------------------------------------------------------------- turns

  /** What arrives after the instant adds nothing to what is due by it. */
  lemma MeanwhileAddsNothingDue(x: Tables, later: Tables, arrived: Time, s: Time)
    requires Meanwhile(x, later, arrived) && s < arrived && ScheduledExactly(x.db.txs, x.schedule)
    ensures DueBy(later, s) <= DueBy(x, s)
  {
    forall k | k in DueBy(later, s) ensures k in DueBy(x, s) {
      assert k < |x.db.txs|;
      assert IsDue(x.db.txs, x.schedule, k, s, {});
    }
  }

  lemma QueueSteps(policy: Policy, now: nat -> Time, draws: nat -> nat -> Draws, start: nat, arrived: nat -> Time,
                   n: nat, x: Tables, turning: Turning, later: Tables, u: nat, s: Time)
    requires policy.Valid() && policy.batchSize >= 1 && Ready(policy, draws, start, n)(x)
    requires Steps(policy, now, draws, start, arrived, n, x, turning, later)
    requires s < arrived(n) && forall i: nat :: s <= draws(n)(i).at
    requires u in DueBy(x, s) && !IsTaken(turning, u)
    ensures u in DueBy(later, s) && DueBy(later, s) <= DueBy(x, s)
    ensures turning.Some? && s <= now(n) ==> DueBy(later, s) != DueBy(x, s)
  {
    if turning.Some? {
      var round := turning.value;
      RoundTriesEach(x, round, policy, now, draws, start, n, later);
      assert AnswersPast(round, draws(n), s);
      RoundAddsNothingDue(x, round, policy, now(n), draws(n), later, s);
      if s <= now(n) {
        AnotherIsPostponed(x, round, policy, now(n), draws(n), later, s, u);
      }
    } else {
      ReadyMeans(x, policy, draws, start, n);
      OrderlyMeans(x, policy.maxAttempts);
      MeanwhileAddsNothingDue(x, later, arrived(n), s);
      assert IsDue(x.db.txs, x.schedule, u, s, {});
      assert IsDue(later.db.txs, later.schedule, u, s, {});
    }
  }

  function TakenAt(turning: nat -> Turning, u: nat): nat -> bool {
    (n: nat) => IsTaken(turning(n), u)
  }

  /** A round runs whose clock reached the instant. */
  function RunsBy(turning: nat -> Turning, now: nat -> Time, s: Time): nat -> bool {
    (n: nat) => turning(n).Some? && s <= now(n)
  }

  lemma RunsAgain(turning: nat -> Turning, now: nat -> Time, s: Time)
    requires KeepsRunning(Running(turning), now)
    ensures KeepsRecurring(RunsBy(turning, now, s))
  {
    forall n: nat ensures RecursFrom(RunsBy(turning, now, s), n) {
      assert RunsPast(Running(turning), now, s, n);
      var m: nat :| n <= m && Running(turning)(m) && s <= now(m);
      assert RunsBy(turning, now, s)(m);
    }
  }

  lemma QueueGoesOn(policy: Policy, now: nat -> Time, draws: nat -> nat -> Draws, start: nat, arrived: nat -> Time,
                    trace: nat -> Tables, turning: nat -> Turning, n: nat, s: Time, u: nat)
    requires policy.Valid() && Serves(policy, now, draws, start, arrived)(trace, turning)
    requires PastFrom(arrived, s + 1, n) && AttemptedPast(draws, s, n)
    ensures MovesOn(Queue(trace, s), TakenAt(turning, u), RunsBy(turning, now, s), u, n)
  {
    ServesMeans(policy, now, draws, start, arrived, trace, turning);
    forall j: nat | n <= j && u in Queue(trace, s)(j) && !TakenAt(turning, u)(j)
      ensures u in Queue(trace, s)(j + 1) && Queue(trace, s)(j + 1) <= Queue(trace, s)(j)
      ensures RunsBy(turning, now, s)(j) ==> Queue(trace, s)(j + 1) != Queue(trace, s)(j)
    {
      StaysReady(policy, now, draws, start, arrived, trace, turning, j);
      StepOf(policy, now, draws, start, arrived, trace, turning, j);
      QueueSteps(policy, now, draws, start, arrived, j, trace(j), turning(j), trace(j + 1), u, s);
    }
  }

  /** From some step on, everything arrives, and is attempted, past an instant. */
  lemma InstantIsPassed(draws: nat -> nat -> Draws, arrived: nat -> Time, s: Time, n: nat) returns (m: nat)
    requires LeavesAll(arrived) && AttemptsLeave(draws, s)
    ensures n <= m && PastFrom(arrived, s + 1, m) && AttemptedPast(draws, s, m)
  {
    assert Leaves(arrived, s + 1);
    var a: nat :| PastFrom(arrived, s + 1, a);
    var b: nat :| AttemptedPast(draws, s, b);
    m := n + a + b;
  }

  lemma StillQueued(x: Tables, u: nat, s: Time)
    requires WaitsUntil(x, u, s)
    ensures u in DueBy(x, s)
  {
    assert IsDue(x.db.txs, x.schedule, u, s, {});
  }

  lemma WaitingIsScheduled(x: Tables, policy: Policy, draws: nat -> nat -> Draws, start: nat, n: nat, u: nat)
    returns (s: Time)
    requires Ready(policy, draws, start, n)(x) && u < |x.db.txs| && x.db.txs[u].state == PendingReference
    ensures WaitsUntil(x, u, s) && u in DueBy(x, s)
  {
    ReadyMeans(x, policy, draws, start, n);
    OrderlyMeans(x, policy.maxAttempts);
    s := x.schedule[x.db.txs[u].id];
    StillQueued(x, u, s);
  }

  /** Every operation that waits is taken again, however many others keep arriving. */
  lemma WaitingGetsItsTurn(policy: Policy, now: nat -> Time, draws: nat -> nat -> Draws, start: nat, arrived: nat -> Time,
                           trace: nat -> Tables, turning: nat -> Turning, n: nat, u: nat) returns (m: nat)
    requires policy.Valid() && Serves(policy, now, draws, start, arrived)(trace, turning)
    requires u < |trace(n).db.txs| && trace(n).db.txs[u].state == PendingReference
    ensures n <= m && IsTaken(turning(m), u)
  {
    ServesMeans(policy, now, draws, start, arrived, trace, turning);
    StaysReady(policy, now, draws, start, arrived, trace, turning, n);
    var s := WaitingIsScheduled(trace(n), policy, draws, start, n, u);
    var quiet := InstantIsPassed(draws, arrived, s, n);
    m := WaitsOrIsTaken(policy, now, draws, start, arrived, trace, turning, n, quiet, u, s);
    if m == quiet {
      QueueGoesOn(policy, now, draws, start, arrived, trace, turning, quiet, s, u);
      RunsAgain(turning, now, s);
      StillQueued(trace(m), u, s);
      m := ServedSomeTime(Queue(trace, s), TakenAt(turning, u), RunsBy(turning, now, s), u, quiet);
    }
  }

  // --------------------------------------------------------------- conclusion

  /** The round takes the operation, and at its turn the rules accept it and its credit
      overflows. */
  ghost predicate OverflowsIn(policy: Policy, now: Time, draws: nat -> Draws, x: Tables, round: Round, u: nat)
    requires policy.Valid()
  {
    && (forall j :: 0 <= j < |round.picks| ==> round.picks[j] < |x.db.txs|)
    && exists i :: 0 <= i < |round.picks| && round.picks[i] == u && OverflowsAt(x, round.picks, policy, now, draws, i)
  }

  ghost predicate OverflowsInTurn(policy: Policy, now: nat -> Time, draws: nat -> nat -> Draws, trace: nat -> Tables,
                                  turning: nat -> Turning, n: nat, u: nat)
    requires policy.Valid()
  {
    turning(n).Some? && OverflowsIn(policy, now(n), draws(n), trace(n), turning(n).value, u)
  }

  predicate Concluded(x: Tables, u: nat) {
    u < |x.db.txs| && x.db.txs[u].state.IsTerminal()
  }

  /** From the start on, a turn concludes the operation, overflows, or uses up an attempt. */
  lemma TurnIsTaken(policy: Policy, now: nat -> Time, draws: nat -> nat -> Draws, start: nat, arrived: nat -> Time,
                    trace: nat -> Tables, turning: nat -> Turning, n: nat, u: nat)
    requires policy.Valid() && Serves(policy, now, draws, start, arrived)(trace, turning) && start <= n && IsTaken(turning(n), u)
    ensures OnRecord(trace(n), u) && OnRecord(trace(n + 1), u)
    ensures || OverflowsInTurn(policy, now, draws, trace, turning, n, u) || Concluded(trace(n + 1), u)
            || Remaining(trace(n + 1).db.txs[u], policy.maxAttempts) < Remaining(trace(n).db.txs[u], policy.maxAttempts)
  {
    StaysReady(policy, now, draws, start, arrived, trace, turning, n);
    StepOf(policy, now, draws, start, arrived, trace, turning, n);
    TurnOfRound(trace(n), turning(n).value, policy, now, draws, start, n, trace(n + 1), u);
  }

  lemma TurnOfRound(x: Tables, round: Round, policy: Policy, now: nat -> Time, draws: nat -> nat -> Draws, start: nat,
                    n: nat, later: Tables, u: nat)
    requires policy.Valid() && start <= n && u in round.picks
    requires Ready(policy, draws, start, n)(x) && Executes(policy, now(n), draws(n))(x, round, later)
    ensures OnRecord(x, u) && OnRecord(later, u)
    ensures || OverflowsIn(policy, now(n), draws(n), x, round, u) || Concluded(later, u)
            || Remaining(later.db.txs[u], policy.maxAttempts) < Remaining(x.db.txs[u], policy.maxAttempts)
  {
    RoundTriesEach(x, round, policy, now, draws, start, n, later);
    var i: nat :| i < |round.picks| && round.picks[i] == u;
    if round.answers[i].Ok? {
      AnsweredTurnCounts(x, round, policy, now(n), draws, start, n, later, i);
    } else {
      FailedTurnOverflows(x, round, policy, now, draws, start, n, later, i);
      TakenAges(x, round, policy, now(n), draws(n), later, i);
    }
  }

  lemma AnsweredTurnCounts(x: Tables, round: Round, policy: Policy, now: Time, draws: nat -> nat -> Draws, start: nat,
                           n: nat, later: Tables, i: nat)
    requires policy.Valid() && i < |round.picks| == |round.answers| && round.answers[i].Ok?
    requires AreDue(x.db.txs, x.schedule, round.picks, now, {})
    requires EachTaken(x, round.picks, policy, now, draws(n), later, round.answers)
    requires Ready(policy, draws, start, n)(x)
    ensures var u := round.picks[i];
            && OnRecord(x, u) && OnRecord(later, u)
            && (Concluded(later, u)
                || Remaining(later.db.txs[u], policy.maxAttempts) < Remaining(x.db.txs[u], policy.maxAttempts))
  {
    TakenAges(x, round, policy, now, draws(n), later, i);
    assert IsDue(x.db.txs, x.schedule, round.picks[i], now, {});
    WaitingHasLeft(x, policy, draws, start, n, round.picks[i]);
  }

  lemma FailedTurnOverflows(x: Tables, round: Round, policy: Policy, now: nat -> Time, draws: nat -> nat -> Draws,
                            start: nat, n: nat, later: Tables, i: nat)
    requires policy.Valid() && start <= n && i < |round.picks| == |round.answers| && round.answers[i].Err?
    requires forall j :: 0 <= j < |round.picks| ==> round.picks[j] < |x.db.txs|
    requires Ready(policy, draws, start, n)(x) && Executes(policy, now(n), draws(n))(x, round, later)
    ensures OverflowsIn(policy, now(n), draws(n), x, round, round.picks[i])
  {
    RoundFailsOnOverflow(x, round, policy, now, draws, start, n, later, i);
  }

  lemma WaitingHasLeft(x: Tables, policy: Policy, draws: nat -> nat -> Draws, start: nat, n: nat, u: nat)
    requires Ready(policy, draws, start, n)(x) && u < |x.db.txs|
    ensures x.db.txs[u].state == PendingReference ==> x.db.txs[u].attempts < policy.maxAttempts
  {
    ReadyMeans(x, policy, draws, start, n);
    OrderlyMeans(x, policy.maxAttempts);
    assert RowOk(x.db.txs[u], policy.maxAttempts);
  }

  /** From any step on, an operation stored has concluded at some step, or overflows at one of its
      turns. */
  lemma {:induction false} ConcludesOrOverflows(policy: Policy, now: nat -> Time, draws: nat -> nat -> Draws, start: nat,
                                                arrived: nat -> Time, trace: nat -> Tables, turning: nat -> Turning,
                                                n: nat, u: nat) returns (m: nat)
    requires policy.Valid() && Serves(policy, now, draws, start, arrived)(trace, turning) && start <= n && OnRecord(trace(n), u)
    ensures n <= m && (Concluded(trace(m), u) || OverflowsInTurn(policy, now, draws, trace, turning, m, u))
    decreases Remaining(trace(n).db.txs[u], policy.maxAttempts)
  {
    m := n;
    if !Concluded(trace(n), u) {
      m := NextTurn(policy, now, draws, start, arrived, trace, turning, n, u);
      if !Concluded(trace(m), u) && !OverflowsInTurn(policy, now, draws, trace, turning, m, u) {
        m := ConcludesOrOverflows(policy, now, draws, start, arrived, trace, turning, m, u);
      }
    }
  }

  /** The next turn of an operation that waits: it overflows there, or it has fewer attempts left
      after. */
  lemma NextTurn(policy: Policy, now: nat -> Time, draws: nat -> nat -> Draws, start: nat, arrived: nat -> Time,
                 trace: nat -> Tables, turning: nat -> Turning, n: nat, u: nat) returns (m: nat)
    requires policy.Valid() && Serves(policy, now, draws, start, arrived)(trace, turning) && start <= n
    requires OnRecord(trace(n), u) && !Concluded(trace(n), u)
    ensures n <= m && OnRecord(trace(m), u)
    ensures || OverflowsInTurn(policy, now, draws, trace, turning, m, u) || Concluded(trace(m), u)
            || Remaining(trace(m).db.txs[u], policy.maxAttempts) < Remaining(trace(n).db.txs[u], policy.maxAttempts)
  {
    m := WaitingGetsItsTurn(policy, now, draws, start, arrived, trace, turning, n, u);
    RunAges(policy, now, draws, start, arrived, trace, turning, n, m, u);
    TurnIsTaken(policy, now, draws, start, arrived, trace, turning, m, u);
    if !OverflowsInTurn(policy, now, draws, trace, turning, m, u) {
      m := m + 1;
    }
  }

  ghost predicate OverflowsAfter(policy: Policy, now: nat -> Time, draws: nat -> nat -> Draws, trace: nat -> Tables,
                                 turning: nat -> Turning, n: nat, u: nat)
    requires policy.Valid()
  {
    exists m: nat :: n <= m && OverflowsInTurn(policy, now, draws, trace, turning, m, u)
  }

  /** However many operations keep arriving, an operation that waits concludes some time, unless
      it overflows again and again: the one exactly when not the other. */
  lemma WaitingConcludes(policy: Policy, now: nat -> Time, draws: nat -> nat -> Draws, start: nat, arrived: nat -> Time,
                         trace: nat -> Tables, turning: nat -> Turning, n: nat, u: nat)
    requires policy.Valid() && Serves(policy, now, draws, start, arrived)(trace, turning)
    requires u < |trace(n).db.txs| && trace(n).db.txs[u].state == PendingReference
    ensures (exists m: nat :: n <= m && Concluded(trace(m), u))
            <==> exists j: nat :: !OverflowsAfter(policy, now, draws, trace, turning, j, u)
  {
    if m: nat :| n <= m && Concluded(trace(m), u) {
      ConcludedIsLeftAlone(policy, now, draws, start, arrived, trace, turning, m, u);
    } else {
      forall j: nat ensures OverflowsAfter(policy, now, draws, trace, turning, j, u) {
        var from: nat := n + start + j;
        RunAges(policy, now, draws, start, arrived, trace, turning, n, from, u);
        var m := ConcludesOrOverflows(policy, now, draws, start, arrived, trace, turning, from, u);
      }
    }
  }

  /** Once concluded it stays as it is, and no round takes it. */
  lemma ConcludedIsLeftAlone(policy: Policy, now: nat -> Time, draws: nat -> nat -> Draws, start: nat,
                             arrived: nat -> Time, trace: nat -> Tables, turning: nat -> Turning, n: nat, u: nat)
    requires policy.Valid() && Serves(policy, now, draws, start, arrived)(trace, turning) && Concluded(trace(n), u)
    ensures forall m: nat :: n <= m ==> u < |trace(m).db.txs| && trace(m).db.txs[u] == trace(n).db.txs[u]
    ensures !OverflowsAfter(policy, now, draws, trace, turning, n, u)
  {
    forall m: nat | n <= m
      ensures u < |trace(m).db.txs| && trace(m).db.txs[u] == trace(n).db.txs[u]
      ensures !OverflowsInTurn(policy, now, draws, trace, turning, m, u)
    {
      RunAges(policy, now, draws, start, arrived, trace, turning, n, m, u);
      TakenWaited(policy, now, draws, start, arrived, trace, turning, m, u);
    }
  }

  lemma TakenWaited(policy: Policy, now: nat -> Time, draws: nat -> nat -> Draws, start: nat, arrived: nat -> Time,
                    trace: nat -> Tables, turning: nat -> Turning, n: nat, u: nat)
    requires policy.Valid() && Serves(policy, now, draws, start, arrived)(trace, turning) && u < |trace(n).db.txs|
    ensures OverflowsInTurn(policy, now, draws, trace, turning, n, u) ==> trace(n).db.txs[u].state == PendingReference
  {
    StaysReady(policy, now, draws, start, arrived, trace, turning, n);
    StepOf(policy, now, draws, start, arrived, trace, turning, n);
    if IsTaken(turning(n), u) {
      var round := turning(n).value;
      RoundTriesEach(trace(n), round, policy, now, draws, start, n, trace(n + 1));
      var i :| 0 <= i < |round.picks| && round.picks[i] == u;
      assert IsDue(trace(n).db.txs, trace(n).schedule, round.picks[i], now(n), {});
    }
  }
}
