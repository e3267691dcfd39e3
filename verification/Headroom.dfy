/** When waiting surely ends: wallets with room for the credits that wait. */
module Headroom {
  import opened Domain
  import opened Sequences
  import opened Money
  import opened Wager
  import opened Database
  import opened Settlement
  import opened Accounting
  import opened Conservation
  import opened UseCases
  import opened Schedule
  import opened Retrying
  import opened Failing
  import opened Rounds
  import opened Worker

  /** What an operation that waits may yet add to its wallet. */
  function Gain(txs: seq<Tx>, t: Tx): nat {
    var signed := SignedAmount(t, LookedUp(txs, t));
    if t.state == PendingReference && signed > 0 then signed else 0
  }

  function GainsOf(txs: seq<Tx>, w: ID): (s: seq<int>)
    ensures |s| == |txs|
  {
    seq(|txs|, k requires 0 <= k < |txs| => if txs[k].walletId == w then Gain(txs, txs[k]) else 0)
  }

  /** Every wallet has room for all the credits that wait. */
  ghost predicate HasRoom(db: Db) {
    forall w :: w in db.wallets ==> db.wallets[w].balance.Units() + Sum(GainsOf(db.txs, w)) <= MAX_INT64
  }

  lemma {:induction false} Within(s: seq<int>, k: nat)
    requires k < |s| && forall i :: 0 <= i < |s| ==> s[i] >= 0
    ensures s[k] <= Sum(s)
  {
    if k == |s| - 1 {
      LeftIsPositive(s[..k]);
    } else {
      Within(s[..|s| - 1], k);
    }
  }

  /** With room, no operation that waits overflows. */
  lemma RoomForEach(db: Db, k: nat)
    requires HasRoom(db) && k < |db.txs| && db.txs[k].state == PendingReference
    ensures !Overflows(db, db.txs[k])
  {
    var t := db.txs[k];
    if t.walletId in db.wallets {
      Within(GainsOf(db.txs, t.walletId), k);
    }
  }

  /** The row of an operation changes, the kind of what another refers to does not. */
  lemma SignedAmountStays(txs: seq<Tx>, k: nat, y: Tx, t: Tx)
    requires k < |txs| && txs[k].SameIdentity(y)
    ensures SignedAmount(t, LookedUp(txs[k := y], t)) == SignedAmount(t, LookedUp(txs, t))
  {
    var p, later := ByExt(t.provider, t.refExt), txs[k := y];
    var i, j := First(txs, p), First(later, p);
    if i < |txs| {
      assert p(later[i]) && j <= i;
    }
    if j < |later| {
      assert p(txs[j]) && i <= j;
    }
  }

  lemma GainsStay(txs: seq<Tx>, k: nat, y: Tx, w: ID)
    requires k < |txs| && txs[k].SameIdentity(y)
    ensures GainsOf(txs[k := y], w) == GainsOf(txs, w)[k := GainsOf(txs[k := y], w)[k]]
  {
    var later := txs[k := y];
    forall i | 0 <= i < |txs| && i != k ensures GainsOf(later, w)[i] == GainsOf(txs, w)[i] {
      SignedAmountStays(txs, k, y, txs[i]);
    }
  }

  /** An attempt takes no more room than it gives back. */
  lemma RoomStays(db: Db, db': Db, k: nat, y: Tx, entryId: ID, marks: Marks)
    requires HasRoom(db) && k < |db.txs| && db.txs[k].state == PendingReference && Attempted(db.txs[k], y)
    requires db'.txs == db.txs[k := y] && LeftBehind(db, db', db.txs[k], y, entryId, marks)
    ensures HasRoom(db')
  {
    forall w | w in db'.wallets ensures db'.wallets[w].balance.Units() + Sum(GainsOf(db'.txs, w)) <= MAX_INT64 {
      RoomStaysIn(db, db', k, y, entryId, marks, w);
    }
  }

  lemma RoomStaysIn(db: Db, db': Db, k: nat, y: Tx, entryId: ID, marks: Marks, w: ID)
    requires HasRoom(db) && k < |db.txs| && db.txs[k].state == PendingReference && Attempted(db.txs[k], y)
    requires db'.txs == db.txs[k := y] && LeftBehind(db, db', db.txs[k], y, entryId, marks) && w in db'.wallets
    ensures db'.wallets[w].balance.Units() + Sum(GainsOf(db'.txs, w)) <= MAX_INT64
  {
    GainsStay(db.txs, k, y, w);
    SumUpdate(GainsOf(db.txs, w), k, GainsOf(db'.txs, w)[k]);
    SignedAmountStays(db.txs, k, y, y);
  }

  // ------------------------------------------------------------------- rounds

  ghost function Roomy(): (Tables, nat) -> bool {
    (x: Tables, i: nat) => HasRoom(x.db)
  }

  lemma OneTriedStaysRoomy(x: Tables, k: nat, policy: Policy, d: Draws, tried: (Tables, Answer))
    requires policy.Valid() && TxsOk(x.db.txs, policy.maxAttempts) && WalletsOk(x.db) && HasRoom(x.db)
    requires k < |x.db.txs| && x.db.txs[k].state == PendingReference
    requires tried == OneTried(x, Taken(x.db.txs[k].id, x.db.txs[k].walletId), d, policy)
    ensures HasRoom(tried.0.db)
  {
    if tried.1.Ok? {
      var done := (tried.0, tried.1.value);
      TriedLeavesBehind(x, k, d, policy, done);
      TriedPutsTheRow(x, k, d, policy, done);
      RoomStays(x.db, tried.0.db, k, tried.0.db.txs[k], d.entryId, d.marks);
    }
  }

  lemma OneMoreStaysRoomy(x: Tables, picks: seq<nat>, policy: Policy, draws: nat -> Draws, leaseUntil: Time,
                          now: (Tables, seq<Answer>))
    requires policy.Valid() && Held(x, picks, leaseUntil) && |now.1| < |picks|
    requires Orderly(policy.maxAttempts)(now.0) && SameRow(x, now.0, picks[|now.1|]) && Roomy()(now.0, |now.1|)
    ensures Roomy()(OneMore(x, picks, draws, policy, now).0, |now.1| + 1)
  {
    OrderlyMeans(now.0, policy.maxAttempts);
    OneTriedStaysRoomy(now.0, picks[|now.1|], policy, draws(|now.1|),
                       OneTried(now.0, ReferencesAt(x.db.txs, picks)[|now.1|], draws(|now.1|), policy));
  }

  lemma TurnsAreRoomy(x: Tables, picks: seq<nat>, policy: Policy, draws: nat -> Draws, i: nat, leaseUntil: Time)
    requires policy.Valid() && Orderly(policy.maxAttempts)(x) && DistinctIds(x.db.txs) && Held(x, picks, leaseUntil)
    requires i <= |picks| && HasRoom(x.db)
    ensures var now := AllTried(x, ReferencesAt(x.db.txs, picks), i, draws, policy).0;
            HasRoom(now.db) && (i < |picks| ==> SameRow(x, now, picks[i]))
  {
    forall now: (Tables, seq<Answer>) |
      Roomy()(now.0, |now.1|) && |now.1| < |picks| && Orderly(policy.maxAttempts)(now.0)
      && SameRow(x, now.0, picks[|now.1|])
      ensures Roomy()(OneMore(x, picks, draws, policy, now).0, |now.1| + 1)
    {
      OneMoreStaysRoomy(x, picks, policy, draws, leaseUntil, now);
    }
    AttemptsKeep(x, picks, i, draws, policy, leaseUntil, Roomy());
  }

  lemma RoundStaysRoomy(x: Tables, round: Round, policy: Policy, now: nat -> Time, draws: nat -> nat -> Draws, start: nat,
                        n: nat, later: Tables)
    requires policy.Valid() && HasRoom(x.db)
    requires Ready(policy, draws, start, n)(x) && Executes(policy, now(n), draws(n))(x, round, later)
    ensures HasRoom(later.db)
  {
    ExecutesWhatItPicked(x, round, policy, now(n), draws(n), later);
    ReadyMeans(x, policy, draws, start, n);
    LeaseStaysReady(x, round.picks, policy, now(n), draws, start, n);
    TurnsAreRoomy(Leased(x, round.picks, policy.LeaseUntil(now(n))), round.picks, policy, draws(n), |round.picks|,
                  policy.LeaseUntil(now(n)));
  }

  lemma RoomyTurnIsAnswered(x: Tables, picks: seq<nat>, policy: Policy, now: nat -> Time, draws: nat -> nat -> Draws,
                            start: nat, n: nat, i: nat)
    requires policy.Valid() && HasRoom(x.db) && Ready(policy, draws, start, n)(x)
    requires Picked(x.db.txs, x.schedule, picks, now(n), {}, policy.batchSize) && i < |picks|
    ensures !OverflowsAt(x, picks, policy, now(n), draws(n), i)
  {
    ReadyMeans(x, policy, draws, start, n);
    LeaseStaysReady(x, picks, policy, now(n), draws, start, n);
    var leased := Leased(x, picks, policy.LeaseUntil(now(n)));
    TurnsAreRoomy(leased, picks, policy, draws(n), i, policy.LeaseUntil(now(n)));
    assert IsDue(x.db.txs, x.schedule, picks[i], now(n), {});
    RoomForEach(AtTurn(x, picks, policy, now(n), draws(n), i).db, picks[i]);
  }

  lemma RoomyRoundSucceeds(x: Tables, round: Round, policy: Policy, now: nat -> Time, draws: nat -> nat -> Draws,
                           start: nat, n: nat, later: Tables)
    requires policy.Valid() && HasRoom(x.db) && n >= start
    requires Ready(policy, draws, start, n)(x) && Executes(policy, now(n), draws(n))(x, round, later)
    ensures !Fails(round)
  {
    ExecutesWhatItPicked(x, round, policy, now(n), draws(n), later);
    forall i | 0 <= i < |round.answers| ensures round.answers[i].Ok? {
      RoomyTurnIsAnswered(x, round.picks, policy, now, draws, start, n, i);
      RoundFailsOnOverflow(x, round, policy, now, draws, start, n, later, i);
    }
  }

  lemma {:induction false} RunStaysRoomy(policy: Policy, now: nat -> Time, draws: nat -> nat -> Draws, start: nat,
                                         trace: nat -> Tables, rounds: nat -> Round, length: nat, n: nat)
    requires policy.Valid() && RoundsRun(policy, now, draws, trace, rounds, length) && n <= length
    requires Ready(policy, draws, start, 0)(trace(0)) && HasRoom(trace(0).db)
    ensures HasRoom(trace(n).db)
  {
    if n > 0 {
      var k: nat := n - 1;
      RunStaysRoomy(policy, now, draws, start, trace, rounds, length, k);
      RunStaysReady(policy, now, draws, start, trace, rounds, length, k);
      ThatRound(policy, now, draws, trace, rounds, length, k);
      RoundStaysRoomy(trace(k), rounds(k), policy, now, draws, start, k, trace(k + 1));
    }
  }

  /** From tables whose wallets have room for the credits that wait, no attempt fails from the
      start on, and there is room ever after. */
  lemma RoomIsEnough(policy: Policy, now: nat -> Time, draws: nat -> nat -> Draws, start: nat, trace: nat -> Tables,
                     rounds: nat -> Round, length: nat)
    requires policy.Valid() && RoundsRun(policy, now, draws, trace, rounds, length)
    requires Prepared(trace(0), policy, draws, start) && HasRoom(trace(0).db)
    ensures forall n: nat :: start <= n < length ==> !Fails(rounds(n))
    ensures HasRoom(trace(length).db)
  {
    PreparedIsReady(trace(0), policy, draws, start);
    forall n: nat | start <= n < length ensures !Fails(rounds(n)) {
      RunStaysRoomy(policy, now, draws, start, trace, rounds, length, n);
      RunStaysReady(policy, now, draws, start, trace, rounds, length, n);
      ThatRound(policy, now, draws, trace, rounds, length, n);
      RoomyRoundSucceeds(trace(n), rounds(n), policy, now, draws, start, n, trace(n + 1));
    }
    RunStaysRoomy(policy, now, draws, start, trace, rounds, length, length);
  }
}
