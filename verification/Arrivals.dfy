/** What the service does between two rounds of the worker: each use case, run alone under
    identifiers and numbers of its own, is a step over which waiting operations keep their turn. */
module Arrivals {
  import opened Domain
  import opened Money
  import opened Wager
  import opened Ledger
  import opened Database
  import opened Settlement
  import opened Accounting
  import opened Conservation
  import opened Books
  import opened UseCases
  import opened Schedule
  import opened Bookkeeping
  import opened Retrying
  import opened Failing
  import opened Worker
  import F = Fairness

  /** No attempt from the start on draws any of these. */
  ghost predicate Elsewhere(entryId: ID, marks: Marks, draws: nat -> nat -> Draws, start: nat) {
    forall m: nat, j: nat :: start <= m ==> entryId != draws(m)(j).entryId && Apart(marks, draws(m)(j).marks)
  }

  /** Rows are added, under these identifiers and numbers. */
  ghost predicate Adds(db: Db, later: Db, entryId: ID, marks: Marks) {
    && |db.txs| <= |later.txs|
    && (forall k :: 0 <= k < |db.txs| ==> later.txs[k] == db.txs[k])
    && (forall e :: e in later.ledger ==> e in db.ledger || e.id == entryId)
    && (forall e :: e in later.outbox ==> e in db.outbox || MarkedBy(e, marks))
  }

  lemma AddedStaysFresh(x: Tables, later: Tables, entryId: ID, marks: Marks, policy: Policy, draws: nat -> nat -> Draws,
                        start: nat, n: nat)
    requires Ready(policy, draws, start, n)(x) && Orderly(policy.maxAttempts)(later)
    requires Adds(x.db, later.db, entryId, marks) && Elsewhere(entryId, marks, draws, start)
    ensures Ready(policy, draws, start, n + 1)(later)
  {
    ReadyMeans(x, policy, draws, start, n);
    assert FreshAhead(x.db, draws, start, n, 0);
    forall m: nat, j: nat | start <= m && (n + 1 < m || (n + 1 == m && 0 <= j))
      ensures FreshFor(later.db, draws(m)(j).entryId, draws(m)(j).marks, draws(m)(j).at)
    {
      AddedIsApart(x.db, later.db, entryId, marks, draws(m)(j));
    }
    assert Freshness(draws, start, n + 1)(later, 0);
  }

  lemma AddedIsApart(db: Db, later: Db, entryId: ID, marks: Marks, d: Draws)
    requires Adds(db, later, entryId, marks) && FreshFor(db, d.entryId, d.marks, d.at)
    requires entryId != d.entryId && Apart(marks, d.marks)
    ensures FreshFor(later, d.entryId, d.marks, d.at)
  {
  }

  // --------------------------------------------------------------- operations

  lemma ArrivalAdds(db: Db, w: WalletRow, t: Tx, seen: Option<Tx>, entryId: ID, d: Decision, marks: Marks,
                    maxAttempts: int)
    requires TxsOk(db.txs, maxAttempts) && IsNew(t)
    requires t.walletId in db.wallets && db.wallets[t.walletId] == w && w.id == t.walletId
    requires Sound(w, t, seen, Reversed(db.txs, seen), Arrival, entryId, d)
    requires Recorded(db, Arrival, w.version, d, Stamp(d.events, t.walletId, t.createdAt, marks)).Ok?
    ensures Adds(db, Recorded(db, Arrival, w.version, d, Stamp(d.events, t.walletId, t.createdAt, marks)).value, entryId,
                 marks)
  {
    RecordedEffect(db, w, t, Arrival, d, Stamp(d.events, t.walletId, t.createdAt, marks), maxAttempts);
  }

  lemma SettledAdds(db: Db, t: Tx, entryId: ID, marks: Marks, maxAttempts: int, r: (Db, WagerResult))
    requires TxsOk(db.txs, maxAttempts) && WalletsOk(db) && IsNew(t) && Settled(db, t, entryId, marks) == Ok(r)
    ensures Adds(db, r.0, entryId, marks)
  {
    if Replayed(db.txs, t).value.None? {
      var w, seen := db.wallets[t.walletId], LookedUp(db.txs, t);
      var d := Decide(w, t, seen, Reversed(db.txs, seen), Arrival, entryId, t.createdAt).value;
      assert Sound(w, t, seen, Reversed(db.txs, seen), Arrival, entryId, d) by {
        DecisionIsSound(w, t, seen, Reversed(db.txs, seen), Arrival, entryId, t.createdAt);
      }
      ArrivalAdds(db, w, t, seen, entryId, d, marks, maxAttempts);
    }
  }

  lemma ProcessedAdds(db: Db, input: Input, id: ID, entryId: ID, marks: Marks, at: Time, maxAttempts: int,
                      r: (Db, WagerResult))
    requires TxsOk(db.txs, maxAttempts) && WalletsOk(db)
    requires UseCases.Processed(db, input, id, entryId, marks, at) == Ok(r)
    ensures Adds(db, r.0, entryId, marks)
  {
    var t := NewExternal(id, input, input.payload, at).value;
    SettledAdds(db, t, entryId, marks, maxAttempts, r);
  }

  lemma ReceivedAdds(db: Db, m: string, input: Input, id: ID, entryId: ID, marks: Marks, at: Time, maxAttempts: int,
                     r: (Db, WagerResult, bool))
    requires TxsOk(db.txs, maxAttempts) && WalletsOk(db)
    requires Received(db, m, input, id, entryId, marks, at) == Ok(r)
    ensures Adds(db, r.0, entryId, marks)
  {
    if m !in db.inbox {
      ProcessedAdds(db, input, id, entryId, marks, at, maxAttempts,
                    UseCases.Processed(db, input, id, entryId, marks, at).value);
    }
  }

  // ---------------------------------------------------------------- schedule

  /** An operation put at the end, due when it arrived if it must wait, leaves every other due
      when it was. */
  lemma ArrivalKeepsTurns(x: Tables, t: Tx, later: Tables, arrived: Time)
    requires ScheduledExactly(x.db.txs, x.schedule) && Replaces(x.db.txs, |x.db.txs|, t)
    requires later.db.txs == Put(x.db.txs, |x.db.txs|, t) && later.schedule == ScheduledOnArrival(x.schedule, ResultOf(t, false), arrived)
    ensures F.Meanwhile(x, later, arrived)
  {
    forall k | 0 <= k < |x.db.txs| ensures x.db.txs[k].id != t.id {
      assert !HasId(x.db.txs, t.id);
    }
  }

  lemma SettledKeepsTurns(x: Tables, t: Tx, entryId: ID, marks: Marks, maxAttempts: int, arrived: Time,
                          r: (Db, WagerResult))
    requires TxsOk(x.db.txs, maxAttempts) && WalletsOk(x.db) && ScheduledExactly(x.db.txs, x.schedule)
    requires IsNew(t) && Settled(x.db, t, entryId, marks) == Ok(r)
    ensures F.Meanwhile(x, Tables(r.0, ScheduledOnArrival(x.schedule, r.1, arrived)), arrived)
  {
    if Replayed(x.db.txs, t).value.None? {
      var y := RecordedIsThere(x.db, t, entryId, marks, maxAttempts);
      ArrivalKeepsTurns(x, y, Tables(r.0, ScheduledOnArrival(x.schedule, r.1, arrived)), arrived);
    } else {
      assert r.0 == x.db && r.1.replay;
    }
  }

  /** An operation received between two rounds leaves those that wait their turn. */
  lemma ProcessingKeepsTurns(x: Tables, policy: Policy, now: nat -> Time, draws: nat -> nat -> Draws, start: nat,
                             arrived: nat -> Time, n: nat, input: Input, id: ID, entryId: ID, marks: Marks, at: Time,
                             r: (Db, WagerResult))
    requires policy.Valid() && Ready(policy, draws, start, n)(x) && Elsewhere(entryId, marks, draws, start)
    requires UseCases.Processed(x.db, input, id, entryId, marks, at) == Ok(r)
    ensures F.Steps(policy, now, draws, start, arrived, n, x, None, Tables(r.0, ScheduledOnArrival(x.schedule, r.1, arrived(n))))
  {
    ReadyMeans(x, policy, draws, start, n);
    OrderlyMeans(x, policy.maxAttempts);
    var later := Tables(r.0, ScheduledOnArrival(x.schedule, r.1, arrived(n)));
    ProcessedKeepsTheBooks(x.db, input, id, entryId, marks, at, policy.maxAttempts);
    ProcessedKeepsTheSchedule(x.db, input, id, entryId, marks, at, policy.maxAttempts, x.schedule, arrived(n), r);
    assert Orderly(policy.maxAttempts)(later);
    ProcessedAdds(x.db, input, id, entryId, marks, at, policy.maxAttempts, r);
    AddedStaysFresh(x, later, entryId, marks, policy, draws, start, n);
    SettledKeepsTurns(x, NewExternal(id, input, input.payload, at).value, entryId, marks, policy.maxAttempts, arrived(n), r);
  }

  /** So does a message received, whether or not it was before. */
  lemma ReceivingKeepsTurns(x: Tables, policy: Policy, now: nat -> Time, draws: nat -> nat -> Draws, start: nat,
                            arrived: nat -> Time, n: nat, m: string, input: Input, id: ID, entryId: ID, marks: Marks,
                            at: Time, r: (Db, WagerResult, bool))
    requires policy.Valid() && Ready(policy, draws, start, n)(x) && Elsewhere(entryId, marks, draws, start)
    requires Received(x.db, m, input, id, entryId, marks, at) == Ok(r)
    ensures F.Steps(policy, now, draws, start, arrived, n, x, None, Tables(r.0, ScheduledOnArrival(x.schedule, r.1, arrived(n))))
  {
    ReadyMeans(x, policy, draws, start, n);
    OrderlyMeans(x, policy.maxAttempts);
    var later := Tables(r.0, ScheduledOnArrival(x.schedule, r.1, arrived(n)));
    ReceivedKeepsTheBooks(x.db, m, input, id, entryId, marks, at, policy.maxAttempts, r);
    ReceivedKeepsTheSchedule(x.db, m, input, id, entryId, marks, at, policy.maxAttempts, x.schedule, arrived(n), r);
    assert Orderly(policy.maxAttempts)(later);
    ReceivedAdds(x.db, m, input, id, entryId, marks, at, policy.maxAttempts, r);
    AddedStaysFresh(x, later, entryId, marks, policy, draws, start, n);
    ReceivedOnce(x.db, m, input, id, entryId, marks, at, r);
    if m !in x.db.inbox {
      var applied := UseCases.Processed(x.db, input, id, entryId, marks, at).value;
      SettledKeepsTurns(x, NewExternal(id, input, input.payload, at).value, entryId, marks, policy.maxAttempts, arrived(n),
                        applied);
    }
  }

  // ------------------------------------------------------------------ wallets

  lemma CreditKeepsTurns(x: Tables, w: WalletRow, d: Decision, openingId: ID, entryId: ID, marks: Marks, at: Time,
                         later: Tables, arrived: Time)
    requires HasWallets(x.db) && DistinctIds(x.db.txs) && ScheduledExactly(x.db.txs, x.schedule)
    requires IsOpenable(w) && DecideOpening(w, openingId, entryId) == Ok(Some(d))
    requires OpeningRecorded(x.db, w, Some(d), Stamp(d.events, w.id, at, marks)) == Ok(later.db)
    requires later.schedule == x.schedule - {openingId}
    ensures Adds(x.db, later.db, entryId, marks) && F.Meanwhile(x, later, arrived)
  {
    OpeningIsSound(w, d, openingId, entryId);
    OpeningEffect(x.db, w, d, Stamp(d.events, w.id, at, marks));
    OpeningIsNew(x.db, w, d.tx);
    assert later.schedule == ScheduledOnArrival(x.schedule, ResultOf(d.tx, false), arrived);
    ArrivalKeepsTurns(x, d.tx, later, arrived);
  }

  lemma OpenedKeepsTurns(x: Tables, id: ID, playerId: ID, initial: Money, correlationId: string, openingId: ID,
                         entryId: ID, marks: Marks, at: Time, r: (Db, WalletRow), later: Tables, arrived: Time)
    requires HasWallets(x.db) && DistinctIds(x.db.txs) && ScheduledExactly(x.db.txs, x.schedule)
    requires Opened(x.db, id, playerId, initial, correlationId, openingId, entryId, marks, at) == Ok(r)
    requires later == Tables(r.0, x.schedule - (if initial.IsPositive() then {openingId} else {}))
    ensures Adds(x.db, later.db, entryId, marks) && F.Meanwhile(x, later, arrived)
  {
    var w := Open(id, playerId, initial, at).value;
    var plan := DecideOpening(w, openingId, entryId).value;
    if plan.Some? {
      CreditKeepsTurns(x, w, plan.value, openingId, entryId, marks, at, later, arrived);
    }
  }

  /** And a wallet opened. */
  lemma OpeningKeepsTurns(x: Tables, policy: Policy, now: nat -> Time, draws: nat -> nat -> Draws, start: nat,
                          arrived: nat -> Time, n: nat, id: ID, playerId: ID, initial: Money, correlationId: string,
                          openingId: ID, entryId: ID, marks: Marks, at: Time, r: (Db, WalletRow))
    requires policy.Valid() && Ready(policy, draws, start, n)(x) && Elsewhere(entryId, marks, draws, start)
    requires Opened(x.db, id, playerId, initial, correlationId, openingId, entryId, marks, at) == Ok(r)
    ensures F.Steps(policy, now, draws, start, arrived, n, x, None,
                    Tables(r.0, x.schedule - (if initial.IsPositive() then {openingId} else {})))
  {
    ReadyMeans(x, policy, draws, start, n);
    OrderlyMeans(x, policy.maxAttempts);
    var later := Tables(r.0, x.schedule - (if initial.IsPositive() then {openingId} else {}));
    OpenedKeepsTheBooks(x.db, id, playerId, initial, correlationId, openingId, entryId, marks, at, policy.maxAttempts);
    OpenedKeepsTheSchedule(x.db, id, playerId, initial, correlationId, openingId, entryId, marks, at, x.schedule, r);
    assert Orderly(policy.maxAttempts)(later);
    OpenedKeepsTurns(x, id, playerId, initial, correlationId, openingId, entryId, marks, at, r, later, arrived(n));
    AddedStaysFresh(x, later, entryId, marks, policy, draws, start, n);
  }
}
