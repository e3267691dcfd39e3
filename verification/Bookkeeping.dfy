/** The use cases, run alone over tables in order, leave them in order: so does whatever
    sequence of their methods a store goes through. */
module Bookkeeping {
  import opened Domain
  import opened Money
  import opened Wager
  import opened Ledger
  import opened Events
  import opened Database
  import opened Settlement
  import opened Accounting
  import opened Conservation
  import opened Books
  import opened UseCases
  import opened Schedule

  lemma StampIsStamped(d: Decision, w: ID, at: Time, marks: Marks)
    ensures Stamped(Stamp(d.events, w, at, marks), d.events, w)
  {
  }

  lemma ArrivalKeepsTheBooks(db: Db, w: WalletRow, t: Tx, seen: Option<Tx>, entryId: ID, d: Decision, events: seq<Event>,
                             maxAttempts: int)
    requires Balanced(db, maxAttempts) && IsNew(t) && t.walletId in db.wallets && db.wallets[t.walletId] == w
    requires seen == LookedUp(db.txs, t) && Stamped(events, d.events, t.walletId)
    requires Decide(w, t, seen, Reversed(db.txs, seen), Arrival, entryId, t.createdAt) == Ok(d)
    requires Recorded(db, Arrival, w.version, d, events).Ok?
    ensures Balanced(Recorded(db, Arrival, w.version, d, events).value, maxAttempts)
  {
    assert DecidedOn(db, w, t, seen, Arrival, entryId, d, maxAttempts) by {
      DecisionIsSound(w, t, seen, Reversed(db.txs, seen), Arrival, entryId, t.createdAt);
    }
    SettlementKeepsTheBooks(db, w, t, seen, Arrival, entryId, d, events, maxAttempts);
  }

  lemma SettledKeepsTheBooks(db: Db, t: Tx, entryId: ID, marks: Marks, maxAttempts: int)
    requires Balanced(db, maxAttempts) && IsNew(t) && Settled(db, t, entryId, marks).Ok?
    ensures Balanced(Settled(db, t, entryId, marks).value.0, maxAttempts)
  {
    if Replayed(db.txs, t).value.None? {
      var w, seen := db.wallets[t.walletId], LookedUp(db.txs, t);
      var d := Decide(w, t, seen, Reversed(db.txs, seen), Arrival, entryId, t.createdAt).value;
      StampIsStamped(d, t.walletId, t.createdAt, marks);
      ArrivalKeepsTheBooks(db, w, t, seen, entryId, d, Stamp(d.events, t.walletId, t.createdAt, marks), maxAttempts);
    }
  }

  /** The operation answered is there, with the payload received. */
  lemma SettledIsThere(db: Db, t: Tx, entryId: ID, marks: Marks, maxAttempts: int) returns (x: Tx)
    requires TxsOk(db.txs, maxAttempts) && WalletsOk(db) && IsNew(t) && Settled(db, t, entryId, marks).Ok?
    ensures var r := Settled(db, t, entryId, marks).value;
            x in r.0.txs && x.id == r.1.transactionId && x.hash == Some(t.Fields()) && r.0.inbox == db.inbox
  {
    var previous := Replayed(db.txs, t).value;
    if previous.Some? {
      x := previous.value;
    } else {
      x := RecordedIsThere(db, t, entryId, marks, maxAttempts);
    }
  }

  lemma RecordedIsThere(db: Db, t: Tx, entryId: ID, marks: Marks, maxAttempts: int) returns (x: Tx)
    requires TxsOk(db.txs, maxAttempts) && WalletsOk(db) && IsNew(t)
    requires Settled(db, t, entryId, marks).Ok? && Replayed(db.txs, t).value.None?
    ensures var r := Settled(db, t, entryId, marks).value;
            && x in r.0.txs && x.hash == Some(t.Fields()) && r.0.inbox == db.inbox && r.1 == ResultOf(x, false)
            && r.0.txs == Put(db.txs, |db.txs|, x) && Replaces(db.txs, |db.txs|, x)
  {
    var w, seen := db.wallets[t.walletId], LookedUp(db.txs, t);
    var d := Decide(w, t, seen, Reversed(db.txs, seen), Arrival, entryId, t.createdAt).value;
    var events := Stamp(d.events, t.walletId, t.createdAt, marks);
    assert Sound(w, t, seen, Reversed(db.txs, seen), Arrival, entryId, d) by {
      DecisionIsSound(w, t, seen, Reversed(db.txs, seen), Arrival, entryId, t.createdAt);
    }
    ArrivalIsPut(db, w, t, seen, entryId, d, events, maxAttempts);
    x := d.tx;
  }

  lemma ArrivalIsPut(db: Db, w: WalletRow, t: Tx, seen: Option<Tx>, entryId: ID, d: Decision, events: seq<Event>,
                     maxAttempts: int)
    requires TxsOk(db.txs, maxAttempts) && WalletsOk(db) && IsNew(t)
    requires t.walletId in db.wallets && db.wallets[t.walletId] == w
    requires Sound(w, t, seen, Reversed(db.txs, seen), Arrival, entryId, d)
    requires Recorded(db, Arrival, w.version, d, events).Ok?
    ensures var db' := Recorded(db, Arrival, w.version, d, events).value;
            && d.tx in db'.txs && d.tx.hash == Some(t.Fields()) && db'.inbox == db.inbox
            && db'.txs == Put(db.txs, |db.txs|, d.tx) && Replaces(db.txs, |db.txs|, d.tx)
  {
    RecordedEffect(db, w, t, Arrival, d, events, maxAttempts);
    PutMembers(db.txs, |db.txs|, d.tx);
  }

  lemma RetriedKeepsTheBooks(db: Db, id: ID, walletId: ID, entryId: ID, marks: Marks, maxAttempts: int, at: Time)
    requires Balanced(db, maxAttempts) && (exists t :: t in db.txs && t.id == id && t.walletId == walletId)
    requires Retried(db, id, walletId, entryId, marks, maxAttempts, at).Ok?
    ensures Balanced(Retried(db, id, walletId, entryId, marks, maxAttempts, at).value.0, maxAttempts)
  {
    var t :| t in db.txs && t.id == id && t.walletId == walletId;
    PlaceOfAWaiting(db.txs, t);
    assert FindById(db.txs, id) == Some(t);
    if t.state == PendingReference {
      var w, seen := db.wallets[walletId], LookedUp(db.txs, t);
      var d := Decide(w, t, seen, Reversed(db.txs, seen), Again(maxAttempts), entryId, at).value;
      assert RowOk(t, maxAttempts);
      assert DecidedOn(db, w, t, seen, Again(maxAttempts), entryId, d, maxAttempts) by {
        DecisionIsSound(w, t, seen, Reversed(db.txs, seen), Again(maxAttempts), entryId, at);
      }
      StampIsStamped(d, walletId, at, marks);
      SettlementKeepsTheBooks(db, w, t, seen, Again(maxAttempts), entryId, d, Stamp(d.events, walletId, at, marks),
                              maxAttempts);
    }
  }

  /** ProcessWager.Execute. */
  lemma ProcessedKeepsTheBooks(db: Db, input: Input, id: ID, entryId: ID, marks: Marks, at: Time, maxAttempts: int)
    requires Balanced(db, maxAttempts) && UseCases.Processed(db, input, id, entryId, marks, at).Ok?
    ensures Balanced(UseCases.Processed(db, input, id, entryId, marks, at).value.0, maxAttempts)
  {
    var t := NewExternal(id, input, input.payload, at).value;
    SettledKeepsTheBooks(db, t, entryId, marks, maxAttempts);
  }

  lemma MessageKeepsTheBooks(db: Db, m: string, t: Tx, entryId: ID, marks: Marks, maxAttempts: int,
                             applied: (Db, WagerResult))
    requires Balanced(db, maxAttempts) && IsNew(t) && Settled(db, t, entryId, marks) == Ok(applied)
    requires InboxRecorded(applied.0, m, InboxRow(t.Fields(), applied.1.transactionId)).Ok?
    ensures Balanced(InboxRecorded(applied.0, m, InboxRow(t.Fields(), applied.1.transactionId)).value, maxAttempts)
  {
    var x := SettledIsThere(db, t, entryId, marks, maxAttempts);
    assert Balanced(applied.0, maxAttempts) by { SettledKeepsTheBooks(db, t, entryId, marks, maxAttempts); }
    InboxKeepsTheBooks(applied.0, m, InboxRow(t.Fields(), x.id), x, maxAttempts);
  }

  lemma ReceivedRecords(db: Db, m: string, input: Input, id: ID, entryId: ID, marks: Marks, at: Time, t: Tx,
                        applied: (Db, WagerResult))
    requires m !in db.inbox && Received(db, m, input, id, entryId, marks, at).Ok?
    requires NewExternal(id, input, input.payload, at) == Ok(t) && Settled(db, t, entryId, marks) == Ok(applied)
    ensures var recorded := InboxRecorded(applied.0, m, InboxRow(input.payload, applied.1.transactionId));
            recorded.Ok? && Received(db, m, input, id, entryId, marks, at) == Ok((recorded.value, applied.1, false))
  {
  }

  /** A message found in the inbox writes nothing; any other leaves its row there, which names
      the operation answered and carries the payload of the message. */
  lemma ReceivedIsRecorded(db: Db, m: string, input: Input, id: ID, entryId: ID, marks: Marks, at: Time)
    requires Received(db, m, input, id, entryId, marks, at).Ok?
    ensures var r := Received(db, m, input, id, entryId, marks, at).value;
            m in r.0.inbox && r.0.inbox[m] == InboxRow(input.payload, r.1.transactionId)
            && (r.2 <==> m in db.inbox) && (r.2 ==> r.0 == db)
  {
    if m !in db.inbox {
      var t := NewExternal(id, input, input.payload, at).value;
      ReceivedRecords(db, m, input, id, entryId, marks, at, t, Settled(db, t, entryId, marks).value);
    }
  }

  /** ProcessInboxMessage.Execute. */
  lemma ReceivedKeepsTheBooks(db: Db, m: string, input: Input, id: ID, entryId: ID, marks: Marks, at: Time,
                              maxAttempts: int, r: (Db, WagerResult, bool))
    requires Balanced(db, maxAttempts) && Received(db, m, input, id, entryId, marks, at) == Ok(r)
    ensures Balanced(r.0, maxAttempts)
  {
    if m in db.inbox {
      assert r.0 == db by { ReceivedIsRecorded(db, m, input, id, entryId, marks, at); }
    } else {
      var t := NewExternal(id, input, input.payload, at).value;
      var applied := Settled(db, t, entryId, marks).value;
      var recorded := InboxRecorded(applied.0, m, InboxRow(input.payload, applied.1.transactionId));
      assert recorded.Ok? && r.0 == recorded.value by {
        ReceivedRecords(db, m, input, id, entryId, marks, at, t, applied);
      }
      MessageKeepsTheBooks(db, m, t, entryId, marks, maxAttempts, applied);
    }
  }

  /** OpenWallet.Execute. */
  lemma OpenedKeepsTheBooks(db: Db, id: ID, playerId: ID, initial: Money, correlationId: string, openingId: ID,
                            entryId: ID, marks: Marks, at: Time, maxAttempts: int)
    requires Balanced(db, maxAttempts)
    requires Opened(db, id, playerId, initial, correlationId, openingId, entryId, marks, at).Ok?
    ensures var r := Opened(db, id, playerId, initial, correlationId, openingId, entryId, marks, at).value;
            && Balanced(r.0, maxAttempts) && id !in db.wallets && id in r.0.wallets && r.0.wallets[id] == r.1
            && r.1.balance == initial
  {
    var w := Open(id, playerId, initial, at).value;
    var plan := DecideOpening(w, openingId, entryId).value;
    var events := if plan.Some? then Stamp(plan.value.events, w.id, at, marks) else [];
    if plan.Some? {
      StampIsStamped(plan.value, w.id, at, marks);
      OpeningCommits(db, w, plan.value, openingId, entryId, events, maxAttempts);
    }
    OpeningKeepsTheBooks(db, w, plan, openingId, entryId, events, maxAttempts);
  }

  // ---------------------------------------------------------------- schedule

  lemma ArrivalIsScheduled(txs: seq<Tx>, schedule: Schedule, x: Tx, now: Time)
    requires ScheduledExactly(txs, schedule) && Replaces(txs, |txs|, x) && DistinctIds(txs)
    ensures ScheduledExactly(Put(txs, |txs|, x), ScheduledOnArrival(schedule, ResultOf(x, false), now))
  {
    ScheduleStaysExact(txs, schedule, |txs|, x, now);
  }

  lemma SettledKeepsTheSchedule(db: Db, t: Tx, entryId: ID, marks: Marks, maxAttempts: int, schedule: Schedule, now: Time,
                                r: (Db, WagerResult))
    requires TxsOk(db.txs, maxAttempts) && WalletsOk(db) && IsNew(t) && Settled(db, t, entryId, marks) == Ok(r)
    requires ScheduledExactly(db.txs, schedule)
    ensures ScheduledExactly(r.0.txs, ScheduledOnArrival(schedule, r.1, now))
  {
    if Replayed(db.txs, t).value.None? {
      var x := RecordedIsThere(db, t, entryId, marks, maxAttempts);
      ArrivalIsScheduled(db.txs, schedule, x, now);
    }
  }

  /** An operation received is scheduled exactly when it must wait. */
  lemma ProcessedKeepsTheSchedule(db: Db, input: Input, id: ID, entryId: ID, marks: Marks, at: Time, maxAttempts: int,
                                  schedule: Schedule, now: Time, r: (Db, WagerResult))
    requires TxsOk(db.txs, maxAttempts) && WalletsOk(db) && ScheduledExactly(db.txs, schedule)
    requires UseCases.Processed(db, input, id, entryId, marks, at) == Ok(r)
    ensures ScheduledExactly(r.0.txs, ScheduledOnArrival(schedule, r.1, now))
  {
    var t := NewExternal(id, input, input.payload, at).value;
    SettledKeepsTheSchedule(db, t, entryId, marks, maxAttempts, schedule, now, r);
  }

  /** A message is a duplicate, or an operation received. */
  lemma ReceivedOnce(db: Db, m: string, input: Input, id: ID, entryId: ID, marks: Marks, at: Time,
                     r: (Db, WagerResult, bool))
    requires Received(db, m, input, id, entryId, marks, at) == Ok(r)
    ensures if m in db.inbox then r.0 == db && r.1.replay else
              var applied := UseCases.Processed(db, input, id, entryId, marks, at);
              applied.Ok? && r.0.txs == applied.value.0.txs && r.1 == applied.value.1
  {
  }

  lemma ReceivedKeepsTheSchedule(db: Db, m: string, input: Input, id: ID, entryId: ID, marks: Marks, at: Time,
                                 maxAttempts: int, schedule: Schedule, now: Time, r: (Db, WagerResult, bool))
    requires TxsOk(db.txs, maxAttempts) && WalletsOk(db) && ScheduledExactly(db.txs, schedule)
    requires Received(db, m, input, id, entryId, marks, at) == Ok(r)
    ensures ScheduledExactly(r.0.txs, ScheduledOnArrival(schedule, r.1, now))
  {
    ReceivedOnce(db, m, input, id, entryId, marks, at, r);
    if m !in db.inbox {
      ProcessedKeepsTheSchedule(db, input, id, entryId, marks, at, maxAttempts, schedule, now,
                                UseCases.Processed(db, input, id, entryId, marks, at).value);
    }
  }

  lemma CreditKeepsTheSchedule(db: Db, w: WalletRow, d: Decision, openingId: ID, entryId: ID, events: seq<Event>,
                               schedule: Schedule)
    requires HasWallets(db) && DistinctIds(db.txs) && ScheduledExactly(db.txs, schedule)
    requires IsOpenable(w) && DecideOpening(w, openingId, entryId) == Ok(Some(d))
    requires OpeningRecorded(db, w, Some(d), events).Ok?
    ensures ScheduledExactly(OpeningRecorded(db, w, Some(d), events).value.txs, schedule - {openingId})
  {
    OpeningIsSound(w, d, openingId, entryId);
    OpeningEffect(db, w, d, events);
    OpeningIsNew(db, w, d.tx);
    ScheduleStaysExact(db.txs, schedule, |db.txs|, d.tx, w.createdAt);
  }

  /** An opening never waits. */
  lemma OpenedKeepsTheSchedule(db: Db, id: ID, playerId: ID, initial: Money, correlationId: string, openingId: ID,
                               entryId: ID, marks: Marks, at: Time, schedule: Schedule, r: (Db, WalletRow))
    requires HasWallets(db) && DistinctIds(db.txs) && ScheduledExactly(db.txs, schedule)
    requires Opened(db, id, playerId, initial, correlationId, openingId, entryId, marks, at) == Ok(r)
    ensures ScheduledExactly(r.0.txs, schedule - (if initial.IsPositive() then {openingId} else {}))
  {
    var w := Open(id, playerId, initial, at).value;
    var plan := DecideOpening(w, openingId, entryId).value;
    if plan.Some? {
      CreditKeepsTheSchedule(db, w, plan.value, openingId, entryId, Stamp(plan.value.events, w.id, at, marks), schedule);
    }
  }
}
