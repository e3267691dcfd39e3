/** The use cases as sequences of statements over the tables, run in place. Each is proved to
    do what its specification says, and to leave the tables untouched when it fails. */
module Execution {
  import opened Domain
  import opened Money
  import opened Wager
  import opened Ledger
  import opened Events
  import opened Database
  import opened Settlement
  import opened Books
  import opened UseCases
  import opened Schedule
  import B = Backoff

  // ------------------------------------------------------------------- store

  /** Where inserting events one by one stops: after all of them, or before the first refused. */
  function EventsStopped(db: Db, events: seq<Event>): Db
    decreases |events|
  {
    if events == [] then db else
      match EventAppended(db, events[0])
      case Ok(next) => EventsStopped(next, events[1..])
      case Err(_) => db
  }

  /** Where the writes of a settlement stop: after all of them, or before the first refused. */
  function RecordStopped(db: Db, attempt: Settlement.Attempt, loadedVersion: int, d: Decision, events: seq<Event>): Db {
    match if attempt.Arrival? then TransactionInserted(db, d.tx) else PendingUpdated(db, d.tx)
    case Err(_) => db
    case Ok(saved) =>
      if d.entry.None? then EventsStopped(saved, events) else
        match BalanceUpdated(saved, d.wallet, loadedVersion)
        case Err(_) => saved
        case Ok(updated) =>
          match EntryAppended(updated, d.entry.value)
          case Err(_) => updated
          case Ok(moved) => EventsStopped(moved, events)
  }

  /** The tables as one database transaction sees and writes them, with the column that
      schedules the operations that wait. */
  class Store {
    var wallets: map<ID, WalletRow>
    var txs: seq<Tx>
    var ledger: seq<Entry>
    var outbox: seq<Event>
    var inbox: map<string, InboxRow>
    var schedule: Schedule

    function Db(): Db
      reads this
    {
      Database.Db(wallets, txs, ledger, outbox, inbox)
    }

    constructor (db: Db, schedule: Schedule)
      ensures Db() == db && this.schedule == schedule
    {
      wallets, txs, ledger, outbox, inbox := db.wallets, db.txs, db.ledger, db.outbox, db.inbox;
      this.schedule := schedule;
    }

    /** A statement took the tables where `expected` says, or failed and left them. */
    predicate Outcome(before: Db, expected: Result<Db>, r: Result<()>)
      reads this
    {
      match expected
      case Ok(after) => r == Ok(()) && Db() == after
      case Err(e) => r == Err(e) && Db() == before
    }

    method Rollback(saved: Db, savedSchedule: Schedule)
      modifies this
      ensures Db() == saved && schedule == savedSchedule
    {
      wallets, txs, ledger, outbox, inbox := saved.wallets, saved.txs, saved.ledger, saved.outbox, saved.inbox;
      schedule := savedSchedule;
    }

    method InsertWallet(w: WalletRow) returns (r: Result<()>)
      modifies `wallets
      ensures Outcome(old(Db()), WalletInserted(old(Db()), w), r)
      ensures r.Ok? <==> w.id !in old(wallets)
                         && forall k :: k in old(wallets) && old(wallets)[k].playerId == w.playerId ==>
                              old(wallets)[k].balance.currency != w.balance.currency
      ensures wallets == if r.Ok? then old(wallets)[w.id := w] else old(wallets)
      ensures r.Err? && w.id !in old(wallets) ==> r.error == Conflict(WalletAlreadyExists)
    {
      if w.id in wallets {
        return Err(Violation);
      }
      if exists id :: id in wallets && wallets[id].playerId == w.playerId
                      && wallets[id].balance.currency == w.balance.currency {
        return Err(Conflict(WalletAlreadyExists));
      }
      wallets := wallets[w.id := w];
      return Ok(());
    }

    method UpdateBalance(w: WalletRow, expectedVersion: int) returns (r: Result<()>)
      modifies `wallets
      ensures Outcome(old(Db()), BalanceUpdated(old(Db()), w, expectedVersion), r)
      ensures r.Ok? <==> w.id in old(wallets) && old(wallets)[w.id].version == expectedVersion
      ensures r.Ok? ==>
                wallets == old(wallets)[w.id := WalletRow(old(wallets)[w.id].id, old(wallets)[w.id].playerId, w.balance,
                                                          w.version, old(wallets)[w.id].createdAt, w.updatedAt)]
      ensures r.Err? ==> r.error == ConcurrentUpdate
    {
      if w.id !in wallets || wallets[w.id].version != expectedVersion {
        return Err(ConcurrentUpdate);
      }
      var row := wallets[w.id].(balance := w.balance, version := w.version, updatedAt := w.updatedAt);
      wallets := wallets[w.id := row];
      return Ok(());
    }

    method CreateTransaction(t: Tx, now: Time) returns (r: Result<()>)
      modifies `txs, `schedule
      ensures Outcome(old(Db()), TransactionInserted(old(Db()), t), r)
      ensures schedule == if r.Ok? then Scheduled(old(schedule), t, now) else old(schedule)
    {
      if FindById(txs, t.id).Some? || (t.kind == Opening && Find(txs, OpeningOf(t.walletId)).Some?) {
        return Err(Violation);
      }
      if t.kind.IsExternal() && (FindByExt(txs, t.provider, t.ext).Some? || FindByKey(txs, t.provider, t.key).Some?) {
        return Err(Conflict(IdempotencyConflict));
      }
      if IsProcessedReversal(t) && HasProcessedReversal(txs, t.refId) {
        return Err(Conflict(ReferenceAlreadyReversed));
      }
      txs := txs + [t];
      schedule := if t.state == PendingReference then schedule[t.id := now] else schedule - {t.id};
      return Ok(());
    }

    method UpdatePendingReference(t: Tx, nextAttemptAt: Time) returns (r: Result<()>)
      modifies `txs, `schedule
      ensures Outcome(old(Db()), PendingUpdated(old(Db()), t), r)
      ensures schedule == if r.Ok? then Scheduled(old(schedule), t, nextAttemptAt) else old(schedule)
    {
      var i := First(txs, ById(t.id));
      if i == |txs| || txs[i].state != PendingReference {
        return Err(ConcurrentUpdate);
      }
      if IsProcessedReversal(t) && HasProcessedReversal(txs, t.refId) {
        return Err(Conflict(ReferenceAlreadyReversed));
      }
      var row := txs[i].(state := t.state, code := t.code, refId := t.refId, result := t.result,
                         attempts := t.attempts, updatedAt := t.updatedAt);
      txs := txs[i := row];
      schedule := if t.state == PendingReference then schedule[t.id := nextAttemptAt] else schedule - {t.id};
      return Ok(());
    }

    method AppendEntry(e: Entry) returns (r: Result<()>)
      modifies `ledger
      ensures Outcome(old(Db()), EntryAppended(old(Db()), e), r)
    {
      if exists x :: x in ledger && (x.id == e.id || (x.walletId == e.walletId && x.transactionId == e.transactionId)) {
        return Err(Violation);
      }
      ledger := ledger + [e];
      return Ok(());
    }

    /** Appends the events in order, stopping at the first a constraint refuses. */
    method AppendEvents(events: seq<Event>) returns (r: Result<()>)
      modifies `outbox
      ensures Db() == EventsStopped(old(Db()), events)
      ensures r.Ok? <==> EventsAppended(old(Db()), events).Ok?
      ensures r.Ok? ==> Db() == EventsAppended(old(Db()), events).value
      ensures r.Err? ==> r.error == EventsAppended(old(Db()), events).error
    {
      var k := 0;
      assert events[0..] == events;
      while k < |events|
        invariant 0 <= k <= |events|
        invariant EventsAppended(old(Db()), events) == EventsAppended(Db(), events[k..])
        invariant EventsStopped(old(Db()), events) == EventsStopped(Db(), events[k..])
      {
        var e := events[k];
        assert events[k..][0] == e && events[k..][1..] == events[k + 1..];
        if exists x :: x in outbox && (x.id == e.id || x.sequence == e.sequence) {
          return Err(Violation);
        }
        outbox := outbox + [e];
        k := k + 1;
      }
      return Ok(());
    }

    method RecordInbox(messageId: string, row: InboxRow) returns (r: Result<()>)
      modifies `inbox
      ensures Outcome(old(Db()), InboxRecorded(old(Db()), messageId, row), r)
      ensures r.Ok? <==> messageId !in old(inbox)
      ensures inbox == if r.Ok? then old(inbox)[messageId := row] else old(inbox)
    {
      if messageId in inbox {
        return Err(Conflict(IdempotencyConflict));
      }
      inbox := inbox[messageId := row];
      return Ok(());
    }
  }

  // -------------------------------------------------------------- settlement

  /** Moves the operation to the state its outcome calls for. */
  method Conclude(transaction: Transaction, w: Wallet, outcome: Result<()>, at: Time) returns (r: Result<()>)
    modifies transaction
    ensures transaction.Outcome(old(transaction.Record()), Concluded(old(transaction.Record()), w.Row(), outcome, at), r)
  {
    match outcome
    case Ok(_) => r := transaction.MarkProcessed(w.balance, at);
    case Err(error) =>
      match error {
        case ReferencePending => r := transaction.MarkPendingReference(at);
        case Rejection(code, _) => r := transaction.MarkRejected(code, at);
        case _ => r := Err(error);
      }
  }

  /** The operation referred to, resolved and checked. */
  method FindReference(store: Store, transaction: Transaction) returns (r: Result<Option<Tx>>)
    modifies transaction
    ensures var t, seen := old(transaction.Record()), LookedUp(store.txs, old(transaction.Record()));
            Reference(transaction.Record(), r) == Referenced(t, seen, Reversed(store.txs, seen))
  {
    var t := transaction.built;
    if t.refExt == "" {
      return Ok(None);
    }
    var reference := FindByExt(store.txs, t.provider, t.refExt);
    if reference.None? || !reference.value.state.IsTerminal() {
      return Err(ReferencePending);
    }
    var resolved := transaction.ResolveReference(reference);
    if resolved.Err? {
      return Err(resolved.error);
    }
    if !t.kind.IsReversal() {
      return Ok(reference);
    }
    if HasProcessedReversal(store.txs, reference.value.id) {
      return Err(Rejection(ReferenceAlreadyReversed, false));
    }
    return Ok(reference);
  }

  /** Writes the operation, the balance over the version loaded, the entry and the events,
      stopping at the first write refused. */
  method Record(store: Store, attempt: Settlement.Attempt, loadedVersion: int, d: Decision, events: seq<Event>,
                nextAttemptAt: Time) returns (r: Result<()>)
    modifies store
    ensures store.Db() == RecordStopped(old(store.Db()), attempt, loadedVersion, d, events)
    ensures r.Ok? <==> Recorded(old(store.Db()), attempt, loadedVersion, d, events).Ok?
    ensures r.Ok? ==> store.Db() == Recorded(old(store.Db()), attempt, loadedVersion, d, events).value
    ensures r.Ok? ==> store.schedule == Scheduled(old(store.schedule), d.tx, nextAttemptAt)
    ensures r.Err? ==> r.error == Recorded(old(store.Db()), attempt, loadedVersion, d, events).error
  {
    if attempt.Arrival? {
      r := store.CreateTransaction(d.tx, nextAttemptAt);
    } else {
      r := store.UpdatePendingReference(d.tx, nextAttemptAt);
    }
    if r.Err? {
      return;
    }
    if d.entry.Some? {
      r := store.UpdateBalance(d.wallet, loadedVersion);
      if r.Err? {
        return;
      }
      r := store.AppendEntry(d.entry.value);
      if r.Err? {
        return;
      }
    }
    r := store.AppendEvents(events);
  }

  /** The part settlement and retry share: the reference, the movement, the conclusion and
      the events, over the two objects it updates. */
  method Attempt(store: Store, w: Wallet, transaction: Transaction, attempt: Settlement.Attempt, entryId: ID, at: Time)
    returns (r: Result<Decision>)
    modifies w, transaction
    ensures var t := old(transaction.Record());
            var seen := LookedUp(store.txs, t);
            r == Decide(old(w.Row()), t, seen, Reversed(store.txs, seen), attempt, entryId, at)
  {
    var reference := FindReference(store, transaction);
    var entry: Option<Entry> := None;
    var outcome: Result<()> := Ok(());
    if reference.Err? {
      outcome := Err(reference.error);
    } else {
      var moved := w.Apply(transaction, reference.value, entryId, at);
      if moved.Ok? {
        entry := moved.value;
      } else {
        outcome := Err(moved.error);
      }
    }
    var concluded: Result<()>;
    if outcome == Err(ReferencePending) && attempt.Again? {
      concluded := transaction.RecordMissingReference(attempt.maxAttempts, at);
    } else {
      concluded := Conclude(transaction, w, outcome, at);
    }
    if concluded.Err? {
      return Err(concluded.error);
    }
    var t := transaction.Record();
    if attempt.Again? && t.state == PendingReference {
      return Ok(Decision(t, w.Row(), None, []));
    }
    var events := NewEvents(t, w.Row(), entry, at);
    if events.Err? {
      return Err(events.error);
    }
    return Ok(Decision(t, w.Row(), entry, events.value));
  }

  // --------------------------------------------------------------- use cases

  /** ProcessWager.Execute, the work of its database transaction included. */
  method ProcessWager(store: Store, input: Input, id: ID, entryId: ID, marks: Marks, at: Time, now: Time)
    returns (r: Result<WagerResult>)
    modifies store
    ensures match UseCases.Processed(old(store.Db()), input, id, entryId, marks, at)
            case Ok(done) => r == Ok(done.1) && store.Db() == done.0
            case Err(e) => r == Err(e) && store.Db() == old(store.Db())
    ensures store.schedule == if r.Ok? then ScheduledOnArrival(old(store.schedule), r.value, now) else old(store.schedule)
    ensures r.Err? || r.value.replay ==> store.schedule == old(store.schedule)
    ensures r.Ok? && !r.value.replay ==>
              store.schedule == if r.value.state == Some(PendingReference)
                                then old(store.schedule)[r.value.transactionId := now]
                                else old(store.schedule) - {r.value.transactionId}
  {
    if input.correlationId == "" {
      return Err(Validation(InvalidInput));
    }
    var hash := PayloadHash(input);
    if hash.Err? {
      return Err(hash.error);
    }
    var received := NewExternal(id, input, hash.value, at);
    if received.Err? {
      return Err(received.error);
    }
    var t := received.value;
    var located := Located(store.Db(), t.walletId);
    if located.Err? {
      return Err(located.error);
    }
    var previous := Replayed(store.txs, t);
    if previous.Err? {
      return Err(previous.error);
    }
    if previous.value.Some? {
      return Ok(ResultOf(previous.value.value, true));
    }

    var settled := SettleArrival(store, located.value, t, entryId, marks, now);
    if settled.Err? {
      return Err(settled.error);
    }
    return Ok(ResultOf(settled.value, false));
  }

  /** The settlement itself, of an operation no row answers for. */
  method SettleArrival(store: Store, row: WalletRow, t: Tx, entryId: ID, marks: Marks, now: Time) returns (r: Result<Tx>)
    modifies store
    ensures match Arrived(old(store.Db()), row, t, entryId, marks)
            case Ok(done) => r == Ok(done.1) && store.Db() == done.0
            case Err(e) => r == Err(e) && store.Db() == old(store.Db())
    ensures store.schedule == if r.Ok? then Scheduled(old(store.schedule), r.value, now) else old(store.schedule)
  {
    var saved, savedSchedule := store.Db(), store.schedule;
    var w := new Wallet(row);
    var transaction := new Transaction(t);
    var loadedVersion := w.version;
    var decided := Attempt(store, w, transaction, Arrival, entryId, t.createdAt);
    if decided.Err? {
      return Err(decided.error);
    }
    var d := decided.value;
    var recorded := Record(store, Arrival, loadedVersion, d, Stamp(d.events, t.walletId, t.createdAt, marks), now);
    if recorded.Err? {
      store.Rollback(saved, savedSchedule);
      return Err(recorded.error);
    }
    return Ok(d.tx);
  }

  /** ResolvePendingReferences.retry, for one leased operation. */
  method Retry(store: Store, id: ID, walletId: ID, entryId: ID, marks: Marks, policy: Policy, at: Time)
    returns (r: Result<Option<State>>)
    requires policy.Valid()
    modifies store
    ensures match Retried(old(store.Db()), id, walletId, entryId, marks, policy.maxAttempts, at)
            case Ok(done) => r == Ok(done.1) && store.Db() == done.0
            case Err(e) => r == Err(e) && store.Db() == old(store.Db())
    ensures store.schedule ==
            if r.Ok? then ScheduledOnRetry(old(store.schedule), FindById(old(store.txs), id), FindById(store.txs, id),
                                           policy, at)
            else old(store.schedule)
    ensures var before, after := FindById(old(store.txs), id), FindById(store.txs, id);
            r.Ok? && before.Some? && before.value.state == PendingReference ==>
              after.Some? && Postpones(old(store.schedule), store.schedule, after.value, before.value.attempts + 1, policy, at)
  {
    var located := Located(store.Db(), walletId);
    if located.Err? {
      return Err(located.error);
    }
    var found := FindById(store.txs, id);
    if found.None? {
      return Ok(None);
    }
    if found.value.state != PendingReference {
      return Ok(Some(found.value.state));
    }

    ghost var before, schedule := store.Db(), store.schedule;
    var tried := TryAgain(store, located.value, found.value, entryId, marks, policy, at);
    if tried.Err? {
      return Err(tried.error);
    }
    TriedAgainRow(before, located.value, found.value, entryId, marks, policy.maxAttempts, at, (store.Db(), tried.value));
    SameSchedule(schedule, found, FindById(store.txs, id), tried.value, policy, at);
    TriedAgainCounts(before, located.value, found.value, entryId, marks, policy.maxAttempts, at, (store.Db(), tried.value));
    ScheduledPostpones(schedule, tried.value, policy, at);
    return Ok(Some(tried.value.state));
  }

  /** The attempt itself, on an operation read under the lock of its wallet. */
  method TryAgain(store: Store, row: WalletRow, t: Tx, entryId: ID, marks: Marks, policy: Policy, at: Time)
    returns (r: Result<Tx>)
    requires policy.Valid()
    modifies store
    ensures match TriedAgain(old(store.Db()), row, t, entryId, marks, policy.maxAttempts, at)
            case Ok(done) => r == Ok(done.1) && store.Db() == done.0
            case Err(e) => r == Err(e) && store.Db() == old(store.Db())
    ensures r.Ok? ==>
              store.schedule == Scheduled(old(store.schedule), r.value, policy.NextAttempt(at, r.value.attempts))
    ensures r.Err? ==> store.schedule == old(store.schedule)
  {
    var saved, savedSchedule := store.Db(), store.schedule;
    var w := new Wallet(row);
    var transaction := new Transaction(t);
    var loadedVersion := w.version;
    var attempt := Again(policy.maxAttempts);
    var decided := Attempt(store, w, transaction, attempt, entryId, at);
    if decided.Err? {
      return Err(decided.error);
    }
    var d := decided.value;
    var delay := B.Backoff(policy.baseDelay, policy.maxDelay, d.tx.attempts);
    var recorded := Record(store, attempt, loadedVersion, d, Stamp(d.events, t.walletId, at, marks), at + delay as int);
    if recorded.Err? {
      store.Rollback(saved, savedSchedule);
      return Err(recorded.error);
    }
    return Ok(d.tx);
  }

  lemma SameSchedule(schedule: Schedule, before: Option<Tx>, after: Option<Tx>, t: Tx, policy: Policy, at: Time)
    requires policy.Valid() && before.Some? && before.value.state == PendingReference && IsRow(after, t)
    ensures ScheduledOnRetry(schedule, before, after, policy, at) == Scheduled(schedule, t, policy.NextAttempt(at, t.attempts))
  {
  }

  lemma DecisionKeepsTheId(w: WalletRow, t: Tx, seen: Option<Tx>, reversed: bool, attempt: Settlement.Attempt,
                           entryId: ID, at: Time)
    requires Decide(w, t, seen, reversed, attempt, entryId, at).Ok?
    ensures Decide(w, t, seen, reversed, attempt, entryId, at).value.tx.id == t.id
  {
    var r := Referenced(t, seen, reversed);
    assert r.tx.id == t.id;
    ClosedKeepsTheId(w, r.tx, Movement(w, r, entryId, at), attempt, at);
  }

  lemma ClosedKeepsTheId(w: WalletRow, t: Tx, moved: Result<Effect>, attempt: Settlement.Attempt, at: Time)
    requires Closed(w, t, moved, attempt, at).Ok?
    ensures Closed(w, t, moved, attempt, at).value.tx.id == t.id
  {
  }

  /** The row found is that of the operation as the retry left it. */
  predicate IsRow(found: Option<Tx>, t: Tx) {
    found.Some? && found.value.id == t.id && found.value.state == t.state && found.value.attempts == t.attempts
  }

  /** The row of a retried operation is found again, with what the retry stored. */
  lemma RetriedRow(db: Db, attempt: Settlement.Attempt, loadedVersion: int, d: Decision, events: seq<Event>)
    requires attempt.Again? && Recorded(db, attempt, loadedVersion, d, events).Ok?
    ensures IsRow(FindById(Recorded(db, attempt, loadedVersion, d, events).value.txs, d.tx.id), d.tx)
  {
    var saved := PendingUpdated(db, d.tx).value;
    EventsAppendedAppends(EntryRecorded(saved, loadedVersion, d).value, events);
    var i, j := First(db.txs, ById(d.tx.id)), First(saved.txs, ById(d.tx.id));
    assert ById(d.tx.id)(saved.txs[i]) && j <= i;
    assert ById(d.tx.id)(db.txs[j]) && i <= j;
  }

  lemma TriedAgainRow(db: Db, w: WalletRow, t: Tx, entryId: ID, marks: Marks, maxAttempts: int, at: Time, done: (Db, Tx))
    requires TriedAgain(db, w, t, entryId, marks, maxAttempts, at) == Ok(done)
    ensures done.1.id == t.id && IsRow(FindById(done.0.txs, t.id), done.1)
  {
    var seen := LookedUp(db.txs, t);
    var d := Decide(w, t, seen, Reversed(db.txs, seen), Again(maxAttempts), entryId, at).value;
    DecisionKeepsTheId(w, t, seen, Reversed(db.txs, seen), Again(maxAttempts), entryId, at);
    RetriedRow(db, Again(maxAttempts), w.version, d, Stamp(d.events, t.walletId, at, marks));
  }

  lemma TriedAgainCounts(db: Db, w: WalletRow, t: Tx, entryId: ID, marks: Marks, maxAttempts: int, at: Time, done: (Db, Tx))
    requires TriedAgain(db, w, t, entryId, marks, maxAttempts, at) == Ok(done) && t.state == PendingReference
    ensures done.1.state == PendingReference ==> done.1.attempts == t.attempts + 1
  {
    var seen := LookedUp(db.txs, t);
    AgainCounts(w, t, seen, Reversed(db.txs, seen), maxAttempts, entryId, at);
  }

  lemma AgainCounts(w: WalletRow, t: Tx, seen: Option<Tx>, reversed: bool, maxAttempts: int, entryId: ID, at: Time)
    requires Decide(w, t, seen, reversed, Again(maxAttempts), entryId, at).Ok? && t.state == PendingReference
    ensures var x := Decide(w, t, seen, reversed, Again(maxAttempts), entryId, at).value.tx;
            x.state == PendingReference ==> x.attempts == t.attempts + 1
  {
    var r := Referenced(t, seen, reversed);
    assert r.tx.attempts == t.attempts && r.tx.state == t.state;
    ClosedCounts(w, r.tx, Movement(w, r, entryId, at), maxAttempts, at);
  }

  lemma ClosedCounts(w: WalletRow, t: Tx, moved: Result<Effect>, maxAttempts: int, at: Time)
    requires Closed(w, t, moved, Again(maxAttempts), at).Ok? && t.state == PendingReference
    ensures var x := Closed(w, t, moved, Again(maxAttempts), at).value.tx;
            x.state == PendingReference ==> x.attempts == t.attempts + 1
  {
  }

  /** ProcessInboxMessage.Execute: the operation joins the transaction of the message. */
  method ProcessInboxMessage(store: Store, messageId: string, input: Input, id: ID, entryId: ID, marks: Marks, at: Time,
                             now: Time)
    returns (r: Result<(WagerResult, bool)>)
    modifies store
    ensures match Received(old(store.Db()), messageId, input, id, entryId, marks, at)
            case Ok(done) => r == Ok((done.1, done.2)) && store.Db() == done.0
            case Err(e) => r == Err(e) && store.Db() == old(store.Db())
    ensures store.schedule ==
            if r.Ok? then ScheduledOnArrival(old(store.schedule), r.value.0, now) else old(store.schedule)
  {
    if messageId == "" {
      return Err(Validation(InvalidInput));
    }
    var hash := PayloadHash(input);
    if hash.Err? {
      return Err(hash.error);
    }
    if messageId in store.inbox {
      var row := store.inbox[messageId];
      if row.hash != hash.value {
        return Err(Conflict(IdempotencyConflict));
      }
      return Ok((WagerResult(row.transactionId, None, NoFailure, None, true), true));
    }
    var saved, savedSchedule := store.Db(), store.schedule;
    var applied := ProcessWager(store, input, id, entryId, marks, at, now);
    if applied.Err? {
      return Err(applied.error);
    }
    var recorded := store.RecordInbox(messageId, InboxRow(hash.value, applied.value.transactionId));
    if recorded.Err? {
      store.Rollback(saved, savedSchedule);
      return Err(recorded.error);
    }
    return Ok((applied.value, false));
  }

  /** OpenWallet.Execute. */
  method OpenWallet(store: Store, id: ID, playerId: ID, initial: Money, correlationId: string, openingId: ID, entryId: ID,
                    marks: Marks, now: Time) returns (r: Result<WalletRow>)
    modifies store
    ensures match Opened(old(store.Db()), id, playerId, initial, correlationId, openingId, entryId, marks, now)
            case Ok(done) => r == Ok(done.1) && store.Db() == done.0
            case Err(e) => r == Err(e) && store.Db() == old(store.Db())
    ensures store.schedule == old(store.schedule) - (if r.Ok? && r.value.balance.IsPositive() then {openingId} else {})
  {
    if correlationId == "" {
      return Err(Validation(InvalidInput));
    }
    var opening := Open(id, playerId, initial, now);
    if opening.Err? {
      return Err(opening.error);
    }
    var stored := StoreWallet(store, opening.value, openingId, entryId, marks);
    if stored.Err? {
      return Err(stored.error);
    }
    return opening;
  }

  /** The work of its database transaction: the wallet, and its credit when there is one. */
  method StoreWallet(store: Store, w: WalletRow, openingId: ID, entryId: ID, marks: Marks) returns (r: Result<()>)
    modifies store
    ensures match Credited(old(store.Db()), w, openingId, entryId, marks)
            case Ok(after) => r.Ok? && store.Db() == after
            case Err(e) => r == Err(e) && store.Db() == old(store.Db())
    ensures store.schedule == old(store.schedule) - (if r.Ok? && w.balance.IsPositive() then {openingId} else {})
  {
    var saved, savedSchedule := store.Db(), store.schedule;
    r := store.InsertWallet(w);
    if r.Err? {
      return;
    }
    var plan := DecideOpening(w, openingId, entryId);
    if plan.Err? {
      store.Rollback(saved, savedSchedule);
      return Err(plan.error);
    }
    if plan.value.None? {
      return;
    }
    var d := plan.value.value;
    r := StoreCredit(store, d, Stamp(d.events, w.id, w.createdAt, marks), w.createdAt);
    if r.Err? {
      store.Rollback(saved, savedSchedule);
    }
  }

  /** The operation of an opening, its entry and its events. */
  function CreditStored(db: Db, d: Decision, events: seq<Event>): Result<Db>
    requires d.entry.Some?
  {
    var saved :- TransactionInserted(db, d.tx);
    var moved :- EntryAppended(saved, d.entry.value);
    EventsAppended(moved, events)
  }

  method StoreCredit(store: Store, d: Decision, events: seq<Event>, now: Time) returns (r: Result<()>)
    requires d.entry.Some?
    modifies store
    ensures match CreditStored(old(store.Db()), d, events)
            case Ok(after) => r.Ok? && store.Db() == after && store.schedule == Scheduled(old(store.schedule), d.tx, now)
            case Err(e) => r == Err(e)
  {
    r := store.CreateTransaction(d.tx, now);
    if r.Ok? {
      r := store.AppendEntry(d.entry.value);
    }
    if r.Ok? {
      r := store.AppendEvents(events);
    }
  }
}
