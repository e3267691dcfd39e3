/** Who holds which wallet: a player has one in each currency, and a wallet never changes hands or
    currency, in every run and through every use case. */
module Holdings {
  import opened Domain
  import opened Money
  import opened Wager
  import opened Ledger
  import opened Events
  import opened Database
  import opened Settlement
  import opened Accounting
  import opened Books
  import opened UseCases
  import opened Protocol
  import opened ProtocolInvariant
  import opened Safety
  import opened Theorems

  predicate SameHolder(a: WalletRow, b: WalletRow) {
    a.playerId == b.playerId && a.balance.currency == b.balance.currency
  }

  /** No two wallets have one player and one currency. */
  ghost predicate OneEach(db: Db) {
    forall a, b :: a in db.wallets && b in db.wallets && SameHolder(db.wallets[a], db.wallets[b]) ==> a == b
  }

  ghost predicate HoldersStay(db: Db, later: Db) {
    forall k :: k in db.wallets ==> k in later.wallets && SameHolder(db.wallets[k], later.wallets[k])
  }

  /** Wallets stay with their holders, and any wallet that is new is the only one of its holder. */
  ghost predicate Keeps(db: Db, later: Db) {
    HoldersStay(db, later) && (OneEach(db) ==> OneEach(later))
  }

  // -------------------------------------------------------------- statements

  lemma RecordedKeeps(db: Db, attempt: Settlement.Attempt, loadedVersion: int, d: Decision, events: seq<Event>)
    requires Recorded(db, attempt, loadedVersion, d, events).Ok?
    requires d.entry.Some? && d.wallet.id in db.wallets ==> SameHolder(db.wallets[d.wallet.id], d.wallet)
    ensures Keeps(db, Recorded(db, attempt, loadedVersion, d, events).value)
  {
    var saved := (if attempt.Arrival? then TransactionInserted(db, d.tx) else PendingUpdated(db, d.tx)).value;
    EventsAppendedAppends(EntryRecorded(saved, loadedVersion, d).value, events);
  }

  lemma OpeningKeeps(db: Db, w: WalletRow, plan: Option<Decision>, events: seq<Event>)
    requires OpeningRecorded(db, w, plan, events).Ok?
    ensures Keeps(db, OpeningRecorded(db, w, plan, events).value)
  {
    var created := WalletInserted(db, w).value;
    if plan.Some? {
      var saved := TransactionInserted(created, plan.value.tx).value;
      EventsAppendedAppends(
        if plan.value.entry.Some? then EntryAppended(saved, plan.value.entry.value).value else saved, events);
    }
    assert created.wallets == db.wallets[w.id := w];
    InsertedKeeps(db, w, OpeningRecorded(db, w, plan, events).value);
  }

  lemma InsertedKeeps(db: Db, w: WalletRow, later: Db)
    requires WalletInserted(db, w).Ok? && later.wallets == db.wallets[w.id := w]
    ensures Keeps(db, later)
  {
  }

  // --------------------------------------------------------------- use cases

  lemma DecidedKeeps(db: Db, t: Tx, attempt: Settlement.Attempt, entryId: ID, at: Time, d: Decision, events: seq<Event>)
    requires WalletsOk(db) && t.walletId in db.wallets && Settles(t, attempt)
    requires var seen := LookedUp(db.txs, t);
             Decide(db.wallets[t.walletId], t, seen, Reversed(db.txs, seen), attempt, entryId, at) == Ok(d)
    requires Recorded(db, attempt, db.wallets[t.walletId].version, d, events).Ok?
    ensures Keeps(db, Recorded(db, attempt, db.wallets[t.walletId].version, d, events).value)
  {
    var w, seen := db.wallets[t.walletId], LookedUp(db.txs, t);
    DecisionIsSound(w, t, seen, Reversed(db.txs, seen), attempt, entryId, at);
    RecordedKeeps(db, attempt, w.version, d, events);
  }

  lemma SettledKeeps(db: Db, t: Tx, entryId: ID, marks: Marks, done: (Db, WagerResult))
    requires WalletsOk(db) && IsNew(t) && Settled(db, t, entryId, marks) == Ok(done)
    ensures Keeps(db, done.0)
  {
    if Replayed(db.txs, t).value.None? {
      var w, seen := db.wallets[t.walletId], LookedUp(db.txs, t);
      var d := Decide(w, t, seen, Reversed(db.txs, seen), Arrival, entryId, t.createdAt).value;
      DecidedKeeps(db, t, Arrival, entryId, t.createdAt, d, Stamp(d.events, t.walletId, t.createdAt, marks));
    }
  }

  /** An operation processed leaves every wallet with its holder. */
  lemma ProcessedKeeps(db: Db, input: Input, id: ID, entryId: ID, marks: Marks, at: Time, done: (Db, WagerResult))
    requires WalletsOk(db) && UseCases.Processed(db, input, id, entryId, marks, at) == Ok(done)
    ensures Keeps(db, done.0)
  {
    SettledKeeps(db, NewExternal(id, input, input.payload, at).value, entryId, marks, done);
  }

  /** So does a message. */
  lemma ReceivedKeeps(db: Db, m: string, input: Input, id: ID, entryId: ID, marks: Marks, at: Time,
                      done: (Db, WagerResult, bool))
    requires WalletsOk(db) && Received(db, m, input, id, entryId, marks, at) == Ok(done)
    ensures Keeps(db, done.0)
  {
    if m !in db.inbox {
      ProcessedKeeps(db, input, id, entryId, marks, at, UseCases.Processed(db, input, id, entryId, marks, at).value);
    }
  }

  /** So does a retry. */
  lemma RetriedKeeps(db: Db, id: ID, walletId: ID, entryId: ID, marks: Marks, maxAttempts: int, at: Time,
                     done: (Db, Option<State>))
    requires WalletsOk(db) && TxsOk(db.txs, maxAttempts)
    requires Retried(db, id, walletId, entryId, marks, maxAttempts, at) == Ok(done)
    requires forall t :: t in db.txs && t.id == id ==> t.walletId == walletId
    ensures Keeps(db, done.0)
  {
    var found := FindById(db.txs, id);
    if found.Some? && found.value.state == PendingReference {
      var t := found.value;
      var w, seen := db.wallets[walletId], LookedUp(db.txs, t);
      var d := Decide(w, t, seen, Reversed(db.txs, seen), Again(maxAttempts), entryId, at).value;
      assert RowOk(t, maxAttempts);
      DecidedKeeps(db, t, Again(maxAttempts), entryId, at, d, Stamp(d.events, t.walletId, at, marks));
    }
  }

  /** And an opening adds no wallet to a player who has one in the currency. */
  lemma OpenedKeeps(db: Db, id: ID, playerId: ID, initial: Money, correlationId: string, openingId: ID, entryId: ID,
                    marks: Marks, at: Time, done: (Db, WalletRow))
    requires Opened(db, id, playerId, initial, correlationId, openingId, entryId, marks, at) == Ok(done)
    ensures Keeps(db, done.0)
  {
    var w := Ledger.Open(id, playerId, initial, at).value;
    var plan := DecideOpening(w, openingId, entryId).value;
    OpeningKeeps(db, w, plan, if plan.Some? then Stamp(plan.value.events, w.id, w.createdAt, marks) else []);
  }

  // --------------------------------------------------------------------- runs

  lemma KeepsOn(a: Db, b: Db, c: Db)
    requires Keeps(a, b) && Keeps(b, c)
    ensures Keeps(a, c)
  {
  }

  lemma SettlementKeeps(db: Db, maxAttempts: int, sequence: nat, session: Session, w: WalletRow, t: Tx, seen: Option<Tx>,
                        d: Decision, events: seq<Event>)
    requires WalletsOk(db) && TxsOk(db.txs, maxAttempts) && SessionOk(db, maxAttempts, sequence, session)
    requires session.phase == Staged(Settle(w, t, seen, d), events)
    requires Recorded(db, session.job.Attempt(maxAttempts), w.version, d, events).Ok?
    ensures Keeps(db, Recorded(db, session.job.Attempt(maxAttempts), w.version, d, events).value)
  {
    StagedWasDecidedOn(db, maxAttempts, sequence, session, w, t, seen, d, events);
    RecordedKeeps(db, session.job.Attempt(maxAttempts), w.version, d, events);
  }

  lemma InboxKeeps(db: Db, later: Db, job: Job, id: ID)
    requires Keeps(db, later) && WithInbox(later, job, id).Ok?
    ensures Keeps(db, WithInbox(later, job, id).value)
  {
  }

  lemma CommitKeeps(db: Db, maxAttempts: int, sequence: nat, session: Session)
    requires WalletsOk(db) && TxsOk(db.txs, maxAttempts) && SessionOk(db, maxAttempts, sequence, session)
    requires Complete(session.phase) && Committed(db, maxAttempts, session).Ok?
    ensures Keeps(db, Committed(db, maxAttempts, session).value)
  {
    match session.phase
    case Staged(Settle(w, t, seen, d), events) =>
      SettlementKeeps(db, maxAttempts, sequence, session, w, t, seen, d, events);
      InboxKeeps(db, Recorded(db, session.job.Attempt(maxAttempts), w.version, d, events).value, session.job, d.tx.id);
    case _ => OtherCommitKeeps(db, maxAttempts, session);
  }

  lemma OtherCommitKeeps(db: Db, maxAttempts: int, session: Session)
    requires Complete(session.phase) && Committed(db, maxAttempts, session).Ok?
    requires !(session.phase.Staged? && session.phase.plan.Settle?)
    ensures Keeps(db, Committed(db, maxAttempts, session).value)
  {
    match session.phase
    case Staged(Open(opening), events) =>
      if session.job.Opening? {
        OpeningKeeps(db, session.job.w, opening, events);
      }
    case _ =>
  }

  lemma StepKeeps(s: System, step: Step)
    requires Inv(s) && Enabled(s, step)
    ensures Keeps(s.db, Do(s, step).db)
  {
    if step.Commit? {
      assert SessionOk(s.db, s.maxAttempts, s.sequence, s.sessions[step.sid]);
      CommitKeeps(s.db, s.maxAttempts, s.sequence, s.sessions[step.sid]);
    }
  }

  /** Through every run, wallets stay with their holders. */
  lemma {:induction false} RunKeeps(s: System, steps: seq<Step>)
    requires Inv(s) && Run(s, steps)
    ensures Keeps(s.db, After(s, steps).db)
    decreases |steps|
  {
    if steps != [] {
      var s1 := Do(s, steps[0]);
      StepKeepsInv(s, steps[0]);
      StepKeeps(s, steps[0]);
      RunKeeps(s1, steps[1..]);
      KeepsOn(s.db, s1.db, After(s, steps).db);
    }
  }

  /** In every reachable state a player has at most one wallet in a currency. */
  lemma OneWalletPerCurrency(s: System, a: ID, b: ID)
    requires Reachable(s) && a in s.db.wallets && b in s.db.wallets
    requires s.db.wallets[a].playerId == s.db.wallets[b].playerId
    requires s.db.wallets[a].balance.currency == s.db.wallets[b].balance.currency
    ensures a == b
  {
    var maxAttempts: int, steps: seq<Step> :|
      maxAttempts >= 1 && Run(Init(maxAttempts), steps) && After(Init(maxAttempts), steps) == s;
    InitIsOk(maxAttempts);
    RunKeeps(Init(maxAttempts), steps);
  }
}
