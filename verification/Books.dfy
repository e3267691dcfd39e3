/** The books: everything the committed tables satisfy. Each settlement and each opening that
    the constraints accept keeps them, whatever the schedule that led to it. */
module Books {
  import opened Domain
  import opened Sequences
  import opened Wager
  import opened Ledger
  import opened Events
  import opened Database
  import opened Settlement
  import opened Accounting
  import opened Conservation

  ghost predicate Balanced(db: Db, maxAttempts: int) {
    && maxAttempts >= 1
    && Accounted(db, maxAttempts) && ReversalsOk(db.txs) && Conserved(db)
  }

  lemma EmptyIsBalanced(maxAttempts: int)
    requires maxAttempts >= 1
    ensures Balanced(EMPTY, maxAttempts)
  {
  }

  /** The events stored carry the data decided, all of one wallet. */
  ghost predicate Stamped(events: seq<Event>, data: seq<Data>, w: ID) {
    && DataOf(events) == data
    && forall k :: 0 <= k < |events| ==> events[k].aggregateId == w
  }

  /** What a settlement read from the tables it is recorded over. A reference it saw concluded
      is still there, because a terminal operation never changes. */
  ghost predicate ReadFrom(db: Db, w: WalletRow, t: Tx, seen: Option<Tx>, attempt: Attempt, maxAttempts: int) {
    && t.walletId in db.wallets && w == db.wallets[t.walletId]
    && Settles(t, attempt)
    && (attempt.Arrival? ==> IsNew(t))
    && (attempt.Again? ==> attempt.maxAttempts == maxAttempts && t in db.txs)
    && (!Waiting(seen) ==> seen.value in db.txs)
  }

  function Reversed(txs: seq<Tx>, seen: Option<Tx>): bool {
    seen.Some? && HasProcessedReversal(txs, seen.value.id)
  }

  ghost predicate DecidedOn(
      db: Db, w: WalletRow, t: Tx, seen: Option<Tx>, attempt: Attempt, entryId: ID, d: Decision, maxAttempts: int)
  {
    && ReadFrom(db, w, t, seen, attempt, maxAttempts)
    && Sound(w, t, seen, Reversed(db.txs, seen), attempt, entryId, d)
  }

  /** Where the row of the operation goes. */
  function Place(db: Db, t: Tx, attempt: Attempt): (i: nat)
    ensures i <= |db.txs|
  {
    if attempt.Arrival? then |db.txs| else First(db.txs, ById(t.id))
  }

  lemma PlaceOfAWaiting(txs: seq<Tx>, t: Tx)
    requires t in txs && DistinctIds(txs)
    ensures First(txs, ById(t.id)) < |txs| && txs[First(txs, ById(t.id))] == t
  {
    var k :| 0 <= k < |txs| && txs[k] == t;
    var i := First(txs, ById(t.id));
    assert ById(t.id)(txs[k]);
    assert i <= k;
    SameId(txs, i, k);
  }

  /** The statements of a settlement put one row, move one wallet, and append. */
  lemma RecordedEffect(db: Db, w: WalletRow, t: Tx, attempt: Attempt, d: Decision, events: seq<Event>, maxAttempts: int)
    requires TxsOk(db.txs, maxAttempts) && Settles(t, attempt) && (attempt.Again? ==> t in db.txs)
    requires t.walletId in db.wallets && w == db.wallets[t.walletId] && w.id == t.walletId
    requires d.tx.SameIdentity(t)
    requires if d.entry.None? then d.wallet == w
             else d.wallet == w.(balance := d.wallet.balance, version := d.wallet.version, updatedAt := d.wallet.updatedAt)
    requires Recorded(db, attempt, w.version, d, events).Ok?
    ensures Recorded(db, attempt, w.version, d, events).value
            == Db(db.wallets[d.wallet.id := d.wallet], Put(db.txs, Place(db, t, attempt), d.tx),
                  db.ledger + Maybe(d.entry), db.outbox + events, db.inbox)
    ensures Replaces(db.txs, Place(db, t, attempt), d.tx)
  {
    SavedPutsTheRow(db, t, attempt, d.tx, maxAttempts);
    var saved := (if attempt.Arrival? then TransactionInserted(db, d.tx) else PendingUpdated(db, d.tx)).value;
    var moved := EntryRecorded(saved, w.version, d).value;
    EventsAppendedAppends(moved, events);
    if d.entry.None? {
      assert db.wallets[d.wallet.id := d.wallet] == db.wallets && db.ledger + [] == db.ledger;
    }
  }

  lemma RecordedCommits(db: Db, w: WalletRow, t: Tx, seen: Option<Tx>, attempt: Attempt, entryId: ID, d: Decision,
                        events: seq<Event>, maxAttempts: int)
    requires WalletsOk(db) && TxsOk(db.txs, maxAttempts) && DecidedOn(db, w, t, seen, attempt, entryId, d, maxAttempts)
    requires Stamped(events, d.events, t.walletId)
    requires Recorded(db, attempt, w.version, d, events).Ok?
    ensures Commits(db, Recorded(db, attempt, w.version, d, events).value, Place(db, t, attempt), d.tx, d.wallet,
                    d.entry, events)
  {
    RecordedEffect(db, w, t, attempt, d, events, maxAttempts);
    SoundCommits(db, w, t, seen, attempt, entryId, d, events, Place(db, t, attempt), maxAttempts);
  }

  lemma SoundCommits(db: Db, w: WalletRow, t: Tx, seen: Option<Tx>, attempt: Attempt, entryId: ID, d: Decision,
                     events: seq<Event>, i: nat, maxAttempts: int)
    requires WalletsOk(db) && DecidedOn(db, w, t, seen, attempt, entryId, d, maxAttempts)
    requires Stamped(events, d.events, t.walletId) && Replaces(db.txs, i, d.tx)
    ensures Commits(db, Db(db.wallets[d.wallet.id := d.wallet], Put(db.txs, i, d.tx), db.ledger + Maybe(d.entry),
                           db.outbox + events, db.inbox), i, d.tx, d.wallet, d.entry, events)
  {
    assert w.Valid() && w.id == t.walletId;
    assert Tell(events, d.tx, d.wallet, d.entry);
    assert d.entry.Some? ==> Moves(db, d.tx, d.wallet, d.entry.value);
    assert d.wallet.Valid();
  }

  lemma SavedPutsTheRow(db: Db, t: Tx, attempt: Attempt, x: Tx, maxAttempts: int)
    requires TxsOk(db.txs, maxAttempts) && x.SameIdentity(t) && Settles(t, attempt)
    requires attempt.Again? ==> t in db.txs
    requires (if attempt.Arrival? then TransactionInserted(db, x) else PendingUpdated(db, x)).Ok?
    ensures (if attempt.Arrival? then TransactionInserted(db, x) else PendingUpdated(db, x)).value
            == db.(txs := Put(db.txs, Place(db, t, attempt), x))
    ensures Replaces(db.txs, Place(db, t, attempt), x)
  {
    if attempt.Again? {
      PlaceOfAWaiting(db.txs, t);
    } else {
      forall y | y in db.txs ensures y.id != x.id && !SameIdentifier(y, x) {
        assert !ById(x.id)(y) && !ByExt(x.provider, x.ext)(y) && !ByKey(x.provider, x.key)(y);
      }
    }
  }

  lemma SettlementIsJustified(db: Db, w: WalletRow, t: Tx, seen: Option<Tx>, attempt: Attempt, entryId: ID, d: Decision,
                              maxAttempts: int)
    requires DecidedOn(db, w, t, seen, attempt, entryId, d, maxAttempts)
    ensures Justified(db.txs, d.tx)
    ensures IsProcessedReversal(d.tx) ==> seen.Some? && seen.value in db.txs && seen.value.id == d.tx.refId
  {
    if IsProcessedReversal(d.tx) {
      assert Agrees(d.tx, seen.value);
    }
  }

  lemma OutcomeIsARow(db: Db, w: WalletRow, t: Tx, seen: Option<Tx>, attempt: Attempt, entryId: ID, d: Decision,
                      maxAttempts: int)
    requires maxAttempts >= 1 && DecidedOn(db, w, t, seen, attempt, entryId, d, maxAttempts)
    ensures RowOk(d.tx, maxAttempts) && (d.tx.kind == Loss ==> d.tx.amount.Units() == 0)
  {
  }

  /** Every accepted settlement keeps the books. */
  lemma SettlementKeepsTheBooks(
      db: Db, w: WalletRow, t: Tx, seen: Option<Tx>, attempt: Attempt, entryId: ID, d: Decision, events: seq<Event>,
      maxAttempts: int)
    requires Balanced(db, maxAttempts) && DecidedOn(db, w, t, seen, attempt, entryId, d, maxAttempts)
    requires Stamped(events, d.events, t.walletId)
    requires Recorded(db, attempt, w.version, d, events).Ok?
    ensures Balanced(Recorded(db, attempt, w.version, d, events).value, maxAttempts)
  {
    var db' := Recorded(db, attempt, w.version, d, events).value;
    var i := Place(db, t, attempt);
    assert Commits(db, db', i, d.tx, d.wallet, d.entry, events) by {
      RecordedCommits(db, w, t, seen, attempt, entryId, d, events, maxAttempts);
    }
    assert RowOk(d.tx, maxAttempts) && (d.tx.kind == Loss ==> d.tx.amount.Units() == 0) by {
      OutcomeIsARow(db, w, t, seen, attempt, entryId, d, maxAttempts);
    }
    SettlementIsJustified(db, w, t, seen, attempt, entryId, d, maxAttempts);
    DecisionMovesTheBalance(db, w, t, seen, attempt, entryId, d, maxAttempts);
    CommitKeepsBalance(db, db', i, d.tx, d.wallet, d.entry, events, seen, maxAttempts);
  }

  lemma DecisionMovesTheBalance(db: Db, w: WalletRow, t: Tx, seen: Option<Tx>, attempt: Attempt, entryId: ID, d: Decision,
                                maxAttempts: int)
    requires WalletsOk(db) && DecidedOn(db, w, t, seen, attempt, entryId, d, maxAttempts)
    ensures d.wallet.id in db.wallets
    ensures d.wallet.balance.Units() == db.wallets[d.wallet.id].balance.Units()
                                        + (if d.tx.state == Processed then SignedAmount(d.tx, seen) else 0)
  {
  }

  /** A commit that moves its wallet by the signed amount of what it processed, and that only
      reverses what it may, keeps the books. */
  lemma CommitKeepsBalance(db: Db, db': Db, i: nat, x: Tx, row: WalletRow, entry: Option<Entry>, events: seq<Event>,
                           seen: Option<Tx>, maxAttempts: int)
    requires Balanced(db, maxAttempts) && Commits(db, db', i, x, row, entry, events)
    requires RowOk(x, maxAttempts) && Justified(db.txs, x) && (x.kind == Loss ==> x.amount.Units() == 0)
    requires IsProcessedReversal(x) ==> seen.Some? && seen.value in db.txs && seen.value.id == x.refId
    requires row.balance.Units() == (if row.id in db.wallets then db.wallets[row.id].balance.Units() else 0)
                                    + (if x.state == Processed then SignedAmount(x, seen) else 0)
    ensures Balanced(db', maxAttempts)
  {
    assert Accounted(db', maxAttempts) by {
      CommitKeepsAccounts(db, db', i, x, row, entry, events, maxAttempts);
    }
    assert ReversalsOk(db'.txs) by { ReversalsStayOk(db.txs, i, x); }
    assert Conserved(db') by {
      TxsStayOk(db.txs, i, x, maxAttempts);
      ConservedStays(db, db', i, x, row, seen);
    }
  }

  lemma ConservedStays(db: Db, db': Db, i: nat, x: Tx, row: WalletRow, seen: Option<Tx>)
    requires Replaces(db.txs, i, x)
    requires Conserved(db) && ReversalsOk(db.txs) && DistinctIds(db.txs) && DistinctIds(Put(db.txs, i, x))
    requires Justified(db.txs, x) && (x.kind == Loss ==> x.amount.Units() == 0)
    requires IsProcessedReversal(x) ==> seen.Some? && seen.value in db.txs && seen.value.id == x.refId
    requires db'.txs == Put(db.txs, i, x) && db'.wallets == db.wallets[row.id := row] && row.id == x.walletId
    requires forall t :: t in db.txs ==> t.walletId in db.wallets
    requires row.balance.Units() == (if row.id in db.wallets then db.wallets[row.id].balance.Units() else 0)
                                    + (if x.state == Processed then SignedAmount(x, seen) else 0)
    ensures Conserved(db')
  {
    forall v | v in db'.wallets ensures db'.wallets[v].balance.Units() == Worth(db'.txs, v) {
      WorthMovesByTheSignedAmount(db.txs, i, x, seen, v);
      if v !in db.wallets {
        WorthOfNothing(db.txs, v);
      }
    }
  }

  // ----------------------------------------------------------------- opening

  lemma {:induction false} WorthOfNothing(txs: seq<Tx>, w: ID)
    requires forall t :: t in txs ==> t.walletId != w
    ensures Worth(txs, w) == 0
  {
    SumOfZeros(Contributions(txs, w));
  }

  lemma {:induction false} SumOfZeros(s: seq<int>)
    requires forall k :: 0 <= k < |s| ==> s[k] == 0
    ensures Sum(s) == 0
  {
    if s != [] {
      SumOfZeros(s[..|s| - 1]);
    }
  }

  lemma EmptyWalletKeepsTheBooks(db: Db, w: WalletRow, maxAttempts: int)
    requires Balanced(db, maxAttempts) && w.Valid() && w.balance.IsZero() && w.version == 1
    requires WalletInserted(db, w).Ok?
    ensures Balanced(WalletInserted(db, w).value, maxAttempts)
  {
    var db' := WalletInserted(db, w).value;
    assert db' == db.(wallets := db.wallets[w.id := w]) && w.id !in db.wallets;
    assert LedgerOk(db') && ChangesOk(db') && HasWallets(db') by { EmptyWalletExplained(db, w); }
    assert Conserved(db') by { EmptyWalletConserved(db, w); }
    assert TxsAccounted(db') by { SameRowsAccounted(db, db'); }
    assert WalletsOk(db') && InboxOk(db') && TxsOk(db'.txs, maxAttempts) && ReversalsOk(db'.txs);
  }

  lemma EmptyWalletExplained(db: Db, w: WalletRow)
    requires HasWallets(db) && LedgerOk(db) && ChangesOk(db) && w.id !in db.wallets
    requires w.balance.IsZero() && w.version == 1
    ensures var db' := db.(wallets := db.wallets[w.id := w]); LedgerOk(db') && ChangesOk(db') && HasWallets(db')
  {
    NothingBeforeTheWallet(db, w.id);
  }

  lemma EmptyWalletConserved(db: Db, w: WalletRow)
    requires Conserved(db) && w.id !in db.wallets && w.balance.IsZero()
    requires forall t :: t in db.txs ==> t.walletId in db.wallets
    ensures Conserved(db.(wallets := db.wallets[w.id := w]))
  {
    WorthOfNothing(db.txs, w.id);
  }

  lemma SameRowsAccounted(db: Db, db': Db)
    requires TxsAccounted(db) && db'.txs == db.txs && db'.ledger == db.ledger && db'.outbox == db.outbox
    ensures TxsAccounted(db')
  {
    forall t | t in db'.txs ensures EntriesAccounted(db', t) && OutcomeAccounted(db', t) {
      assert EntriesAccounted(db, t) && OutcomeAccounted(db, t);
    }
  }

  /** A wallet as it is built when it is opened. */
  predicate IsOpenable(w: WalletRow) {
    Open(w.id, w.playerId, w.balance, w.createdAt) == Ok(w)
  }

  lemma OpeningCommits(db: Db, w: WalletRow, d: Decision, openingId: ID, entryId: ID, events: seq<Event>, maxAttempts: int)
    requires TxsOk(db.txs, maxAttempts) && HasWallets(db) && IsOpenable(w)
    requires DecideOpening(w, openingId, entryId) == Ok(Some(d))
    requires Stamped(events, d.events, w.id)
    requires OpeningRecorded(db, w, Some(d), events).Ok?
    ensures Commits(db, OpeningRecorded(db, w, Some(d), events).value, |db.txs|, d.tx, w, d.entry, events)
    ensures RowOk(d.tx, maxAttempts) && Justified(db.txs, d.tx) && w.id !in db.wallets
  {
    OpeningIsSound(w, d, openingId, entryId);
    OpeningEffect(db, w, d, events);
    OpeningIsNew(db, w, d.tx);
    assert Tell(events, d.tx, w, d.entry);
    assert Moves(db, d.tx, w, d.entry.value);
  }

  /** The statements of an opening add one wallet, one operation, its entry and its events. */
  lemma OpeningEffect(db: Db, w: WalletRow, d: Decision, events: seq<Event>)
    requires d.entry.Some? && OpeningRecorded(db, w, Some(d), events).Ok?
    ensures OpeningRecorded(db, w, Some(d), events).value
            == Db(db.wallets[w.id := w], db.txs + [d.tx], db.ledger + [d.entry.value], db.outbox + events, db.inbox)
    ensures w.id !in db.wallets && FindById(db.txs, d.tx.id).None?
  {
    var saved := TransactionInserted(WalletInserted(db, w).value, d.tx).value;
    EventsAppendedAppends(EntryAppended(saved, d.entry.value).value, events);
  }

  lemma OpeningIsNew(db: Db, w: WalletRow, x: Tx)
    requires HasWallets(db) && w.id !in db.wallets && FindById(db.txs, x.id).None? && x.kind == Opening && x.walletId == w.id
    ensures Replaces(db.txs, |db.txs|, x)
  {
    NothingBeforeTheWallet(db, w.id);
    forall y | y in db.txs ensures y.id != x.id {
      assert !ById(x.id)(y);
    }
  }

  /** An opening credits the whole balance, from zero, and tells so. */
  lemma OpeningIsSound(w: WalletRow, d: Decision, openingId: ID, entryId: ID)
    requires IsOpenable(w) && DecideOpening(w, openingId, entryId) == Ok(Some(d))
    ensures IsOpening(d.tx) && d.tx.id == openingId && d.tx.walletId == w.id && d.tx.amount == w.balance
    ensures d.entry.Some? && d.wallet == w && d.events == EventsOf(d.tx, w, d.entry, Arrival)
    ensures var e := d.entry.value;
            && e.Valid() && e.transactionId == d.tx.id && e.walletId == w.id && e.amount == w.balance
            && e.after == w.balance && e.before.Units() == 0
  {
  }

  lemma OpeningCountsWhole(x: Tx)
    requires IsOpening(x)
    ensures x.state == Processed && SignedAmount(x, None) == x.amount.Units() && !IsProcessedReversal(x) && x.kind != Loss
  {
  }

  /** Every accepted opening keeps the books. */
  lemma OpeningKeepsTheBooks(
      db: Db, w: WalletRow, plan: Option<Decision>, openingId: ID, entryId: ID, events: seq<Event>, maxAttempts: int)
    requires Balanced(db, maxAttempts) && IsOpenable(w)
    requires DecideOpening(w, openingId, entryId) == Ok(plan)
    requires plan.Some? ==> Stamped(events, plan.value.events, w.id)
    requires OpeningRecorded(db, w, plan, events).Ok?
    ensures Balanced(OpeningRecorded(db, w, plan, events).value, maxAttempts)
  {
    if plan.None? {
      EmptyWalletKeepsTheBooks(db, w, maxAttempts);
    } else {
      CreditedOpeningKeepsTheBooks(db, w, plan.value, openingId, entryId, events, maxAttempts);
    }
  }

  lemma CreditedOpeningKeepsTheBooks(
      db: Db, w: WalletRow, d: Decision, openingId: ID, entryId: ID, events: seq<Event>, maxAttempts: int)
    requires Balanced(db, maxAttempts) && IsOpenable(w) && DecideOpening(w, openingId, entryId) == Ok(Some(d))
    requires Stamped(events, d.events, w.id) && OpeningRecorded(db, w, Some(d), events).Ok?
    ensures Balanced(OpeningRecorded(db, w, Some(d), events).value, maxAttempts)
  {
    var db' := OpeningRecorded(db, w, Some(d), events).value;
    OpeningIsSound(w, d, openingId, entryId);
    assert Commits(db, db', |db.txs|, d.tx, w, d.entry, events) && RowOk(d.tx, maxAttempts) && w.id !in db.wallets by {
      OpeningCommits(db, w, d, openingId, entryId, events, maxAttempts);
    }
    OpeningCountsWhole(d.tx);
    CommitKeepsBalance(db, db', |db.txs|, d.tx, w, d.entry, events, None, maxAttempts);
  }

  /** An inbox row of the operation just settled, or replayed, keeps the books. */
  lemma InboxKeepsTheBooks(db: Db, messageId: string, row: InboxRow, t: Tx, maxAttempts: int)
    requires Balanced(db, maxAttempts) && InboxRecorded(db, messageId, row).Ok?
    requires t in db.txs && t.id == row.transactionId && t.hash == Some(row.hash)
    ensures Balanced(InboxRecorded(db, messageId, row).value, maxAttempts)
  {
    var db' := InboxRecorded(db, messageId, row).value;
    assert db' == db.(inbox := db'.inbox);
    assert TxsAccounted(db') by { SameRowsAccounted(db, db'); }
    assert WalletsOk(db') && HasWallets(db') && LedgerOk(db') && ChangesOk(db') && Conserved(db') by {
      OnlyTheInboxGrew(db, db');
    }
    assert InboxOk(db') by { InboxGrows(db, messageId, row, t); }
    assert TxsOk(db'.txs, maxAttempts) && ReversalsOk(db'.txs);
  }

  lemma OnlyTheInboxGrew(db: Db, db': Db)
    requires WalletsOk(db) && HasWallets(db) && LedgerOk(db) && ChangesOk(db) && Conserved(db)
    requires db' == db.(inbox := db'.inbox)
    ensures WalletsOk(db') && HasWallets(db') && LedgerOk(db') && ChangesOk(db') && Conserved(db')
  {
  }

  lemma InboxGrows(db: Db, messageId: string, row: InboxRow, t: Tx)
    requires InboxOk(db) && t in db.txs && t.id == row.transactionId && t.hash == Some(row.hash)
    ensures InboxOk(db.(inbox := db.inbox[messageId := row]))
  {
  }
}
