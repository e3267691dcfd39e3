/** What every committed state of the tables satisfies, and that every settlement and every
    opening keeps it: the tables account for one another row by row. */
module Accounting {
  import opened Domain
  import opened Sequences
  import opened Wager
  import opened Ledger
  import opened Events
  import opened Database
  import opened Settlement

  // -------------------------------------------------------------- selections

  function OfWallet(w: ID): Entry -> bool {
    (e: Entry) => e.walletId == w
  }

  function OfTransaction(id: ID): Entry -> bool {
    (e: Entry) => e.transactionId == id
  }

  predicate IsChange(e: Event) {
    e.data.BalanceChanged?
  }

  function ChangesOf(w: ID): Event -> bool {
    (e: Event) => IsChange(e) && e.aggregateId == w
  }

  predicate IsOutcome(data: Data) {
    data.TransactionProcessed? || data.TransactionRejected?
  }

  function OutcomesOf(id: ID): Event -> bool {
    (e: Event) => IsOutcome(e.data) && e.data.operation.transactionId == id
  }

  function TransactionOf(data: Data): ID {
    if data.BalanceChanged? then data.transactionId else data.operation.transactionId
  }

  // -------------------------------------------------------------- invariants

  ghost predicate HasId(txs: seq<Tx>, id: ID) {
    exists t :: t in txs && t.id == id
  }

  ghost predicate WalletsOk(db: Db) {
    forall id :: id in db.wallets ==> db.wallets[id].Valid() && db.wallets[id].id == id
  }

  /** A stored operation: the internal opening, or one received and settled at least once. */
  ghost predicate RowOk(t: Tx, maxAttempts: int) {
    if t.kind == Opening then IsOpening(t) else
      && IsExternalRecord(t)
      && (t.state == PendingReference || t.state == Processed || t.state == Rejected)
      && (t.state == PendingReference ==> t.refExt != "" && t.attempts < maxAttempts)
      && (t.state == Processed <==> t.result.Some?)
      && (t.state == Rejected <==> t.code != NoFailure)
  }

  ghost predicate SameIdentifier(a: Tx, b: Tx) {
    a.kind.IsExternal() && b.kind.IsExternal() && a.provider == b.provider && (a.ext == b.ext || a.key == b.key)
  }

  ghost predicate TxsOk(txs: seq<Tx>, maxAttempts: int) {
    && (forall i :: 0 <= i < |txs| ==> RowOk(txs[i], maxAttempts))
    && (forall i, j :: 0 <= i < j < |txs| ==> txs[i].id != txs[j].id)
    && (forall i, j :: 0 <= i < j < |txs| ==> !SameIdentifier(txs[i], txs[j]))
    && (forall i, j :: 0 <= i < j < |txs| && txs[i].kind == txs[j].kind == Opening ==>
          txs[i].walletId != txs[j].walletId)
  }

  ghost predicate HasWallets(db: Db) {
    && (forall t :: t in db.txs ==> t.walletId in db.wallets)
    && (forall e :: e in db.ledger ==> e.walletId in db.wallets && HasId(db.txs, e.transactionId))
    && (forall e :: e in db.outbox ==> e.aggregateId in db.wallets && HasId(db.txs, TransactionOf(e.data)))
  }

  /** Consecutive entries meet: each starts where the previous one ended, from zero. */
  ghost predicate Chained(es: seq<Entry>) {
    && (forall k :: 0 <= k < |es| ==> es[k].Valid())
    && (es != [] ==> es[0].before.Units() == 0)
    && (forall k :: 0 < k < |es| ==> es[k].before == es[k - 1].after)
  }

  ghost predicate HasOpening(txs: seq<Tx>, w: ID) {
    exists t :: t in txs && t.kind == Opening && t.walletId == w
  }

  /** The ledger of one wallet explains its balance and its version. */
  ghost predicate Explains(es: seq<Entry>, row: WalletRow, hasOpening: bool) {
    && Chained(es)
    && (if es == [] then row.balance.Units() == 0 else es[|es| - 1].after == row.balance)
    && row.version == |es| + (if hasOpening then 0 else 1)
    && (hasOpening ==> es != [])
  }

  ghost predicate LedgerOk(db: Db) {
    forall w :: w in db.wallets ==>
      Explains(Filter(db.ledger, OfWallet(w)), db.wallets[w], HasOpening(db.txs, w))
  }

  /** A processed operation other than a LOSS has exactly one entry, whose balance after is
      its result; no other operation has any. */
  ghost predicate EntriesAccounted(db: Db, t: Tx) {
    var mine := Filter(db.ledger, OfTransaction(t.id));
    if t.state == Processed && t.kind != Loss then
      |mine| == 1 && t.result == Some(mine[0].after) && mine[0].walletId == t.walletId && mine[0].amount == t.amount
    else mine == []
  }

  /** A terminal operation has exactly one outcome event, which tells its outcome; one that
      waits has none. */
  ghost predicate OutcomeAccounted(db: Db, t: Tx) {
    var mine := Filter(db.outbox, OutcomesOf(t.id));
    if t.state.IsTerminal() then |mine| == 1 && TellsOutcome(mine[0], t) else mine == []
  }

  ghost predicate TellsOutcome(e: Event, t: Tx) {
    var about := Summary(t.id, t.kind, t.walletId, t.playerId, t.amount, t.provider, t.ext, t.roundId, t.gameId);
    && e.aggregateId == t.walletId
    && (t.state == Processed ==> t.result.Some? && e.data == TransactionProcessed(about, t.result.value))
    && (t.state == Rejected ==> e.data == TransactionRejected(about, t.code))
  }

  ghost predicate TxsAccounted(db: Db) {
    forall t :: t in db.txs ==> EntriesAccounted(db, t) && OutcomeAccounted(db, t)
  }

  /** Each entry has exactly one balance event, at its place: the k-th change of a wallet
      tells its k-th entry, and their versions are consecutive. */
  ghost predicate Mirrors(changes: seq<Event>, es: seq<Entry>, version: int) {
    && |changes| == |es|
    && forall k :: 0 <= k < |es| ==> changes[k].data == ChangeOf(es[k], version - |es| + 1 + k)
  }

  ghost predicate ChangesOk(db: Db) {
    forall w :: w in db.wallets ==>
      Mirrors(Filter(db.outbox, ChangesOf(w)), Filter(db.ledger, OfWallet(w)), db.wallets[w].version)
  }

  /** Every inbox row names a committed operation carrying the payload of the message. */
  ghost predicate InboxOk(db: Db) {
    forall m :: m in db.inbox ==>
      exists t :: t in db.txs && t.id == db.inbox[m].transactionId && t.hash == Some(db.inbox[m].hash)
  }

  ghost predicate Accounted(db: Db, maxAttempts: int) {
    && WalletsOk(db) && TxsOk(db.txs, maxAttempts) && HasWallets(db)
    && LedgerOk(db) && TxsAccounted(db) && ChangesOk(db) && InboxOk(db)
  }

  // ------------------------------------------------------------------ change

  /** The row at i replaced, or appended when i is the end of the table. */
  function Put(txs: seq<Tx>, i: nat, x: Tx): seq<Tx>
    requires i <= |txs|
  {
    if i < |txs| then txs[i := x] else txs + [x]
  }

  function Maybe<T>(x: Option<T>): seq<T> {
    match x case None => [] case Some(v) => [v]
  }

  function DataOf(events: seq<Event>): (r: seq<Data>)
    ensures |r| == |events|
  {
    seq(|events|, i requires 0 <= i < |events| => events[i].data)
  }

  /** The row of the operation before the change, when there was one, still waited. */
  ghost predicate Replaces(txs: seq<Tx>, i: nat, x: Tx) {
    && i <= |txs|
    && (i < |txs| ==> txs[i].state == PendingReference && txs[i].SameIdentity(x))
    && (i == |txs| ==> !HasId(txs, x.id) && (forall t :: t in txs ==> !SameIdentifier(t, x))
                       && (x.kind == Opening ==> !HasOpening(txs, x.walletId)))
  }

  /** The entry moves the wallet from where it stood; a wallet not there yet stood at zero,
      before its first version. */
  ghost predicate Moves(db: Db, x: Tx, row: WalletRow, e: Entry) {
    && e.Valid() && e.transactionId == x.id && e.walletId == x.walletId && e.amount == x.amount
    && e.after == row.balance
    && (if row.id in db.wallets
        then x.kind != Opening && e.before == db.wallets[row.id].balance && row.version == db.wallets[row.id].version + 1
        else x.kind == Opening && e.before.Units() == 0 && row.version == 1)
  }

  /** One commit: an operation, the row of its wallet, perhaps an entry, and their events. */
  ghost predicate Commits(db: Db, db': Db, i: nat, x: Tx, row: WalletRow, entry: Option<Entry>, events: seq<Event>) {
    && Replaces(db.txs, i, x)
    && db' == Db(db.wallets[row.id := row], Put(db.txs, i, x), db.ledger + Maybe(entry), db.outbox + events, db.inbox)
    && row.Valid() && row.id == x.walletId
    && (entry.Some? <==> x.state == Processed && x.kind != Loss)
    && (x.kind == Opening ==> entry.Some?)
    && (x.state == Processed ==> x.result == Some(row.balance))
    && (entry.None? ==> row.id in db.wallets && db.wallets[row.id] == row)
    && (entry.Some? ==> Moves(db, x, row, entry.value))
    && Tell(events, x, row, entry)
  }

  /** The events of a commit, all of its wallet: the outcome and the change, or the wait,
      which is told once and not again by the attempts that follow. */
  ghost predicate Tell(events: seq<Event>, x: Tx, row: WalletRow, entry: Option<Entry>) {
    && (forall k :: 0 <= k < |events| ==> events[k].aggregateId == row.id)
    && (if x.state == PendingReference
        then events == [] || DataOf(events) == [TransactionPending(SummaryOf(x), x.refExt)]
        else DataOf(events) == EventsOf(x, row, entry, Arrival))
  }

  lemma PutMembers(txs: seq<Tx>, i: nat, x: Tx)
    requires i <= |txs|
    ensures x in Put(txs, i, x)
    ensures forall t :: t in Put(txs, i, x) ==> t == x || t in txs
    ensures forall t :: t in txs ==> t in Put(txs, i, x) || (i < |txs| && t == txs[i])
  {
    var p := Put(txs, i, x);
    assert p[i] == x;
    forall t | t in txs ensures t in p || (i < |txs| && t == txs[i]) {
      var k :| 0 <= k < |txs| && txs[k] == t;
      assert k != i ==> p[k] == t;
    }
  }

  /** Identifiers are never lost. */
  lemma PutKeepsIds(txs: seq<Tx>, i: nat, x: Tx, id: ID)
    requires i <= |txs| && (i < |txs| ==> txs[i].id == x.id)
    ensures HasId(Put(txs, i, x), id) <==> HasId(txs, id) || id == x.id
  {
    PutMembers(txs, i, x);
    if HasId(txs, id) {
      var t :| t in txs && t.id == id;
      assert t in Put(txs, i, x) || t == txs[i];
      assert HasId(Put(txs, i, x), id);
    }
  }

  lemma OpeningsAfter(txs: seq<Tx>, i: nat, x: Tx, w: ID)
    requires Replaces(txs, i, x)
    ensures HasOpening(Put(txs, i, x), w) <==> HasOpening(txs, w) || (x.kind == Opening && x.walletId == w)
  {
    PutMembers(txs, i, x);
    if HasOpening(txs, w) {
      var t :| t in txs && t.kind == Opening && t.walletId == w;
      if t !in Put(txs, i, x) {
        assert x.kind == Opening && x.walletId == w;
      }
    }
  }

  lemma TxsStayOk(txs: seq<Tx>, i: nat, x: Tx, maxAttempts: int)
    requires TxsOk(txs, maxAttempts) && Replaces(txs, i, x) && RowOk(x, maxAttempts)
    ensures TxsOk(Put(txs, i, x), maxAttempts)
  {
    var p := Put(txs, i, x);
    forall a, b | 0 <= a < b < |p| ensures p[a].id != p[b].id && !SameIdentifier(p[a], p[b]) {
      if i == |txs| && b == i {
        assert p[a] in txs;
      }
    }
    forall a, b | 0 <= a < b < |p| && p[a].kind == p[b].kind == Opening ensures p[a].walletId != p[b].walletId {
      if i == |txs| && b == i {
        assert p[a] in txs;
      }
    }
  }

  lemma WalletsStay(db: Db, db': Db, i: nat, x: Tx, row: WalletRow, entry: Option<Entry>, events: seq<Event>)
    requires Commits(db, db', i, x, row, entry, events) && HasWallets(db)
    ensures HasWallets(db')
  {
    PutMembers(db.txs, i, x);
    forall e | e in db'.ledger ensures e.walletId in db'.wallets && HasId(db'.txs, e.transactionId) {
      assert e in db.ledger || e in Maybe(entry);
      PutKeepsIds(db.txs, i, x, e.transactionId);
    }
    forall e | e in db'.outbox ensures e.aggregateId in db'.wallets && HasId(db'.txs, TransactionOf(e.data)) {
      PutKeepsIds(db.txs, i, x, TransactionOf(e.data));
      if e !in db.outbox {
        var k :| 0 <= k < |events| && events[k] == e;
        assert DataOf(events)[k] == e.data;
      }
    }
  }

  lemma FilterMaybe<T>(s: seq<T>, x: Option<T>, p: T -> bool)
    ensures Filter(s + Maybe(x), p) == Filter(s, p) + (if x.Some? && p(x.value) then [x.value] else [])
  {
    if x.Some? {
      FilterAppend(s, x.value, p);
    } else {
      assert s + Maybe(x) == s;
    }
  }

  /** A wallet not there yet has no entries, no changes and no opening. */
  lemma NothingBeforeTheWallet(db: Db, w: ID)
    requires HasWallets(db) && w !in db.wallets
    ensures Filter(db.ledger, OfWallet(w)) == [] && Filter(db.outbox, ChangesOf(w)) == [] && !HasOpening(db.txs, w)
  {
    FilterNone(db.ledger, OfWallet(w));
    FilterNone(db.outbox, ChangesOf(w));
  }

  lemma EntryExtends(es: seq<Entry>, e: Entry, row: WalletRow, hadOpening: bool, before: Option<WalletRow>)
    requires e.Valid() && e.after == row.balance
    requires match before
             case Some(b) => Explains(es, b, hadOpening) && e.before == b.balance && row.version == b.version + 1
             case None => es == [] && e.before.Units() == 0 && row.version == 1 && !hadOpening
    ensures Explains(es + [e], row, hadOpening || before.None?)
  {
  }

  lemma LedgerOfWallet(db: Db, db': Db, i: nat, x: Tx, row: WalletRow, entry: Option<Entry>, events: seq<Event>, w: ID)
    requires Commits(db, db', i, x, row, entry, events) && HasWallets(db) && LedgerOk(db) && w in db'.wallets
    ensures Explains(Filter(db'.ledger, OfWallet(w)), db'.wallets[w], HasOpening(db'.txs, w))
  {
    var es := Filter(db.ledger, OfWallet(w));
    FilterMaybe(db.ledger, entry, OfWallet(w));
    OpeningsAfter(db.txs, i, x, w);
    if w == row.id && entry.Some? {
      if w in db.wallets {
        EntryExtends(es, entry.value, row, HasOpening(db.txs, w), Some(db.wallets[w]));
      } else {
        NothingBeforeTheWallet(db, w);
        EntryExtends(es, entry.value, row, false, None);
      }
    } else {
      assert es + [] == es;
    }
  }

  lemma ChangesOfWallet(db: Db, db': Db, i: nat, x: Tx, row: WalletRow, entry: Option<Entry>, events: seq<Event>, w: ID)
    requires Commits(db, db', i, x, row, entry, events) && HasWallets(db) && ChangesOk(db) && w in db'.wallets
    ensures Mirrors(Filter(db'.outbox, ChangesOf(w)), Filter(db'.ledger, OfWallet(w)), db'.wallets[w].version)
  {
    ChangesAmong(events, x, row, entry, w);
    FilterMaybe(db.ledger, entry, OfWallet(w));
    FilterConcat(db.outbox, events, ChangesOf(w));
    if w == row.id && entry.Some? {
      MirrorBefore(db, x, row, entry.value);
      MirrorExtends(Filter(db.outbox, ChangesOf(w)), Filter(db.ledger, OfWallet(w)), Filter(events, ChangesOf(w)),
                    entry.value, row.version);
    } else {
      MirrorStays(Filter(db.outbox, ChangesOf(w)), Filter(db.ledger, OfWallet(w)), db'.wallets[w].version);
    }
  }

  lemma MirrorStays(changes: seq<Event>, es: seq<Entry>, version: int)
    requires Mirrors(changes, es, version)
    ensures Mirrors(changes + [], es + [], version)
  {
    assert changes + [] == changes && es + [] == es;
  }

  /** The changes told before an entry mirror the entries up to the version before it. */
  lemma MirrorBefore(db: Db, x: Tx, row: WalletRow, e: Entry)
    requires HasWallets(db) && ChangesOk(db) && Moves(db, x, row, e)
    ensures Mirrors(Filter(db.outbox, ChangesOf(row.id)), Filter(db.ledger, OfWallet(row.id)), row.version - 1)
  {
    if row.id !in db.wallets {
      NothingBeforeTheWallet(db, row.id);
    }
  }

  lemma MirrorExtends(changes: seq<Event>, es: seq<Entry>, told: seq<Event>, e: Entry, version: int)
    requires Mirrors(changes, es, version - 1) && |told| == 1 && told[0].data == ChangeOf(e, version)
    ensures Mirrors(changes + told, es + [e], version)
  {
  }

  /** Among the events of a commit, the balance events of a wallet are those of its entry. */
  lemma ChangesAmong(events: seq<Event>, x: Tx, row: WalletRow, entry: Option<Entry>, w: ID)
    requires Tell(events, x, row, entry) && (entry.Some? ==> x.state == Processed)
    ensures var found := Filter(events, ChangesOf(w));
            if w == row.id && entry.Some?
            then |found| == 1 && found[0].data == ChangeOf(entry.value, row.version)
            else found == []
  {
    if w == row.id && entry.Some? {
      assert DataOf(events)[0] == events[0].data && DataOf(events)[1] == events[1].data;
      assert events == [events[0]] + [events[1]];
      FilterAppend([events[0]], events[1], ChangesOf(w));
      FilterNone([events[0]], ChangesOf(w));
    } else {
      forall e | e in events ensures !ChangesOf(w)(e) {
        var k :| 0 <= k < |events| && events[k] == e;
        assert DataOf(events)[k] == e.data;
      }
      FilterNone(events, ChangesOf(w));
    }
  }

  /** Among the events of a commit, the outcome of an operation is told once, if terminal. */
  lemma OutcomesAmong(events: seq<Event>, x: Tx, row: WalletRow, entry: Option<Entry>, id: ID)
    requires Tell(events, x, row, entry) && (entry.Some? ==> x.state == Processed) && row.id == x.walletId
    requires x.state == Processed ==> x.result == Some(row.balance)
    requires x.state == Processed || x.state == Rejected || x.state == PendingReference
    ensures var found := Filter(events, OutcomesOf(id));
            if id == x.id && x.state.IsTerminal() then |found| == 1 && TellsOutcome(found[0], x) else found == []
  {
    assert forall k :: 0 <= k < |events| ==> events[k].data == DataOf(events)[k];
    if id == x.id && x.state.IsTerminal() {
      assert IsOutcome(events[0].data) && (|events| == 2 ==> IsChange(events[1]));
      OneOfTwo(events, OutcomesOf(id));
    } else {
      NoneAt(events, OutcomesOf(id));
    }
  }

  lemma WalletTablesStayOk(
      db: Db, db': Db, i: nat, x: Tx, row: WalletRow, entry: Option<Entry>, events: seq<Event>)
    requires Commits(db, db', i, x, row, entry, events) && HasWallets(db) && LedgerOk(db) && ChangesOk(db)
    ensures LedgerOk(db') && ChangesOk(db')
  {
    forall w | w in db'.wallets
      ensures Explains(Filter(db'.ledger, OfWallet(w)), db'.wallets[w], HasOpening(db'.txs, w))
      ensures Mirrors(Filter(db'.outbox, ChangesOf(w)), Filter(db'.ledger, OfWallet(w)), db'.wallets[w].version)
    {
      LedgerOfWallet(db, db', i, x, row, entry, events, w);
      ChangesOfWallet(db, db', i, x, row, entry, events, w);
    }
  }

  lemma OtherTxStaysAccounted(db: Db, db': Db, i: nat, x: Tx, row: WalletRow, entry: Option<Entry>,
                              events: seq<Event>, t: Tx)
    requires Commits(db, db', i, x, row, entry, events)
    requires EntriesAccounted(db, t) && OutcomeAccounted(db, t) && t.id != x.id
    requires x.state == Processed || x.state == Rejected || x.state == PendingReference
    ensures EntriesAccounted(db', t) && OutcomeAccounted(db', t)
  {
    FilterMaybe(db.ledger, entry, OfTransaction(t.id));
    FilterConcat(db.outbox, events, OutcomesOf(t.id));
    OutcomesAmong(events, x, row, entry, t.id);
    assert Filter(db'.ledger, OfTransaction(t.id)) == Filter(db.ledger, OfTransaction(t.id));
    assert Filter(db'.outbox, OutcomesOf(t.id)) == Filter(db.outbox, OutcomesOf(t.id));
  }

  /** The operation being settled had no entry and no outcome yet. */
  lemma NothingBeforeTheOutcome(db: Db, i: nat, x: Tx)
    requires Replaces(db.txs, i, x) && HasWallets(db) && TxsAccounted(db)
    ensures Filter(db.ledger, OfTransaction(x.id)) == [] && Filter(db.outbox, OutcomesOf(x.id)) == []
  {
    if i == |db.txs| {
      FilterNone(db.ledger, OfTransaction(x.id));
      FilterNone(db.outbox, OutcomesOf(x.id));
    } else {
      assert db.txs[i] in db.txs;
    }
  }

  lemma ThisTxIsAccounted(db: Db, db': Db, i: nat, x: Tx, row: WalletRow, entry: Option<Entry>, events: seq<Event>)
    requires Commits(db, db', i, x, row, entry, events) && HasWallets(db) && TxsAccounted(db)
    requires x.state == Processed || x.state == Rejected || x.state == PendingReference
    ensures EntriesAccounted(db', x) && OutcomeAccounted(db', x)
  {
    NothingBeforeTheOutcome(db, i, x);
    FilterMaybe(db.ledger, entry, OfTransaction(x.id));
    FilterConcat(db.outbox, events, OutcomesOf(x.id));
    OutcomesAmong(events, x, row, entry, x.id);
  }

  lemma OtherRow(txs: seq<Tx>, i: nat, x: Tx, k: nat)
    requires Replaces(txs, i, x) && k < |Put(txs, i, x)| && k != i
    requires forall a, b :: 0 <= a < b < |txs| ==> txs[a].id != txs[b].id
    ensures Put(txs, i, x)[k] in txs && Put(txs, i, x)[k].id != x.id
  {
    assert txs[k] in txs;
    if k < i < |txs| { assert txs[k].id != txs[i].id; }
  }

  lemma TxsStayAccounted(db: Db, db': Db, i: nat, x: Tx, row: WalletRow, entry: Option<Entry>, events: seq<Event>,
                         maxAttempts: int)
    requires Commits(db, db', i, x, row, entry, events) && HasWallets(db) && TxsAccounted(db)
    requires TxsOk(db.txs, maxAttempts) && RowOk(x, maxAttempts)
    ensures TxsAccounted(db')
  {
    ThisTxIsAccounted(db, db', i, x, row, entry, events);
    TxsStayOk(db.txs, i, x, maxAttempts);
    forall t | t in db'.txs ensures EntriesAccounted(db', t) && OutcomeAccounted(db', t) {
      var k :| 0 <= k < |db'.txs| && db'.txs[k] == t;
      if k != i {
        OtherRow(db.txs, i, x, k);
        OtherTxStaysAccounted(db, db', i, x, row, entry, events, t);
      }
    }
  }

  /** Every commit keeps the accounts. */
  lemma CommitKeepsAccounts(db: Db, db': Db, i: nat, x: Tx, row: WalletRow, entry: Option<Entry>,
                            events: seq<Event>, maxAttempts: int)
    requires Accounted(db, maxAttempts) && RowOk(x, maxAttempts)
    requires Commits(db, db', i, x, row, entry, events)
    ensures Accounted(db', maxAttempts)
  {
    assert WalletsOk(db');
    assert TxsOk(db'.txs, maxAttempts) by { TxsStayOk(db.txs, i, x, maxAttempts); }
    assert HasWallets(db') by { WalletsStay(db, db', i, x, row, entry, events); }
    assert LedgerOk(db') && ChangesOk(db') by { WalletTablesStayOk(db, db', i, x, row, entry, events); }
    assert TxsAccounted(db') by { TxsStayAccounted(db, db', i, x, row, entry, events, maxAttempts); }
    assert InboxOk(db') by { InboxStaysOk(db, db', i, x); }
  }

  lemma InboxStaysOk(db: Db, db': Db, i: nat, x: Tx)
    requires InboxOk(db) && Replaces(db.txs, i, x) && db'.txs == Put(db.txs, i, x) && db'.inbox == db.inbox
    ensures InboxOk(db')
  {
    PutMembers(db.txs, i, x);
    forall m | m in db'.inbox
      ensures exists t :: t in db'.txs && t.id == db'.inbox[m].transactionId && t.hash == Some(db'.inbox[m].hash)
    {
      var t :| t in db.txs && t.id == db.inbox[m].transactionId && t.hash == Some(db.inbox[m].hash);
      assert t in db'.txs || (x in db'.txs && x.id == t.id && x.hash == t.hash);
    }
  }
}
