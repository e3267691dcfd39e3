/** The tables and the effect of each SQL statement on them, constraints included. */
module Database {
  import opened Domain
  import opened Wager
  import opened Ledger
  import opened Events

  datatype InboxRow = InboxRow(hash: Payload, transactionId: ID)

  /** The committed tables. Those whose order matters list their rows in commit order. */
  datatype Db = Db(
    wallets: map<ID, WalletRow>, txs: seq<Tx>, ledger: seq<Entry>, outbox: seq<Event>, inbox: map<string, InboxRow>)

  const EMPTY: Db := Db(map[], [], [], [], map[])

  // ----------------------------------------------------------------- queries

  function First(txs: seq<Tx>, p: Tx -> bool): (i: nat)
    ensures i <= |txs|
    ensures i < |txs| ==> p(txs[i])
    ensures forall j :: 0 <= j < i ==> !p(txs[j])
  {
    FirstFrom(txs, p, 0)
  }

  function FirstFrom(txs: seq<Tx>, p: Tx -> bool, from: nat): (i: nat)
    requires from <= |txs|
    ensures from <= i <= |txs|
    ensures i < |txs| ==> p(txs[i])
    ensures forall j :: from <= j < i ==> !p(txs[j])
    decreases |txs| - from
  {
    if from == |txs| || p(txs[from]) then from else FirstFrom(txs, p, from + 1)
  }

  function Find(txs: seq<Tx>, p: Tx -> bool): (r: Option<Tx>)
    ensures r.Some? ==> r.value in txs && p(r.value)
    ensures r.None? ==> forall t :: t in txs ==> !p(t)
  {
    var i := First(txs, p);
    if i < |txs| then Some(txs[i]) else None
  }

  function ById(id: ID): Tx -> bool {
    (t: Tx) => t.id == id
  }

  /** The opening has no provider columns, so no lookup by them finds it. */
  function ByKey(provider: string, key: string): Tx -> bool {
    (t: Tx) => t.kind.IsExternal() && t.provider == provider && t.key == key
  }

  function ByExt(provider: string, ext: string): Tx -> bool {
    (t: Tx) => t.kind.IsExternal() && t.provider == provider && t.ext == ext
  }

  predicate IsProcessedReversal(t: Tx) {
    t.kind.IsReversal() && t.state == Processed
  }

  function ReversalOf(id: ID): Tx -> bool {
    (t: Tx) => IsProcessedReversal(t) && t.refId == id
  }

  function FindById(txs: seq<Tx>, id: ID): Option<Tx> {
    Find(txs, ById(id))
  }

  function FindByKey(txs: seq<Tx>, provider: string, key: string): Option<Tx> {
    Find(txs, ByKey(provider, key))
  }

  function FindByExt(txs: seq<Tx>, provider: string, ext: string): Option<Tx> {
    Find(txs, ByExt(provider, ext))
  }

  function HasProcessedReversal(txs: seq<Tx>, id: ID): bool {
    Find(txs, ReversalOf(id)).Some?
  }

  // -------------------------------------------------------------- statements

  function WalletInserted(db: Db, w: WalletRow): Result<Db> {
    var _ :- Require(w.id !in db.wallets, Violation);
    var _ :- Require(forall id :: id in db.wallets ==>
                       !(db.wallets[id].playerId == w.playerId
                         && db.wallets[id].balance.currency == w.balance.currency),
                     Conflict(WalletAlreadyExists));
    Ok(db.(wallets := db.wallets[w.id := w]))
  }

  /** The row is written only over the version it was loaded at. */
  function BalanceUpdated(db: Db, w: WalletRow, expectedVersion: int): Result<Db> {
    if w.id in db.wallets && db.wallets[w.id].version == expectedVersion then
      var row := db.wallets[w.id].(balance := w.balance, version := w.version, updatedAt := w.updatedAt);
      Ok(db.(wallets := db.wallets[w.id := row]))
    else Err(ConcurrentUpdate)
  }

  function OpeningOf(walletId: ID): Tx -> bool {
    (t: Tx) => t.kind == Opening && t.walletId == walletId
  }

  function TransactionInserted(db: Db, t: Tx): Result<Db> {
    var _ :- Require(FindById(db.txs, t.id).None?, Violation);
    var _ :- Require(t.kind == Opening ==> Find(db.txs, OpeningOf(t.walletId)).None?, Violation);
    var _ :- Require(t.kind.IsExternal() ==> FindByExt(db.txs, t.provider, t.ext).None?,
                     Conflict(IdempotencyConflict));
    var _ :- Require(t.kind.IsExternal() ==> FindByKey(db.txs, t.provider, t.key).None?,
                     Conflict(IdempotencyConflict));
    var _ :- Require(IsProcessedReversal(t) ==> !HasProcessedReversal(db.txs, t.refId),
                     Conflict(ReferenceAlreadyReversed));
    Ok(db.(txs := db.txs + [t]))
  }

  /** Stores another attempt, only while the operation still waits. */
  function PendingUpdated(db: Db, t: Tx): Result<Db> {
    var i := First(db.txs, ById(t.id));
    var _ :- Require(i < |db.txs| && db.txs[i].state == PendingReference, ConcurrentUpdate);
    var _ :- Require(IsProcessedReversal(t) ==> !HasProcessedReversal(db.txs, t.refId),
                     Conflict(ReferenceAlreadyReversed));
    var row := db.txs[i].(state := t.state, code := t.code, refId := t.refId, result := t.result,
                          attempts := t.attempts, updatedAt := t.updatedAt);
    Ok(db.(txs := db.txs[i := row]))
  }

  function EntryAppended(db: Db, e: Entry): Result<Db> {
    var _ :- Require(forall x :: x in db.ledger ==>
                       x.id != e.id && !(x.walletId == e.walletId && x.transactionId == e.transactionId),
                     Violation);
    Ok(db.(ledger := db.ledger + [e]))
  }

  function EventAppended(db: Db, e: Event): Result<Db> {
    var _ :- Require(forall x :: x in db.outbox ==> x.id != e.id && x.sequence != e.sequence, Violation);
    Ok(db.(outbox := db.outbox + [e]))
  }

  function EventsAppended(db: Db, events: seq<Event>): Result<Db>
    decreases |events|
  {
    if events == [] then Ok(db) else
      var next :- EventAppended(db, events[0]);
      EventsAppended(next, events[1..])
  }

  function InboxRecorded(db: Db, messageId: string, row: InboxRow): Result<Db> {
    var _ :- Require(messageId !in db.inbox, Conflict(IdempotencyConflict));
    Ok(db.(inbox := db.inbox[messageId := row]))
  }

  lemma {:induction false} EventsAppendedAppends(db: Db, events: seq<Event>)
    requires EventsAppended(db, events).Ok?
    ensures EventsAppended(db, events).value == db.(outbox := db.outbox + events)
    ensures forall e, x :: e in events && x in db.outbox ==> x.id != e.id && x.sequence != e.sequence
    ensures forall i, j :: 0 <= i < j < |events| ==> events[i].id != events[j].id && events[i].sequence != events[j].sequence
    decreases |events|
  {
    if events == [] {
      assert db.outbox + events == db.outbox;
    } else {
      var next := EventAppended(db, events[0]).value;
      EventsAppendedAppends(next, events[1..]);
      assert next.outbox + events[1..] == db.outbox + events;
      assert events[0] in next.outbox;
      forall e, x | e in events && x in db.outbox ensures x.id != e.id && x.sequence != e.sequence {
        assert x in next.outbox;
        assert e == events[0] || e in events[1..];
      }
      forall i, j | 0 <= i < j < |events|
        ensures events[i].id != events[j].id && events[i].sequence != events[j].sequence
      {
        assert events[j] in events[1..];
        if i > 0 {
          assert events[i] == events[1..][i - 1] && events[j] == events[1..][j - 1];
        }
      }
    }
  }
}
