/** The use cases, run alone: what each answers and does to the tables when no other session
    interferes. */
module UseCases {
  import opened Domain
  import opened Money
  import opened Wager
  import opened Ledger
  import opened Events
  import opened Database
  import opened Settlement
  import opened Books

  datatype WagerResult = WagerResult(
    transactionId: ID, state: Option<State>, code: FailureCode, balance: Option<Money>, replay: bool)

  /** The identifiers of two events and the numbers drawn for them. */
  datatype Marks = Marks(firstId: ID, firstSequence: nat, secondId: ID, secondSequence: nat)

  function ResultOf(t: Tx, replay: bool): WagerResult {
    WagerResult(t.id, Some(t.state), t.code, t.result, replay)
  }

  function Stamp(data: seq<Data>, w: ID, at: Time, marks: Marks): (events: seq<Event>)
    ensures |events| == |data|
  {
    seq(|data|, k requires 0 <= k < |data| =>
      Event(if k == 0 then marks.firstId else marks.secondId,
            if k == 0 then marks.firstSequence else marks.secondSequence, w, at, data[k]))
  }

  function Located(db: Db, walletId: ID): Result<WalletRow> {
    if walletId in db.wallets then Ok(db.wallets[walletId]) else Err(NotFound(WalletNotFound))
  }

  /** The operation already recorded under the key, or none when the operation is new. */
  function Replayed(txs: seq<Tx>, t: Tx): Result<Option<Tx>> {
    var previous := FindByKey(txs, t.provider, t.key);
    var _ :- Require(previous.Some? ==> previous.value.hash == t.hash, Conflict(IdempotencyConflict));
    if previous.Some? then Ok(previous)
    else
      var _ :- Require(FindByExt(txs, t.provider, t.ext).None?, Conflict(IdempotencyConflict));
      Ok(None)
  }

  function LookedUp(txs: seq<Tx>, t: Tx): Option<Tx> {
    if t.refExt == "" then None else FindByExt(txs, t.provider, t.refExt)
  }

  /** An operation new to the tables, settled and recorded. */
  function Arrived(db: Db, w: WalletRow, t: Tx, entryId: ID, marks: Marks): Result<(Db, Tx)> {
    var seen := LookedUp(db.txs, t);
    var d :- Decide(w, t, seen, Reversed(db.txs, seen), Arrival, entryId, t.createdAt);
    var db' :- Recorded(db, Arrival, w.version, d, Stamp(d.events, t.walletId, t.createdAt, marks));
    Ok((db', d.tx))
  }

  /** An operation received: replayed, or settled and recorded. */
  function Settled(db: Db, t: Tx, entryId: ID, marks: Marks): Result<(Db, WagerResult)> {
    var w :- Located(db, t.walletId);
    var previous :- Replayed(db.txs, t);
    if previous.Some? then Ok((db, ResultOf(previous.value, true)))
    else
      var done :- Arrived(db, w, t, entryId, marks);
      Ok((done.0, ResultOf(done.1, false)))
  }

  function Processed(db: Db, input: Input, id: ID, entryId: ID, marks: Marks, at: Time): Result<(Db, WagerResult)> {
    var _ :- Require(input.correlationId != "", Validation(InvalidInput));
    var hash :- PayloadHash(input);
    var t :- NewExternal(id, input, hash, at);
    Settled(db, t, entryId, marks)
  }

  /** Another attempt on an operation that waits. */
  function TriedAgain(db: Db, w: WalletRow, t: Tx, entryId: ID, marks: Marks, maxAttempts: int, at: Time)
    : Result<(Db, Tx)>
  {
    var seen := LookedUp(db.txs, t);
    var d :- Decide(w, t, seen, Reversed(db.txs, seen), Again(maxAttempts), entryId, at);
    var db' :- Recorded(db, Again(maxAttempts), w.version, d, Stamp(d.events, t.walletId, at, marks));
    Ok((db', d.tx))
  }

  /** A retry: an operation that no longer waits is left untouched. */
  function Retried(db: Db, id: ID, walletId: ID, entryId: ID, marks: Marks, maxAttempts: int, at: Time)
    : Result<(Db, Option<State>)>
  {
    var w :- Located(db, walletId);
    var found := FindById(db.txs, id);
    if found.None? then Ok((db, None))
    else if found.value.state != PendingReference then Ok((db, Some(found.value.state)))
    else
      var done :- TriedAgain(db, w, found.value, entryId, marks, maxAttempts, at);
      Ok((done.0, Some(done.1.state)))
  }

  /** A message: found in the inbox, or processed and recorded in it by the same commit. */
  function Received(db: Db, messageId: string, input: Input, id: ID, entryId: ID, marks: Marks, at: Time)
    : Result<(Db, WagerResult, bool)>
  {
    var _ :- Require(messageId != "", Validation(InvalidInput));
    var hash :- PayloadHash(input);
    if messageId in db.inbox then
      var row := db.inbox[messageId];
      var _ :- Require(row.hash == hash, Conflict(IdempotencyConflict));
      Ok((db, WagerResult(row.transactionId, None, NoFailure, None, true), true))
    else
      var applied :- Processed(db, input, id, entryId, marks, at);
      var db' :- InboxRecorded(applied.0, messageId, InboxRow(hash, applied.1.transactionId));
      Ok((db', applied.1, false))
  }

  /** A message of an operation already read from it. */
  function Delivered(db: Db, messageId: string, t: Tx, entryId: ID, marks: Marks): Result<(Db, WagerResult, bool)> {
    if messageId in db.inbox then
      var row := db.inbox[messageId];
      var _ :- Require(row.hash == t.Fields(), Conflict(IdempotencyConflict));
      Ok((db, WagerResult(row.transactionId, None, NoFailure, None, true), true))
    else
      var applied :- Settled(db, t, entryId, marks);
      var db' :- InboxRecorded(applied.0, messageId, InboxRow(t.Fields(), applied.1.transactionId));
      Ok((db', applied.1, false))
  }

  /** The wallet stored, and credited when its balance is positive. */
  function Credited(db: Db, w: WalletRow, openingId: ID, entryId: ID, marks: Marks): Result<Db> {
    var created :- WalletInserted(db, w);
    var plan :- DecideOpening(w, openingId, entryId);
    OpeningRecorded(db, w, plan, if plan.Some? then Stamp(plan.value.events, w.id, w.createdAt, marks) else [])
  }

  function Opened(db: Db, id: ID, playerId: ID, initial: Money, correlationId: string, openingId: ID, entryId: ID,
                  marks: Marks, at: Time): Result<(Db, WalletRow)>
  {
    var _ :- Require(correlationId != "", Validation(InvalidInput));
    var w :- Open(id, playerId, initial, at);
    var db' :- Credited(db, w, openingId, entryId, marks);
    Ok((db', w))
  }
}
