/** The integration events, each a snapshot stored in the outbox by the commit it tells of. */
module Events {
  import opened Domain
  import opened Money
  import opened Wager
  import opened Ledger

  /** What every event of an operation tells about it. */
  datatype Summary = Summary(
    transactionId: ID, kind: Kind, walletId: ID, playerId: ID, money: Money, provider: string, ext: string,
    roundId: string, gameId: string)

  datatype Data =
    | TransactionProcessed(operation: Summary, balance: Money)
    | TransactionRejected(operation: Summary, code: FailureCode)
    | TransactionPending(operation: Summary, refExt: string)
    | BalanceChanged(walletId: ID, transactionId: ID, direction: Direction, money: Money, before: Money,
                     after: Money, walletVersion: int)

  /** A row of the outbox. The aggregate is always the wallet. */
  datatype Event = Event(id: ID, sequence: nat, aggregateId: ID, occurredAt: Time, data: Data)

  function SummaryOf(t: Tx): Summary {
    Summary(t.id, t.kind, t.walletId, t.playerId, t.amount, t.provider, t.ext, t.roundId, t.gameId)
  }

  function NewTransactionProcessed(t: Tx, at: Time): Result<Data> {
    var _ :- RequireTime(at);
    var _ :- Require(t.state == Processed, Validation(InvalidStateTransition));
    var _ :- Require(t.result.Some?, Validation(InvalidInput));
    Ok(TransactionProcessed(SummaryOf(t), t.result.value))
  }

  function NewTransactionRejected(t: Tx, at: Time): Result<Data> {
    var _ :- RequireTime(at);
    var _ :- Require(t.state == Rejected, Validation(InvalidStateTransition));
    var _ :- Require(t.code != NoFailure, Validation(InvalidInput));
    Ok(TransactionRejected(SummaryOf(t), t.code))
  }

  function NewTransactionPending(t: Tx, at: Time): Result<Data> {
    var _ :- RequireTime(at);
    var _ :- Require(t.state == PendingReference, Validation(InvalidStateTransition));
    Ok(TransactionPending(SummaryOf(t), t.refExt))
  }

  /** The change an entry records, at the version it left the wallet in. */
  function ChangeOf(e: Entry, version: int): Data {
    BalanceChanged(e.walletId, e.transactionId, e.direction, e.amount, e.before, e.after, version)
  }

  function NewBalanceChanged(w: WalletRow, e: Entry, at: Time): Result<Data> {
    var _ :- RequireTime(at);
    var _ :- Require(e.walletId == w.id, Validation(InvalidInput));
    Ok(ChangeOf(e, w.version))
  }

  /** The events of a concluded transaction: one for its state, and one for the balance
      when the entry shows it moved. */
  function NewEvents(t: Tx, w: WalletRow, entry: Option<Entry>, at: Time): Result<seq<Data>> {
    var outcome :- match t.state
                   case PendingReference => NewTransactionPending(t, at)
                   case Rejected => NewTransactionRejected(t, at)
                   case _ => NewTransactionProcessed(t, at);
    if entry.None? then Ok([outcome]) else
      var changed :- NewBalanceChanged(w, entry.value, at);
      Ok([outcome, changed])
  }

  // ------------------------------------------------------------------ outbox

  function EventsOfWallet(w: ID): Event -> bool {
    (e: Event) => e.aggregateId == w
  }

  /** Each wallet's events were committed in the order of their sequence numbers. */
  ghost predicate Ordered(outbox: seq<Event>) {
    forall i, j :: 0 <= i < j < |outbox| && outbox[i].aggregateId == outbox[j].aggregateId ==>
      outbox[i].sequence < outbox[j].sequence
  }

  ghost predicate DistinctEvents(outbox: seq<Event>) {
    forall i, j :: 0 <= i < j < |outbox| ==> outbox[i].id != outbox[j].id
  }
}
