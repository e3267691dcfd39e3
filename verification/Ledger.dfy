/** The append-only ledger and the wallet whose balance it explains. */
module Ledger {
  import opened Domain
  import opened Money
  import opened Wager

  datatype Direction = Debit | Credit {
    function Apply(balance: Money, amount: Money): Result<Money> {
      if this == Credit then balance.Add(amount) else balance.Sub(amount)
    }
  }

  datatype Entry = Entry(
    id: ID, walletId: ID, transactionId: ID, direction: Direction, amount: Money, before: Money, after: Money,
    createdAt: Time)
  {
    function SignedMoney(): Result<Money> {
      if direction == Credit then Ok(amount) else amount.Neg()
    }

    /** The signed amount as the reconciliation query sums it. */
    function Signed(): int {
      if direction == Credit then amount.Units() else -amount.Units()
    }

    ghost predicate Valid() {
      && id != NIL_ID && amount.IsPositive() && !before.IsNegative() && !after.IsNegative()
      && after.Units() == before.Units() + Signed()
      && amount.SameCurrency(before) && amount.SameCurrency(after)
    }
  }

  /** An entry is accepted exactly when its arithmetic holds. */
  function NewEntry(id: ID, walletId: ID, transactionId: ID, direction: Direction, amount: Money, before: Money,
                    after: Money, createdAt: Time): (r: Result<Entry>)
    ensures r.Ok? ==> r.value == Entry(id, walletId, transactionId, direction, amount, before, after, createdAt)
    ensures r.Ok? <==> walletId != NIL_ID && transactionId != NIL_ID && createdAt != ZERO_TIME
                       && Entry(id, walletId, transactionId, direction, amount, before, after, createdAt).Valid()
  {
    var _ :- RequireID(id);
    var _ :- RequireID(walletId);
    var _ :- RequireID(transactionId);
    var _ :- RequireTime(createdAt);
    var _ :- amount.Validate();
    var _ :- Require(amount.IsPositive(), Validation(InvalidAmount));
    var _ :- amount.Cmp(before);
    var _ :- amount.Cmp(after);
    var _ :- Require(!before.IsNegative() && !after.IsNegative(), Validation(InvalidAmount));
    var expected :- direction.Apply(before, amount);
    var _ :- Require(expected == after, Validation(InvalidAmount));
    Ok(Entry(id, walletId, transactionId, direction, amount, before, after, createdAt))
  }

  /** The signed amount of a sound entry always exists, and is what reconciliation sums. */
  lemma SignedMoneyIsSummed(e: Entry)
    requires e.Valid()
    ensures e.SignedMoney().Ok? && e.SignedMoney().value.Units() == e.Signed()
            && e.SignedMoney().value.currency == e.amount.currency
  {
  }

  // ------------------------------------------------------------------ wallet

  datatype WalletRow = WalletRow(
    id: ID, playerId: ID, balance: Money, version: int, createdAt: Time, updatedAt: Time)
  {
    ghost predicate Valid() {
      id != NIL_ID && playerId != NIL_ID && !balance.currency.IsZero() && !balance.IsNegative() && version >= 1
    }
  }

  function Rehydrate(row: WalletRow): (r: Result<WalletRow>)
    ensures r.Ok? ==> r.value == row
    ensures r.Ok? <==> row.Valid() && row.createdAt != ZERO_TIME && row.updatedAt != ZERO_TIME
  {
    var _ :- RequireID(row.id);
    var _ :- RequireID(row.playerId);
    var _ :- row.balance.Validate();
    var _ :- Require(!row.balance.IsNegative(), Validation(InvalidAmount));
    var _ :- Require(row.version >= 1, Validation(InvalidInput));
    var _ :- RequireTime(row.createdAt);
    var _ :- RequireTime(row.updatedAt);
    Ok(row)
  }

  function Open(id: ID, playerId: ID, initial: Money, openedAt: Time): Result<WalletRow> {
    Rehydrate(WalletRow(id, playerId, initial, 1, openedAt, openedAt))
  }

  function OpeningLedgerEntry(w: WalletRow, entryId: ID, transactionId: ID, at: Time): Result<Entry> {
    var _ :- RequireID(transactionId);
    var _ :- Require(w.balance.IsPositive(), Validation(InvalidAmount));
    var zero :- Zero(w.balance.currency);
    NewEntry(entryId, w.id, transactionId, Credit, w.balance, zero, w.balance, at)
  }

  /** A movement: the wallet after it and the entry that records it. */
  function Moved(w: WalletRow, amount: Money, transactionId: ID, direction: Direction, entryId: ID, at: Time)
    : Result<(WalletRow, Entry)>
  {
    var _ :- RequireID(transactionId);
    var _ :- amount.Validate();
    var _ :- Require(amount.IsPositive(), Validation(InvalidAmount));
    var _ :- Require(amount.currency == w.balance.currency, Validation(CurrencyMismatch));
    var after :- direction.Apply(w.balance, amount);
    var _ :- Require(!after.IsNegative(), Rejection(InsufficientFunds, true));
    var entry :- NewEntry(entryId, w.id, transactionId, direction, amount, w.balance, after, at);
    Ok((w.(balance := after, version := w.version + 1, updatedAt := at), entry))
  }

  datatype Effect = Effect(wallet: WalletRow, entry: Option<Entry>)

  /** The direction an operation moves its wallet in, or None when it moves nothing. */
  function DirectionOf(kind: Kind, reference: Option<Tx>): Option<Direction> {
    if kind == Loss then None
    else if kind == Bet then Some(Debit)
    else if kind == Rollback && reference.Some? && reference.value.kind != Bet then Some(Debit)
    else Some(Credit)
  }

  /** What an operation does to its wallet. */
  function Applied(w: WalletRow, t: Tx, reference: Option<Tx>, entryId: ID, at: Time): Result<Effect> {
    var _ :- Require(t.walletId == w.id, Validation(InvalidInput));
    var _ :- Require(t.kind.IsReversal() ==>
                       t.refId != NIL_ID && reference.Some? && reference.value.id == t.refId,
                     Validation(InvalidInput));
    var _ :- Require(t.playerId == w.playerId, Rejection(WalletPlayerMismatch, false));
    var _ :- Require(t.amount.currency == w.balance.currency, Rejection(CurrencyMismatch, false));
    if t.kind == Loss then Ok(Effect(w, None))
    else
      var direction := DirectionOf(t.kind, reference).value;
      match Moved(w, t.amount, t.id, direction, entryId, at)
      case Ok(moved) => Ok(Effect(moved.0, Some(moved.1)))
      case Err(e) =>
        if t.kind == Rollback && direction == Debit && e.Rejection? && e.shortfall
        then Err(Rejection(InsufficientFundsForReversal, true))
        else Err(e)
  }

  /** A wallet moves only for its own operations, and for a reversal only with the reference it
      resolved. */
  lemma AppliedRefuses(w: WalletRow, t: Tx, reference: Option<Tx>, entryId: ID, at: Time)
    requires t.walletId != w.id
             || ((t.kind == Refund || t.kind == Rollback)
                 && (t.refId == NIL_ID || reference == None || reference.value.id != t.refId))
    ensures Applied(w, t, reference, entryId, at) == Err(Validation(InvalidInput))
  {
  }

  /** The exact outcome of a movement on a wallet in order: it fails by a shortfall exactly
      when a debit exceeds the balance, by overflow exactly when a credit leaves the range,
      and otherwise moves the balance by the signed amount and the version by one. */
  lemma MovedExactly(w: WalletRow, amount: Money, transactionId: ID, direction: Direction, entryId: ID, at: Time)
    requires w.Valid() && amount.IsPositive() && amount.currency == w.balance.currency
    requires transactionId != NIL_ID && entryId != NIL_ID && at != ZERO_TIME
    ensures var r := Moved(w, amount, transactionId, direction, entryId, at);
            var total := w.balance.Units() + (if direction == Credit then amount.Units() else -amount.Units());
            && (r == Err(Rejection(InsufficientFunds, true)) <==> total < 0)
            && (r == Err(Validation(AmountOverflow)) <==> total > MAX_INT64)
            && (r.Ok? <==> 0 <= total <= MAX_INT64)
            && (r.Ok? ==> r.value.0.balance.Units() == total && r.value.0.version == w.version + 1
                          && r.value.1.Valid() && r.value.1.before == w.balance
                          && r.value.1.after == r.value.0.balance)
  {
  }

  /** The root of the financial aggregate. */
  class Wallet {
    const id: ID
    const playerId: ID
    const createdAt: Time
    var balance: Money
    var version: int
    var updatedAt: Time

    function Row(): WalletRow
      reads this
    {
      WalletRow(id, playerId, balance, version, createdAt, updatedAt)
    }

    constructor (row: WalletRow)
      ensures Row() == row
    {
      id, playerId, createdAt := row.id, row.playerId, row.createdAt;
      balance, version, updatedAt := row.balance, row.version, row.updatedAt;
    }

    method Credit(amount: Money, transactionId: ID, entryId: ID, at: Time) returns (r: Result<Entry>)
      modifies this
      ensures Outcome(old(Row()), Moved(old(Row()), amount, transactionId, Direction.Credit, entryId, at), r)
    {
      r := Move(amount, transactionId, Direction.Credit, entryId, at);
    }

    method Debit(amount: Money, transactionId: ID, entryId: ID, at: Time) returns (r: Result<Entry>)
      modifies this
      ensures Outcome(old(Row()), Moved(old(Row()), amount, transactionId, Direction.Debit, entryId, at), r)
    {
      r := Move(amount, transactionId, Direction.Debit, entryId, at);
    }

    /** The wallet moved as `expected` says, or stayed as it was with its error. */
    predicate Outcome(before: WalletRow, expected: Result<(WalletRow, Entry)>, r: Result<Entry>)
      reads this
    {
      match expected
      case Ok(moved) => r == Ok(moved.1) && Row() == moved.0
      case Err(e) => r == Err(e) && Row() == before
    }

    method Move(amount: Money, transactionId: ID, direction: Direction, entryId: ID, at: Time)
      returns (r: Result<Entry>)
      modifies this
      ensures Outcome(old(Row()), Moved(old(Row()), amount, transactionId, direction, entryId, at), r)
    {
      if transactionId == NIL_ID || amount.currency.IsZero() {
        return Err(Validation(InvalidInput));
      }
      if !amount.IsPositive() {
        return Err(Validation(InvalidAmount));
      }
      if amount.currency != balance.currency {
        return Err(Validation(CurrencyMismatch));
      }
      var balanceBefore := balance;
      var balanceAfter := direction.Apply(balanceBefore, amount);
      if balanceAfter.Err? {
        return Err(balanceAfter.error);
      }
      if balanceAfter.value.IsNegative() {
        return Err(Rejection(InsufficientFunds, true));
      }
      r := NewEntry(entryId, id, transactionId, direction, amount, balanceBefore, balanceAfter.value, at);
      if r.Ok? {
        balance := balanceAfter.value;
        version := version + 1;
        updatedAt := at;
      }
    }

    method Apply(operation: Transaction, reference: Option<Tx>, entryId: ID, at: Time)
      returns (r: Result<Option<Entry>>)
      modifies this
      ensures match Applied(old(Row()), operation.Record(), reference, entryId, at)
              case Ok(effect) => r == Ok(effect.entry) && Row() == effect.wallet
              case Err(e) => r == Err(e) && Row() == old(Row())
    {
      var t := operation.built;
      if t.walletId != id {
        return Err(Validation(InvalidInput));
      }
      if t.kind.IsReversal() {
        if operation.refId == NIL_ID || reference.None? || reference.value.id != operation.refId {
          return Err(Validation(InvalidInput));
        }
      }
      if t.playerId != playerId {
        return Err(Rejection(WalletPlayerMismatch, false));
      }
      if t.amount.currency != balance.currency {
        return Err(Rejection(CurrencyMismatch, false));
      }

      if t.kind == Loss {
        return Ok(None);
      }
      var moved: Result<Entry>;
      if t.kind == Bet {
        moved := Debit(t.amount, t.id, entryId, at);
      } else if t.kind == Rollback && reference.value.kind != Bet {
        moved := Debit(t.amount, t.id, entryId, at);
        if moved.Err? && moved.error.Rejection? && moved.error.shortfall {
          return Err(Rejection(InsufficientFundsForReversal, true));
        }
      } else {
        moved := Credit(t.amount, t.id, entryId, at);
      }
      if moved.Err? {
        return Err(moved.error);
      }
      return Ok(Some(moved.value));
    }
  }
}
