/** The rules of settlement in one table: what becomes of an operation, column by column, given
    the rows it was decided on. Every decision is proved to follow it. */
module Rules {
  import opened Domain
  import opened Money
  import opened Wager
  import opened Ledger
  import opened Events
  import opened Settlement

  /** What the business rules say of an operation, in the order in which they are checked. */
  datatype Verdict = Accept | Wait | Refuse(code: FailureCode) | Overflow

  /** Why a concluded reference is refused, or NoFailure when it is not. */
  function Disagreement(t: Tx, r: Tx, reversed: bool): FailureCode {
    if !RefersTo(t.kind, r.kind) then ReferenceMismatch
    else if r.state != Processed then ReferenceNotProcessed
    else if r.walletId != t.walletId || r.playerId != t.playerId || r.amount.currency != t.amount.currency
            || r.roundId != t.roundId then ReferenceMismatch
    else if t.kind != Win && r.amount != t.amount then ReferenceAmountMismatch
    else if t.kind != Win && reversed then ReferenceAlreadyReversed
    else NoFailure
  }

  /** What the wallet says: its player, its currency, its funds. */
  function VerdictOfWallet(w: WalletRow, t: Tx, signed: int): Verdict {
    if t.playerId != w.playerId then Refuse(WalletPlayerMismatch)
    else if t.amount.currency != w.balance.currency then Refuse(CurrencyMismatch)
    else if w.balance.Units() + signed < 0
    then Refuse(if t.kind == Bet then InsufficientFunds else InsufficientFundsForReversal)
    else if w.balance.Units() + signed > 0x7FFF_FFFF_FFFF_FFFF then Overflow
    else Accept
  }

  function VerdictOn(w: WalletRow, t: Tx, seen: Option<Tx>, reversed: bool): Verdict {
    if t.refExt != "" && (seen == None || seen.value.state == Pending || seen.value.state == PendingReference) then Wait
    else if t.refExt != "" && Disagreement(t, seen.value, reversed) != NoFailure
    then Refuse(Disagreement(t, seen.value, reversed))
    else VerdictOfWallet(w, t, SignedAmount(t, seen))
  }

  /** The reference stored with an operation that did not wait: the one found, once it agrees,
      even if it turns out to be reversed. */
  function Attached(t: Tx, seen: Option<Tx>, reversed: bool): ID {
    if t.refExt == "" || seen == None then t.refId
    else
      var disagreement := Disagreement(t, seen.value, reversed);
      if disagreement == NoFailure || disagreement == ReferenceAlreadyReversed then seen.value.id else t.refId
  }

  /** What an operation that waits leaves: its arrival is told, its attempts are counted, and at
      the last one it is rejected. */
  function Awaited(w: WalletRow, t: Tx, attempt: Attempt, about: Summary, at: Time): Decision {
    if attempt.Arrival?
    then Decision(t.(state := PendingReference, updatedAt := at), w, None, [TransactionPending(about, t.refExt)])
    else if t.attempts + 1 < attempt.maxAttempts
    then Decision(t.(attempts := t.attempts + 1, updatedAt := at), w, None, [])
    else Decision(t.(state := Rejected, attempts := t.attempts + 1, code := ReferenceNotFound, updatedAt := at), w, None,
                  [TransactionRejected(about, ReferenceNotFound)])
  }

  /** What an accepted operation leaves: a LOSS its row alone, any other the balance moved by its
      amount, with the entry and the change that tell it. */
  function Accepted(w: WalletRow, t: Tx, signed: int, entryId: ID, about: Summary, at: Time): Decision
    requires 0 <= w.balance.Units() + signed <= 0x7FFF_FFFF_FFFF_FFFF
  {
    var after := Money((w.balance.Units() + signed) as int64, w.balance.currency);
    var tx := t.(state := Processed, result := Some(after), updatedAt := at);
    if t.kind == Loss then Decision(tx, w, None, [TransactionProcessed(about, after)]) else
      var direction := if signed < 0 then Debit else Credit;
      Decision(tx, w.(balance := after, version := w.version + 1, updatedAt := at),
               Some(Entry(entryId, w.id, t.id, direction, t.amount, w.balance, after, at)),
               [TransactionProcessed(about, after),
                BalanceChanged(w.id, t.id, direction, t.amount, w.balance, after, w.version + 1)])
  }

  /** What an operation that did not wait leaves. */
  function Concluding(w: WalletRow, t: Tx, verdict: Verdict, signed: int, entryId: ID, about: Summary, at: Time)
    : Result<Decision>
    requires !verdict.Wait? && (verdict.Accept? ==> 0 <= w.balance.Units() + signed <= 0x7FFF_FFFF_FFFF_FFFF)
  {
    match verdict
    case Refuse(code) =>
      Ok(Decision(t.(state := Rejected, code := code, updatedAt := at), w, None, [TransactionRejected(about, code)]))
    case Overflow => Err(Validation(AmountOverflow))
    case Accept => Ok(Accepted(w, t, signed, entryId, about, at))
  }

  /** The whole outcome of a settlement by the rules. */
  function Ruled(w: WalletRow, t: Tx, seen: Option<Tx>, reversed: bool, attempt: Attempt, entryId: ID, at: Time)
    : Result<Decision>
  {
    var about := Summary(t.id, t.kind, t.walletId, t.playerId, t.amount, t.provider, t.ext, t.roundId, t.gameId);
    var verdict := VerdictOn(w, t, seen, reversed);
    if verdict.Wait? then Ok(Awaited(w, t, attempt, about, at))
    else Concluding(w, t.(refId := Attached(t, seen, reversed)), verdict, SignedAmount(t, seen), entryId, about, at)
  }

  /** What the lookups of a settlement guarantee: the row of its own wallet, and a reference
      found by the identifier the operation gives. */
  ghost predicate Consistent(w: WalletRow, t: Tx, seen: Option<Tx>, attempt: Attempt, entryId: ID, at: Time) {
    && w.Valid() && Settles(t, attempt) && w.id == t.walletId && entryId != NIL_ID && at != ZERO_TIME
    && (attempt.Again? ==> attempt.maxAttempts >= 1)
    && (t.refExt == "" ==> seen == None)
    && (seen.Some? ==> seen.value.id != NIL_ID && seen.value.provider == t.provider && seen.value.ext == t.refExt)
  }

  // ------------------------------------------------------------------- steps

  lemma ReferenceFollowsTheRules(t: Tx, seen: Option<Tx>, reversed: bool)
    requires ValidateKindReference(t.kind, t.refExt).Ok? && !t.state.IsTerminal()
    requires t.refExt == "" ==> seen == None
    requires seen.Some? ==> seen.value.provider == t.provider && seen.value.ext == t.refExt
    ensures var r := Referenced(t, seen, reversed);
            if t.refExt != "" && Waiting(seen) then r == Reference(t, Err(ReferencePending))
            else
              && r.tx == t.(refId := Attached(t, seen, reversed))
              && r.found == (if t.refExt != "" && Disagreement(t, seen.value, reversed) != NoFailure
                             then Err(Rejection(Disagreement(t, seen.value, reversed), false))
                             else Ok(seen))
              && (r.found.Ok? && t.refExt != "" ==> r.tx.refId == seen.value.id)
  {
  }

  lemma MovedInFull(w: WalletRow, t: Tx, direction: Direction, entryId: ID, at: Time, signed: int)
    requires w.Valid() && t.id != NIL_ID && t.amount.IsPositive() && entryId != NIL_ID && at != ZERO_TIME
    requires t.amount.currency == w.balance.currency
    requires signed == if direction == Credit then t.amount.Units() else -t.amount.Units()
    requires 0 <= w.balance.Units() + signed <= 0x7FFF_FFFF_FFFF_FFFF
    ensures var after := Money((w.balance.Units() + signed) as int64, w.balance.currency);
            Moved(w, t.amount, t.id, direction, entryId, at)
            == Ok((w.(balance := after, version := w.version + 1, updatedAt := at),
                   Entry(entryId, w.id, t.id, direction, t.amount, w.balance, after, at)))
  {
    MovedExactly(w, t.amount, t.id, direction, entryId, at);
  }

  /** A movement succeeds exactly when player, currency and funds allow it. */
  lemma MovementFollowsTheRules(w: WalletRow, t: Tx, reference: Option<Tx>, entryId: ID, at: Time)
    requires w.Valid() && IsExternalRecord(t) && w.id == t.walletId && entryId != NIL_ID && at != ZERO_TIME
    requires t.kind == Refund || t.kind == Rollback ==> reference.Some? && t.refId == reference.value.id != NIL_ID
    ensures var r, signed := Applied(w, t, reference, entryId, at), SignedAmount(t, reference);
            var total := w.balance.Units() + signed;
            if t.playerId != w.playerId then r == Err(Rejection(WalletPlayerMismatch, false))
            else if t.amount.currency != w.balance.currency then r == Err(Rejection(CurrencyMismatch, false))
            else if total < 0
            then r == Err(Rejection(if t.kind == Bet then InsufficientFunds else InsufficientFundsForReversal, true))
            else if total > 0x7FFF_FFFF_FFFF_FFFF then r == Err(Validation(AmountOverflow))
            else if t.kind == Loss then r == Ok(Effect(w, None))
            else
              var after, direction := Money(total as int64, w.balance.currency), if signed < 0 then Debit else Credit;
              r == Ok(Effect(w.(balance := after, version := w.version + 1, updatedAt := at),
                             Some(Entry(entryId, w.id, t.id, direction, t.amount, w.balance, after, at))))
  {
    if t.kind != Loss && t.amount.currency == w.balance.currency {
      var direction := DirectionOf(t.kind, reference).value;
      MovedExactly(w, t.amount, t.id, direction, entryId, at);
      var total := w.balance.Units() + SignedAmount(t, reference);
      if 0 <= total <= MAX_INT64 {
        MovedInFull(w, t, direction, entryId, at, SignedAmount(t, reference));
      }
    }
  }

  lemma AwaitedIsClosed(w: WalletRow, t: Tx, attempt: Attempt, at: Time)
    requires t.state == (if attempt.Arrival? then Pending else PendingReference) && t.refExt != "" && at != ZERO_TIME
    requires attempt.Again? ==> attempt.maxAttempts >= 1
    ensures Closed(w, t, Err(ReferencePending), attempt, at) == Ok(Awaited(w, t, attempt, SummaryOf(t), at))
  {
  }

  lemma RefusedIsClosed(w: WalletRow, t: Tx, code: FailureCode, shortfall: bool, attempt: Attempt, at: Time)
    requires t.state == (if attempt.Arrival? then Pending else PendingReference) && code != NoFailure && at != ZERO_TIME
    ensures Closed(w, t, Err(Rejection(code, shortfall)), attempt, at)
            == Ok(Decision(t.(state := Rejected, code := code, updatedAt := at), w, None,
                           [TransactionRejected(SummaryOf(t), code)]))
  {
  }

  lemma AcceptedIsClosed(w: WalletRow, t: Tx, effect: Effect, signed: int, attempt: Attempt, entryId: ID, at: Time)
    requires t.state == (if attempt.Arrival? then Pending else PendingReference) && at != ZERO_TIME
    requires !w.balance.currency.IsZero() && t.amount.currency == w.balance.currency
    requires 0 <= w.balance.Units() + signed <= 0x7FFF_FFFF_FFFF_FFFF && (t.kind == Loss ==> signed == 0)
    requires var d := Accepted(w, t, signed, entryId, SummaryOf(t), at); effect == Effect(d.wallet, d.entry)
    ensures Closed(w, t, Ok(effect), attempt, at) == Ok(Accepted(w, t, signed, entryId, SummaryOf(t), at))
  {
  }

  lemma MovementIsClosed(w: WalletRow, t: Tx, reference: Option<Tx>, attempt: Attempt, entryId: ID, at: Time)
    requires w.Valid() && Settles(t, attempt) && w.id == t.walletId && entryId != NIL_ID && at != ZERO_TIME
    requires t.kind == Refund || t.kind == Rollback ==> reference.Some? && t.refId == reference.value.id != NIL_ID
    ensures var signed := SignedAmount(t, reference);
            Closed(w, t, Applied(w, t, reference, entryId, at), attempt, at)
            == Concluding(w, t, VerdictOfWallet(w, t, signed), signed, entryId, SummaryOf(t), at)
  {
    var moved := Applied(w, t, reference, entryId, at);
    MovementFollowsTheRules(w, t, reference, entryId, at);
    if moved.Ok? {
      AcceptedIsClosed(w, t, moved.value, SignedAmount(t, reference), attempt, entryId, at);
    } else if moved.error.Rejection? {
      RefusedIsClosed(w, t, moved.error.code, moved.error.shortfall, attempt, at);
    }
  }

  lemma MovementIsRuled(w: WalletRow, t: Tx, seen: Option<Tx>, reversed: bool, attempt: Attempt, entryId: ID, at: Time)
    requires Consistent(w, t, seen, attempt, entryId, at) && !(t.refExt != "" && Waiting(seen))
    requires t.refExt != "" ==> Disagreement(t, seen.value, reversed) == NoFailure
    ensures var settled := t.(refId := Attached(t, seen, reversed));
            Closed(w, settled, Applied(w, settled, seen, entryId, at), attempt, at)
            == Ruled(w, t, seen, reversed, attempt, entryId, at)
  {
    var settled := t.(refId := Attached(t, seen, reversed));
    MovementIsClosed(w, settled, seen, attempt, entryId, at);
    assert SignedAmount(settled, seen) == SignedAmount(t, seen) && SummaryOf(settled) == SummaryOf(t);
  }

  lemma RefusalIsRuled(w: WalletRow, t: Tx, seen: Option<Tx>, reversed: bool, attempt: Attempt, entryId: ID, at: Time)
    requires Consistent(w, t, seen, attempt, entryId, at) && !(t.refExt != "" && Waiting(seen))
    requires t.refExt != "" && Disagreement(t, seen.value, reversed) != NoFailure
    ensures Closed(w, t.(refId := Attached(t, seen, reversed)),
                   Err(Rejection(Disagreement(t, seen.value, reversed), false)), attempt, at)
            == Ruled(w, t, seen, reversed, attempt, entryId, at)
  {
    RefusedIsClosed(w, t.(refId := Attached(t, seen, reversed)), Disagreement(t, seen.value, reversed), false, attempt, at);
  }

  lemma SettledIsRuled(w: WalletRow, t: Tx, seen: Option<Tx>, reversed: bool, attempt: Attempt, entryId: ID, at: Time)
    requires Consistent(w, t, seen, attempt, entryId, at) && !(t.refExt != "" && Waiting(seen))
    ensures Decide(w, t, seen, reversed, attempt, entryId, at) == Ruled(w, t, seen, reversed, attempt, entryId, at)
  {
    ReferenceFollowsTheRules(t, seen, reversed);
    if Referenced(t, seen, reversed).found.Err? {
      RefusalIsRuled(w, t, seen, reversed, attempt, entryId, at);
    } else {
      MovementIsRuled(w, t, seen, reversed, attempt, entryId, at);
    }
  }

  /** Every settlement, across the lookup, the checks of the reference, the movement and the
      conclusion, comes to what the rules say, column by column. */
  lemma DecisionIsRuled(w: WalletRow, t: Tx, seen: Option<Tx>, reversed: bool, attempt: Attempt, entryId: ID, at: Time)
    requires Consistent(w, t, seen, attempt, entryId, at)
    ensures Decide(w, t, seen, reversed, attempt, entryId, at) == Ruled(w, t, seen, reversed, attempt, entryId, at)
  {
    if t.refExt != "" && Waiting(seen) {
      AwaitedIsClosed(w, t, attempt, at);
    } else {
      SettledIsRuled(w, t, seen, reversed, attempt, entryId, at);
    }
  }

  /** The state it comes to: processed exactly when the rules accept, waiting exactly when the
      reference is awaited and attempts remain, rejected with the code of the first rule broken,
      and aborted, with nothing recorded, exactly when a credit overflows. */
  lemma DecisionFollowsTheRules(w: WalletRow, t: Tx, seen: Option<Tx>, reversed: bool, attempt: Attempt, entryId: ID, at: Time)
    requires Consistent(w, t, seen, attempt, entryId, at)
    ensures var r := Decide(w, t, seen, reversed, attempt, entryId, at);
            match VerdictOn(w, t, seen, reversed)
            case Accept => r.Ok? && r.value.tx.state == Processed
            case Wait =>
              r.Ok? && (if attempt.Again? && t.attempts + 1 >= attempt.maxAttempts
                        then r.value.tx.state == Rejected && r.value.tx.code == ReferenceNotFound
                        else r.value.tx.state == PendingReference)
            case Refuse(code) => r.Ok? && r.value.tx.state == Rejected && r.value.tx.code == code
            case Overflow => r == Err(Validation(AmountOverflow))
  {
    DecisionIsRuled(w, t, seen, reversed, attempt, entryId, at);
  }
}
