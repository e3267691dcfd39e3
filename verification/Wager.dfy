/** The operations sent by game providers and their state machine. The functions say what
    each operation does to the record of a transaction; the class updates one in place. */
module Wager {
  import opened Domain
  import opened Money

  datatype Kind = Opening | Bet | Win | Loss | Refund | Rollback {
    predicate IsExternal() {
      this != Opening
    }

    predicate IsReversal() {
      this == Refund || this == Rollback
    }

    predicate RequiresReference() {
      IsReversal()
    }

    predicate AllowsReference() {
      RequiresReference() || this == Win
    }

    /** The kinds an operation of this kind may refer to. */
    function ReferableKinds(): set<Kind> {
      match this
      case Win => {Bet}
      case Refund => {Bet}
      case Rollback => {Bet, Win, Refund}
      case _ => {}
    }
  }

  datatype State = Pending | PendingReference | Processed | Rejected | Failed {
    predicate IsTerminal() {
      this == Processed || this == Rejected || this == Failed
    }

    predicate CanTransitionTo(target: State) {
      !IsTerminal() && target != Pending && (target == PendingReference ==> this == Pending)
    }
  }

  /** The business fields the payload hash covers. The hash is taken to be injective, so
      the fields stand for it. */
  datatype Payload = Payload(
    provider: string, ext: string, playerId: ID, walletId: ID, roundId: string, gameId: string,
    kind: Kind, money: Money, refExt: string)

  /** An operation as a provider sends it. */
  datatype Input = Input(payload: Payload, key: string, correlationId: string)

  /** The record of an operation. Empty strings, NIL_ID and None are the absent columns. */
  datatype Tx = Tx(
    id: ID, kind: Kind, state: State, walletId: ID, playerId: ID, amount: Money,
    provider: string, ext: string, key: string, hash: Option<Payload>, roundId: string, gameId: string,
    refExt: string, refId: ID, attempts: nat, code: FailureCode, result: Option<Money>,
    createdAt: Time, updatedAt: Time)
  {
    /** The columns no statement ever updates. */
    ghost predicate SameIdentity(t: Tx) {
      && id == t.id && kind == t.kind && walletId == t.walletId && playerId == t.playerId && amount == t.amount
      && provider == t.provider && ext == t.ext && key == t.key && hash == t.hash
      && roundId == t.roundId && gameId == t.gameId && refExt == t.refExt && createdAt == t.createdAt
    }

    function Fields(): Payload {
      Payload(provider, ext, playerId, walletId, roundId, gameId, kind, amount, refExt)
    }
  }

  function PayloadHash(input: Input): Result<Payload> {
    var _ :- input.payload.money.Validate();
    Ok(input.payload)
  }

  function ValidateKindAmount(kind: Kind, amount: Money): Result<()> {
    var _ :- amount.Validate();
    var _ :- Require(!amount.IsNegative(), Validation(InvalidAmount));
    Require(if kind == Loss then amount.IsZero() else amount.IsPositive(), Validation(InvalidAmount))
  }

  function ValidateKindReference(kind: Kind, refExt: string): Result<()> {
    Require((kind.RequiresReference() ==> refExt != "") && (!kind.AllowsReference() ==> refExt == ""),
            Validation(InvalidInput))
  }

  /** What every operation received from outside satisfies before it is settled. */
  ghost predicate IsExternalRecord(t: Tx) {
    && t.kind.IsExternal() && t.id != NIL_ID && t.walletId != NIL_ID
    && t.provider != "" && t.ext != "" && t.key != ""
    && t.hash == Some(t.Fields())
    && ValidateKindAmount(t.kind, t.amount).Ok?
    && ValidateKindReference(t.kind, t.refExt).Ok?
    && t.refExt != t.ext
  }

  ghost predicate IsNew(t: Tx) {
    && IsExternalRecord(t) && t.state == Pending
    && t.refId == NIL_ID && t.attempts == 0 && t.code == NoFailure && t.result == None
    && t.createdAt != ZERO_TIME && t.updatedAt == t.createdAt
  }

  /** The record of an operation not yet settled. */
  function RecordOf(id: ID, p: Payload, key: string, at: Time): Tx {
    Tx(id, p.kind, Pending, p.walletId, p.playerId, p.money, p.provider, p.ext, key, Some(p), p.roundId, p.gameId,
       p.refExt, NIL_ID, 0, NoFailure, None, at, at)
  }

  function NewExternal(id: ID, input: Input, hash: Payload, createdAt: Time): (r: Result<Tx>)
    requires hash == input.payload
    ensures r.Ok? ==> IsNew(r.value) && r.value.id == id && r.value.createdAt == createdAt
    ensures r.Ok? ==> r.value.Fields() == input.payload && r.value.key == input.key
    ensures var p := input.payload;
            r.Ok? <==> p.playerId != NIL_ID && p.roundId != "" && p.gameId != ""
                       && IsNew(RecordOf(id, p, input.key, createdAt))
  {
    var p := input.payload;
    var _ :- Require(p.kind.IsExternal(), Validation(KindNotAllowed));
    var _ :- RequireID(id);
    var _ :- RequireID(p.walletId);
    var _ :- RequireID(p.playerId);
    var _ :- RequireTime(createdAt);
    var _ :- Require(p.provider != "" && p.ext != "" && input.key != "" && p.roundId != "" && p.gameId != "",
                     Validation(InvalidInput));
    var _ :- ValidateKindAmount(p.kind, p.money);
    var _ :- ValidateKindReference(p.kind, p.refExt);
    var _ :- Require(p.refExt != p.ext, Validation(InvalidInput));
    Ok(RecordOf(id, p, input.key, createdAt))
  }

  /** The internal opening, already concluded and without the provider's columns. */
  ghost predicate IsOpening(t: Tx) {
    && t.kind == Opening && t.state == Processed && t.id != NIL_ID && t.amount.IsPositive()
    && t.result == Some(t.amount) && !t.amount.currency.IsZero()
    && t.provider == "" && t.ext == "" && t.key == "" && t.hash == None && t.refExt == ""
    && t.refId == NIL_ID && t.attempts == 0 && t.code == NoFailure
  }

  function NewOpening(id: ID, walletId: ID, playerId: ID, initial: Money, createdAt: Time): (r: Result<Tx>)
    ensures r.Ok? ==> IsOpening(r.value)
    ensures r.Ok? ==> r.value.id == id && r.value.walletId == walletId && r.value.amount == initial
    ensures r.Ok? <==> id != NIL_ID && walletId != NIL_ID && playerId != NIL_ID && createdAt != ZERO_TIME
                       && initial.IsPositive() && !initial.currency.IsZero()
  {
    var _ :- RequireID(id);
    var _ :- RequireID(walletId);
    var _ :- RequireID(playerId);
    var _ :- ValidateKindAmount(Opening, initial);
    var _ :- RequireTime(createdAt);
    Ok(Tx(id, Opening, Processed, walletId, playerId, initial, "", "", "", None, "", "", "", NIL_ID, 0,
          NoFailure, Some(initial), createdAt, createdAt))
  }

  // ------------------------------------------------------------- transitions

  function Transition(t: Tx, target: State, at: Time): Result<Tx> {
    var _ :- RequireTime(at);
    var _ :- Require(t.state.CanTransitionTo(target), Validation(InvalidStateTransition));
    Ok(t.(state := target, updatedAt := at))
  }

  function PendingReferenceMarked(t: Tx, at: Time): Result<Tx> {
    var _ :- Require(t.refExt != "", Validation(InvalidStateTransition));
    Transition(t, PendingReference, at)
  }

  function RejectedMarked(t: Tx, code: FailureCode, at: Time): Result<Tx> {
    var _ :- Require(code != NoFailure, Validation(InvalidInput));
    var moved :- Transition(t, Rejected, at);
    Ok(moved.(code := code))
  }

  function FailedMarked(t: Tx, code: FailureCode, at: Time): Result<Tx> {
    var _ :- Require(code != NoFailure, Validation(InvalidInput));
    var moved :- Transition(t, Failed, at);
    Ok(moved.(code := code))
  }

  function ProcessedMarked(t: Tx, balanceAfter: Money, at: Time): Result<Tx> {
    var _ :- balanceAfter.Validate();
    var _ :- Require(balanceAfter.currency == t.amount.currency, Validation(CurrencyMismatch));
    var moved :- Transition(t, Processed, at);
    Ok(moved.(result := Some(balanceAfter)))
  }

  function MissingReferenceRecorded(t: Tx, maxAttempts: int, at: Time): Result<Tx> {
    var _ :- RequireTime(at);
    var _ :- Require(maxAttempts >= 1, Validation(InvalidInput));
    var _ :- Require(t.state == PendingReference, Validation(InvalidStateTransition));
    var counted := t.(attempts := t.attempts + 1, updatedAt := at);
    if counted.attempts < maxAttempts then Ok(counted) else RejectedMarked(counted, ReferenceNotFound, at)
  }

  /** Checks the operation against the one it refers to and attaches it. */
  function ReferenceResolved(t: Tx, reference: Option<Tx>): Result<Tx> {
    var _ :- Require(reference.Some? && t.refExt != "", Validation(InvalidInput));
    var r := reference.value;
    var _ :- Require(!t.state.IsTerminal(), Validation(InvalidStateTransition));
    var _ :- Require(r.provider == t.provider && r.ext == t.refExt, Validation(InvalidInput));
    var _ :- Require(r.kind in t.kind.ReferableKinds(), Rejection(ReferenceMismatch, false));
    var _ :- Require(r.state == Processed, Rejection(ReferenceNotProcessed, false));
    var _ :- Require(r.walletId == t.walletId && r.playerId == t.playerId
                     && r.amount.currency == t.amount.currency && r.roundId == t.roundId,
                     Rejection(ReferenceMismatch, false));
    var _ :- Require(t.kind.IsReversal() ==> r.amount == t.amount, Rejection(ReferenceAmountMismatch, false));
    Ok(t.(refId := r.id))
  }

  /** Attempts an operation still has before it must conclude; none once it has. */
  function Remaining(t: Tx, maxAttempts: int): nat {
    if t.state == PendingReference && t.attempts < maxAttempts then maxAttempts - t.attempts else 0
  }

  // ------------------------------------------------------------------- rules

  /** Which kinds may refer to which. */
  predicate RefersTo(kind: Kind, other: Kind) {
    || (kind == Win && other == Bet) || (kind == Refund && other == Bet)
    || (kind == Rollback && other == Bet) || (kind == Rollback && other == Win) || (kind == Rollback && other == Refund)
  }

  /** The states an operation moves through. */
  predicate Follows(state: State, next: State) {
    || (state == Pending && (next == PendingReference || next == Processed || next == Rejected || next == Failed))
    || (state == PendingReference && (next == Processed || next == Rejected || next == Failed))
  }

  /** A transition moves the state and the instant, and nothing else, exactly along the state
      machine. */
  lemma TransitionsFollow(t: Tx, target: State, at: Time)
    ensures Transition(t, target, at)
            == if at == ZERO_TIME then Err(Validation(InvalidInput))
               else if Follows(t.state, target) then Ok(t.(state := target, updatedAt := at))
               else Err(Validation(InvalidStateTransition))
  {
  }

  /** Every mark is that transition, with the column of its own. */
  lemma MarksFollow(t: Tx, code: FailureCode, balance: Money, at: Time)
    requires at != ZERO_TIME && code != NoFailure && !balance.currency.IsZero() && balance.currency == t.amount.currency
    ensures PendingReferenceMarked(t, at)
            == if t.refExt != "" && Follows(t.state, PendingReference)
               then Ok(t.(state := PendingReference, updatedAt := at)) else Err(Validation(InvalidStateTransition))
    ensures RejectedMarked(t, code, at)
            == if Follows(t.state, Rejected) then Ok(t.(state := Rejected, code := code, updatedAt := at))
               else Err(Validation(InvalidStateTransition))
    ensures FailedMarked(t, code, at)
            == if Follows(t.state, Failed) then Ok(t.(state := Failed, code := code, updatedAt := at))
               else Err(Validation(InvalidStateTransition))
    ensures ProcessedMarked(t, balance, at)
            == if Follows(t.state, Processed) then Ok(t.(state := Processed, result := Some(balance), updatedAt := at))
               else Err(Validation(InvalidStateTransition))
  {
  }

  /** And is refused without what it needs. */
  lemma MarksNeed(t: Tx, code: FailureCode, balance: Money, at: Time)
    ensures code == NoFailure ==> RejectedMarked(t, code, at) == FailedMarked(t, code, at) == Err(Validation(InvalidInput))
    ensures balance.currency.code == "" ==> ProcessedMarked(t, balance, at) == Err(Validation(InvalidInput))
    ensures balance.currency.code != "" && balance.currency != t.amount.currency ==>
              ProcessedMarked(t, balance, at) == Err(Validation(CurrencyMismatch))
  {
  }

  /** A missing reference is counted, only while the operation waits, and given up at the last
      attempt. */
  lemma MissingReferenceCounts(t: Tx, maxAttempts: int, at: Time)
    requires at != ZERO_TIME && maxAttempts >= 1
    ensures MissingReferenceRecorded(t, maxAttempts, at)
            == if t.state != PendingReference then Err(Validation(InvalidStateTransition))
               else if t.attempts + 1 < maxAttempts then Ok(t.(attempts := t.attempts + 1, updatedAt := at))
               else Ok(t.(state := Rejected, attempts := t.attempts + 1, code := ReferenceNotFound, updatedAt := at))
  {
  }

  /** Why a reference is refused, in the order in which it is checked. */
  lemma ResolutionFollows(t: Tx, reference: Option<Tx>)
    ensures ReferenceResolved(t, reference)
            == if reference == None || t.refExt == "" then Err(Validation(InvalidInput))
               else if t.state == Processed || t.state == Rejected || t.state == Failed
               then Err(Validation(InvalidStateTransition))
               else
                 var r := reference.value;
                 if r.provider != t.provider || r.ext != t.refExt then Err(Validation(InvalidInput))
                 else if !RefersTo(t.kind, r.kind) then Err(Rejection(ReferenceMismatch, false))
                 else if r.state != Processed then Err(Rejection(ReferenceNotProcessed, false))
                 else if r.walletId != t.walletId || r.playerId != t.playerId || r.roundId != t.roundId
                         || r.amount.currency != t.amount.currency then Err(Rejection(ReferenceMismatch, false))
                 else if t.kind != Win && r.amount != t.amount then Err(Rejection(ReferenceAmountMismatch, false))
                 else Ok(t.(refId := r.id))
  {
  }

  /** A terminal operation refuses every change: no mark, count or resolution succeeds. */
  lemma TerminalNeverChanges(t: Tx, code: FailureCode, balance: Money, maxAttempts: int, reference: Option<Tx>, at: Time)
    requires t.state == Processed || t.state == Rejected || t.state == Failed
    ensures PendingReferenceMarked(t, at).Err? && RejectedMarked(t, code, at).Err? && FailedMarked(t, code, at).Err?
    ensures ProcessedMarked(t, balance, at).Err? && MissingReferenceRecorded(t, maxAttempts, at).Err?
    ensures ReferenceResolved(t, reference).Err?
  {
  }

  /** A reference resolves exactly when it was processed, is of a kind that may be referred to,
      and shares the wallet, the player, the round, the currency and, for a reversal, the amount;
      no rollback is ever referred to, so chains of reversals have two links at most. */
  lemma ResolvedReferenceAgrees(t: Tx, r: Tx)
    requires t.refExt != "" && (t.state == Pending || t.state == PendingReference)
    requires r.provider == t.provider && r.ext == t.refExt
    ensures ReferenceResolved(t, Some(r)).Ok? <==>
              && RefersTo(t.kind, r.kind) && r.state == Processed
              && r.walletId == t.walletId && r.playerId == t.playerId && r.roundId == t.roundId
              && r.amount.currency == t.amount.currency
              && (t.kind == Refund || t.kind == Rollback ==> r.amount == t.amount)
    ensures ReferenceResolved(t, Some(r)).Ok? ==> ReferenceResolved(t, Some(r)).value == t.(refId := r.id)
    ensures RefersTo(t.kind, r.kind) ==> r.kind != Rollback && (r.kind == Refund ==> t.kind == Rollback)
  {
  }

  // ------------------------------------------------------------------- class

  /** An operation being settled. The fields that never change after it was built are
      those of `built`. */
  class Transaction {
    const built: Tx
    var state: State
    var refId: ID
    var attempts: nat
    var code: FailureCode
    var result: Option<Money>
    var updatedAt: Time

    function Record(): (t: Tx)
      reads this
      ensures t.SameIdentity(built)
    {
      built.(state := state, refId := refId, attempts := attempts, code := code, result := result,
             updatedAt := updatedAt)
    }

    constructor (t: Tx)
      ensures Record() == t
    {
      built := t;
      state, refId, attempts, code := t.state, t.refId, t.attempts, t.code;
      result, updatedAt := t.result, t.updatedAt;
    }

    method TransitionTo(target: State, at: Time) returns (r: Result<()>)
      modifies this
      ensures Outcome(old(Record()), Transition(old(Record()), target, at), r)
    {
      if at == ZERO_TIME {
        return Err(Validation(InvalidInput));
      }
      if state.IsTerminal() || !state.CanTransitionTo(target) {
        return Err(Validation(InvalidStateTransition));
      }
      state := target;
      updatedAt := at;
      return Ok(());
    }

    /** The record moved as `expected` says, or stayed as it was with its error. */
    predicate Outcome(before: Tx, expected: Result<Tx>, r: Result<()>)
      reads this
    {
      match expected
      case Ok(after) => r == Ok(()) && Record() == after
      case Err(e) => r == Err(e) && Record() == before
    }

    method MarkPendingReference(at: Time) returns (r: Result<()>)
      modifies this
      ensures Outcome(old(Record()), PendingReferenceMarked(old(Record()), at), r)
    {
      if built.refExt == "" {
        return Err(Validation(InvalidStateTransition));
      }
      r := TransitionTo(PendingReference, at);
    }

    method MarkProcessed(balanceAfter: Money, at: Time) returns (r: Result<()>)
      modifies this
      ensures Outcome(old(Record()), ProcessedMarked(old(Record()), balanceAfter, at), r)
    {
      if balanceAfter.currency.IsZero() {
        return Err(Validation(InvalidInput));
      }
      if balanceAfter.currency != built.amount.currency {
        return Err(Validation(CurrencyMismatch));
      }
      r := TransitionTo(Processed, at);
      if r.Ok? {
        result := Some(balanceAfter);
      }
    }

    method MarkRejected(failure: FailureCode, at: Time) returns (r: Result<()>)
      modifies this
      ensures Outcome(old(Record()), RejectedMarked(old(Record()), failure, at), r)
    {
      if failure == NoFailure {
        return Err(Validation(InvalidInput));
      }
      r := TransitionTo(Rejected, at);
      if r.Ok? {
        code := failure;
      }
    }

    method MarkFailed(failure: FailureCode, at: Time) returns (r: Result<()>)
      modifies this
      ensures Outcome(old(Record()), FailedMarked(old(Record()), failure, at), r)
    {
      if failure == NoFailure {
        return Err(Validation(InvalidInput));
      }
      r := TransitionTo(Failed, at);
      if r.Ok? {
        code := failure;
      }
    }

    method RecordMissingReference(maxAttempts: int, at: Time) returns (r: Result<()>)
      modifies this
      ensures Outcome(old(Record()), MissingReferenceRecorded(old(Record()), maxAttempts, at), r)
    {
      if at == ZERO_TIME || maxAttempts < 1 {
        return Err(Validation(InvalidInput));
      }
      if state != PendingReference {
        return Err(Validation(InvalidStateTransition));
      }
      attempts := attempts + 1;
      updatedAt := at;
      if attempts < maxAttempts {
        return Ok(());
      }
      r := MarkRejected(ReferenceNotFound, at);
    }

    method ResolveReference(reference: Option<Tx>) returns (r: Result<()>)
      modifies this
      ensures Outcome(old(Record()), ReferenceResolved(old(Record()), reference), r)
    {
      if reference.None? || built.refExt == "" {
        return Err(Validation(InvalidInput));
      }
      if state.IsTerminal() {
        return Err(Validation(InvalidStateTransition));
      }
      var found := reference.value;
      if found.provider != built.provider || found.ext != built.refExt {
        return Err(Validation(InvalidInput));
      }
      if found.kind !in built.kind.ReferableKinds() {
        return Err(Rejection(ReferenceMismatch, false));
      }
      if found.state != Processed {
        return Err(Rejection(ReferenceNotProcessed, false));
      }
      if found.walletId != built.walletId || found.playerId != built.playerId
         || found.amount.currency != built.amount.currency || found.roundId != built.roundId {
        return Err(Rejection(ReferenceMismatch, false));
      }
      if built.kind.IsReversal() && found.amount != built.amount {
        return Err(Rejection(ReferenceAmountMismatch, false));
      }
      refId := found.id;
      return Ok(());
    }
  }
}
