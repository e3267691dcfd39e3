/** How an operation is concluded, shared by its arrival and by each retry: a function of
    the rows the session read, and the writes that record its outcome. */
module Settlement {
  import opened Domain
  import opened Wager
  import opened Ledger
  import opened Events
  import opened Database

  /** An operation is settled when it arrives, or tried again while it waits. */
  datatype Attempt = Arrival | Again(maxAttempts: int)

  /** What one settlement writes. */
  datatype Decision = Decision(tx: Tx, wallet: WalletRow, entry: Option<Entry>, events: seq<Data>)

  /** The outcome of looking a reference up: the operation, perhaps with the reference
      attached, and what the lookup answered. */
  datatype Reference = Reference(tx: Tx, found: Result<Option<Tx>>)

  /** A reference that has not arrived or has not concluded keeps the operation waiting. */
  predicate Waiting(seen: Option<Tx>) {
    seen.None? || !seen.value.state.IsTerminal()
  }

  /** The check of the reference, given what the two queries about it answered. */
  function Referenced(t: Tx, seen: Option<Tx>, reversed: bool): Reference {
    if t.refExt == "" then Reference(t, Ok(None))
    else if Waiting(seen) then Reference(t, Err(ReferencePending))
    else
      match ReferenceResolved(t, seen)
      case Err(e) => Reference(t, Err(e))
      case Ok(resolved) =>
        if t.kind.IsReversal() && reversed
        then Reference(resolved, Err(Rejection(ReferenceAlreadyReversed, false)))
        else Reference(resolved, Ok(seen))
  }

  /** The state the outcome of a movement calls for. */
  function Concluded(t: Tx, w: WalletRow, outcome: Result<()>, at: Time): Result<Tx> {
    match outcome
    case Ok(_) => ProcessedMarked(t, w.balance, at)
    case Err(ReferencePending) => PendingReferenceMarked(t, at)
    case Err(Rejection(code, _)) => RejectedMarked(t, code, at)
    case Err(e) => Err(e)
  }

  /** The movement of the wallet, refused when the reference was. */
  function Movement(w: WalletRow, reference: Reference, entryId: ID, at: Time): Result<Effect> {
    var r :- reference.found;
    Applied(w, reference.tx, r, entryId, at)
  }

  function Closed(w: WalletRow, t: Tx, moved: Result<Effect>, attempt: Attempt, at: Time): Result<Decision> {
    var effect := if moved.Ok? then moved.value else Effect(w, None);
    var tx :- if moved == Err(ReferencePending) && attempt.Again?
              then MissingReferenceRecorded(t, attempt.maxAttempts, at)
              else Concluded(t, effect.wallet, if moved.Ok? then Ok(()) else Err(moved.error), at);
    if attempt.Again? && tx.state == PendingReference then Ok(Decision(tx, effect.wallet, None, []))
    else
      var events :- NewEvents(tx, effect.wallet, effect.entry, at);
      Ok(Decision(tx, effect.wallet, effect.entry, events))
  }

  function Decide(w: WalletRow, t: Tx, seen: Option<Tx>, reversed: bool, attempt: Attempt, entryId: ID, at: Time)
    : Result<Decision>
  {
    var reference := Referenced(t, seen, reversed);
    Closed(w, reference.tx, Movement(w, reference, entryId, at), attempt, at)
  }

  /** The writes of a decision: the operation, the balance over the version loaded, the
      entry, and the events. */
  function Recorded(db: Db, attempt: Attempt, loadedVersion: int, d: Decision, events: seq<Event>): Result<Db> {
    var saved :- if attempt.Arrival? then TransactionInserted(db, d.tx) else PendingUpdated(db, d.tx);
    var moved :- EntryRecorded(saved, loadedVersion, d);
    EventsAppended(moved, events)
  }

  function EntryRecorded(db: Db, loadedVersion: int, d: Decision): Result<Db> {
    if d.entry.None? then Ok(db) else
      var updated :- BalanceUpdated(db, d.wallet, loadedVersion);
      EntryAppended(updated, d.entry.value)
  }

  /** The opening of a wallet: nothing beyond the wallet when it starts empty. */
  function DecideOpening(w: WalletRow, openingId: ID, entryId: ID): Result<Option<Decision>> {
    if !w.balance.IsPositive() then Ok(None) else
      var opening :- NewOpening(openingId, w.id, w.playerId, w.balance, w.createdAt);
      var credit :- OpeningLedgerEntry(w, entryId, opening.id, w.createdAt);
      var processed :- NewTransactionProcessed(opening, w.createdAt);
      var changed :- NewBalanceChanged(w, credit, w.createdAt);
      Ok(Some(Decision(opening, w, Some(credit), [processed, changed])))
  }

  function OpeningRecorded(db: Db, w: WalletRow, plan: Option<Decision>, events: seq<Event>): Result<Db> {
    var created :- WalletInserted(db, w);
    if plan.None? then Ok(created) else
      var saved :- TransactionInserted(created, plan.value.tx);
      var moved :- if plan.value.entry.Some? then EntryAppended(saved, plan.value.entry.value) else Ok(saved);
      EventsAppended(moved, events)
  }

  // ---------------------------------------------------------------- meaning

  /** The sum an operation adds to its wallet, given the operation it refers to. */
  function SignedAmount(t: Tx, reference: Option<Tx>): int {
    match t.kind
    case Loss => 0
    case Bet => -t.amount.Units()
    case Rollback => if reference.Some? && reference.value.kind != Bet then -t.amount.Units() else t.amount.Units()
    case _ => t.amount.Units()
  }

  /** The movement a processed operation made: its signed amount, once. */
  ghost predicate MovedBy(w: WalletRow, t: Tx, reference: Option<Tx>, entryId: ID, effect: Effect) {
    && t.walletId == w.id && t.amount.currency == w.balance.currency
    && effect.wallet.balance.currency == w.balance.currency
    && effect.wallet.balance.Units() == w.balance.Units() + SignedAmount(t, reference)
    && (effect.entry.None? <==> t.kind == Loss)
    && (effect.entry.None? ==> effect.wallet == w)
    && (effect.entry.Some? ==> var e := effect.entry.value;
          && e.Valid() && e.id == entryId && e.walletId == w.id && e.transactionId == t.id && e.amount == t.amount
          && e.before == w.balance && e.after == effect.wallet.balance && e.Signed() == SignedAmount(t, reference)
          && effect.wallet == w.(balance := e.after, version := w.version + 1, updatedAt := effect.wallet.updatedAt))
  }

  ghost predicate WaitsSoundly(t: Tx, seen: Option<Tx>, attempt: Attempt, tx: Tx) {
    && Waiting(seen) && t.refExt != "" && tx.refId == t.refId
    && tx.attempts == t.attempts + (if attempt.Again? then 1 else 0)
    && (attempt.Again? ==> tx.attempts < attempt.maxAttempts)
  }

  ghost predicate ReversesSoundly(t: Tx, seen: Option<Tx>, reversed: bool, tx: Tx) {
    && seen.Some? && !reversed && tx.refId == seen.value.id && seen.value.state == Processed
    && RefersTo(t.kind, seen.value.kind)
    && seen.value.walletId == t.walletId && seen.value.amount == t.amount
  }

  /** The events owed by an outcome. */
  function EventsOf(tx: Tx, wallet: WalletRow, entry: Option<Entry>, attempt: Attempt): seq<Data> {
    match tx.state
    case Processed =>
      [TransactionProcessed(SummaryOf(tx), wallet.balance)]
      + (if entry.Some? then [ChangeOf(entry.value, wallet.version)] else [])
    case Rejected => [TransactionRejected(SummaryOf(tx), tx.code)]
    case _ => if attempt.Arrival? then [TransactionPending(SummaryOf(tx), tx.refExt)] else []
  }

  /** What every decision amounts to, whichever branch took it: nothing moves unless the
      operation is processed, and a processed operation moves its wallet by its signed
      amount, once, leaving its balance as the result; a processed reversal has a processed
      reference of the same wallet and amount, of a kind it may refer to, not yet reversed. */
  ghost predicate Sound(w: WalletRow, t: Tx, seen: Option<Tx>, reversed: bool, attempt: Attempt, entryId: ID, d: Decision)
  {
    var tx := d.tx;
    && tx.SameIdentity(t)
    && (tx.state == PendingReference || tx.state == Rejected || tx.state == Processed)
    && (tx.state != Processed ==> d.wallet == w && d.entry == None && tx.result == None)
    && (tx.state == Rejected <==> tx.code != NoFailure)
    && (tx.state == PendingReference ==> WaitsSoundly(t, seen, attempt, tx))
    && (tx.state == Processed ==>
          tx.result == Some(d.wallet.balance) && MovedBy(w, t, seen, entryId, Effect(d.wallet, d.entry)))
    && (IsProcessedReversal(tx) ==> ReversesSoundly(t, seen, reversed, tx))
    && d.events == EventsOf(tx, d.wallet, d.entry, attempt)
  }

  /** What a settlement may start from: a new operation, or one still waiting. */
  ghost predicate Settles(t: Tx, attempt: Attempt) {
    && IsExternalRecord(t) && t.code == NoFailure && t.result == None
    && t.state == if attempt.Arrival? then Pending else PendingReference
  }

  lemma AppliedMovesByTheSignedAmount(w: WalletRow, t: Tx, reference: Option<Tx>, entryId: ID, at: Time)
    requires w.Valid() && Applied(w, t, reference, entryId, at).Ok?
    ensures MovedBy(w, t, reference, entryId, Applied(w, t, reference, entryId, at).value)
  {
  }

  /** Attaching the reference changes nothing else, and a lookup that answers found a
      reference the operation agrees with; only a reference still awaited keeps it waiting. */
  lemma ReferencedSoundly(t: Tx, seen: Option<Tx>, reversed: bool)
    requires ValidateKindReference(t.kind, t.refExt).Ok? && !t.state.IsTerminal()
    ensures var r := Referenced(t, seen, reversed);
            && r.tx == t.(refId := r.tx.refId)
            && (r.found == Err(ReferencePending) <==> t.refExt != "" && Waiting(seen))
            && (r.found == Err(ReferencePending) ==> r.tx == t)
            && (r.found.Ok? ==> r.found.value == if t.refExt == "" then None else seen)
            && (r.found.Ok? && t.kind.IsReversal() ==>
                  ReversesSoundly(t, seen, reversed, r.tx))
  {
  }

  lemma ClosedSoundly(w: WalletRow, t: Tx, moved: Result<Effect>, attempt: Attempt, at: Time)
    requires !t.state.IsTerminal() && t.code == NoFailure && t.result == None
    requires Closed(w, t, moved, attempt, at).Ok?
    requires moved.Ok? && moved.value.entry.Some? ==> moved.value.entry.value.walletId == moved.value.wallet.id
    ensures var d := Closed(w, t, moved, attempt, at).value;
            && d.tx == t.(state := d.tx.state, code := d.tx.code, result := d.tx.result, attempts := d.tx.attempts,
                          updatedAt := d.tx.updatedAt)
            && (d.tx.state == Processed <==> moved.Ok?)
            && (moved.Ok? ==> Effect(d.wallet, d.entry) == moved.value && d.tx.result == Some(d.wallet.balance))
            && (moved.Err? ==> d.wallet == w && d.entry == None && d.tx.result == None)
            && (d.tx.state == PendingReference || d.tx.state == Rejected || d.tx.state == Processed)
            && (d.tx.state == Rejected <==> d.tx.code != NoFailure)
            && (d.tx.state == PendingReference ==>
                  && moved == Err(ReferencePending)
                  && d.tx.attempts == t.attempts + (if attempt.Again? then 1 else 0)
                  && (attempt.Again? ==> d.tx.attempts < attempt.maxAttempts))
            && d.events == EventsOf(d.tx, d.wallet, d.entry, attempt)
  {
  }

  lemma DecisionIsSound(w: WalletRow, t: Tx, seen: Option<Tx>, reversed: bool, attempt: Attempt, entryId: ID, at: Time)
    requires w.Valid() && Settles(t, attempt)
    requires Decide(w, t, seen, reversed, attempt, entryId, at).Ok?
    ensures Sound(w, t, seen, reversed, attempt, entryId, Decide(w, t, seen, reversed, attempt, entryId, at).value)
  {
    var r := Referenced(t, seen, reversed);
    var moved := Movement(w, r, entryId, at);
    var d := Closed(w, r.tx, moved, attempt, at).value;
    ReferencedSoundly(t, seen, reversed);
    assert moved.Ok? ==> MovedBy(w, t, seen, entryId, moved.value) by {
      if moved.Ok? {
        AppliedMovesByTheSignedAmount(w, r.tx, r.found.value, entryId, at);
        SameMovement(w, t, r.tx, r.found.value, seen, entryId, moved.value);
      }
    }
    assert moved == Err(ReferencePending) ==> r.found == Err(ReferencePending) by { OnlyTheReferenceWaits(w, r, entryId, at); }
    ClosedSoundly(w, r.tx, moved, attempt, at);
  }

  lemma SameMovement(w: WalletRow, t: Tx, tx: Tx, reference: Option<Tx>, seen: Option<Tx>, entryId: ID, effect: Effect)
    requires MovedBy(w, tx, reference, entryId, effect) && tx == t.(refId := tx.refId)
    requires ValidateKindReference(t.kind, t.refExt).Ok? && (reference == if t.refExt == "" then None else seen)
    ensures MovedBy(w, t, seen, entryId, effect)
  {
  }

  lemma OnlyTheReferenceWaits(w: WalletRow, r: Reference, entryId: ID, at: Time)
    ensures Movement(w, r, entryId, at) == Err(ReferencePending) <==> r.found == Err(ReferencePending)
  {
  }

  /** Whether a reference was reversed matters only once it resolved: the answer of the
      second query is ignored for a reference of another wallet, or one still awaited. */
  lemma OnlyAResolvedReferenceIsChecked(t: Tx, seen: Option<Tx>, a: bool, b: bool)
    requires Waiting(seen) || seen.value.walletId != t.walletId || a == b
    ensures Referenced(t, seen, a) == Referenced(t, seen, b)
  {
  }

  /** How a reference is awaited makes no difference: not arrived, or not concluded. */
  lemma WaitingIsWaiting(w: WalletRow, t: Tx, seen: Option<Tx>, now: Option<Tx>, a: bool, b: bool, attempt: Attempt,
                         entryId: ID, at: Time)
    requires t.refExt != "" && Waiting(seen) && Waiting(now)
    ensures Decide(w, t, seen, a, attempt, entryId, at) == Decide(w, t, now, b, attempt, entryId, at)
  {
    assert Referenced(t, seen, a) == Referenced(t, now, b);
  }

  /** A concluded reference in another wallet is refused by name. */
  lemma CrossWalletIsRefused(
      w: WalletRow, t: Tx, seen: Option<Tx>, reversed: bool, attempt: Attempt, entryId: ID, at: Time)
    requires w.Valid() && Settles(t, attempt) && t.refExt != "" && !Waiting(seen)
    requires seen.value.walletId != t.walletId && seen.value.provider == t.provider && seen.value.ext == t.refExt
    requires Decide(w, t, seen, reversed, attempt, entryId, at).Ok?
    ensures var tx := Decide(w, t, seen, reversed, attempt, entryId, at).value.tx;
            tx.state == Rejected && (tx.code == ReferenceMismatch || tx.code == ReferenceNotProcessed)
  {
    var r := Referenced(t, seen, reversed);
    assert r.found == Err(Rejection(ReferenceMismatch, false)) || r.found == Err(Rejection(ReferenceNotProcessed, false));
    assert Movement(w, r, entryId, at) == Err(r.found.error);
  }

  /** A reference in another wallet never moves money: the operation is rejected, or waits. */
  lemma CrossWalletMovesNothing(
      w: WalletRow, t: Tx, seen: Option<Tx>, reversed: bool, attempt: Attempt, entryId: ID, at: Time)
    requires w.Valid() && Settles(t, attempt) && t.refExt != ""
    requires seen.Some? && seen.value.walletId != t.walletId
    requires Decide(w, t, seen, reversed, attempt, entryId, at).Ok?
    ensures var d := Decide(w, t, seen, reversed, attempt, entryId, at).value;
            d.tx.state != Processed && d.wallet == w && d.entry == None
  {
    var r := Referenced(t, seen, reversed);
    assert r.found.Err?;
    ReferencedSoundly(t, seen, reversed);
    ClosedSoundly(w, r.tx, Movement(w, r, entryId, at), attempt, at);
  }

  /** Neither does one still awaited: the operation waits, or is given up as not found. */
  lemma WaitingMovesNothing(
      w: WalletRow, t: Tx, seen: Option<Tx>, reversed: bool, attempt: Attempt, entryId: ID, at: Time)
    requires w.Valid() && Settles(t, attempt) && t.refExt != "" && Waiting(seen)
    requires Decide(w, t, seen, reversed, attempt, entryId, at).Ok?
    ensures var d := Decide(w, t, seen, reversed, attempt, entryId, at).value;
            && d.wallet == w && d.entry == None
            && (d.tx.state == PendingReference || (d.tx.state == Rejected && d.tx.code == ReferenceNotFound))
  {
    var r := Referenced(t, seen, reversed);
    assert Movement(w, r, entryId, at) == Err(ReferencePending);
  }
}
