/** What each use case comes to over the tables: its answer, every row it writes and every error,
    column by column. The use cases, statement by statement, are proved to come to that. */
module Outcomes {
  import opened Domain
  import opened Money
  import opened Wager
  import opened Ledger
  import opened Events
  import opened Database
  import opened Settlement
  import opened Rules
  import opened Accounting
  import opened Conservation
  import opened Books
  import opened UseCases
  import opened Failing

  // ------------------------------------------------------------------ lookups

  /** The operation was sent by the provider under the key. */
  predicate SentUnder(x: Tx, provider: string, key: string) {
    x.kind != Opening && x.provider == provider && x.key == key
  }

  /** The provider calls the operation by the name. */
  predicate Named(x: Tx, provider: string, ext: string) {
    x.kind != Opening && x.provider == provider && x.ext == ext
  }

  /** What an operation finds of the one it refers to. */
  ghost predicate Refers(txs: seq<Tx>, provider: string, refExt: string, seen: Option<Tx>) {
    if refExt == "" then seen == None
    else if seen.Some? then seen.value in txs && Named(seen.value, provider, refExt)
    else forall x :: x in txs ==> !Named(x, provider, refExt)
  }

  predicate UndoneBy(x: Tx, id: ID) {
    (x.kind == Refund || x.kind == Rollback) && x.state == Processed && x.refId == id
  }

  predicate Undone(txs: seq<Tx>, seen: Option<Tx>) {
    seen.Some? && exists x :: x in txs && UndoneBy(x, seen.value.id)
  }

  lemma LookupIsThis(txs: seq<Tx>, t: Tx)
    ensures Refers(txs, t.provider, t.refExt, LookedUp(txs, t))
    ensures Reversed(txs, LookedUp(txs, t)) <==> Undone(txs, LookedUp(txs, t))
  {
    var seen := LookedUp(txs, t);
    forall x | x in txs ensures ByExt(t.provider, t.refExt)(x) <==> Named(x, t.provider, t.refExt) {}
    if seen.Some? {
      forall x | x in txs ensures ReversalOf(seen.value.id)(x) <==> UndoneBy(x, seen.value.id) {}
    }
  }

  // --------------------------------------------------------------- operation

  /** The first thing wrong with an operation as it was received, or NoFailure. */
  function Flaw(input: Input): FailureCode {
    var p := input.payload;
    if input.correlationId == "" || p.money.currency.code == "" then InvalidInput
    else if p.kind == Opening then KindNotAllowed
    else if p.walletId == NIL_ID || p.playerId == NIL_ID || p.provider == "" || p.ext == "" || input.key == ""
            || p.roundId == "" || p.gameId == "" then InvalidInput
    else if if p.kind == Loss then p.money.minorUnits != 0 else p.money.minorUnits <= 0 then InvalidAmount
    else if (if p.kind == Bet || p.kind == Loss then p.refExt != "" else p.kind != Win && p.refExt == "")
            || p.refExt == p.ext then InvalidInput
    else NoFailure
  }

  /** Its record before it is settled. */
  function Incoming(input: Input, id: ID, at: Time): Tx {
    var p := input.payload;
    Tx(id, p.kind, Pending, p.walletId, p.playerId, p.money, p.provider, p.ext, input.key, Some(p), p.roundId, p.gameId,
       p.refExt, NIL_ID, 0, NoFailure, None, at, at)
  }

  /** The events as they are stored: under the identifiers and numbers drawn, in order. */
  function Posted(data: seq<Data>, w: ID, at: Time, marks: Marks): seq<Event> {
    if data == [] then []
    else if |data| == 1 then [Event(marks.firstId, marks.firstSequence, w, at, data[0])]
    else [Event(marks.firstId, marks.firstSequence, w, at, data[0]),
          Event(marks.secondId, marks.secondSequence, w, at, data[1])]
  }

  /** The tables once a decision is recorded at the row k, new or waiting. */
  function Written(db: Db, k: nat, d: Decision, at: Time, marks: Marks): Db
    requires k <= |db.txs|
  {
    Db(if d.entry == None then db.wallets else db.wallets[d.wallet.id := d.wallet],
       if k < |db.txs| then db.txs[k := d.tx] else db.txs + [d.tx],
       if d.entry == None then db.ledger else db.ledger + [d.entry.value],
       db.outbox + Posted(d.events, d.tx.walletId, at, marks),
       db.inbox)
  }

  /** The whole outcome of an operation received, the reference it names being what was seen. */
  ghost function Processing(db: Db, input: Input, id: ID, entryId: ID, marks: Marks, at: Time, seen: Option<Tx>)
    : Result<(Db, WagerResult)>
  {
    var p := input.payload;
    if Flaw(input) != NoFailure then Err(Validation(Flaw(input)))
    else if p.walletId !in db.wallets then Err(NotFound(WalletNotFound))
    else if exists x :: x in db.txs && SentUnder(x, p.provider, input.key) then
      var x :| x in db.txs && SentUnder(x, p.provider, input.key);
      if x.hash == Some(p) then Ok((db, WagerResult(x.id, Some(x.state), x.code, x.result, true)))
      else Err(Conflict(IdempotencyConflict))
    else if exists x :: x in db.txs && Named(x, p.provider, p.ext) then Err(Conflict(IdempotencyConflict))
    else
      var d :- Ruled(db.wallets[p.walletId], Incoming(input, id, at), seen, Undone(db.txs, seen), Arrival, entryId, at);
      Ok((Written(db, |db.txs|, d, at, marks), WagerResult(id, Some(d.tx.state), d.tx.code, d.tx.result, false)))
  }

  lemma FlawIsRefused(input: Input, id: ID, at: Time)
    requires id != NIL_ID && at != ZERO_TIME && input.correlationId != ""
    ensures var hash := PayloadHash(input);
            if hash.Err? then hash == Err(Validation(Flaw(input))) && Flaw(input) != NoFailure
            else NewExternal(id, input, input.payload, at)
                 == if Flaw(input) == NoFailure then Ok(Incoming(input, id, at)) else Err(Validation(Flaw(input)))
  {
  }

  lemma FlawlessIsNew(input: Input, id: ID, at: Time)
    requires id != NIL_ID && at != ZERO_TIME && Flaw(input) == NoFailure
    ensures IsNew(Incoming(input, id, at)) && NewExternal(id, input, input.payload, at) == Ok(Incoming(input, id, at))
  {
    FlawIsRefused(input, id, at);
  }

  /** An operation is inserted exactly when no row has its identifier, its wallet's opening, its name
      or its key with the provider, nor undoes what it undoes; and which of these is told. */
  lemma CreatedIsThis(db: Db, t: Tx)
    ensures var undoes := (t.kind == Refund || t.kind == Rollback) && t.state == State.Processed;
            TransactionInserted(db, t)
            == if exists x :: x in db.txs && (x.id == t.id || (t.kind == x.kind == Opening && x.walletId == t.walletId))
               then Err(Violation)
               else if t.kind != Opening
                       && exists x :: x in db.txs && (Named(x, t.provider, t.ext) || SentUnder(x, t.provider, t.key))
               then Err(Conflict(IdempotencyConflict))
               else if undoes && exists x :: x in db.txs && UndoneBy(x, t.refId) then Err(Conflict(ReferenceAlreadyReversed))
               else Ok(db.(txs := db.txs + [t]))
  {
    forall x | x in db.txs ensures ByExt(t.provider, t.ext)(x) <==> Named(x, t.provider, t.ext) {}
    forall x | x in db.txs ensures ByKey(t.provider, t.key)(x) <==> SentUnder(x, t.provider, t.key) {}
    forall x | x in db.txs ensures ReversalOf(t.refId)(x) <==> UndoneBy(x, t.refId) {}
    forall x | x in db.txs ensures ById(t.id)(x) <==> x.id == t.id {}
    forall x | x in db.txs ensures OpeningOf(t.walletId)(x) <==> x.kind == Opening && x.walletId == t.walletId {}
  }

  /** An entry is appended exactly when no other has its identifier, or its wallet and operation. */
  lemma EntryIsThis(db: Db, e: Entry)
    ensures EntryAppended(db, e)
            == if exists x :: x in db.ledger
                              && (x.id == e.id || (x.walletId == e.walletId && x.transactionId == e.transactionId))
               then Err(Violation) else Ok(db.(ledger := db.ledger + [e]))
  {
  }

  lemma StampIsPosted(data: seq<Data>, w: ID, at: Time, marks: Marks)
    requires |data| <= 2
    ensures Stamp(data, w, at, marks) == Posted(data, w, at, marks)
  {
  }

  // -------------------------------------------------------------- statements

  /** Identifiers and numbers that no table has. */
  ghost predicate Unseen(db: Db, id: ID, entryId: ID, marks: Marks, at: Time) {
    !HasId(db.txs, id) && FreshFor(db, entryId, marks, at)
  }

  /** What a sound decision writes, once it is recorded. */
  lemma RecordedIsWritten(db: Db, w: WalletRow, t: Tx, seen: Option<Tx>, attempt: Attempt, entryId: ID, d: Decision,
                          at: Time, marks: Marks, maxAttempts: int)
    requires TxsOk(db.txs, maxAttempts) && Settles(t, attempt) && (attempt.Again? ==> t in db.txs)
    requires t.walletId in db.wallets && db.wallets[t.walletId] == w && w.id == t.walletId
    requires Sound(w, t, seen, Reversed(db.txs, seen), attempt, entryId, d)
    requires Recorded(db, attempt, w.version, d, Stamp(d.events, t.walletId, at, marks)).Ok?
    ensures Recorded(db, attempt, w.version, d, Stamp(d.events, t.walletId, at, marks)).value
            == Written(db, Place(db, t, attempt), d, at, marks)
  {
    RecordedEffect(db, w, t, attempt, d, Stamp(d.events, t.walletId, at, marks), maxAttempts);
    StampIsPosted(d.events, t.walletId, at, marks);
    EffectIsWritten(db, w, Place(db, t, attempt), d, at, marks);
  }

  lemma EffectIsWritten(db: Db, w: WalletRow, k: nat, d: Decision, at: Time, marks: Marks)
    requires k <= |db.txs| && w.id in db.wallets && db.wallets[w.id] == w && (d.entry.None? ==> d.wallet == w)
    ensures Written(db, k, d, at, marks)
            == Db(db.wallets[d.wallet.id := d.wallet], Put(db.txs, k, d.tx), db.ledger + Maybe(d.entry),
                  db.outbox + Posted(d.events, d.tx.walletId, at, marks), db.inbox)
  {
  }

  /** Of an operation no row answers for, only an identifier or a number already used is refused. */
  lemma ArrivalIsAccepted(db: Db, w: WalletRow, t: Tx, seen: Option<Tx>, entryId: ID, d: Decision, at: Time, marks: Marks)
    requires IsNew(t) && Replayed(db.txs, t) == Ok(None) && HasWallets(db)
    requires t.walletId in db.wallets && db.wallets[t.walletId] == w && w.id == t.walletId
    requires Sound(w, t, seen, Reversed(db.txs, seen), Arrival, entryId, d)
    ensures var r := Recorded(db, Arrival, w.version, d, Stamp(d.events, t.walletId, at, marks));
            && (r.Err? ==> r == Err(Violation))
            && (Unseen(db, t.id, entryId, marks, at) ==> r.Ok?)
  {
    var saved := TransactionInserted(db, d.tx);
    assert IsProcessedReversal(d.tx) ==> !HasProcessedReversal(db.txs, d.tx.refId);
    assert saved.Err? ==> saved == Err(Violation);
    if saved.Ok? {
      var moved := EntryRecorded(saved.value, w.version, d);
      assert moved.Err? ==> moved == Err(Violation);
      if moved.Ok? {
        EventsRefused(moved.value, Stamp(d.events, t.walletId, at, marks));
        if FreshFor(db, entryId, marks, at) {
          StampedEventsAreAppended(moved.value, d.events, t.walletId, at, marks);
        }
      }
    }
  }

  lemma {:induction false} EventsRefused(db: Db, events: seq<Event>)
    ensures EventsAppended(db, events).Err? ==> EventsAppended(db, events) == Err(Violation)
    decreases |events|
  {
    if events != [] && EventAppended(db, events[0]).Ok? {
      EventsRefused(EventAppended(db, events[0]).value, events[1..]);
    }
  }

  // ---------------------------------------------------------------- arrivals

  lemma SeenIsConsistent(db: Db, t: Tx, attempt: Attempt, entryId: ID, at: Time, maxAttempts: int)
    requires WalletsOk(db) && TxsOk(db.txs, maxAttempts) && t.walletId in db.wallets && Settles(t, attempt)
    requires entryId != NIL_ID && at != ZERO_TIME && (attempt.Again? ==> attempt.maxAttempts >= 1)
    ensures Consistent(db.wallets[t.walletId], t, LookedUp(db.txs, t), attempt, entryId, at)
  {
    var seen := LookedUp(db.txs, t);
    if seen.Some? {
      assert RowOk(seen.value, maxAttempts);
    }
  }

  /** The arrival of an operation no row answers for: what the rules say, written as it stands,
      unless an identifier or a number was already used. */
  lemma ArrivedIsRuled(db: Db, w: WalletRow, t: Tx, entryId: ID, marks: Marks, maxAttempts: int)
    requires WalletsOk(db) && TxsOk(db.txs, maxAttempts) && HasWallets(db) && IsNew(t) && entryId != NIL_ID
    requires t.walletId in db.wallets && db.wallets[t.walletId] == w && Replayed(db.txs, t) == Ok(None)
    ensures var seen, r := LookedUp(db.txs, t), Arrived(db, w, t, entryId, marks);
            match Ruled(w, t, seen, Reversed(db.txs, seen), Arrival, entryId, t.createdAt)
            case Err(e) => r == Err(e)
            case Ok(d) =>
              && (r == Ok((Written(db, |db.txs|, d, t.createdAt, marks), d.tx)) || r == Err(Violation))
              && (Unseen(db, t.id, entryId, marks, t.createdAt) ==> r.Ok?)
  {
    var seen, at := LookedUp(db.txs, t), t.createdAt;
    SeenIsConsistent(db, t, Arrival, entryId, at, maxAttempts);
    DecisionIsRuled(w, t, seen, Reversed(db.txs, seen), Arrival, entryId, at);
    var decided := Decide(w, t, seen, Reversed(db.txs, seen), Arrival, entryId, at);
    if decided.Ok? {
      DecidedIsWritten(db, w, t, seen, entryId, decided.value, marks, maxAttempts);
    }
  }

  lemma DecidedIsWritten(db: Db, w: WalletRow, t: Tx, seen: Option<Tx>, entryId: ID, d: Decision, marks: Marks,
                         maxAttempts: int)
    requires WalletsOk(db) && TxsOk(db.txs, maxAttempts) && HasWallets(db) && IsNew(t)
    requires t.walletId in db.wallets && db.wallets[t.walletId] == w && Replayed(db.txs, t) == Ok(None)
    requires Decide(w, t, seen, Reversed(db.txs, seen), Arrival, entryId, t.createdAt) == Ok(d)
    ensures var r := Recorded(db, Arrival, w.version, d, Stamp(d.events, t.walletId, t.createdAt, marks));
            && (r == Ok(Written(db, |db.txs|, d, t.createdAt, marks)) || r == Err(Violation))
            && (Unseen(db, t.id, entryId, marks, t.createdAt) ==> r.Ok?)
  {
    assert Sound(w, t, seen, Reversed(db.txs, seen), Arrival, entryId, d) by {
      DecisionIsSound(w, t, seen, Reversed(db.txs, seen), Arrival, entryId, t.createdAt);
    }
    ArrivalIsAccepted(db, w, t, seen, entryId, d, t.createdAt, marks);
    if Recorded(db, Arrival, w.version, d, Stamp(d.events, t.walletId, t.createdAt, marks)).Ok? {
      RecordedIsWritten(db, w, t, seen, Arrival, entryId, d, t.createdAt, marks, maxAttempts);
    }
  }

  /** What answers for an operation among the rows: one under its key, or one under its name. */
  lemma ReplayedIsThis(db: Db, input: Input, id: ID, at: Time, maxAttempts: int)
    requires TxsOk(db.txs, maxAttempts)
    ensures var p, t, r := input.payload, Incoming(input, id, at), Replayed(db.txs, Incoming(input, id, at));
            && (forall x :: x in db.txs && SentUnder(x, p.provider, input.key) ==>
                  r == if x.hash == Some(p) then Ok(Some(x)) else Err(Conflict(IdempotencyConflict)))
            && ((forall x :: x in db.txs ==> !SentUnder(x, p.provider, input.key)) ==>
                  r == if exists x :: x in db.txs && Named(x, p.provider, p.ext) then Err(Conflict(IdempotencyConflict))
                       else Ok(None))
  {
    var p := input.payload;
    var found := FindByKey(db.txs, p.provider, input.key);
    forall x | x in db.txs ensures ByKey(p.provider, input.key)(x) <==> SentUnder(x, p.provider, input.key) {}
    forall x | x in db.txs ensures ByExt(p.provider, p.ext)(x) <==> Named(x, p.provider, p.ext) {}
    forall x | x in db.txs && SentUnder(x, p.provider, input.key) ensures found == Some(x) {
      assert ByKey(p.provider, input.key)(x);
      var i :| 0 <= i < |db.txs| && db.txs[i] == x;
      var j :| 0 <= j < |db.txs| && db.txs[j] == found.value;
      assert i != j ==> SameIdentifier(db.txs[i], db.txs[j]) && SameIdentifier(db.txs[j], db.txs[i]);
    }
  }

  lemma ProcessedIsSettled(db: Db, input: Input, id: ID, entryId: ID, marks: Marks, at: Time)
    requires id != NIL_ID && at != ZERO_TIME
    ensures UseCases.Processed(db, input, id, entryId, marks, at)
            == if Flaw(input) != NoFailure then Err(Validation(Flaw(input)))
               else Settled(db, Incoming(input, id, at), entryId, marks)
  {
    if input.correlationId != "" {
      FlawIsRefused(input, id, at);
    }
  }

  lemma SettledIsReplayed(db: Db, t: Tx, entryId: ID, marks: Marks)
    ensures Settled(db, t, entryId, marks)
            == if t.walletId !in db.wallets then Err(NotFound(WalletNotFound))
               else match Replayed(db.txs, t)
                    case Err(e) => Err(e)
                    case Ok(Some(x)) => Ok((db, WagerResult(x.id, Some(x.state), x.code, x.result, true)))
                    case Ok(None) =>
                      match Arrived(db, db.wallets[t.walletId], t, entryId, marks)
                      case Err(e) => Err(e)
                      case Ok(done) =>
                        Ok((done.0, WagerResult(done.1.id, Some(done.1.state), done.1.code, done.1.result, false)))
  {
  }

  lemma RuledKeepsTheId(w: WalletRow, t: Tx, seen: Option<Tx>, reversed: bool, attempt: Attempt, entryId: ID, at: Time)
    ensures var r := Ruled(w, t, seen, reversed, attempt, entryId, at); r.Ok? ==> r.value.tx.SameIdentity(t)
  {
  }

  lemma NewIsRuled(db: Db, input: Input, id: ID, entryId: ID, marks: Marks, at: Time, maxAttempts: int)
    requires WalletsOk(db) && TxsOk(db.txs, maxAttempts) && HasWallets(db)
    requires id != NIL_ID && entryId != NIL_ID && at != ZERO_TIME
    requires Flaw(input) == NoFailure && input.payload.walletId in db.wallets
    requires Replayed(db.txs, Incoming(input, id, at)) == Ok(None)
    ensures var t := Incoming(input, id, at);
            var seen, r := LookedUp(db.txs, t), Settled(db, t, entryId, marks);
            match Ruled(db.wallets[t.walletId], t, seen, Reversed(db.txs, seen), Arrival, entryId, at)
            case Err(e) => r == Err(e)
            case Ok(d) =>
              && (r == Ok((Written(db, |db.txs|, d, at, marks),
                           WagerResult(id, Some(d.tx.state), d.tx.code, d.tx.result, false)))
                  || r == Err(Violation))
              && (Unseen(db, id, entryId, marks, at) ==> r.Ok?)
  {
    var t := Incoming(input, id, at);
    var seen := LookedUp(db.txs, t);
    FlawlessIsNew(input, id, at);
    ArrivedIsRuled(db, db.wallets[t.walletId], t, entryId, marks, maxAttempts);
    SettledIsReplayed(db, t, entryId, marks);
    RuledKeepsTheId(db.wallets[t.walletId], t, seen, Reversed(db.txs, seen), Arrival, entryId, at);
  }

  /** What was answered is what the rules say, or an identifier or a number was already used. */
  ghost predicate Comes<T>(r: Result<T>, ruled: Result<T>, unseen: bool) {
    (r == ruled || r == Err(Violation)) && (unseen ==> r == ruled)
  }

  lemma FlawlessInFull(db: Db, input: Input, id: ID, entryId: ID, marks: Marks, at: Time, maxAttempts: int)
    requires WalletsOk(db) && TxsOk(db.txs, maxAttempts) && HasWallets(db)
    requires id != NIL_ID && entryId != NIL_ID && at != ZERO_TIME
    requires Flaw(input) == NoFailure && input.payload.walletId in db.wallets
    ensures var t := Incoming(input, id, at);
            Comes(Settled(db, t, entryId, marks), Processing(db, input, id, entryId, marks, at, LookedUp(db.txs, t)),
                  Unseen(db, id, entryId, marks, at))
  {
    var t := Incoming(input, id, at);
    LookupIsThis(db.txs, t);
    if Replayed(db.txs, t) == Ok(None) {
      NewIsRuled(db, input, id, entryId, marks, at, maxAttempts);
      NewIsProcessing(db, input, id, entryId, marks, at, LookedUp(db.txs, t), maxAttempts);
    } else {
      KnownInFull(db, input, id, entryId, marks, at, LookedUp(db.txs, t), maxAttempts);
    }
  }

  lemma NewIsProcessing(db: Db, input: Input, id: ID, entryId: ID, marks: Marks, at: Time, seen: Option<Tx>,
                        maxAttempts: int)
    requires TxsOk(db.txs, maxAttempts) && Flaw(input) == NoFailure && input.payload.walletId in db.wallets
    requires Replayed(db.txs, Incoming(input, id, at)) == Ok(None)
    ensures Processing(db, input, id, entryId, marks, at, seen)
            == match Ruled(db.wallets[input.payload.walletId], Incoming(input, id, at), seen, Undone(db.txs, seen), Arrival,
                           entryId, at)
               case Err(e) => Err(e)
               case Ok(d) =>
                 Ok((Written(db, |db.txs|, d, at, marks), WagerResult(id, Some(d.tx.state), d.tx.code, d.tx.result, false)))
  {
    ReplayedIsThis(db, input, id, at, maxAttempts);
  }

  lemma KnownInFull(db: Db, input: Input, id: ID, entryId: ID, marks: Marks, at: Time, seen: Option<Tx>, maxAttempts: int)
    requires TxsOk(db.txs, maxAttempts) && Flaw(input) == NoFailure && input.payload.walletId in db.wallets
    requires Replayed(db.txs, Incoming(input, id, at)) != Ok(None)
    ensures Settled(db, Incoming(input, id, at), entryId, marks) == Processing(db, input, id, entryId, marks, at, seen)
  {
    ReplayedIsThis(db, input, id, at, maxAttempts);
    SettledIsReplayed(db, Incoming(input, id, at), entryId, marks);
  }

  /** ProcessWager.Execute in full: over tables in order it answers, writes and refuses exactly
      what the rules say, replays included; an identifier or a number already used is the only
      other error. */
  lemma ProcessedInFull(db: Db, input: Input, id: ID, entryId: ID, marks: Marks, at: Time, maxAttempts: int)
    returns (seen: Option<Tx>)
    requires Balanced(db, maxAttempts) && id != NIL_ID && entryId != NIL_ID && at != ZERO_TIME
    ensures Refers(db.txs, input.payload.provider, input.payload.refExt, seen)
    ensures Comes(UseCases.Processed(db, input, id, entryId, marks, at),
                  Processing(db, input, id, entryId, marks, at, seen), Unseen(db, id, entryId, marks, at))
  {
    seen := LookedUp(db.txs, Incoming(input, id, at));
    LookupIsThis(db.txs, Incoming(input, id, at));
    ProcessedIsSettled(db, input, id, entryId, marks, at);
    if Flaw(input) == NoFailure && input.payload.walletId in db.wallets {
      FlawlessInFull(db, input, id, entryId, marks, at, maxAttempts);
    }
  }

  /** Whatever is answered is stored: the row it names has that state, that code and that balance,
      which is that of the wallet when it was processed just now. A replay is answered exactly when
      no table changes. */
  lemma AnswersAreStored(db: Db, input: Input, id: ID, entryId: ID, marks: Marks, at: Time, maxAttempts: int,
                         done: (Db, WagerResult)) returns (x: Tx)
    requires Balanced(db, maxAttempts) && id != NIL_ID && entryId != NIL_ID && at != ZERO_TIME
    requires UseCases.Processed(db, input, id, entryId, marks, at) == Ok(done)
    ensures var r := done.1;
            && x in done.0.txs && SentUnder(x, input.payload.provider, input.key) && x.hash == Some(input.payload)
            && x.id == r.transactionId && r.state == Some(x.state) && r.code == x.code && r.balance == x.result
            && x.walletId in done.0.wallets
            && (!r.replay && x.state == Processed ==> r.balance == Some(done.0.wallets[x.walletId].balance))
            && (r.replay <==> done.0 == db)
  {
    var seen := ProcessedInFull(db, input, id, entryId, marks, at, maxAttempts);
    if exists y :: y in db.txs && SentUnder(y, input.payload.provider, input.key) {
      x := KnownAnswer(db, input, id, entryId, marks, at, seen, done);
      KnownHasItsWallet(db, x, maxAttempts);
    } else {
      var d := NewAnswer(db, input, id, entryId, marks, at, seen, done);
      x := d.tx;
      NewIsStored(db, input, id, entryId, marks, at, seen, d);
    }
  }

  lemma KnownHasItsWallet(db: Db, x: Tx, maxAttempts: int)
    requires HasWallets(db) && x in db.txs
    ensures x.walletId in db.wallets
  {
  }

  lemma KnownAnswer(db: Db, input: Input, id: ID, entryId: ID, marks: Marks, at: Time, seen: Option<Tx>,
                    done: (Db, WagerResult)) returns (x: Tx)
    requires Processing(db, input, id, entryId, marks, at, seen) == Ok(done)
    requires exists y :: y in db.txs && SentUnder(y, input.payload.provider, input.key)
    ensures x in db.txs && SentUnder(x, input.payload.provider, input.key) && x.hash == Some(input.payload)
    ensures done == (db, WagerResult(x.id, Some(x.state), x.code, x.result, true))
  {
    x :| x in db.txs && SentUnder(x, input.payload.provider, input.key) && x.hash == Some(input.payload)
         && done == (db, WagerResult(x.id, Some(x.state), x.code, x.result, true));
  }

  lemma NewAnswer(db: Db, input: Input, id: ID, entryId: ID, marks: Marks, at: Time, seen: Option<Tx>,
                  done: (Db, WagerResult)) returns (d: Decision)
    requires Processing(db, input, id, entryId, marks, at, seen) == Ok(done)
    requires !exists y :: y in db.txs && SentUnder(y, input.payload.provider, input.key)
    ensures Flaw(input) == NoFailure && input.payload.walletId in db.wallets
    ensures Ruled(db.wallets[input.payload.walletId], Incoming(input, id, at), seen, Undone(db.txs, seen), Arrival, entryId,
                  at) == Ok(d)
    ensures done == (Written(db, |db.txs|, d, at, marks), WagerResult(id, Some(d.tx.state), d.tx.code, d.tx.result, false))
  {
    d := Ruled(db.wallets[input.payload.walletId], Incoming(input, id, at), seen, Undone(db.txs, seen), Arrival, entryId,
               at).value;
  }

  lemma NewIsStored(db: Db, input: Input, id: ID, entryId: ID, marks: Marks, at: Time, seen: Option<Tx>, d: Decision)
    requires Flaw(input) == NoFailure && input.payload.walletId in db.wallets
    requires db.wallets[input.payload.walletId].id == input.payload.walletId
    requires Ruled(db.wallets[input.payload.walletId], Incoming(input, id, at), seen, Undone(db.txs, seen), Arrival, entryId,
                   at) == Ok(d)
    ensures var later, w := Written(db, |db.txs|, d, at, marks), input.payload.walletId;
            && d.tx in later.txs && later != db && w in later.wallets
            && d.tx.SameIdentity(Incoming(input, id, at))
            && (d.tx.state == Processed ==> d.tx.result == Some(later.wallets[w].balance))
  {
    var w, t := db.wallets[input.payload.walletId], Incoming(input, id, at);
    RuledKeepsTheId(w, t, seen, Undone(db.txs, seen), Arrival, entryId, at);
    RuledMovesTheWallet(w, t, seen, Undone(db.txs, seen), entryId, at, d);
    var later := Written(db, |db.txs|, d, at, marks);
    assert later.txs == db.txs + [d.tx] && |later.txs| > |db.txs|;
  }

  lemma RuledMovesTheWallet(w: WalletRow, t: Tx, seen: Option<Tx>, reversed: bool, entryId: ID, at: Time, d: Decision)
    requires Ruled(w, t, seen, reversed, Arrival, entryId, at) == Ok(d) && t.state == Pending
    requires t.kind == Loss ==> t.amount.minorUnits == 0
    ensures d.tx.state == Processed ==> d.tx.result == Some(d.wallet.balance) && d.wallet.id == w.id
    ensures d.entry == None ==> d.wallet == w
  {
  }

  // ------------------------------------------------------------------ retries

  /** The whole outcome of another attempt on the operation at the row k, the reference it names
      being what was seen. */
  function Attempting(db: Db, k: nat, entryId: ID, marks: Marks, maxAttempts: int, at: Time, seen: Option<Tx>)
    : Result<(Db, Option<State>)>
    requires k < |db.txs|
  {
    var t := db.txs[k];
    if t.walletId !in db.wallets then Err(NotFound(WalletNotFound))
    else if t.state != PendingReference then Ok((db, Some(t.state)))
    else
      var d :- Ruled(db.wallets[t.walletId], t, seen, Undone(db.txs, seen), Again(maxAttempts), entryId, at);
      Ok((Written(db, k, d, at, marks), Some(d.tx.state)))
  }

  /** Of a waiting operation, only an identifier or a number already used is refused. */
  lemma AgainIsAccepted(db: Db, k: nat, w: WalletRow, seen: Option<Tx>, entryId: ID, d: Decision, at: Time, marks: Marks,
                        maxAttempts: int)
    requires TxsOk(db.txs, maxAttempts) && k < |db.txs| && db.txs[k].state == PendingReference
    requires db.txs[k].walletId in db.wallets && db.wallets[db.txs[k].walletId] == w && w.id == db.txs[k].walletId
    requires Sound(w, db.txs[k], seen, Reversed(db.txs, seen), Again(maxAttempts), entryId, d)
    requires First(db.txs, ById(db.txs[k].id)) == k
    ensures var r := Recorded(db, Again(maxAttempts), w.version, d, Stamp(d.events, db.txs[k].walletId, at, marks));
            r.Err? ==> r == Err(Violation)
  {
    assert IsProcessedReversal(d.tx) ==> !HasProcessedReversal(db.txs, d.tx.refId);
    var saved := PendingUpdated(db, d.tx);
    assert saved.Ok?;
    var moved := EntryRecorded(saved.value, w.version, d);
    assert moved.Err? ==> moved == Err(Violation);
    if moved.Ok? {
      EventsRefused(moved.value, Stamp(d.events, db.txs[k].walletId, at, marks));
    }
  }

  lemma DecidedAgainIsWritten(db: Db, k: nat, w: WalletRow, seen: Option<Tx>, entryId: ID, d: Decision, at: Time,
                              marks: Marks, maxAttempts: int)
    requires WalletsOk(db) && TxsOk(db.txs, maxAttempts) && TxsAccounted(db) && maxAttempts >= 1 && k < |db.txs|
    requires var t := db.txs[k];
             && t.state == PendingReference && t.walletId in db.wallets && db.wallets[t.walletId] == w
             && seen == LookedUp(db.txs, t)
             && Decide(w, t, seen, Reversed(db.txs, seen), Again(maxAttempts), entryId, at) == Ok(d)
    ensures var r := Recorded(db, Again(maxAttempts), w.version, d, Stamp(d.events, db.txs[k].walletId, at, marks));
            && (r == Ok(Written(db, k, d, at, marks)) || r == Err(Violation))
            && (FreshFor(db, entryId, marks, at) ==> r.Ok?)
  {
    var t := db.txs[k];
    assert RowOk(t, maxAttempts) && t in db.txs;
    PlaceOfAWaiting(db.txs, t);
    SameId(db.txs, First(db.txs, ById(t.id)), k);
    assert Sound(w, t, seen, Reversed(db.txs, seen), Again(maxAttempts), entryId, d) by {
      DecisionIsSound(w, t, seen, Reversed(db.txs, seen), Again(maxAttempts), entryId, at);
    }
    AgainIsAccepted(db, k, w, seen, entryId, d, at, marks, maxAttempts);
    if FreshFor(db, entryId, marks, at) {
      DecidedIsAccepted(db, t, entryId, marks, maxAttempts, at, d);
    }
    if Recorded(db, Again(maxAttempts), w.version, d, Stamp(d.events, t.walletId, at, marks)).Ok? {
      RecordedIsWritten(db, w, t, seen, Again(maxAttempts), entryId, d, at, marks, maxAttempts);
    }
  }

  lemma RetryTriesAgain(db: Db, k: nat, entryId: ID, marks: Marks, maxAttempts: int, at: Time)
    requires DistinctIds(db.txs) && k < |db.txs|
    ensures var t := db.txs[k];
            Retried(db, t.id, t.walletId, entryId, marks, maxAttempts, at)
            == if t.walletId !in db.wallets then Err(NotFound(WalletNotFound))
               else if t.state != PendingReference then Ok((db, Some(t.state)))
               else match TriedAgain(db, db.wallets[t.walletId], t, entryId, marks, maxAttempts, at)
                    case Err(e) => Err(e)
                    case Ok(done) => Ok((done.0, Some(done.1.state)))
  {
    PlaceOfAWaiting(db.txs, db.txs[k]);
  }

  /** ResolvePendingReferences.retry in full: over tables in order another attempt answers, writes
      and refuses exactly what the rules say; an identifier or a number already used is the only
      other error. */
  lemma RetriedInFull(db: Db, k: nat, entryId: ID, marks: Marks, maxAttempts: int, at: Time) returns (seen: Option<Tx>)
    requires Balanced(db, maxAttempts) && k < |db.txs| && entryId != NIL_ID && at != ZERO_TIME
    ensures Refers(db.txs, db.txs[k].provider, db.txs[k].refExt, seen)
    ensures Comes(Retried(db, db.txs[k].id, db.txs[k].walletId, entryId, marks, maxAttempts, at),
                  Attempting(db, k, entryId, marks, maxAttempts, at, seen), FreshFor(db, entryId, marks, at))
  {
    seen := LookedUp(db.txs, db.txs[k]);
    LookupIsThis(db.txs, db.txs[k]);
    RetryIsRuled(db, k, entryId, marks, maxAttempts, at, seen);
  }

  lemma RetryIsRuled(db: Db, k: nat, entryId: ID, marks: Marks, maxAttempts: int, at: Time, seen: Option<Tx>)
    requires WalletsOk(db) && TxsOk(db.txs, maxAttempts) && TxsAccounted(db) && maxAttempts >= 1 && k < |db.txs|
    requires entryId != NIL_ID && at != ZERO_TIME && seen == LookedUp(db.txs, db.txs[k])
    ensures Comes(Retried(db, db.txs[k].id, db.txs[k].walletId, entryId, marks, maxAttempts, at),
                  Attempting(db, k, entryId, marks, maxAttempts, at, seen), FreshFor(db, entryId, marks, at))
  {
    var t := db.txs[k];
    LookupIsThis(db.txs, t);
    RetryTriesAgain(db, k, entryId, marks, maxAttempts, at);
    if t.walletId in db.wallets && t.state == PendingReference {
      TriedIsRuled(db, k, entryId, marks, maxAttempts, at, seen);
    }
  }

  lemma WaitingSettles(txs: seq<Tx>, k: nat, maxAttempts: int)
    requires TxsOk(txs, maxAttempts) && k < |txs| && txs[k].state == PendingReference
    ensures Settles(txs[k], Again(maxAttempts))
  {
    assert RowOk(txs[k], maxAttempts);
  }

  lemma TriedIsRuled(db: Db, k: nat, entryId: ID, marks: Marks, maxAttempts: int, at: Time, seen: Option<Tx>)
    requires WalletsOk(db) && TxsOk(db.txs, maxAttempts) && TxsAccounted(db) && maxAttempts >= 1 && k < |db.txs|
    requires entryId != NIL_ID && at != ZERO_TIME && seen == LookedUp(db.txs, db.txs[k])
    requires db.txs[k].state == PendingReference && db.txs[k].walletId in db.wallets
    ensures var t := db.txs[k];
            var w, r := db.wallets[t.walletId], TriedAgain(db, db.wallets[t.walletId], t, entryId, marks, maxAttempts, at);
            match Ruled(w, t, seen, Reversed(db.txs, seen), Again(maxAttempts), entryId, at)
            case Err(e) => r == Err(e)
            case Ok(d) =>
              && (r == Ok((Written(db, k, d, at, marks), d.tx)) || r == Err(Violation))
              && (FreshFor(db, entryId, marks, at) ==> r.Ok?)
  {
    var t := db.txs[k];
    var w := db.wallets[t.walletId];
    WaitingSettles(db.txs, k, maxAttempts);
    SeenIsConsistent(db, t, Again(maxAttempts), entryId, at, maxAttempts);
    DecisionIsRuled(w, t, seen, Reversed(db.txs, seen), Again(maxAttempts), entryId, at);
    var decided := Decide(w, t, seen, Reversed(db.txs, seen), Again(maxAttempts), entryId, at);
    if decided.Ok? {
      DecidedAgainIsWritten(db, k, w, seen, entryId, decided.value, at, marks, maxAttempts);
    }
  }

  // ----------------------------------------------------------------- messages

  /** The whole outcome of a message: known by its identifier, or processed and recorded. */
  ghost function Receiving(db: Db, m: string, input: Input, id: ID, entryId: ID, marks: Marks, at: Time, seen: Option<Tx>)
    : Result<(Db, WagerResult, bool)>
  {
    if m == "" || input.payload.money.currency.code == "" then Err(Validation(InvalidInput))
    else if m in db.inbox then
      if db.inbox[m].hash != input.payload then Err(Conflict(IdempotencyConflict))
      else Ok((db, WagerResult(db.inbox[m].transactionId, None, NoFailure, None, true), true))
    else
      var done :- Processing(db, input, id, entryId, marks, at, seen);
      Ok((done.0.(inbox := db.inbox[m := InboxRow(input.payload, done.1.transactionId)]), done.1, false))
  }

  lemma ProcessingKeepsTheInbox(db: Db, input: Input, id: ID, entryId: ID, marks: Marks, at: Time, seen: Option<Tx>)
    ensures var r := Processing(db, input, id, entryId, marks, at, seen); r.Ok? ==> r.value.0.inbox == db.inbox
  {
  }

  lemma ReceivedIsProcessed(db: Db, m: string, input: Input, id: ID, entryId: ID, marks: Marks, at: Time)
    requires m != "" && input.payload.money.currency.code != "" && m !in db.inbox
    ensures Received(db, m, input, id, entryId, marks, at)
            == match UseCases.Processed(db, input, id, entryId, marks, at)
               case Err(e) => Err(e)
               case Ok(done) =>
                 match InboxRecorded(done.0, m, InboxRow(input.payload, done.1.transactionId))
                 case Err(e) => Err(e)
                 case Ok(recorded) => Ok((recorded, done.1, false))
  {
  }

  lemma KnownMessage(db: Db, m: string, input: Input, id: ID, entryId: ID, marks: Marks, at: Time, seen: Option<Tx>)
    requires m == "" || input.payload.money.currency.code == "" || m in db.inbox
    ensures Received(db, m, input, id, entryId, marks, at) == Receiving(db, m, input, id, entryId, marks, at, seen)
  {
  }

  lemma NewMessage(db: Db, m: string, input: Input, id: ID, entryId: ID, marks: Marks, at: Time, seen: Option<Tx>,
                   unseen: bool)
    requires m != "" && input.payload.money.currency.code != "" && m !in db.inbox
    requires Comes(UseCases.Processed(db, input, id, entryId, marks, at),
                   Processing(db, input, id, entryId, marks, at, seen), unseen)
    ensures Comes(Received(db, m, input, id, entryId, marks, at),
                  Receiving(db, m, input, id, entryId, marks, at, seen), unseen)
  {
    ReceivedIsProcessed(db, m, input, id, entryId, marks, at);
    ProcessingKeepsTheInbox(db, input, id, entryId, marks, at, seen);
  }

  /** ProcessInboxMessage.Execute in full. */
  lemma ReceivedInFull(db: Db, m: string, input: Input, id: ID, entryId: ID, marks: Marks, at: Time, maxAttempts: int)
    returns (seen: Option<Tx>)
    requires Balanced(db, maxAttempts) && id != NIL_ID && entryId != NIL_ID && at != ZERO_TIME
    ensures Refers(db.txs, input.payload.provider, input.payload.refExt, seen)
    ensures Comes(Received(db, m, input, id, entryId, marks, at),
                  Receiving(db, m, input, id, entryId, marks, at, seen), Unseen(db, id, entryId, marks, at))
  {
    seen := ProcessedInFull(db, input, id, entryId, marks, at, maxAttempts);
    if m != "" && input.payload.money.currency.code != "" && m !in db.inbox {
      NewMessage(db, m, input, id, entryId, marks, at, seen, Unseen(db, id, entryId, marks, at));
    } else {
      KnownMessage(db, m, input, id, entryId, marks, at, seen);
    }
  }

  // ----------------------------------------------------------------- openings

  /** A wallet of the player in the currency. */
  predicate Holds(w: WalletRow, playerId: ID, currency: Currency) {
    w.playerId == playerId && w.balance.currency == currency
  }

  ghost predicate HasWallet(db: Db, playerId: ID, currency: Currency) {
    exists k :: k in db.wallets && Holds(db.wallets[k], playerId, currency)
  }

  /** The tables with the wallet, and with its operation, its entry and its events when it starts
      with a balance. */
  function Founded(db: Db, w: WalletRow, openingId: ID, entryId: ID, marks: Marks, at: Time): Db {
    var initial, zero := w.balance, Money(0, w.balance.currency);
    var wallets := db.wallets[w.id := w];
    if initial.minorUnits == 0 then db.(wallets := wallets) else
      Db(wallets,
         db.txs + [Tx(openingId, Opening, State.Processed, w.id, w.playerId, initial, "", "", "", None, "", "", "",
                      NIL_ID, 0, NoFailure, Some(initial), at, at)],
         db.ledger + [Entry(entryId, w.id, openingId, Credit, initial, zero, initial, at)],
         db.outbox + [Event(marks.firstId, marks.firstSequence, w.id, at,
                            TransactionProcessed(Summary(openingId, Opening, w.id, w.playerId, initial, "", "", "", ""),
                                                 initial)),
                      Event(marks.secondId, marks.secondSequence, w.id, at,
                            BalanceChanged(w.id, openingId, Credit, initial, zero, initial, 1))],
         db.inbox)
  }

  /** The whole outcome of an opening. */
  ghost function Founding(db: Db, id: ID, playerId: ID, initial: Money, correlationId: string, openingId: ID, entryId: ID,
                         marks: Marks, at: Time): Result<(Db, WalletRow)>
  {
    if correlationId == "" || playerId == NIL_ID || initial.currency.code == "" then Err(Validation(InvalidInput))
    else if initial.minorUnits < 0 then Err(Validation(InvalidAmount))
    else if HasWallet(db, playerId, initial.currency) then Err(Conflict(WalletAlreadyExists))
    else
      var w := WalletRow(id, playerId, initial, 1, at, at);
      Ok((Founded(db, w, openingId, entryId, marks, at), w))
  }

  lemma OpenIsThis(id: ID, playerId: ID, initial: Money, at: Time)
    requires id != NIL_ID && at != ZERO_TIME
    ensures Open(id, playerId, initial, at)
            == if playerId == NIL_ID || initial.currency.code == "" then Err(Validation(InvalidInput))
               else if initial.minorUnits < 0 then Err(Validation(InvalidAmount))
               else Ok(WalletRow(id, playerId, initial, 1, at, at))
  {
  }

  lemma OpeningIsThis(w: WalletRow, openingId: ID, entryId: ID)
    requires w.Valid() && w.createdAt != ZERO_TIME && openingId != NIL_ID && entryId != NIL_ID && w.version == 1
    ensures var zero, b, at := Money(0, w.balance.currency), w.balance, w.createdAt;
            DecideOpening(w, openingId, entryId)
            == if b.minorUnits == 0 then Ok(None) else
                 Ok(Some(Decision(
                   Tx(openingId, Opening, State.Processed, w.id, w.playerId, b, "", "", "", None, "", "", "", NIL_ID, 0,
                      NoFailure, Some(b), at, at),
                   w,
                   Some(Entry(entryId, w.id, openingId, Credit, b, zero, b, at)),
                   [TransactionProcessed(Summary(openingId, Opening, w.id, w.playerId, b, "", "", "", ""), b),
                    BalanceChanged(w.id, openingId, Credit, b, zero, b, 1)])))
  {
  }

  /** A wallet is inserted exactly when the identifier is free and the player has none in the
      currency. */
  lemma InsertedIsThis(db: Db, w: WalletRow)
    ensures WalletInserted(db, w)
            == if w.id in db.wallets then Err(Violation)
               else if HasWallet(db, w.playerId, w.balance.currency) then Err(Conflict(WalletAlreadyExists))
               else Ok(db.(wallets := db.wallets[w.id := w]))
  {
  }

  lemma CreditIsFounded(db: Db, w: WalletRow, d: Decision, openingId: ID, entryId: ID, marks: Marks)
    requires w.Valid() && w.version == 1 && w.createdAt != ZERO_TIME && openingId != NIL_ID && entryId != NIL_ID
    requires DecideOpening(w, openingId, entryId) == Ok(Some(d)) && w.balance.minorUnits != 0
    requires HasWallets(db) && w.id !in db.wallets && !HasWallet(db, w.playerId, w.balance.currency)
    ensures var r := OpeningRecorded(db, w, Some(d), Stamp(d.events, w.id, w.createdAt, marks));
            && (r == Ok(Founded(db, w, openingId, entryId, marks, w.createdAt)) || r == Err(Violation))
            && (Unseen(db, openingId, entryId, marks, w.createdAt) ==> r.Ok?)
  {
    var events := Stamp(d.events, w.id, w.createdAt, marks);
    OpeningIsThis(w, openingId, entryId);
    InsertedIsThis(db, w);
    CreditIsAccepted(db, db.(wallets := db.wallets[w.id := w]), w, d, openingId, entryId, marks);
    if OpeningRecorded(db, w, Some(d), events).Ok? {
      OpeningEffect(db, w, d, events);
      StampIsPosted(d.events, w.id, w.createdAt, marks);
    }
  }

  lemma CreditIsAccepted(db: Db, created: Db, w: WalletRow, d: Decision, openingId: ID, entryId: ID, marks: Marks)
    requires WalletInserted(db, w) == Ok(created) && created == db.(wallets := db.wallets[w.id := w])
    requires HasWallets(db) && w.id !in db.wallets && d.entry.Some? && |d.events| <= 2
    requires d.tx.id == openingId && d.tx.kind == Opening && d.tx.walletId == w.id
    requires d.entry.value.id == entryId && d.entry.value.walletId == w.id && d.entry.value.transactionId == openingId
    ensures var r := OpeningRecorded(db, w, Some(d), Stamp(d.events, w.id, w.createdAt, marks));
            && (r.Err? ==> r == Err(Violation))
            && (Unseen(db, openingId, entryId, marks, w.createdAt) ==> r.Ok?)
  {
    var saved := TransactionInserted(created, d.tx);
    assert saved.Err? ==> saved == Err(Violation);
    if saved.Ok? {
      var moved := EntryAppended(saved.value, d.entry.value);
      assert moved.Err? ==> moved == Err(Violation);
      if moved.Ok? {
        EventsRefused(moved.value, Stamp(d.events, w.id, w.createdAt, marks));
        if Unseen(db, openingId, entryId, marks, w.createdAt) {
          StampedEventsAreAppended(moved.value, d.events, w.id, w.createdAt, marks);
        }
      }
    }
  }

  lemma CreditedIsFounded(db: Db, w: WalletRow, openingId: ID, entryId: ID, marks: Marks)
    requires w.Valid() && w.version == 1 && w.createdAt != ZERO_TIME && openingId != NIL_ID && entryId != NIL_ID
    requires HasWallets(db) && w.id !in db.wallets
    ensures Comes(Credited(db, w, openingId, entryId, marks),
                  if HasWallet(db, w.playerId, w.balance.currency) then Err(Conflict(WalletAlreadyExists))
                  else Ok(Founded(db, w, openingId, entryId, marks, w.createdAt)),
                  Unseen(db, openingId, entryId, marks, w.createdAt))
  {
    InsertedIsThis(db, w);
    OpeningIsThis(w, openingId, entryId);
    if !HasWallet(db, w.playerId, w.balance.currency) && w.balance.minorUnits != 0 {
      CreditIsFounded(db, w, DecideOpening(w, openingId, entryId).value.value, openingId, entryId, marks);
    }
  }

  /** OpenWallet.Execute in full: a second wallet of a player in a currency is refused, and any
      other is stored with its credit. */
  lemma OpenedInFull(db: Db, id: ID, playerId: ID, initial: Money, correlationId: string, openingId: ID, entryId: ID,
                     marks: Marks, at: Time, maxAttempts: int)
    requires Balanced(db, maxAttempts) && id != NIL_ID && openingId != NIL_ID && entryId != NIL_ID && at != ZERO_TIME
    ensures Comes(Opened(db, id, playerId, initial, correlationId, openingId, entryId, marks, at),
                  Founding(db, id, playerId, initial, correlationId, openingId, entryId, marks, at),
                  id !in db.wallets && Unseen(db, openingId, entryId, marks, at))
  {
    OpenIsThis(id, playerId, initial, at);
    var w := WalletRow(id, playerId, initial, 1, at, at);
    if w.Valid() && id in db.wallets {
      InsertedIsThis(db, w);
    } else if w.Valid() {
      CreditedIsFounded(db, w, openingId, entryId, marks);
    }
  }
}
