/** When another attempt on a waiting operation fails: with identifiers and numbers nobody used,
    exactly when its credit would leave the range. */
module Failing {
  import opened Domain
  import opened Sequences
  import opened Wager
  import opened Ledger
  import opened Events
  import opened Database
  import opened Settlement
  import opened Rules
  import opened Accounting
  import opened Conservation
  import opened Books
  import opened UseCases

  // --------------------------------------------------------------- freshness

  predicate Apart(a: Marks, b: Marks) {
    && a.firstId != b.firstId && a.firstId != b.secondId && a.secondId != b.firstId && a.secondId != b.secondId
    && a.firstSequence != b.firstSequence && a.firstSequence != b.secondSequence
    && a.secondSequence != b.firstSequence && a.secondSequence != b.secondSequence
  }

  predicate Unused(outbox: seq<Event>, marks: Marks) {
    && marks.firstId != marks.secondId && marks.firstSequence != marks.secondSequence
    && forall x :: x in outbox ==> x.id != marks.firstId && x.id != marks.secondId
                                   && x.sequence != marks.firstSequence && x.sequence != marks.secondSequence
  }

  /** Identifiers and numbers that are set, differ, and are in no table. */
  predicate FreshFor(db: Db, entryId: ID, marks: Marks, at: Time) {
    && entryId != NIL_ID && at != ZERO_TIME
    && (forall e :: e in db.ledger ==> e.id != entryId)
    && Unused(db.outbox, marks)
  }

  // ----------------------------------------------------------------- verdict

  function VerdictNow(db: Db, t: Tx): Verdict
    requires t.walletId in db.wallets
  {
    VerdictOn(db.wallets[t.walletId], t, LookedUp(db.txs, t), Reversed(db.txs, LookedUp(db.txs, t)))
  }

  /** The rules accept the operation, and its credit leaves the range. */
  predicate Overflows(db: Db, t: Tx) {
    t.walletId in db.wallets && VerdictNow(db, t) == Overflow
  }

  lemma WaitingIsConsistent(db: Db, t: Tx, entryId: ID, maxAttempts: int, at: Time)
    requires WalletsOk(db) && TxsOk(db.txs, maxAttempts) && maxAttempts >= 1
    requires t in db.txs && t.state == PendingReference && t.walletId in db.wallets
    requires entryId != NIL_ID && at != ZERO_TIME
    ensures Consistent(db.wallets[t.walletId], t, LookedUp(db.txs, t), Again(maxAttempts), entryId, at)
  {
    assert RowOk(t, maxAttempts);
    var seen := LookedUp(db.txs, t);
    if seen.Some? {
      assert RowOk(seen.value, maxAttempts);
    }
  }

  // -------------------------------------------------------------- statements

  lemma {:induction false} UnusedEventsAreAppended(db: Db, events: seq<Event>)
    requires forall i, j :: 0 <= i < j < |events| ==> events[i].id != events[j].id && events[i].sequence != events[j].sequence
    requires forall x, k :: x in db.outbox && 0 <= k < |events| ==> x.id != events[k].id && x.sequence != events[k].sequence
    ensures EventsAppended(db, events).Ok?
    decreases |events|
  {
    if events != [] {
      UnusedEventsAreAppended(EventAppended(db, events[0]).value, events[1..]);
    }
  }

  lemma StampedEventsAreAppended(db: Db, data: seq<Data>, w: ID, at: Time, marks: Marks)
    requires Unused(db.outbox, marks) && |data| <= 2
    ensures EventsAppended(db, Stamp(data, w, at, marks)).Ok?
  {
    UnusedEventsAreAppended(db, Stamp(data, w, at, marks));
  }

  /** The statements of an attempt are accepted: the row still waits, the version is the one
      loaded, and the entry is the first of its operation. */
  lemma AttemptIsAccepted(db: Db, k: nat, w: WalletRow, d: Decision, attempt: Attempt, data: seq<Data>, at: Time,
                          marks: Marks)
    requires attempt.Again? && k < |db.txs| && First(db.txs, ById(d.tx.id)) == k && db.txs[k].state == PendingReference
    requires IsProcessedReversal(d.tx) ==> !HasProcessedReversal(db.txs, d.tx.refId)
    requires d.entry.Some? ==> d.wallet.id in db.wallets && db.wallets[d.wallet.id] == w
    requires d.entry.Some? ==> var e := d.entry.value;
               forall x :: x in db.ledger ==> x.id != e.id && x.transactionId != e.transactionId
    requires Unused(db.outbox, marks) && |data| <= 2
    ensures Recorded(db, attempt, w.version, d, Stamp(data, w.id, at, marks)).Ok?
  {
    var saved := PendingUpdated(db, d.tx).value;
    var moved := EntryRecorded(saved, w.version, d);
    assert moved.Ok? && moved.value.outbox == db.outbox;
    StampedEventsAreAppended(moved.value, data, w.id, at, marks);
  }

  /** A waiting operation has no entry yet. */
  lemma NoEntryYet(db: Db, t: Tx)
    requires TxsAccounted(db) && t in db.txs && t.state == PendingReference
    ensures forall x :: x in db.ledger ==> x.transactionId != t.id
  {
    assert EntriesAccounted(db, t);
    forall x | x in db.ledger ensures x.transactionId != t.id {
      if x.transactionId == t.id {
        FilterMembers(db.ledger, OfTransaction(t.id), x);
      }
    }
  }

  // ----------------------------------------------------------------- attempt

  lemma SoundIsAccepted(db: Db, k: nat, w: WalletRow, t: Tx, seen: Option<Tx>, entryId: ID, d: Decision, marks: Marks,
                        maxAttempts: int, at: Time)
    requires k < |db.txs| && First(db.txs, ById(t.id)) == k && db.txs[k].state == PendingReference
    requires t.walletId in db.wallets && db.wallets[t.walletId] == w && w.id == t.walletId
    requires Sound(w, t, seen, Reversed(db.txs, seen), Again(maxAttempts), entryId, d)
    requires forall x :: x in db.ledger ==> x.transactionId != t.id
    requires FreshFor(db, entryId, marks, at)
    ensures Recorded(db, Again(maxAttempts), w.version, d, Stamp(d.events, t.walletId, at, marks)).Ok?
  {
    assert IsProcessedReversal(d.tx) ==> !HasProcessedReversal(db.txs, d.tx.refId);
    AttemptIsAccepted(db, k, w, d, Again(maxAttempts), d.events, at, marks);
  }

  lemma DecidedIsAccepted(db: Db, t: Tx, entryId: ID, marks: Marks, maxAttempts: int, at: Time, d: Decision)
    requires WalletsOk(db) && TxsOk(db.txs, maxAttempts) && TxsAccounted(db) && maxAttempts >= 1
    requires t in db.txs && t.state == PendingReference && t.walletId in db.wallets && FreshFor(db, entryId, marks, at)
    requires var seen := LookedUp(db.txs, t);
             Decide(db.wallets[t.walletId], t, seen, Reversed(db.txs, seen), Again(maxAttempts), entryId, at) == Ok(d)
    ensures Recorded(db, Again(maxAttempts), db.wallets[t.walletId].version, d, Stamp(d.events, t.walletId, at, marks)).Ok?
  {
    var w, seen := db.wallets[t.walletId], LookedUp(db.txs, t);
    assert RowOk(t, maxAttempts);
    assert Sound(w, t, seen, Reversed(db.txs, seen), Again(maxAttempts), entryId, d) by {
      DecisionIsSound(w, t, seen, Reversed(db.txs, seen), Again(maxAttempts), entryId, at);
    }
    PlaceOfAWaiting(db.txs, t);
    NoEntryYet(db, t);
    SoundIsAccepted(db, First(db.txs, ById(t.id)), w, t, seen, entryId, d, marks, maxAttempts, at);
  }

  lemma TriedAgainFailsOnOverflow(db: Db, t: Tx, entryId: ID, marks: Marks, maxAttempts: int, at: Time)
    requires WalletsOk(db) && TxsOk(db.txs, maxAttempts) && TxsAccounted(db) && maxAttempts >= 1
    requires t in db.txs && t.state == PendingReference && t.walletId in db.wallets && FreshFor(db, entryId, marks, at)
    ensures var r := TriedAgain(db, db.wallets[t.walletId], t, entryId, marks, maxAttempts, at);
            if Overflows(db, t) then r == Err(Validation(AmountOverflow)) else r.Ok?
  {
    var w, seen := db.wallets[t.walletId], LookedUp(db.txs, t);
    WaitingIsConsistent(db, t, entryId, maxAttempts, at);
    DecisionFollowsTheRules(w, t, seen, Reversed(db.txs, seen), Again(maxAttempts), entryId, at);
    var d := Decide(w, t, seen, Reversed(db.txs, seen), Again(maxAttempts), entryId, at);
    if d.Ok? {
      DecidedIsAccepted(db, t, entryId, marks, maxAttempts, at, d.value);
    }
  }

  lemma RetriedOfWaiting(db: Db, t: Tx, entryId: ID, marks: Marks, maxAttempts: int, at: Time)
    requires DistinctIds(db.txs) && t in db.txs && t.state == PendingReference && t.walletId in db.wallets
    ensures Retried(db, t.id, t.walletId, entryId, marks, maxAttempts, at)
            == (var done :- TriedAgain(db, db.wallets[t.walletId], t, entryId, marks, maxAttempts, at);
                Ok((done.0, Some(done.1.state))))
  {
    PlaceOfAWaiting(db.txs, t);
  }

  /** Another attempt on a waiting operation, under identifiers and numbers nobody used, fails
      exactly when the rules accept it and its credit would leave the range, and with that
      error. */
  lemma AttemptFailsOnOverflow(db: Db, t: Tx, entryId: ID, marks: Marks, maxAttempts: int, at: Time)
    requires Balanced(db, maxAttempts) && t in db.txs && t.state == PendingReference && FreshFor(db, entryId, marks, at)
    ensures var r := Retried(db, t.id, t.walletId, entryId, marks, maxAttempts, at);
            && t.walletId in db.wallets
            && (r.Err? <==> VerdictOn(db.wallets[t.walletId], t, LookedUp(db.txs, t),
                                      Reversed(db.txs, LookedUp(db.txs, t))) == Overflow)
            && (r.Err? ==> r == Err(Validation(AmountOverflow)))
  {
    TriedAgainFailsOnOverflow(db, t, entryId, marks, maxAttempts, at);
    RetriedOfWaiting(db, t, entryId, marks, maxAttempts, at);
  }

  // ------------------------------------------------------------------ effect

  /** All that an attempt may leave behind: the row of the operation, the balance of its wallet
      by the signed amount when it was processed, and rows under what the attempt drew. */
  ghost predicate LeftBehind(db: Db, db': Db, t: Tx, x: Tx, entryId: ID, marks: Marks) {
    && t.walletId in db.wallets && db'.wallets.Keys == db.wallets.Keys
    && (forall v :: v in db.wallets && v != t.walletId ==> db'.wallets[v] == db.wallets[v])
    && db'.wallets[t.walletId].balance.Units()
       == db.wallets[t.walletId].balance.Units()
          + (if x.state == Processed then SignedAmount(t, LookedUp(db.txs, t)) else 0)
    && (forall e :: e in db'.ledger ==> e in db.ledger || e.id == entryId)
    && (forall e :: e in db'.outbox ==> e in db.outbox || MarkedBy(e, marks))
  }

  predicate MarkedBy(e: Event, marks: Marks) {
    (e.id == marks.firstId && e.sequence == marks.firstSequence)
    || (e.id == marks.secondId && e.sequence == marks.secondSequence)
  }

  lemma RecordedLeavesBehind(db: Db, w: WalletRow, t: Tx, seen: Option<Tx>, entryId: ID, d: Decision, data: seq<Data>,
                             at: Time, marks: Marks, maxAttempts: int)
    requires TxsOk(db.txs, maxAttempts) && WalletsOk(db) && t in db.txs && Settles(t, Again(maxAttempts))
    requires t.walletId in db.wallets && db.wallets[t.walletId] == w && seen == LookedUp(db.txs, t)
    requires Sound(w, t, seen, Reversed(db.txs, seen), Again(maxAttempts), entryId, d)
    requires Recorded(db, Again(maxAttempts), w.version, d, Stamp(data, t.walletId, at, marks)).Ok?
    ensures LeftBehind(db, Recorded(db, Again(maxAttempts), w.version, d, Stamp(data, t.walletId, at, marks)).value, t,
                       d.tx, entryId, marks)
  {
    var events := Stamp(data, t.walletId, at, marks);
    RecordedEffect(db, w, t, Again(maxAttempts), d, events, maxAttempts);
    EffectLeavesBehind(db, w, t, seen, entryId, d, events, marks, First(db.txs, ById(t.id)), maxAttempts);
  }

  lemma EffectLeavesBehind(db: Db, w: WalletRow, t: Tx, seen: Option<Tx>, entryId: ID, d: Decision, events: seq<Event>,
                           marks: Marks, i: nat, maxAttempts: int)
    requires t.walletId in db.wallets && db.wallets[t.walletId] == w && w.id == t.walletId && i <= |db.txs|
    requires Sound(w, t, seen, Reversed(db.txs, seen), Again(maxAttempts), entryId, d) && seen == LookedUp(db.txs, t)
    requires forall e :: e in events ==> MarkedBy(e, marks)
    ensures LeftBehind(db, Db(db.wallets[d.wallet.id := d.wallet], Put(db.txs, i, d.tx), db.ledger + Maybe(d.entry),
                              db.outbox + events, db.inbox), t, d.tx, entryId, marks)
  {
  }

  lemma TriedAgainLeavesBehind(db: Db, t: Tx, entryId: ID, marks: Marks, maxAttempts: int, at: Time, done: (Db, Tx))
    requires TxsOk(db.txs, maxAttempts) && WalletsOk(db) && t in db.txs && t.state == PendingReference
    requires t.walletId in db.wallets
    requires TriedAgain(db, db.wallets[t.walletId], t, entryId, marks, maxAttempts, at) == Ok(done)
    ensures LeftBehind(db, done.0, t, done.1, entryId, marks)
  {
    var w, seen := db.wallets[t.walletId], LookedUp(db.txs, t);
    var d := Decide(w, t, seen, Reversed(db.txs, seen), Again(maxAttempts), entryId, at).value;
    assert RowOk(t, maxAttempts);
    assert Sound(w, t, seen, Reversed(db.txs, seen), Again(maxAttempts), entryId, d) by {
      DecisionIsSound(w, t, seen, Reversed(db.txs, seen), Again(maxAttempts), entryId, at);
    }
    RecordedLeavesBehind(db, w, t, seen, entryId, d, d.events, at, marks, maxAttempts);
  }

  /** What an attempt leaves behind spoils nothing drawn apart from it. */
  lemma StaysFresh(db: Db, db': Db, t: Tx, x: Tx, entryId: ID, marks: Marks, otherId: ID, others: Marks, at: Time)
    requires LeftBehind(db, db', t, x, entryId, marks) && FreshFor(db, otherId, others, at)
    requires entryId != otherId && Apart(marks, others)
    ensures FreshFor(db', otherId, others, at)
  {
  }
}
