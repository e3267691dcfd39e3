/** The properties of every run of the protocol, whatever the schedule, the clocks, the
    identifiers and the crashes. */
module Theorems {
  import opened Domain
  import opened Wager
  import opened Ledger
  import opened Events
  import opened Database
  import opened Settlement
  import opened Accounting
  import opened Conservation
  import opened Books
  import opened Protocol
  import opened ProtocolInvariant
  import opened Safety
  import opened UseCases

  /** The states runs of the service lead to, starting from empty tables. */
  ghost predicate Reachable(s: System) {
    exists maxAttempts: int, steps: seq<Step> ::
      maxAttempts >= 1 && Run(Init(maxAttempts), steps) && After(Init(maxAttempts), steps) == s
  }

  lemma {:induction false} RunOneMore(s: System, steps: seq<Step>, step: Step)
    requires Run(s, steps) && Enabled(After(s, steps), step)
    ensures Run(s, steps + [step])
    ensures After(s, steps + [step]) == Do(After(s, steps), step)
    decreases |steps|
  {
    if steps == [] {
      assert steps + [step] == [step] && [step][1..] == [];
    } else {
      RunOneMore(Do(s, steps[0]), steps[1..], step);
      assert (steps + [step])[1..] == steps[1..] + [step];
    }
  }

  lemma ReachableOn(s: System, step: Step)
    requires Reachable(s) && Enabled(s, step)
    ensures Reachable(Do(s, step))
  {
    var maxAttempts: int, steps: seq<Step> :|
      maxAttempts >= 1 && Run(Init(maxAttempts), steps) && After(Init(maxAttempts), steps) == s;
    RunOneMore(Init(maxAttempts), steps, step);
  }

  lemma ReachableIsOk(s: System)
    requires Reachable(s)
    ensures Inv(s)
  {
    var maxAttempts: int, steps: seq<Step> :|
      maxAttempts >= 1 && Run(Init(maxAttempts), steps) && After(Init(maxAttempts), steps) == s;
    InitIsOk(maxAttempts);
    RunKeepsInv(Init(maxAttempts), steps);
  }

  /** What a session of a reachable state may rely on. */
  lemma SessionIsOk(s: System, sid: Sid)
    requires Reachable(s) && sid in s.sessions
    ensures SessionOk(s.db, s.maxAttempts, s.sequence, s.sessions[sid])
    ensures WalletsOk(s.db) && TxsOk(s.db.txs, s.maxAttempts)
  {
    ReachableIsOk(s);
  }

  // ------------------------------------------------------------ conservation

  /** The balance of a wallet is its opening amount, plus its effective wins, minus its
      effective bets, in every reachable state. */
  lemma MoneyIsConserved(s: System, w: ID)
    requires Reachable(s) && w in s.db.wallets
    ensures s.db.wallets[w].balance.Units() == Worth(s.db.txs, w)
  {
    ReachableIsOk(s);
  }

  /** At most one processed reversal per operation, by the lock and the check alone. */
  lemma AtMostOneReversal(s: System, a: nat, b: nat)
    requires Reachable(s) && a < |s.db.txs| && b < |s.db.txs|
    requires IsProcessedReversal(s.db.txs[a]) && IsProcessedReversal(s.db.txs[b])
    requires s.db.txs[a].refId == s.db.txs[b].refId
    ensures a == b
  {
    ReachableIsOk(s);
    if a < b { assert false; } else if b < a { assert false; }
  }

  // ------------------------------------------------------------------ commits

  /** Neither conditional update ever finds its row changed, and the index on reversals never
      fires: a complete session is stopped only by identifiers, its own or of the business. */
  lemma NoLostUpdate(s: System, sid: Sid)
    requires Reachable(s) && sid in s.sessions && Complete(s.sessions[sid].phase)
    ensures var r := Committed(s.db, s.maxAttempts, s.sessions[sid]);
            r != Err(ConcurrentUpdate) && r != Err(Conflict(ReferenceAlreadyReversed))
  {
    SessionIsOk(s, sid);
    var session := s.sessions[sid];
    match session.phase
    case Staged(Settle(w, t, seen, d), events) =>
      SettlementMeetsNoChange(s.db, s.maxAttempts, s.sequence, session, w, t, seen, d, events);
    case Staged(Open(opening), events) =>
      OpeningMeetsNoChange(s.db, session.job.w, session.job.openingId, session.job.entryId, opening, events);
    case _ =>
  }

  predicate Constraint(e: Error) {
    e != ConcurrentUpdate && e != Conflict(ReferenceAlreadyReversed)
  }

  lemma {:induction false} EventsMeetNoChange(db: Db, events: seq<Event>)
    ensures EventsAppended(db, events).Err? ==> Constraint(EventsAppended(db, events).error)
    decreases |events|
  {
    if events != [] && EventAppended(db, events[0]).Ok? {
      EventsMeetNoChange(EventAppended(db, events[0]).value, events[1..]);
    }
  }

  lemma SettlementMeetsNoChange(db: Db, maxAttempts: int, sequence: nat, session: Session, w: WalletRow, t: Tx,
                                seen: Option<Tx>, d: Decision, events: seq<Event>)
    requires WalletsOk(db) && TxsOk(db.txs, maxAttempts) && SessionOk(db, maxAttempts, sequence, session)
    requires session.phase == Staged(Settle(w, t, seen, d), events)
    ensures var r := Recorded(db, session.job.Attempt(maxAttempts), w.version, d, events);
            r.Err? ==> Constraint(r.error)
  {
    var attempt := session.job.Attempt(maxAttempts);
    StagedWasDecidedOn(db, maxAttempts, sequence, session, w, t, seen, d, events);
    SettlementIsJustified(db, w, t, seen, attempt, session.job.entryId, d, maxAttempts);
    RecordedMeetsNoChange(db, attempt, w, t, d, events);
  }

  lemma RecordedMeetsNoChange(db: Db, attempt: Attempt, w: WalletRow, t: Tx, d: Decision, events: seq<Event>)
    requires Justified(db.txs, d.tx) && DistinctIds(db.txs) && d.tx.id == t.id
    requires attempt.Again? ==> t in db.txs && t.state == PendingReference
    requires d.wallet.id in db.wallets && db.wallets[d.wallet.id] == w
    ensures var r := Recorded(db, attempt, w.version, d, events); r.Err? ==> Constraint(r.error)
  {
    if attempt.Again? {
      PlaceOfAWaiting(db.txs, t);
    }
    var saved := if attempt.Arrival? then TransactionInserted(db, d.tx) else PendingUpdated(db, d.tx);
    if saved.Ok? {
      var moved := EntryRecorded(saved.value, w.version, d);
      if moved.Ok? {
        EventsMeetNoChange(moved.value, events);
      }
    }
  }

  lemma OpeningMeetsNoChange(db: Db, w: WalletRow, openingId: ID, entryId: ID, opening: Option<Decision>, events: seq<Event>)
    requires DecideOpening(w, openingId, entryId) == Ok(opening)
    ensures var r := OpeningRecorded(db, w, opening, events); r.Err? ==> Constraint(r.error)
  {
    if WalletInserted(db, w).Ok? && opening.Some? {
      var saved := TransactionInserted(WalletInserted(db, w).value, opening.value.tx);
      if saved.Ok? && EntryAppended(saved.value, opening.value.entry.value).Ok? {
        EventsMeetNoChange(EntryAppended(saved.value, opening.value.entry.value).value, events);
      }
    }
  }

  /** The indexes on the business identifiers fire only across wallets: two operations of one
      wallet under the same key meet under its lock, where the second finds the first. */
  lemma IdentifiersClashAcrossWallets(s: System, sid: Sid)
    requires Reachable(s) && sid in s.sessions && s.sessions[sid].phase.Staged? && s.sessions[sid].phase.plan.Settle?
    requires s.sessions[sid].job.Wager?
    ensures forall y :: y in s.db.txs && SameIdentifier(y, s.sessions[sid].job.t) ==>
              y.walletId != s.sessions[sid].job.WalletId()
  {
    SessionIsOk(s, sid);
  }

  // ------------------------------------------------------------ serial commits

  /** The reference was awaited when it was read, and has concluded since. */
  predicate Overtaken(txs: seq<Tx>, plan: Plan)
    requires plan.Settle?
  {
    plan.t.refExt != "" && Waiting(plan.seen) && !Waiting(LookedUp(txs, plan.t))
  }

  ghost predicate ReadyToSettle(s: System, sid: Sid) {
    && sid in s.sessions && s.sessions[sid].phase.Staged? && s.sessions[sid].phase.plan.Settle?
    && Enabled(s, Commit(sid))
  }

  /** What the commit of a settlement does is what the use case does alone, at once, at that
      moment: the same tables and the same answer. */
  ghost predicate AsAlone(db: Db, maxAttempts: int, session: Session, db': Db, marks: Marks)
    requires session.phase.Staged? && session.phase.plan.Settle?
  {
    var tx := session.phase.plan.d.tx;
    match session.job
    case Wager(t, entryId, None) =>
      Settled(db, t, entryId, marks) == Ok((db', ResultOf(tx, false)))
    case Wager(t, entryId, Some(m)) =>
      && Settled(db, t, entryId, marks).Ok? && Settled(db, t, entryId, marks).value.1 == ResultOf(tx, false)
      && InboxRecorded(Settled(db, t, entryId, marks).value.0, m, InboxRow(t.Fields(), t.id)) == Ok(db')
    case Retry(id, walletId, entryId, at) =>
      Retried(db, id, walletId, entryId, marks, maxAttempts, at) == Ok((db', Some(tx.state)))
    case Opening(_, _, _) => true
  }

  ghost predicate CommitsAsAlone(s: System, sid: Sid, marks: Marks)
    requires ReadyToSettle(s, sid)
  {
    AsAlone(s.db, s.maxAttempts, s.sessions[sid], Do(s, Commit(sid)).db, marks)
  }

  /** Commits act one at a time exactly when no reference in another wallet overtook them: a
      commit does to the tables what the use case would do alone at that moment, unless the
      reference concluded, in another wallet, after it was read. */
  lemma CommitIsTheUseCaseAlone(s: System, sid: Sid) returns (marks: Marks)
    requires ReadyToSettle(s, sid) && Reachable(s)
    ensures CommitsAsAlone(s, sid, marks) <==> !Overtaken(s.db.txs, s.sessions[sid].phase.plan)
    ensures Overtaken(s.db.txs, s.sessions[sid].phase.plan) ==> forall m: Marks :: !CommitsAsAlone(s, sid, m)
  {
    var session := s.sessions[sid];
    var db' := Committed(s.db, s.maxAttempts, session).value;
    marks := MarksOf(session.phase.events);
    assert Do(s, Commit(sid)).db == db';
    assert SessionOk(s.db, s.maxAttempts, s.sequence, session) && WalletsOk(s.db) && TxsOk(s.db.txs, s.maxAttempts) by {
      SessionIsOk(s, sid);
    }
    AloneUnlessOvertaken(s.db, s.maxAttempts, s.sequence, session, db', marks);
    forall m: Marks | Overtaken(s.db.txs, session.phase.plan) ensures !CommitsAsAlone(s, sid, m) {
      AloneUnlessOvertaken(s.db, s.maxAttempts, s.sequence, session, db', m);
    }
  }

  lemma AloneUnlessOvertaken(db: Db, maxAttempts: int, sequence: nat, session: Session, db': Db, marks: Marks)
    requires WalletsOk(db) && TxsOk(db.txs, maxAttempts) && SessionOk(db, maxAttempts, sequence, session)
    requires session.phase.Staged? && session.phase.plan.Settle? && Complete(session.phase)
    requires Committed(db, maxAttempts, session) == Ok(db')
    ensures Overtaken(db.txs, session.phase.plan) ==> !AsAlone(db, maxAttempts, session, db', marks)
    ensures !Overtaken(db.txs, session.phase.plan) && marks == MarksOf(session.phase.events) ==>
              AsAlone(db, maxAttempts, session, db', marks)
  {
    if Overtaken(db.txs, session.phase.plan) {
      OvertakenIsNotAlone(db, maxAttempts, sequence, session, marks);
    } else if marks == MarksOf(session.phase.events) {
      SettledAlone(db, maxAttempts, sequence, session, marks);
    }
  }

  function MarksOf(events: seq<Event>): Marks {
    if events == [] then Marks(NIL_ID, 0, NIL_ID, 0) else
      var last := events[|events| - 1];
      Marks(events[0].id, events[0].sequence, last.id, last.sequence)
  }

  /** A reference read under the lock is what a lookup finds now; one of another wallet may
      have concluded since only if it was awaited. */
  lemma OvertakenOnlyAcrossWallets(db: Db, maxAttempts: int, sequence: nat, session: Session)
    requires SessionOk(db, maxAttempts, sequence, session) && session.phase.Staged? && session.phase.plan.Settle?
    ensures var plan, now := session.phase.plan, LookedUp(db.txs, session.phase.plan.t);
            && (Overtaken(db.txs, plan) ==> now.Some? && now.value.walletId != plan.t.walletId
                                            && now.value.provider == plan.t.provider && now.value.ext == plan.t.refExt)
            && (!Overtaken(db.txs, plan) ==>
                  plan.seen == now || (plan.t.refExt != "" && Waiting(plan.seen) && Waiting(now)))
  {
  }

  lemma DecidedTheSame(db: Db, maxAttempts: int, sequence: nat, session: Session)
    requires SessionOk(db, maxAttempts, sequence, session) && session.phase.Staged? && session.phase.plan.Settle?
    requires !Overtaken(db.txs, session.phase.plan)
    ensures var plan, job, now := session.phase.plan, session.job, LookedUp(db.txs, session.phase.plan.t);
            Decide(plan.w, plan.t, now, Reversed(db.txs, now), job.Attempt(maxAttempts), job.entryId, job.At()) == Ok(plan.d)
  {
    var plan, job, now := session.phase.plan, session.job, LookedUp(db.txs, session.phase.plan.t);
    OvertakenOnlyAcrossWallets(db, maxAttempts, sequence, session);
    if plan.seen != now {
      WaitingIsWaiting(plan.w, plan.t, plan.seen, now, Reversed(db.txs, plan.seen), Reversed(db.txs, now),
                       job.Attempt(maxAttempts), job.entryId, job.At());
    }
  }

  lemma SettledAlone(db: Db, maxAttempts: int, sequence: nat, session: Session, marks: Marks)
    requires WalletsOk(db) && TxsOk(db.txs, maxAttempts) && SessionOk(db, maxAttempts, sequence, session)
    requires session.phase.Staged? && session.phase.plan.Settle? && Complete(session.phase)
    requires Committed(db, maxAttempts, session).Ok? && !Overtaken(db.txs, session.phase.plan)
    requires marks == MarksOf(session.phase.events)
    ensures AsAlone(db, maxAttempts, session, Committed(db, maxAttempts, session).value, marks)
  {
    if session.job.Wager? {
      ArrivalCommitsAlone(db, maxAttempts, sequence, session, marks);
    } else {
      RetryCommitsAlone(db, maxAttempts, sequence, session, marks);
    }
  }

  /** The events drawn by a session are those the use case stamps with the same marks. */
  lemma EventsAreStamped(db: Db, maxAttempts: int, sequence: nat, session: Session)
    requires WalletsOk(db) && TxsOk(db.txs, maxAttempts) && SessionOk(db, maxAttempts, sequence, session)
    requires session.phase.Staged? && session.phase.plan.Settle? && Complete(session.phase)
    ensures var plan, job, events := session.phase.plan, session.job, session.phase.events;
            events == Stamp(plan.d.events, job.WalletId(), job.At(), MarksOf(events))
  {
    var plan, job, events := session.phase.plan, session.job, session.phase.events;
    StagedWasDecidedOn(db, maxAttempts, sequence, session, plan.w, plan.t, plan.seen, plan.d, events);
    StampedBack(events, plan.d.events, job.WalletId(), job.At());
  }

  lemma ArrivalCommitsAlone(db: Db, maxAttempts: int, sequence: nat, session: Session, marks: Marks)
    requires WalletsOk(db) && TxsOk(db.txs, maxAttempts) && SessionOk(db, maxAttempts, sequence, session)
    requires session.phase.Staged? && session.phase.plan.Settle? && Complete(session.phase) && session.job.Wager?
    requires Committed(db, maxAttempts, session).Ok? && !Overtaken(db.txs, session.phase.plan)
    requires marks == MarksOf(session.phase.events)
    ensures AsAlone(db, maxAttempts, session, Committed(db, maxAttempts, session).value, marks)
  {
    var plan, job, events := session.phase.plan, session.job, session.phase.events;
    assert plan.d.tx.SameIdentity(plan.t) && plan.t == job.t && IsNew(job.t) by {
      StagedWasDecidedOn(db, maxAttempts, sequence, session, plan.w, plan.t, plan.seen, plan.d, events);
    }
    DecidedTheSame(db, maxAttempts, sequence, session);
    EventsAreStamped(db, maxAttempts, sequence, session);
    ArrivalAlone(db, plan.t, job.entryId, plan.w, LookedUp(db.txs, plan.t), plan.d, marks);
  }

  lemma RetryCommitsAlone(db: Db, maxAttempts: int, sequence: nat, session: Session, marks: Marks)
    requires WalletsOk(db) && TxsOk(db.txs, maxAttempts) && SessionOk(db, maxAttempts, sequence, session)
    requires session.phase.Staged? && session.phase.plan.Settle? && Complete(session.phase) && session.job.Retry?
    requires Committed(db, maxAttempts, session).Ok? && !Overtaken(db.txs, session.phase.plan)
    requires marks == MarksOf(session.phase.events)
    ensures AsAlone(db, maxAttempts, session, Committed(db, maxAttempts, session).value, marks)
  {
    var plan, job := session.phase.plan, session.job;
    DecidedTheSame(db, maxAttempts, sequence, session);
    EventsAreStamped(db, maxAttempts, sequence, session);
    PlaceOfAWaiting(db.txs, plan.t);
    RetryAlone(db, job.id, job.walletId, job.entryId, plan.w, plan.t, plan.d, marks, maxAttempts, job.at);
  }

  /** Two events at most are stamped back from their own marks. */
  lemma StampedBack(events: seq<Event>, data: seq<Data>, w: ID, at: Time)
    requires |events| == |data| <= 2
    requires forall k :: 0 <= k < |events| ==>
               events[k].data == data[k] && events[k].aggregateId == w && events[k].occurredAt == at
    ensures events == Stamp(data, w, at, MarksOf(events))
  {
  }

  lemma RetryAlone(db: Db, id: ID, walletId: ID, entryId: ID, w: WalletRow, t: Tx, d: Decision, marks: Marks,
                   maxAttempts: int, at: Time)
    requires walletId in db.wallets && db.wallets[walletId] == w && t.walletId == walletId
    requires FindById(db.txs, id) == Some(t) && t.state == PendingReference
    requires Decide(w, t, LookedUp(db.txs, t), Reversed(db.txs, LookedUp(db.txs, t)), Again(maxAttempts), entryId, at) == Ok(d)
    requires Recorded(db, Again(maxAttempts), w.version, d, Stamp(d.events, walletId, at, marks)).Ok?
    ensures Retried(db, id, walletId, entryId, marks, maxAttempts, at)
            == Ok((Recorded(db, Again(maxAttempts), w.version, d, Stamp(d.events, walletId, at, marks)).value,
                   Some(d.tx.state)))
  {
  }

  /** Alone and at that moment, the use case would have refused the reference by name; the
      commit leaves the operation waiting, or gives it up as not found. */
  lemma OvertakenDecidesOtherwise(db: Db, maxAttempts: int, sequence: nat, session: Session)
    requires WalletsOk(db) && TxsOk(db.txs, maxAttempts) && SessionOk(db, maxAttempts, sequence, session)
    requires session.phase.Staged? && session.phase.plan.Settle? && Overtaken(db.txs, session.phase.plan)
    ensures var plan, job := session.phase.plan, session.job;
            var now := LookedUp(db.txs, plan.t);
            var alone := Decide(plan.w, plan.t, now, Reversed(db.txs, now), job.Attempt(maxAttempts), job.entryId, job.At());
            alone.Ok? ==> alone.value.tx.code != plan.d.tx.code && alone.value.tx.id == plan.d.tx.id == plan.t.id
  {
    var plan, job := session.phase.plan, session.job;
    var attempt, now := job.Attempt(maxAttempts), LookedUp(db.txs, plan.t);
    StagedWasDecidedOn(db, maxAttempts, sequence, session, plan.w, plan.t, plan.seen, plan.d, session.phase.events);
    assert plan.d.tx.code == NoFailure || plan.d.tx.code == ReferenceNotFound by {
      WaitingMovesNothing(plan.w, plan.t, plan.seen, Reversed(db.txs, plan.seen), attempt, job.entryId, job.At());
    }
    OvertakenOnlyAcrossWallets(db, maxAttempts, sequence, session);
    if Decide(plan.w, plan.t, now, Reversed(db.txs, now), attempt, job.entryId, job.At()).Ok? {
      CrossWalletIsRefused(plan.w, plan.t, now, Reversed(db.txs, now), attempt, job.entryId, job.At());
      DecisionIsSound(plan.w, plan.t, now, Reversed(db.txs, now), attempt, job.entryId, job.At());
    }
  }

  /** An arrival decided otherwise answers otherwise. */
  lemma ArrivalAnswersOtherwise(db: Db, t: Tx, entryId: ID, marks: Marks, tx: Tx)
    requires t.walletId in db.wallets
    requires var now := LookedUp(db.txs, t);
             var alone := Decide(db.wallets[t.walletId], t, now, Reversed(db.txs, now), Arrival, entryId, t.createdAt);
             alone.Ok? ==> alone.value.tx.code != tx.code
    ensures Settled(db, t, entryId, marks).Ok? ==> Settled(db, t, entryId, marks).value.1 != ResultOf(tx, false)
  {
  }

  lemma RecordedCode(db: Db, maxAttempts: int, loadedVersion: int, d: Decision, events: seq<Event>)
    requires Recorded(db, Again(maxAttempts), loadedVersion, d, events).Ok?
    ensures var i := First(db.txs, ById(d.tx.id));
            i < |db.txs| == |Recorded(db, Again(maxAttempts), loadedVersion, d, events).value.txs|
            && Recorded(db, Again(maxAttempts), loadedVersion, d, events).value.txs[i].code == d.tx.code
            && Recorded(db, Again(maxAttempts), loadedVersion, d, events).value.txs[i].state == d.tx.state
  {
    EventsAppendedAppends(EntryRecorded(PendingUpdated(db, d.tx).value, loadedVersion, d).value, events);
  }

  /** A retry decided otherwise leaves another row. */
  lemma RetryRecordsOtherwise(db: Db, id: ID, walletId: ID, entryId: ID, marks: Marks, maxAttempts: int, at: Time,
                              t: Tx, d: Decision, events: seq<Event>, loadedVersion: int)
    requires walletId in db.wallets && FindById(db.txs, id) == Some(t) && t.state == PendingReference
    requires Recorded(db, Again(maxAttempts), loadedVersion, d, events).Ok?
    requires var now := LookedUp(db.txs, t);
             var alone := Decide(db.wallets[walletId], t, now, Reversed(db.txs, now), Again(maxAttempts), entryId, at);
             alone.Ok? ==> alone.value.tx.code != d.tx.code && alone.value.tx.id == d.tx.id
    ensures Retried(db, id, walletId, entryId, marks, maxAttempts, at).Ok? ==>
              Retried(db, id, walletId, entryId, marks, maxAttempts, at).value.0
              != Recorded(db, Again(maxAttempts), loadedVersion, d, events).value
  {
    RecordedCode(db, maxAttempts, loadedVersion, d, events);
    var now := LookedUp(db.txs, t);
    var alone := Decide(db.wallets[walletId], t, now, Reversed(db.txs, now), Again(maxAttempts), entryId, at);
    if Retried(db, id, walletId, entryId, marks, maxAttempts, at).Ok? {
      RecordedCode(db, maxAttempts, db.wallets[walletId].version, alone.value,
                   Stamp(alone.value.events, t.walletId, at, marks));
    }
  }

  lemma OvertakenIsNotAlone(db: Db, maxAttempts: int, sequence: nat, session: Session, marks: Marks)
    requires WalletsOk(db) && TxsOk(db.txs, maxAttempts) && SessionOk(db, maxAttempts, sequence, session)
    requires session.phase.Staged? && session.phase.plan.Settle? && Overtaken(db.txs, session.phase.plan)
    requires Complete(session.phase) && Committed(db, maxAttempts, session).Ok?
    ensures !AsAlone(db, maxAttempts, session, Committed(db, maxAttempts, session).value, marks)
  {
    var plan, job := session.phase.plan, session.job;
    OvertakenDecidesOtherwise(db, maxAttempts, sequence, session);
    assert plan.w == db.wallets[job.WalletId()] && job.WalletId() in db.wallets;
    if job.Wager? {
      ArrivalAnswersOtherwise(db, job.t, job.entryId, marks, plan.d.tx);
    } else {
      PlaceOfAWaiting(db.txs, plan.t);
      RetryRecordsOtherwise(db, job.id, job.walletId, job.entryId, marks, maxAttempts, job.at, plan.t, plan.d,
                            session.phase.events, plan.w.version);
    }
  }

  lemma ArrivalAlone(db: Db, t: Tx, entryId: ID, w: WalletRow, seen: Option<Tx>, d: Decision, marks: Marks)
    requires t.walletId in db.wallets && db.wallets[t.walletId] == w && seen == LookedUp(db.txs, t)
    requires t.kind.IsExternal() && d.tx.SameIdentity(t)
    requires Decide(w, t, seen, Reversed(db.txs, seen), Arrival, entryId, t.createdAt) == Ok(d)
    requires Recorded(db, Arrival, w.version, d, Stamp(d.events, t.walletId, t.createdAt, marks)).Ok?
    ensures Settled(db, t, entryId, marks)
            == Ok((Recorded(db, Arrival, w.version, d, Stamp(d.events, t.walletId, t.createdAt, marks)).value,
                   ResultOf(d.tx, false)))
  {
    assert FindByKey(db.txs, t.provider, t.key).None? && FindByExt(db.txs, t.provider, t.ext).None?;
  }

  /** A replay answers what was recorded, and touches nothing. */
  lemma ReplayIsTheUseCaseAlone(s: System, sid: Sid, marks: Marks)
    requires Reachable(s) && sid in s.sessions && s.sessions[sid].phase.Answered? && s.sessions[sid].job.Wager?
    ensures var t, found := s.sessions[sid].job.t, s.sessions[sid].phase.found;
            && found.Some?
            && Settled(s.db, t, s.sessions[sid].job.entryId, marks) == Ok((s.db, ResultOf(found.value, true)))
            && (s.sessions[sid].job.message.None? ==>
                  Enabled(s, Commit(sid)) && Do(s, Commit(sid)).db == s.db)
  {
    SessionIsOk(s, sid);
    AnsweredAlone(s.db, s.maxAttempts, s.sequence, s.sessions[sid], marks);
  }

  lemma AnsweredAlone(db: Db, maxAttempts: int, sequence: nat, session: Session, marks: Marks)
    requires TxsOk(db.txs, maxAttempts) && SessionOk(db, maxAttempts, sequence, session)
    requires session.phase.Answered? && session.job.Wager?
    ensures var t, found := session.job.t, session.phase.found;
            found.Some? && Settled(db, t, session.job.entryId, marks) == Ok((db, ResultOf(found.value, true)))
  {
    var t, found := session.job.t, session.phase.found.value;
    assert RowOk(found, maxAttempts);
    assert found.Fields() == t.Fields();
    assert session.held && t.walletId in db.wallets;
    assert ByKey(t.provider, t.key)(found);
    FoundIsUnique(db.txs, found, FindByKey(db.txs, t.provider, t.key).value);
  }

  lemma FoundIsUnique(txs: seq<Tx>, a: Tx, b: Tx)
    requires forall i, j :: 0 <= i < j < |txs| ==> !SameIdentifier(txs[i], txs[j])
    requires a in txs && b in txs && SameIdentifier(a, b)
    ensures a == b
  {
    var i :| 0 <= i < |txs| && txs[i] == a;
    var j :| 0 <= j < |txs| && txs[j] == b;
    if i < j { assert false; } else if j < i { assert false; }
  }

  /** What being overtaken costs: the operation waits, or is given up as not found, and moves
      nothing; what the use case would have done at that moment moves nothing either. */
  lemma OvertakenMovesNothing(s: System, sid: Sid)
    requires Reachable(s) && ReadyToSettle(s, sid) && Overtaken(s.db.txs, s.sessions[sid].phase.plan)
    ensures var plan := s.sessions[sid].phase.plan;
            && plan.d.entry == None && plan.d.wallet == plan.w
            && (plan.d.tx.state == PendingReference
                || (plan.d.tx.state == Rejected && plan.d.tx.code == ReferenceNotFound))
    ensures var plan, job := s.sessions[sid].phase.plan, s.sessions[sid].job;
            var now := LookedUp(s.db.txs, plan.t);
            var r := Decide(plan.w, plan.t, now, Reversed(s.db.txs, now), job.Attempt(s.maxAttempts), job.entryId,
                            job.At());
            r.Ok? ==> r.value.entry == None && r.value.wallet == plan.w
  {
    SessionIsOk(s, sid);
    OvertakenOnlyAcrossWallets(s.db, s.maxAttempts, s.sequence, s.sessions[sid]);
    StaleMovesNothing(s.db, s.maxAttempts, s.sequence, s.sessions[sid], LookedUp(s.db.txs, s.sessions[sid].phase.plan.t));
  }

  lemma StaleMovesNothing(db: Db, maxAttempts: int, sequence: nat, session: Session, now: Option<Tx>)
    requires WalletsOk(db) && TxsOk(db.txs, maxAttempts) && SessionOk(db, maxAttempts, sequence, session)
    requires session.phase.Staged? && session.phase.plan.Settle?
    requires session.phase.plan.t.refExt != ""
    requires StaleSeen(session.phase.plan.t, session.phase.plan.seen, now)
    ensures var plan := session.phase.plan;
            && plan.d.entry == None && plan.d.wallet == plan.w
            && (plan.d.tx.state == PendingReference
                || (plan.d.tx.state == Rejected && plan.d.tx.code == ReferenceNotFound))
    ensures var plan := session.phase.plan;
            var r := Decide(plan.w, plan.t, now, Reversed(db.txs, now), session.job.Attempt(maxAttempts),
                            session.job.entryId, session.job.At());
            r.Ok? ==> r.value.entry == None && r.value.wallet == plan.w
  {
    var plan, job := session.phase.plan, session.job;
    var attempt := job.Attempt(maxAttempts);
    StagedWasDecidedOn(db, maxAttempts, sequence, session, plan.w, plan.t, plan.seen, plan.d, session.phase.events);
    WaitingMovesNothing(plan.w, plan.t, plan.seen, Reversed(db.txs, plan.seen), attempt, job.entryId, job.At());
    if Decide(plan.w, plan.t, now, Reversed(db.txs, now), attempt, job.entryId, job.At()).Ok? {
      CrossWalletMovesNothing(plan.w, plan.t, now, Reversed(db.txs, now), attempt, job.entryId, job.At());
    }
  }
}
