/** Safety of the protocol: every step of every run keeps its invariant. */
module Safety {
  import opened Domain
  import opened Wager
  import opened Ledger
  import opened Events
  import opened Database
  import opened Settlement
  import opened Accounting
  import opened Books
  import opened Protocol
  import opened ProtocolInvariant
  import opened Framing

  // ------------------------------------------------------------------ commit

  lemma DrawnIsStamped(events: seq<Event>, data: seq<Data>, w: ID, outbox: seq<Event>, sequence: nat)
    requires Drawn(events, data, w, outbox, sequence) && |events| == |data|
    ensures Stamped(events, data, w)
  {
  }

  lemma OutboxStaysOk(outbox: seq<Event>, events: seq<Event>, data: seq<Data>, w: ID, sequence: nat)
    requires OutboxOk(outbox, sequence) && Drawn(events, data, w, outbox, sequence)
    requires forall e, x :: e in events && x in outbox ==> x.id != e.id
    requires forall i, j :: 0 <= i < j < |events| ==> events[i].id != events[j].id
    ensures OutboxOk(outbox + events, sequence)
  {
    assert Ordered(outbox + events) by { DrawnStaysOrdered(outbox, events, data, w, sequence); }
    assert DistinctEvents(outbox + events) by { NewStaysDistinct(outbox, events); }
    forall e | e in outbox + events ensures e.sequence < sequence {
      assert e !in outbox ==> e in events;
    }
  }

  lemma DrawnStaysOrdered(outbox: seq<Event>, events: seq<Event>, data: seq<Data>, w: ID, sequence: nat)
    requires Ordered(outbox) && Drawn(events, data, w, outbox, sequence)
    ensures Ordered(outbox + events)
  {
    var all, n := outbox + events, |outbox|;
    forall i, j | 0 <= i < j < |all| && all[i].aggregateId == all[j].aggregateId ensures all[i].sequence < all[j].sequence {
      if i < n <= j {
        assert outbox[i] in outbox && all[j] == events[j - n];
      } else if n <= i {
        assert all[i] == events[i - n] && all[j] == events[j - n];
      }
    }
  }

  lemma NewStaysDistinct(outbox: seq<Event>, events: seq<Event>)
    requires DistinctEvents(outbox) && DistinctEvents(events)
    requires forall e, x :: e in events && x in outbox ==> x.id != e.id
    ensures DistinctEvents(outbox + events)
  {
    var all, n := outbox + events, |outbox|;
    forall i, j | 0 <= i < j < |all| ensures all[i].id != all[j].id {
      if i < n <= j {
        assert outbox[i] in outbox && events[j - n] in events;
      } else if n <= i {
        assert all[i] == events[i - n] && all[j] == events[j - n];
      }
    }
  }

  /** What a session that is about to commit a settlement read is what the tables hold. */
  lemma StagedWasDecidedOn(db: Db, maxAttempts: int, sequence: nat, session: Session, w: WalletRow, t: Tx, seen: Option<Tx>,
                           d: Decision, events: seq<Event>)
    requires WalletsOk(db) && TxsOk(db.txs, maxAttempts)
    requires session.phase == Staged(Settle(w, t, seen, d), events)
    requires SessionOk(db, maxAttempts, sequence, session)
    ensures DecidedOn(db, w, t, seen, session.job.Attempt(maxAttempts), session.job.entryId, d, maxAttempts)
    ensures t.walletId == session.job.WalletId() == w.id
  {
    var job := session.job;
    if job.Retry? {
      assert RowOk(t, maxAttempts);
    }
    assert ReadFrom(db, w, t, seen, job.Attempt(maxAttempts), maxAttempts);
    assert Sound(w, t, seen, Reversed(db.txs, seen), job.Attempt(maxAttempts), job.entryId, d) by {
      DecisionIsSound(w, t, seen, Reversed(db.txs, seen), job.Attempt(maxAttempts), job.entryId, job.At());
    }
  }

  /** What a commit leads to: the books balanced, the outbox in order, and everything of the
      other wallets as it was. */
  ghost predicate CommitOk(db: Db, db': Db, w: ID, maxAttempts: int, sequence: nat) {
    Balanced(db', maxAttempts) && OutboxOk(db'.outbox, sequence) && Framed(db, db', w)
  }

  lemma RecordedIsOk(db: Db, maxAttempts: int, sequence: nat, session: Session, w: WalletRow, t: Tx, seen: Option<Tx>,
                     d: Decision, events: seq<Event>)
    requires Balanced(db, maxAttempts) && OutboxOk(db.outbox, sequence)
    requires session.phase == Staged(Settle(w, t, seen, d), events) && Complete(session.phase)
    requires SessionOk(db, maxAttempts, sequence, session)
    requires Recorded(db, session.job.Attempt(maxAttempts), w.version, d, events).Ok?
    ensures var db' := Recorded(db, session.job.Attempt(maxAttempts), w.version, d, events).value;
            CommitOk(db, db', session.job.WalletId(), maxAttempts, sequence) && d.tx in db'.txs
    ensures db.inbox == Recorded(db, session.job.Attempt(maxAttempts), w.version, d, events).value.inbox
  {
    var attempt := session.job.Attempt(maxAttempts);
    var db' := Recorded(db, attempt, w.version, d, events).value;
    StagedWasDecidedOn(db, maxAttempts, sequence, session, w, t, seen, d, events);
    DrawnIsStamped(events, d.events, session.job.WalletId(), db.outbox, sequence);
    assert Balanced(db', maxAttempts) by {
      SettlementKeepsTheBooks(db, w, t, seen, attempt, session.job.entryId, d, events, maxAttempts);
    }
    var i := Place(db, t, attempt);
    assert Commits(db, db', i, d.tx, d.wallet, d.entry, events) by {
      RecordedCommits(db, w, t, seen, attempt, session.job.entryId, d, events, maxAttempts);
    }
    assert d.wallet.id == session.job.WalletId();
    CommitIsFramed(db, db', i, d.tx, d.wallet, d.entry, events);
    PutMembers(db.txs, i, d.tx);
    assert OutboxOk(db'.outbox, sequence) by {
      RecordedEventsAreNew(db, attempt, w.version, d, events);
      OutboxStaysOk(db.outbox, events, d.events, session.job.WalletId(), sequence);
    }
  }

  lemma RecordedEventsAreNew(db: Db, attempt: Attempt, loadedVersion: int, d: Decision, events: seq<Event>)
    requires Recorded(db, attempt, loadedVersion, d, events).Ok?
    ensures forall e, x :: e in events && x in db.outbox ==> x.id != e.id
    ensures forall i, j :: 0 <= i < j < |events| ==> events[i].id != events[j].id
  {
    var saved := (if attempt.Arrival? then TransactionInserted(db, d.tx) else PendingUpdated(db, d.tx)).value;
    EventsAppendedAppends(EntryRecorded(saved, loadedVersion, d).value, events);
  }

  lemma OpeningIsOk(db: Db, maxAttempts: int, sequence: nat, session: Session, opening: Option<Decision>, events: seq<Event>)
    requires Balanced(db, maxAttempts) && OutboxOk(db.outbox, sequence)
    requires session.phase == Staged(Open(opening), events) && Complete(session.phase)
    requires SessionOk(db, maxAttempts, sequence, session)
    requires OpeningRecorded(db, session.job.w, opening, events).Ok?
    ensures CommitOk(db, OpeningRecorded(db, session.job.w, opening, events).value, session.job.WalletId(), maxAttempts,
                     sequence)
  {
    var w := session.job.w;
    var db' := OpeningRecorded(db, w, opening, events).value;
    assert Drawn(events, session.phase.plan.Data(), w.id, db.outbox, sequence);
    assert Balanced(db', maxAttempts) by {
      DrawnIsStamped(events, session.phase.plan.Data(), w.id, db.outbox, sequence);
      OpeningKeepsTheBooks(db, w, opening, session.job.openingId, session.job.entryId, events, maxAttempts);
    }
    if opening.Some? {
      DrawnIsStamped(events, opening.value.events, w.id, db.outbox, sequence);
      OpeningIsFramed(db, w, opening.value, session.job.openingId, session.job.entryId, events, maxAttempts, sequence);
    } else {
      EmptyWalletIsFramed(db, w);
    }
  }

  lemma EmptyWalletIsFramed(db: Db, w: WalletRow)
    requires WalletInserted(db, w).Ok?
    ensures Framed(db, WalletInserted(db, w).value, w.id) && WalletInserted(db, w).value.outbox == db.outbox
  {
  }

  lemma OpeningIsFramed(db: Db, w: WalletRow, d: Decision, openingId: ID, entryId: ID, events: seq<Event>, maxAttempts: int,
                        sequence: nat)
    requires TxsOk(db.txs, maxAttempts) && HasWallets(db) && IsOpenable(w) && OutboxOk(db.outbox, sequence)
    requires DecideOpening(w, openingId, entryId) == Ok(Some(d)) && Stamped(events, d.events, w.id)
    requires Drawn(events, d.events, w.id, db.outbox, sequence)
    requires OpeningRecorded(db, w, Some(d), events).Ok?
    ensures var db' := OpeningRecorded(db, w, Some(d), events).value;
            Framed(db, db', w.id) && OutboxOk(db'.outbox, sequence)
  {
    var db' := OpeningRecorded(db, w, Some(d), events).value;
    assert Framed(db, db', w.id) by {
      OpeningCommits(db, w, d, openingId, entryId, events, maxAttempts);
      CommitIsFramed(db, db', |db.txs|, d.tx, w, d.entry, events);
    }
    OpeningDrawsInOrder(db, w, d, events, sequence);
  }

  lemma OpeningDrawsInOrder(db: Db, w: WalletRow, d: Decision, events: seq<Event>, sequence: nat)
    requires OutboxOk(db.outbox, sequence) && Drawn(events, d.events, w.id, db.outbox, sequence)
    requires DataOf(events) == d.events && d.entry.Some? && OpeningRecorded(db, w, Some(d), events).Ok?
    ensures OutboxOk(OpeningRecorded(db, w, Some(d), events).value.outbox, sequence)
  {
    var saved := TransactionInserted(WalletInserted(db, w).value, d.tx).value;
    EventsAppendedAppends(EntryAppended(saved, d.entry.value).value, events);
    OutboxStaysOk(db.outbox, events, d.events, w.id, sequence);
  }

  lemma InboxRowIsOk(db0: Db, db: Db, job: Job, t: Tx, w: ID, maxAttempts: int, sequence: nat)
    requires CommitOk(db0, db, w, maxAttempts, sequence) && WithInbox(db, job, t.id).Ok?
    requires job.Wager? ==> t in db.txs && t.hash == Some(job.t.Fields())
    ensures CommitOk(db0, WithInbox(db, job, t.id).value, w, maxAttempts, sequence)
  {
    if job.Wager? && job.message.Some? {
      MessageIsOk(db0, db, job.message.value, InboxRow(job.t.Fields(), t.id), t, w, maxAttempts, sequence);
    }
  }

  lemma MessageIsOk(db0: Db, db: Db, m: string, row: InboxRow, t: Tx, w: ID, maxAttempts: int, sequence: nat)
    requires CommitOk(db0, db, w, maxAttempts, sequence) && InboxRecorded(db, m, row).Ok?
    requires t in db.txs && t.id == row.transactionId && t.hash == Some(row.hash)
    ensures CommitOk(db0, InboxRecorded(db, m, row).value, w, maxAttempts, sequence)
  {
    var db' := InboxRecorded(db, m, row).value;
    assert Framed(db0, db', w) by { InboxIsFramed(db0, db, db', w); }
    assert Balanced(db', maxAttempts) by { InboxKeepsTheBooks(db, m, row, t, maxAttempts); }
  }

  lemma InboxIsFramed(db0: Db, db: Db, db': Db, w: ID)
    requires Framed(db0, db, w) && db' == db.(inbox := db'.inbox)
    ensures Framed(db0, db', w)
  {
  }

  lemma SettledIsOk(db: Db, maxAttempts: int, sequence: nat, session: Session, w: WalletRow, t: Tx, seen: Option<Tx>,
                    d: Decision, events: seq<Event>)
    requires Balanced(db, maxAttempts) && OutboxOk(db.outbox, sequence)
    requires session.phase == Staged(Settle(w, t, seen, d), events) && Complete(session.phase)
    requires SessionOk(db, maxAttempts, sequence, session) && Committed(db, maxAttempts, session).Ok?
    ensures CommitOk(db, Committed(db, maxAttempts, session).value, session.job.WalletId(), maxAttempts, sequence)
  {
    var job := session.job;
    RecordedIsOk(db, maxAttempts, sequence, session, w, t, seen, d, events);
    StagedWasDecidedOn(db, maxAttempts, sequence, session, w, t, seen, d, events);
    var saved := Recorded(db, job.Attempt(maxAttempts), w.version, d, events).value;
    InboxRowIsOk(db, saved, job, d.tx, job.WalletId(), maxAttempts, sequence);
  }

  lemma SessionCommitsWell(db: Db, maxAttempts: int, sequence: nat, session: Session)
    requires Balanced(db, maxAttempts) && OutboxOk(db.outbox, sequence)
    requires SessionOk(db, maxAttempts, sequence, session) && Complete(session.phase) && !session.phase.Taken?
    requires Committed(db, maxAttempts, session).Ok?
    ensures CommitOk(db, Committed(db, maxAttempts, session).value, session.job.WalletId(), maxAttempts, sequence)
  {
    match session.phase
    case Staged(Settle(w, t, seen, d), events) =>
      SettledIsOk(db, maxAttempts, sequence, session, w, t, seen, d, events);
    case Staged(Open(opening), events) => OpeningIsOk(db, maxAttempts, sequence, session, opening, events);
    case Answered(found) => AnswerIsOk(db, maxAttempts, sequence, session, found);
  }

  /** A replay writes nothing but the inbox row of its message. */
  lemma AnswerIsOk(db: Db, maxAttempts: int, sequence: nat, session: Session, found: Option<Tx>)
    requires Balanced(db, maxAttempts) && OutboxOk(db.outbox, sequence)
    requires SessionOk(db, maxAttempts, sequence, session) && session.phase == Answered(found)
    requires Committed(db, maxAttempts, session).Ok?
    ensures CommitOk(db, Committed(db, maxAttempts, session).value, session.job.WalletId(), maxAttempts, sequence)
  {
    AnsweredHasItsWallet(db, maxAttempts, sequence, session);
    StandingIsOk(db, session.job.WalletId(), maxAttempts, sequence);
    if found.Some? {
      AnsweredIsStored(db, maxAttempts, sequence, session, found.value);
      InboxRowIsOk(db, db, session.job, found.value, session.job.WalletId(), maxAttempts, sequence);
    }
  }

  lemma StandingIsOk(db: Db, w: ID, maxAttempts: int, sequence: nat)
    requires Balanced(db, maxAttempts) && OutboxOk(db.outbox, sequence) && w in db.wallets
    ensures CommitOk(db, db, w, maxAttempts, sequence)
  {
  }

  lemma AnsweredHasItsWallet(db: Db, maxAttempts: int, sequence: nat, session: Session)
    requires SessionOk(db, maxAttempts, sequence, session) && session.phase.Answered?
    ensures session.job.WalletId() in db.wallets
  {
  }

  lemma AnsweredIsStored(db: Db, maxAttempts: int, sequence: nat, session: Session, t: Tx)
    requires SessionOk(db, maxAttempts, sequence, session) && session.phase == Answered(Some(t))
    ensures session.job.Wager? ==> t in db.txs && t.hash == Some(session.job.t.Fields())
  {
  }

  lemma CommittedIsOk(s: System, sid: Sid)
    requires sid in s.sessions && Complete(s.sessions[sid].phase)
    requires Committed(s.db, s.maxAttempts, s.sessions[sid]).Ok? && Inv(s)
    ensures var session := s.sessions[sid];
            var db' := Committed(s.db, s.maxAttempts, session).value;
            if session.phase.Taken? then db' == s.db
            else CommitOk(s.db, db', session.job.WalletId(), s.maxAttempts, s.sequence)
  {
    assert SessionOk(s.db, s.maxAttempts, s.sequence, s.sessions[sid]);
    if !s.sessions[sid].phase.Taken? {
      SessionCommitsWell(s.db, s.maxAttempts, s.sequence, s.sessions[sid]);
    }
  }

  // ------------------------------------------------------------------- steps

  /** Other sessions hold other wallets. */
  lemma OthersHoldOthers(s: System, sid: Sid, other: Sid)
    requires sid in s.sessions && other in s.sessions && other != sid && LocksOk(s)
    requires Complete(s.sessions[sid].phase) && !s.sessions[sid].phase.Taken?
    requires Committed(s.db, s.maxAttempts, s.sessions[sid]).Ok?
    requires SessionOk(s.db, s.maxAttempts, s.sequence, s.sessions[sid])
    requires SessionOk(s.db, s.maxAttempts, s.sequence, s.sessions[other])
    ensures s.sessions[other].held ==> s.sessions[other].job.WalletId() != s.sessions[sid].job.WalletId()
  {
    if s.sessions[other].held && !s.sessions[sid].held {
      OnlyOpeningsHoldNothing(s.db, s.maxAttempts, s.sequence, s.sessions[sid]);
    }
  }

  /** A session that commits without a lock opens a wallet that is not there yet. */
  lemma OnlyOpeningsHoldNothing(db: Db, maxAttempts: int, sequence: nat, session: Session)
    requires SessionOk(db, maxAttempts, sequence, session) && !session.held
    requires Complete(session.phase) && !session.phase.Taken? && Committed(db, maxAttempts, session).Ok?
    ensures session.job.WalletId() !in db.wallets
  {
    assert session.phase.plan.Open?;
  }

  lemma EndedLocksOk(s: System, sid: Sid)
    requires LocksOk(s) && sid in s.sessions
    ensures LocksOk(Ended(s, sid))
  {
  }

  lemma CommitKeepsInv(s: System, sid: Sid)
    requires Inv(s) && Enabled(s, Commit(sid))
    ensures Inv(Do(s, Commit(sid)))
  {
    var s' := Do(s, Commit(sid));
    var session := s.sessions[sid];
    EndedLocksOk(s, sid);
    CommittedIsOk(s, sid);
    forall other | other in s'.sessions ensures SessionOk(s'.db, s.maxAttempts, s.sequence, s'.sessions[other]) {
      assert s'.sessions[other] == s.sessions[other] && other != sid;
      assert SessionOk(s.db, s.maxAttempts, s.sequence, s.sessions[other]);
      if !session.phase.Taken? {
        OthersHoldOthers(s, sid, other);
        SessionStaysOk(s.db, s'.db, session.job.WalletId(), s.maxAttempts, s.sequence, s.sessions[other]);
      }
    }
  }

  lemma LaterSequence(db: Db, maxAttempts: int, n: nat, m: nat, session: Session)
    requires SessionOk(db, maxAttempts, n, session) && n <= m
    ensures SessionOk(db, maxAttempts, m, session)
  {
  }

  lemma DrawnNext(events: seq<Event>, data: seq<Data>, w: ID, outbox: seq<Event>, sequence: nat, e: Event)
    requires Drawn(events, data, w, outbox, sequence) && |events| < |data|
    requires e.sequence == sequence && e.aggregateId == w && e.data == data[|events|]
    requires forall x :: x in outbox ==> x.sequence < sequence
    ensures Drawn(events + [e], data, w, outbox, sequence + 1)
  {
  }

  lemma SettlementDraws(s: System, session: Session, eventId: ID)
    requires session.phase.Staged? && session.phase.plan.Settle? && |session.phase.events| < |session.phase.plan.Data()|
    requires SessionOk(s.db, s.maxAttempts, s.sequence, session)
    requires forall x :: x in s.db.outbox ==> x.sequence < s.sequence
    ensures var events := session.phase.events + [EventDrawn(s, session, eventId)];
            SessionOk(s.db, s.maxAttempts, s.sequence + 1, session.(phase := session.phase.(events := events)))
  {
    DrawnNext(session.phase.events, session.phase.plan.d.events, session.job.WalletId(), s.db.outbox, s.sequence,
              EventDrawn(s, session, eventId));
  }

  lemma OpeningDraws(s: System, session: Session, eventId: ID)
    requires session.phase.Staged? && session.phase.plan.Open? && |session.phase.events| < |session.phase.plan.Data()|
    requires SessionOk(s.db, s.maxAttempts, s.sequence, session)
    requires forall x :: x in s.db.outbox ==> x.sequence < s.sequence
    ensures var events := session.phase.events + [EventDrawn(s, session, eventId)];
            SessionOk(s.db, s.maxAttempts, s.sequence + 1, session.(phase := session.phase.(events := events)))
  {
    DrawnNext(session.phase.events, session.phase.plan.Data(), session.job.w.id,
              if session.job.w.id in s.db.wallets then [] else s.db.outbox, s.sequence, EventDrawn(s, session, eventId));
  }

  /** The session takes the next number of the counter, whoever else draws meanwhile. */
  lemma DrawKeepsSessions(s: System, sid: Sid, eventId: ID)
    requires sid in s.sessions && Enabled(s, Draw(sid, eventId))
    requires SessionsOk(s) && (forall x :: x in s.db.outbox ==> x.sequence < s.sequence)
    ensures SessionsOk(Do(s, Draw(sid, eventId)))
  {
    var session := s.sessions[sid];
    assert SessionOk(s.db, s.maxAttempts, s.sequence, session);
    if session.phase.plan.Settle? {
      SettlementDraws(s, session, eventId);
    } else {
      OpeningDraws(s, session, eventId);
    }
    forall other | other in s.sessions && other != sid
      ensures SessionOk(s.db, s.maxAttempts, s.sequence + 1, s.sessions[other])
    {
      LaterSequence(s.db, s.maxAttempts, s.sequence, s.sequence + 1, s.sessions[other]);
    }
    DrawnByOne(s, sid, eventId);
  }

  lemma DrawnByOne(s: System, sid: Sid, eventId: ID)
    requires sid in s.sessions && Enabled(s, Draw(sid, eventId))
    ensures var s', session := Do(s, Draw(sid, eventId)), s.sessions[sid];
            && s'.db == s.db && s'.maxAttempts == s.maxAttempts && s'.sequence == s.sequence + 1
            && s'.sessions == s.sessions[sid := session.(phase := session.phase.(
                 events := session.phase.events + [EventDrawn(s, session, eventId)]))]
  {
  }

  lemma ReadKeepsSessions(s: System, sid: Sid)
    requires sid in s.sessions && Enabled(s, Read(sid)) && SessionsOk(s) && TxsOk(s.db.txs, s.maxAttempts)
    ensures SessionsOk(Do(s, Read(sid)))
  {
    assert SessionOk(s.db, s.maxAttempts, s.sequence, s.sessions[sid]);
    NextIsOk(s.db, s.maxAttempts, s.sequence, s.sessions[sid]);
  }

  lemma LockKeepsSessions(s: System, sid: Sid)
    requires sid in s.sessions && Enabled(s, Lock(sid)) && SessionsOk(s)
    ensures SessionsOk(Do(s, Lock(sid)))
  {
    assert SessionOk(s.db, s.maxAttempts, s.sequence, s.sessions[sid]);
  }

  lemma BeginKeepsSessions(s: System, sid: Sid, job: Job)
    requires sid !in s.sessions && Startable(s.db, job) && SessionsOk(s)
    ensures SessionsOk(Do(s, Begin(sid, job)))
  {
  }

  lemma StepKeepsSessions(s: System, step: Step)
    requires Enabled(s, step) && !step.Commit? && SessionsOk(s)
    requires TxsOk(s.db.txs, s.maxAttempts) && (forall x :: x in s.db.outbox ==> x.sequence < s.sequence)
    ensures SessionsOk(Do(s, step))
  {
    match step
    case Begin(sid, job) => BeginKeepsSessions(s, sid, job);
    case Lock(sid) => LockKeepsSessions(s, sid);
    case Read(sid) => ReadKeepsSessions(s, sid);
    case Draw(sid, eventId) => DrawKeepsSessions(s, sid, eventId);
    case Abort(_) =>
    case Commit(_) =>
  }

  /** A wallet is locked by the one session that holds it. */
  lemma StepKeepsLocks(s: System, step: Step)
    requires Enabled(s, step) && !step.Commit? && LocksOk(s)
    ensures LocksOk(Do(s, step))
  {
    match step
    case Begin(sid, job) => MovedLocksOk(s, sid, Session(job, false, FirstPhase(job)));
    case Lock(sid) => LockedLocksOk(s, sid);
    case Read(sid) => MovedLocksOk(s, sid, Do(s, step).sessions[sid]);
    case Draw(sid, _) => MovedLocksOk(s, sid, Do(s, step).sessions[sid]);
    case Abort(sid) => EndedLocksOk(s, sid);
    case Commit(_) =>
  }

  lemma MovedLocksOk(s: System, sid: Sid, session: Session)
    requires LocksOk(s)
    requires if sid in s.sessions then session.held == s.sessions[sid].held && session.job == s.sessions[sid].job
             else !session.held
    ensures LocksOk(Protocol.Moved(s, sid, session))
  {
  }

  lemma LockedLocksOk(s: System, sid: Sid)
    requires LocksOk(s) && sid in s.sessions && Enabled(s, Lock(sid))
    ensures LocksOk(Do(s, Lock(sid)))
  {
  }

  /** Only a commit touches the tables. */
  lemma TablesStay(s: System, s': System)
    requires Inv(s) && s'.db == s.db && s'.maxAttempts == s.maxAttempts && s.sequence <= s'.sequence
    requires LocksOk(s') && SessionsOk(s')
    ensures Inv(s')
  {
    assert OutboxOk(s'.db.outbox, s'.sequence);
  }

  lemma StepKeepsInv(s: System, step: Step)
    requires Inv(s) && Enabled(s, step)
    ensures Inv(Do(s, step))
  {
    if step.Commit? {
      CommitKeepsInv(s, step.sid);
    } else {
      OtherStepKeepsInv(s, step);
    }
  }

  lemma OtherStepKeepsInv(s: System, step: Step)
    requires Inv(s) && Enabled(s, step) && !step.Commit?
    ensures Inv(Do(s, step))
  {
    StepKeepsSessions(s, step);
    StepKeepsLocks(s, step);
    TablesStay(s, Do(s, step));
  }

  lemma {:induction false} RunKeepsInv(s: System, steps: seq<Step>)
    requires Inv(s) && Run(s, steps)
    ensures Inv(After(s, steps))
    decreases |steps|
  {
    if steps != [] {
      StepKeepsInv(s, steps[0]);
      RunKeepsInv(Do(s, steps[0]), steps[1..]);
    }
  }
}
