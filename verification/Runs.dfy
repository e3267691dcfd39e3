/** What runs keep over time: nothing recorded is lost, concluded operations never change,
    a held wallet stands still, and every operation stops waiting. */
module Runs {
  import opened Domain
  import opened Sequences
  import opened Wager
  import opened Ledger
  import opened Events
  import opened Database
  import opened Settlement
  import opened Accounting
  import opened Conservation
  import opened Books
  import opened Protocol
  import opened ProtocolInvariant
  import opened Framing
  import opened Safety
  import opened UseCases
  import opened Theorems

  // ------------------------------------------------------------------ growth

  /** Rows are never deleted, entries, events and inbox rows never change, and operations
      change only while they wait. */
  ghost predicate Grows(db: Db, db': Db) {
    && |db.txs| <= |db'.txs|
    && (forall i :: 0 <= i < |db.txs| ==>
          && db.txs[i].SameIdentity(db'.txs[i])
          && (db.txs[i].state.IsTerminal() ==> db'.txs[i] == db.txs[i]))
    && db.ledger <= db'.ledger && db.outbox <= db'.outbox
    && (forall m :: m in db.inbox ==> m in db'.inbox && db'.inbox[m] == db.inbox[m])
    && (forall w :: w in db.wallets ==> w in db'.wallets)
  }

  lemma InboxOnlyGrows(db: Db, maxAttempts: int, session: Session, m: string)
    requires Complete(session.phase) && Committed(db, maxAttempts, session).Ok? && m in db.inbox
    ensures m in Committed(db, maxAttempts, session).value.inbox
            && Committed(db, maxAttempts, session).value.inbox[m] == db.inbox[m]
  {
    match session.phase
    case Staged(Settle(w, t, seen, d), events) =>
      SettlingKeepsTheInbox(db, session.job.Attempt(maxAttempts), w.version, d, events);
    case Staged(Open(opening), events) =>
      if session.job.Opening? && opening.Some? {
        OpeningKeepsTheInbox(db, session.job.w, opening.value, events);
      }
    case _ =>
  }

  lemma SettlingKeepsTheInbox(db: Db, attempt: Attempt, loadedVersion: int, d: Decision, events: seq<Event>)
    requires Recorded(db, attempt, loadedVersion, d, events).Ok?
    ensures Recorded(db, attempt, loadedVersion, d, events).value.inbox == db.inbox
  {
    var saved := (if attempt.Arrival? then TransactionInserted(db, d.tx) else PendingUpdated(db, d.tx)).value;
    EventsAppendedAppends(EntryRecorded(saved, loadedVersion, d).value, events);
  }

  lemma OpeningKeepsTheInbox(db: Db, w: WalletRow, d: Decision, events: seq<Event>)
    requires OpeningRecorded(db, w, Some(d), events).Ok?
    ensures OpeningRecorded(db, w, Some(d), events).value.inbox == db.inbox
  {
    var saved := TransactionInserted(WalletInserted(db, w).value, d.tx).value;
    EventsAppendedAppends(if d.entry.Some? then EntryAppended(saved, d.entry.value).value else saved, events);
  }

  lemma FramedGrows(db: Db, db': Db, w: ID)
    requires Framed(db, db', w) && forall m :: m in db.inbox ==> m in db'.inbox && db'.inbox[m] == db.inbox[m]
    ensures Grows(db, db')
  {
  }

  lemma CommitGrows(s: System, sid: Sid)
    requires sid in s.sessions && Complete(s.sessions[sid].phase)
    requires Committed(s.db, s.maxAttempts, s.sessions[sid]).Ok? && Inv(s)
    ensures Grows(s.db, Committed(s.db, s.maxAttempts, s.sessions[sid]).value)
  {
    var db' := Committed(s.db, s.maxAttempts, s.sessions[sid]).value;
    assert s.sessions[sid].phase.Taken? || Framed(s.db, db', s.sessions[sid].job.WalletId()) by {
      CommittedIsOk(s, sid);
    }
    forall m | m in s.db.inbox ensures m in db'.inbox && db'.inbox[m] == s.db.inbox[m] {
      InboxOnlyGrows(s.db, s.maxAttempts, s.sessions[sid], m);
    }
    if !s.sessions[sid].phase.Taken? {
      FramedGrows(s.db, db', s.sessions[sid].job.WalletId());
    }
  }

  /** Only a commit touches the tables. */
  lemma TablesUntouched(s: System, step: Step)
    requires Enabled(s, step)
    ensures if step.Commit? then Ok(Do(s, step).db) == Committed(s.db, s.maxAttempts, s.sessions[step.sid])
            else Do(s, step).db == s.db
  {
  }

  /** A step is of one session. */
  lemma OthersStandStill(s: System, step: Step, sid: Sid)
    requires Enabled(s, step) && sid in Do(s, step).sessions && sid != step.sid
    ensures sid in s.sessions && Do(s, step).sessions[sid] == s.sessions[sid]
  {
  }

  lemma NothingLost(db: Db)
    ensures Grows(db, db)
  {
  }

  lemma StepGrows(s: System, step: Step)
    requires Enabled(s, step) && Inv(s)
    ensures Grows(s.db, Do(s, step).db)
  {
    TablesUntouched(s, step);
    NothingLost(s.db);
    if step.Commit? {
      CommitGrows(s, step.sid);
    }
  }

  lemma {:induction false} RunGrows(s: System, steps: seq<Step>)
    requires Inv(s) && Run(s, steps)
    ensures Grows(s.db, After(s, steps).db)
    decreases |steps|
  {
    if steps != [] {
      var s1 := Do(s, steps[0]);
      StepKeepsInv(s, steps[0]);
      StepGrows(s, steps[0]);
      RunGrows(s1, steps[1..]);
      GrowsOn(s.db, s1.db, After(s, steps).db);
    }
  }

  lemma GrowsOn(a: Db, b: Db, c: Db)
    requires Grows(a, b) && Grows(b, c)
    ensures Grows(a, c)
  {
  }

  /** A concluded operation never changes again. */
  lemma TerminalForever(s: System, steps: seq<Step>, t: Tx)
    requires Reachable(s) && Run(s, steps) && t in s.db.txs && t.state.IsTerminal()
    ensures t in After(s, steps).db.txs
  {
    ReachableIsOk(s);
    RunGrows(s, steps);
    var i :| 0 <= i < |s.db.txs| && s.db.txs[i] == t;
    assert After(s, steps).db.txs[i] == t;
  }

  // ------------------------------------------------------------- idempotence

  /** At most one operation per provider and key, and per provider and identifier. */
  lemma OneOperationPerIdentifier(s: System, a: Tx, b: Tx)
    requires Reachable(s) && a in s.db.txs && b in s.db.txs && SameIdentifier(a, b)
    ensures a == b
  {
    ReachableIsOk(s);
    FoundIsUnique(s.db.txs, a, b);
  }

  /** Once an operation concluded, every replay of it, however late, answers the same state,
      failure code and balance. */
  lemma ReplaysAnswerTheSame(s: System, steps: seq<Step>, t: Tx, sid: Sid)
    requires Reachable(s) && Run(s, steps) && t in s.db.txs && t.state.IsTerminal()
    requires sid in After(s, steps).sessions
    requires var session := After(s, steps).sessions[sid];
             session.job.Wager? && session.phase.Answered?
             && session.job.t.provider == t.provider && session.job.t.key == t.key && t.kind.IsExternal()
    ensures var found := After(s, steps).sessions[sid].phase.found;
            found.Some? && ResultOf(found.value, true) == WagerResult(t.id, Some(t.state), t.code, t.result, true)
  {
    var s' := After(s, steps);
    TerminalForever(s, steps, t);
    assert SessionOk(s'.db, s'.maxAttempts, s'.sequence, s'.sessions[sid]) && TxsOk(s'.db.txs, s'.maxAttempts) by {
      ReachableIsOk(s);
      RunKeepsInv(s, steps);
    }
    AnswerIsTheOperation(s'.db, s'.maxAttempts, s'.sequence, s'.sessions[sid], t);
  }

  lemma AnswerIsTheOperation(db: Db, maxAttempts: int, sequence: nat, session: Session, t: Tx)
    requires TxsOk(db.txs, maxAttempts) && SessionOk(db, maxAttempts, sequence, session) && t in db.txs
    requires session.job.Wager? && session.phase.Answered? && t.kind.IsExternal()
    requires session.job.t.provider == t.provider && session.job.t.key == t.key
    ensures session.phase.found == Some(t)
  {
    var found := session.phase.found.value;
    assert RowOk(found, maxAttempts);
    assert found.Fields() == session.job.t.Fields();
    FoundIsUnique(db.txs, t, found);
  }

  // ------------------------------------------------------------------- inbox

  /** Every recorded message names one committed operation, with its payload, that moved its
      wallet at most once; the message stays recorded in every later state. */
  lemma InboxExactlyOnce(s: System, steps: seq<Step>, m: string) returns (t: Tx)
    requires Reachable(s) && Run(s, steps) && m in s.db.inbox
    ensures t in s.db.txs && t.id == s.db.inbox[m].transactionId && t.hash == Some(s.db.inbox[m].hash)
    ensures |Filter(s.db.ledger, OfTransaction(t.id))| == if t.state == Processed && t.kind != Loss then 1 else 0
    ensures m in After(s, steps).db.inbox && After(s, steps).db.inbox[m] == s.db.inbox[m]
  {
    ReachableIsOk(s);
    t :| t in s.db.txs && t.id == s.db.inbox[m].transactionId && t.hash == Some(s.db.inbox[m].hash);
    assert EntriesAccounted(s.db, t);
    RunGrows(s, steps);
  }

  /** However many messages carry a payload, and whether or not it also arrived otherwise, they
      all name the one operation sent with it. */
  lemma OnePayloadOneOperation(s: System, m: string, t: Tx)
    requires Reachable(s) && m in s.db.inbox && t in s.db.txs && t.hash == Some(s.db.inbox[m].hash)
    ensures s.db.inbox[m].transactionId == t.id
    ensures forall n :: n in s.db.inbox && s.db.inbox[n].hash == s.db.inbox[m].hash ==> s.db.inbox[n].transactionId == t.id
  {
    SamePayloadSameOperation(s, m, t);
    forall n | n in s.db.inbox && s.db.inbox[n].hash == s.db.inbox[m].hash ensures s.db.inbox[n].transactionId == t.id {
      SamePayloadSameOperation(s, n, t);
    }
  }

  lemma SamePayloadSameOperation(s: System, m: string, t: Tx)
    requires Reachable(s) && m in s.db.inbox && t in s.db.txs && t.hash == Some(s.db.inbox[m].hash)
    ensures s.db.inbox[m].transactionId == t.id
  {
    assert TxsOk(s.db.txs, s.maxAttempts) && InboxOk(s.db) by { ReachableIsOk(s); }
    var x :| x in s.db.txs && x.id == s.db.inbox[m].transactionId && x.hash == Some(s.db.inbox[m].hash);
    assert RowOk(x, s.maxAttempts) && RowOk(t, s.maxAttempts);
    assert x.Fields() == t.Fields();
    FoundIsUnique(s.db.txs, x, t);
  }

  /** A redelivery of a recorded message reaches no statement that writes. */
  lemma RedeliveryWritesNothing(s: System, sid: Sid)
    requires Reachable(s) && sid in s.sessions && s.sessions[sid].job.Wager? && s.sessions[sid].phase == Begun
    requires s.sessions[sid].job.message.Some? && s.sessions[sid].job.message.value in s.db.inbox
    ensures Enabled(s, Read(sid))
    ensures var s' := Do(s, Read(sid));
            s'.db == s.db && (s'.sessions[sid].phase.Taken? || s'.sessions[sid].phase.Refused?)
            && (s'.sessions[sid].phase.Taken? ==> Enabled(s', Commit(sid)) && Do(s', Commit(sid)).db == s.db)
            && (s'.sessions[sid].phase.Refused? <==>
                  s.db.inbox[s.sessions[sid].job.message.value].hash != s.sessions[sid].job.t.Fields())
  {
  }

  // ------------------------------------------------------------- held wallets

  function InWallet(w: ID): Tx -> bool {
    (t: Tx) => t.walletId == w
  }

  /** All that the sessions of a wallet depend on under its lock. */
  datatype Slice = Slice(row: Option<WalletRow>, txs: seq<Tx>, ledger: seq<Entry>)

  function SliceOf(db: Db, w: ID): Slice {
    Slice(if w in db.wallets then Some(db.wallets[w]) else None,
          Filter(db.txs, InWallet(w)), Filter(db.ledger, OfWallet(w)))
  }

  lemma FramedSlice(db: Db, db': Db, w: ID, v: ID)
    requires Framed(db, db', w) && v != w && v in db.wallets
    ensures SliceOf(db', v) == SliceOf(db, v)
  {
    var n, m := |db.txs|, |db.ledger|;
    assert db'.txs == db'.txs[..n] + db'.txs[n..] && db'.ledger == db.ledger + db'.ledger[m..];
    FilterConcat(db'.txs[..n], db'.txs[n..], InWallet(v));
    FilterSame(db.txs, db'.txs[..n], InWallet(v));
    FilterNone(db'.txs[n..], InWallet(v));
    FilterConcat(db.ledger, db'.ledger[m..], OfWallet(v));
    FilterNone(db'.ledger[m..], OfWallet(v));
    assert Filter(db.txs, InWallet(v)) + [] == Filter(db.txs, InWallet(v));
    assert Filter(db.ledger, OfWallet(v)) + [] == Filter(db.ledger, OfWallet(v));
  }

  lemma StepLeavesTheHeldWallet(s: System, step: Step, sid: Sid)
    requires sid in s.sessions && s.sessions[sid].held && step != Commit(sid) && step != Abort(sid)
    requires Enabled(s, step) && Inv(s)
    ensures var w := s.sessions[sid].job.WalletId(); SliceOf(Do(s, step).db, w) == SliceOf(s.db, w)
  {
    TablesUntouched(s, step);
    if step.Commit? && !s.sessions[step.sid].phase.Taken? {
      CommitLeavesTheHeldWallet(s, step.sid, sid);
    }
  }

  lemma CommitLeavesTheHeldWallet(s: System, other: Sid, sid: Sid)
    requires other in s.sessions && Complete(s.sessions[other].phase) && !s.sessions[other].phase.Taken?
    requires Committed(s.db, s.maxAttempts, s.sessions[other]).Ok?
    requires sid in s.sessions && s.sessions[sid].held && other != sid && Inv(s)
    ensures var w := s.sessions[sid].job.WalletId();
            SliceOf(Committed(s.db, s.maxAttempts, s.sessions[other]).value, w) == SliceOf(s.db, w)
  {
    var w, v := s.sessions[sid].job.WalletId(), s.sessions[other].job.WalletId();
    var db' := Committed(s.db, s.maxAttempts, s.sessions[other]).value;
    assert w in s.db.wallets by { assert SessionOk(s.db, s.maxAttempts, s.sequence, s.sessions[sid]); }
    assert Framed(s.db, db', v) by { CommittedIsOk(s, other); }
    assert v != w by { OthersHoldOthers(s, other, sid); }
    FramedSlice(s.db, db', v, w);
  }

  /** A session keeps its lock until it ends. */
  lemma StepKeepsTheLock(s: System, step: Step, sid: Sid)
    requires Enabled(s, step) && sid in s.sessions && s.sessions[sid].held
    requires step != Commit(sid) && step != Abort(sid)
    ensures sid in Do(s, step).sessions && Do(s, step).sessions[sid].held
            && Do(s, step).sessions[sid].job == s.sessions[sid].job
  {
  }

  lemma {:induction false} HeldWalletIsLeftAlone(s: System, steps: seq<Step>, sid: Sid)
    requires Inv(s) && Run(s, steps) && sid in s.sessions && s.sessions[sid].held
    requires Commit(sid) !in steps && Abort(sid) !in steps
    ensures var w := s.sessions[sid].job.WalletId(); SliceOf(After(s, steps).db, w) == SliceOf(s.db, w)
    decreases |steps|
  {
    if steps != [] {
      assert steps[0] in steps;
      StepLeavesTheHeldWallet(s, steps[0], sid);
      StepKeepsTheLock(s, steps[0], sid);
      StepKeepsInv(s, steps[0]);
      forall x | x in steps[1..] ensures x in steps {}
      HeldWalletIsLeftAlone(Do(s, steps[0]), steps[1..], sid);
    }
  }

  /** From the moment a session locks a wallet until it ends, the row of the wallet, its
      operations and its ledger are exactly as they were: committed steps on a wallet act one
      at a time. */
  lemma HeldWalletStandsStill(s: System, steps: seq<Step>, sid: Sid)
    requires sid in s.sessions && s.sessions[sid].held && Reachable(s) && Run(s, steps)
    requires Commit(sid) !in steps && Abort(sid) !in steps
    ensures var w := s.sessions[sid].job.WalletId(); SliceOf(After(s, steps).db, w) == SliceOf(s.db, w)
  {
    ReachableIsOk(s);
    HeldWalletIsLeftAlone(s, steps, sid);
  }

  // ----------------------------------------------------------------- waiting

  /** The attempts an operation has left; all of them before it arrives. */
  function Left(db: Db, id: ID, maxAttempts: int): int {
    var t := FindById(db.txs, id);
    if t.None? then maxAttempts else Remaining(t.value, maxAttempts)
  }

  /** The step commits another attempt on the operation, rather than leaving it untouched. */
  ghost predicate CommitsAttempt(s: System, step: Step, id: ID) {
    && step.Commit? && step.sid in s.sessions
    && s.sessions[step.sid].job.Retry? && s.sessions[step.sid].job.id == id
    && s.sessions[step.sid].phase.Staged?
  }

  /** How many attempts on the operation a run commits. */
  ghost function Attempts(s: System, steps: seq<Step>, id: ID): nat
    requires Run(s, steps)
    decreases |steps|
  {
    if steps == [] then 0
    else (if CommitsAttempt(s, steps[0], id) then 1 else 0) + Attempts(Do(s, steps[0]), steps[1..], id)
  }

  lemma LeftOf(txs: seq<Tx>, t: Tx)
    requires t in txs && DistinctIds(txs)
    ensures FindById(txs, t.id) == Some(t)
  {
    PlaceOfAWaiting(txs, t);
  }

  lemma PutKeepsLeft(db: Db, db': Db, i: nat, x: Tx, id: ID, maxAttempts: int)
    requires DistinctIds(db.txs) && DistinctIds(db'.txs) && Replaces(db.txs, i, x) && db'.txs == Put(db.txs, i, x)
    requires maxAttempts >= 1
    requires i < |db.txs| ==> x.attempts >= db.txs[i].attempts
    ensures Left(db', id, maxAttempts) <= Left(db, id, maxAttempts)
    ensures id == x.id ==> Left(db', id, maxAttempts) == Remaining(x, maxAttempts)
  {
    PutMembers(db.txs, i, x);
    if id == x.id {
      LeftOf(db'.txs, x);
      if i < |db.txs| {
        LeftOf(db.txs, db.txs[i]);
      }
    } else if FindById(db.txs, id).Some? {
      var t := FindById(db.txs, id).value;
      assert t in db'.txs;
      LeftOf(db'.txs, t);
    }
  }

  lemma CommittedTxs(db: Db, maxAttempts: int, session: Session)
    requires session.phase.Staged? && session.phase.plan.Settle? && Complete(session.phase)
    requires Committed(db, maxAttempts, session).Ok?
    ensures var plan := session.phase.plan;
            var r := Recorded(db, session.job.Attempt(maxAttempts), plan.w.version, plan.d, session.phase.events);
            r.Ok? && Committed(db, maxAttempts, session).value.txs == r.value.txs
  {
  }

  /** What the commit of a settlement rests on, whatever session it is of. */
  ghost predicate SettlingSoundly(db: Db, maxAttempts: int, session: Session)
    requires session.phase.Staged? && session.phase.plan.Settle?
  {
    var plan := session.phase.plan;
    && DecidedOn(db, plan.w, plan.t, plan.seen, session.job.Attempt(maxAttempts), session.job.entryId, plan.d, maxAttempts)
    && plan.w.id == plan.t.walletId && plan.d.tx.attempts >= plan.t.attempts
    && (session.job.Retry? ==> plan.t.id == session.job.id)
  }

  lemma StagedSettlesSoundly(db: Db, maxAttempts: int, sequence: nat, session: Session)
    requires WalletsOk(db) && TxsOk(db.txs, maxAttempts) && SessionOk(db, maxAttempts, sequence, session)
    requires session.phase.Staged? && session.phase.plan.Settle?
    ensures SettlingSoundly(db, maxAttempts, session)
  {
    var plan, job := session.phase.plan, session.job;
    var attempt := job.Attempt(maxAttempts);
    StagedWasDecidedOn(db, maxAttempts, sequence, session, plan.w, plan.t, plan.seen, plan.d, session.phase.events);
    AttemptsOnlyGrow(plan.w, plan.t, plan.seen, Reversed(db.txs, plan.seen), attempt, job.entryId, job.At());
  }

  lemma SettlingLeavesLess(db: Db, maxAttempts: int, session: Session, id: ID)
    requires TxsOk(db.txs, maxAttempts) && maxAttempts >= 1
    requires session.phase.Staged? && session.phase.plan.Settle? && Complete(session.phase)
    requires SettlingSoundly(db, maxAttempts, session)
    requires Committed(db, maxAttempts, session).Ok? && DistinctIds(Committed(db, maxAttempts, session).value.txs)
    ensures Left(Committed(db, maxAttempts, session).value, id, maxAttempts)
            + (if session.job.Retry? && session.job.id == id then 1 else 0)
            <= Left(db, id, maxAttempts)
  {
    var plan, attempt := session.phase.plan, session.job.Attempt(maxAttempts);
    CommittedTxs(db, maxAttempts, session);
    RecordedLeavesLess(db, plan.w, plan.t, plan.seen, attempt, session.job.entryId, plan.d, session.phase.events, id,
                       maxAttempts);
  }

  lemma RecordedLeavesLess(db: Db, w: WalletRow, t: Tx, seen: Option<Tx>, attempt: Attempt, entryId: ID, d: Decision,
                           events: seq<Event>, id: ID, maxAttempts: int)
    requires TxsOk(db.txs, maxAttempts) && maxAttempts >= 1 && w.id == t.walletId
    requires DecidedOn(db, w, t, seen, attempt, entryId, d, maxAttempts) && d.tx.attempts >= t.attempts
    requires Recorded(db, attempt, w.version, d, events).Ok?
    requires DistinctIds(Recorded(db, attempt, w.version, d, events).value.txs)
    ensures Left(Recorded(db, attempt, w.version, d, events).value, id, maxAttempts)
            + (if attempt.Again? && t.id == id then 1 else 0)
            <= Left(db, id, maxAttempts)
  {
    var db1 := Recorded(db, attempt, w.version, d, events).value;
    RecordedEffect(db, w, t, attempt, d, events, maxAttempts);
    assert attempt.Again? ==> RowOk(t, maxAttempts);
    DecidedLeavesLess(db, db1, t, seen, attempt, d.tx, id, maxAttempts);
  }

  lemma DecidedLeavesLess(db: Db, db1: Db, t: Tx, seen: Option<Tx>, attempt: Attempt, x: Tx, id: ID, maxAttempts: int)
    requires DistinctIds(db.txs) && DistinctIds(db1.txs) && maxAttempts >= 1
    requires attempt.Again? ==> t in db.txs && t.state == PendingReference && attempt.maxAttempts == maxAttempts
                                && t.attempts < maxAttempts
    requires x.id == t.id && x.attempts >= t.attempts && Replaces(db.txs, Place(db, t, attempt), x)
    requires db1.txs == Put(db.txs, Place(db, t, attempt), x)
    requires x.state == PendingReference ==> WaitsSoundly(t, seen, attempt, x)
    ensures Left(db1, id, maxAttempts) + (if attempt.Again? && t.id == id then 1 else 0) <= Left(db, id, maxAttempts)
  {
    if attempt.Again? {
      PlaceOfAWaiting(db.txs, t);
      LeftOf(db.txs, t);
    }
    PutKeepsLeft(db, db1, Place(db, t, attempt), x, id, maxAttempts);
  }

  lemma AttemptsOnlyGrow(w: WalletRow, t: Tx, seen: Option<Tx>, reversed: bool, attempt: Attempt, entryId: ID, at: Time)
    requires Decide(w, t, seen, reversed, attempt, entryId, at).Ok?
    ensures Decide(w, t, seen, reversed, attempt, entryId, at).value.tx.attempts >= t.attempts
  {
    var r := Referenced(t, seen, reversed);
    assert r.tx.attempts == t.attempts;
    ClosedAttempts(w, r.tx, Movement(w, r, entryId, at), attempt, at);
  }

  lemma ClosedAttempts(w: WalletRow, t: Tx, moved: Result<Effect>, attempt: Attempt, at: Time)
    requires Closed(w, t, moved, attempt, at).Ok?
    ensures Closed(w, t, moved, attempt, at).value.tx.attempts >= t.attempts
  {
  }

  lemma OpeningLeaves(db: Db, w: WalletRow, openingId: ID, entryId: ID, opening: Option<Decision>, events: seq<Event>, id: ID,
                      maxAttempts: int)
    requires TxsOk(db.txs, maxAttempts) && HasWallets(db) && IsOpenable(w) && maxAttempts >= 1
    requires DecideOpening(w, openingId, entryId) == Ok(opening)
    requires opening.Some? ==> Stamped(events, opening.value.events, w.id)
    requires OpeningRecorded(db, w, opening, events).Ok? && DistinctIds(OpeningRecorded(db, w, opening, events).value.txs)
    ensures Left(OpeningRecorded(db, w, opening, events).value, id, maxAttempts) <= Left(db, id, maxAttempts)
  {
    if opening.Some? {
      OpeningCommits(db, w, opening.value, openingId, entryId, events, maxAttempts);
      PutKeepsLeft(db, OpeningRecorded(db, w, opening, events).value, |db.txs|, opening.value.tx, id, maxAttempts);
    }
  }

  lemma CommitLeavesLess(db: Db, maxAttempts: int, sequence: nat, session: Session, id: ID)
    requires WalletsOk(db) && TxsOk(db.txs, maxAttempts) && HasWallets(db) && maxAttempts >= 1
    requires SessionOk(db, maxAttempts, sequence, session) && Complete(session.phase)
    requires Committed(db, maxAttempts, session).Ok? && DistinctIds(Committed(db, maxAttempts, session).value.txs)
    ensures Left(Committed(db, maxAttempts, session).value, id, maxAttempts)
            + (if session.phase.Staged? && session.job.Retry? && session.job.id == id then 1 else 0)
            <= Left(db, id, maxAttempts)
  {
    match session.phase
    case Staged(Settle(_, _, _, _), _) =>
      StagedSettlesSoundly(db, maxAttempts, sequence, session);
      SettlingLeavesLess(db, maxAttempts, session, id);
    case Staged(Open(opening), events) =>
      DrawnIsStamped(events, session.phase.plan.Data(), session.job.w.id,
                     if session.job.w.id in db.wallets then [] else db.outbox, sequence);
      OpeningLeaves(db, session.job.w, session.job.openingId, session.job.entryId, opening, events, id, maxAttempts);
    case _ =>
  }

  /** Every committed attempt lowers what the operation has left, and no step raises it. */
  lemma StepLeavesLess(s: System, step: Step, id: ID)
    requires Inv(s) && Enabled(s, step)
    ensures Left(Do(s, step).db, id, s.maxAttempts) + (if CommitsAttempt(s, step, id) then 1 else 0)
            <= Left(s.db, id, s.maxAttempts)
  {
    if step.Commit? {
      assert DistinctIds(Do(s, step).db.txs) by { CommitKeepsInv(s, step.sid); }
      CommitLeavesLess(s.db, s.maxAttempts, s.sequence, s.sessions[step.sid], id);
    }
  }

  /** No run commits more attempts on an operation than it has left, whatever it waits for,
      itself in a cycle included. */
  lemma {:induction false} WaitingIsBounded(s: System, steps: seq<Step>, id: ID)
    requires Inv(s) && Run(s, steps)
    ensures Attempts(s, steps, id) + Left(After(s, steps).db, id, s.maxAttempts) <= Left(s.db, id, s.maxAttempts)
    decreases |steps|
  {
    if steps != [] {
      StepLeavesLess(s, steps[0], id);
      assert Inv(Do(s, steps[0])) by { StepKeepsInv(s, steps[0]); }
      WaitingIsBounded(Do(s, steps[0]), steps[1..], id);
    }
  }

  /** An operation concludes after at most the attempts it is allowed: a run that committed
      all it had left, at most maxAttempts of them, leaves it terminal. */
  lemma WaitingEnds(s: System, steps: seq<Step>, t: Tx)
    requires Reachable(s) && Run(s, steps) && t in s.db.txs
    ensures Attempts(s, steps, t.id) <= Remaining(t, s.maxAttempts) <= s.maxAttempts
    ensures Attempts(s, steps, t.id) == Remaining(t, s.maxAttempts) ==>
              exists t' :: t' in After(s, steps).db.txs && t'.id == t.id && t'.state.IsTerminal()
  {
    var s' := After(s, steps);
    assert Inv(s) by { ReachableIsOk(s); }
    LeftOf(s.db.txs, t);
    WaitingIsBounded(s, steps, t.id);
    assert TxsOk(s'.db.txs, s.maxAttempts) by {
      RunKeepsInv(s, steps);
      SameLimit(s, steps);
    }
    NothingLeftIsTerminal(s'.db, t.id, s.maxAttempts);
    assert FindById(s'.db.txs, t.id).Some? by {
      RunGrows(s, steps);
      StillThere(s.db, s'.db, t.id);
    }
  }

  lemma {:induction false} SameLimit(s: System, steps: seq<Step>)
    requires Run(s, steps)
    ensures After(s, steps).maxAttempts == s.maxAttempts
    decreases |steps|
  {
    if steps != [] {
      SameLimit(Do(s, steps[0]), steps[1..]);
    }
  }

  lemma NothingLeftIsTerminal(db: Db, id: ID, maxAttempts: int)
    requires TxsOk(db.txs, maxAttempts) && maxAttempts >= 1
    ensures 0 <= Left(db, id, maxAttempts) <= maxAttempts
    ensures FindById(db.txs, id).Some? && Left(db, id, maxAttempts) == 0 ==>
              FindById(db.txs, id).value.state.IsTerminal()
  {
    if FindById(db.txs, id).Some? {
      assert RowOk(FindById(db.txs, id).value, maxAttempts);
    }
  }

  lemma StillThere(db: Db, db': Db, id: ID)
    requires Grows(db, db') && FindById(db.txs, id).Some?
    ensures FindById(db'.txs, id).Some?
  {
    var t := FindById(db.txs, id).value;
    var i :| 0 <= i < |db.txs| && db.txs[i] == t;
    assert db'.txs[i] in db'.txs && ById(id)(db'.txs[i]);
  }

  // ------------------------------------------------------------------- total

  function LeftOfEach(txs: seq<Tx>, maxAttempts: int): (s: seq<int>)
    ensures |s| == |txs|
  {
    seq(|txs|, k requires 0 <= k < |txs| => Remaining(txs[k], maxAttempts))
  }

  /** The attempts left over all the operations that wait. */
  function TotalLeft(txs: seq<Tx>, maxAttempts: int): int {
    Sum(LeftOfEach(txs, maxAttempts))
  }

  lemma PutMovesTheTotal(txs: seq<Tx>, i: nat, x: Tx, maxAttempts: int)
    requires i < |txs|
    ensures TotalLeft(Put(txs, i, x), maxAttempts)
            == TotalLeft(txs, maxAttempts) - Remaining(txs[i], maxAttempts) + Remaining(x, maxAttempts)
  {
    assert LeftOfEach(Put(txs, i, x), maxAttempts) == LeftOfEach(txs, maxAttempts)[i := Remaining(x, maxAttempts)];
    SumUpdate(LeftOfEach(txs, maxAttempts), i, Remaining(x, maxAttempts));
  }

  /** Every committed attempt strictly lowers the total of the attempts left, so operations
      that wait for one another, in a cycle even, run out of them together. */
  lemma AttemptLowersTheTotal(s: System, sid: Sid)
    requires ReadyToSettle(s, sid) && s.sessions[sid].job.Retry? && Reachable(s)
    ensures TotalLeft(Do(s, Commit(sid)).db.txs, s.maxAttempts) < TotalLeft(s.db.txs, s.maxAttempts)
  {
    SessionIsOk(s, sid);
    TablesUntouched(s, Commit(sid));
    CommittedTxs(s.db, s.maxAttempts, s.sessions[sid]);
    StagedSettlesSoundly(s.db, s.maxAttempts, s.sequence, s.sessions[sid]);
    RetryLowersTheTotal(s.db, s.maxAttempts, s.sessions[sid]);
  }

  lemma RetryLowersTheTotal(db: Db, maxAttempts: int, session: Session)
    requires TxsOk(db.txs, maxAttempts)
    requires session.phase.Staged? && session.phase.plan.Settle? && session.job.Retry?
    requires SettlingSoundly(db, maxAttempts, session)
    requires Recorded(db, Again(maxAttempts), session.phase.plan.w.version, session.phase.plan.d,
                      session.phase.events).Ok?
    ensures TotalLeft(Recorded(db, Again(maxAttempts), session.phase.plan.w.version, session.phase.plan.d,
                               session.phase.events).value.txs, maxAttempts)
            < TotalLeft(db.txs, maxAttempts)
  {
    var plan := session.phase.plan;
    RecordedEffect(db, plan.w, plan.t, Again(maxAttempts), plan.d, session.phase.events, maxAttempts);
    assert RowOk(plan.t, maxAttempts);
    assert Remaining(plan.d.tx, maxAttempts) < Remaining(plan.t, maxAttempts);
    PlaceOfAWaiting(db.txs, plan.t);
    PutMovesTheTotal(db.txs, Place(db, plan.t, Again(maxAttempts)), plan.d.tx, maxAttempts);
  }
}
