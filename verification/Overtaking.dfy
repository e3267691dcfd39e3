/** A run in which a reference of another wallet concludes between the moment it is looked up
    and the commit: the one way in which commits do not act one at a time. */
module Overtaking {
  import opened Domain
  import opened Money
  import opened Wager
  import opened Ledger
  import opened Events
  import opened Database
  import opened Settlement
  import opened Books
  import opened Protocol
  import opened Theorems
  import opened UseCases

  // ------------------------------------------------------------ stretches of runs

  lemma Onward(s: System, step: Step) returns (s': System)
    requires Reachable(s) && Enabled(s, step)
    ensures s' == Do(s, step) && Reachable(s')
  {
    s' := Do(s, step);
    ReachableOn(s, step);
  }

  /** An empty wallet is opened in three steps. */
  lemma EmptyWalletOpens(s: System, w: WalletRow, sid: Sid) returns (s': System)
    requires Reachable(s) && sid !in s.sessions && IsOpenable(w) && w.balance.IsZero()
    requires WalletInserted(s.db, w).Ok?
    ensures Reachable(s') && s' == s.(db := WalletInserted(s.db, w).value)
  {
    var job := Job.Opening(w, NIL_ID, NIL_ID);
    var s1 := Onward(s, Begin(sid, job));
    var s2 := Onward(s1, Read(sid));
    assert s2.sessions[sid].phase == Staged(Open(None), []);
    s' := Onward(s2, Commit(sid));
    assert s'.sessions == s.sessions;
  }

  /** The system with one more session, which holds the wallet of its operation. */
  function With(s: System, sid: Sid, job: Job, phase: Phase): System {
    s.(locks := s.locks[job.WalletId() := sid], sessions := s.sessions[sid := Session(job, true, phase)])
  }

  lemma Locking(s: System, sid: Sid, job: Job)
    requires Reachable(s) && sid !in s.sessions && Startable(s.db, job) && FirstPhase(job) == Ready
    requires job.WalletId() in s.db.wallets && job.WalletId() !in s.locks
    ensures Reachable(With(s, sid, job, Locked(s.db.wallets[job.WalletId()])))
  {
    var s1 := Onward(s, Begin(sid, job));
    var s2 := Onward(s1, Lock(sid));
    assert s2.sessions == With(s, sid, job, Locked(s.db.wallets[job.WalletId()])).sessions;
  }

  lemma Reading(s: System, sid: Sid, job: Job, phase: Phase)
    requires Reads(phase) && Reachable(With(s, sid, job, phase))
    ensures Reachable(With(s, sid, job, Next(s.db, s.maxAttempts, job, phase)))
  {
    var s' := Onward(With(s, sid, job, phase), Read(sid));
    assert s'.sessions == With(s, sid, job, Next(s.db, s.maxAttempts, job, phase)).sessions;
  }

  /** A new operation is locked, looked up and decided. */
  lemma ArrivalStages(s: System, t: Tx, entryId: ID, sid: Sid, d: Decision)
    requires Reachable(s) && sid !in s.sessions && IsNew(t)
    requires t.walletId in s.db.wallets && t.walletId !in s.locks
    requires FindByKey(s.db.txs, t.provider, t.key).None? && FindByExt(s.db.txs, t.provider, t.ext).None?
    requires var seen := LookedUp(s.db.txs, t);
             Decide(s.db.wallets[t.walletId], t, seen, Reversed(s.db.txs, seen), Arrival, entryId, t.createdAt) == Ok(d)
    ensures Reachable(With(s, sid, Job.Wager(t, entryId, None),
                           Staged(Settle(s.db.wallets[t.walletId], t, LookedUp(s.db.txs, t), d), [])))
  {
    var w, job := s.db.wallets[t.walletId], Job.Wager(t, entryId, None);
    Locking(s, sid, job);
    Reading(s, sid, job, Locked(w));
    Reading(s, sid, job, KeyFree(w));
    Reading(s, sid, job, Loaded(w, t));
    Reading(s, sid, job, Looked(w, t, LookedUp(s.db.txs, t)));
  }

  /** A decision with one event takes a number. */
  lemma EventDraws(s: System, sid: Sid, job: Job, plan: Plan, eventId: ID) returns (e: Event)
    requires |plan.Data()| == 1 && Reachable(With(s, sid, job, Staged(plan, [])))
    ensures e == Event(eventId, s.sequence, job.WalletId(), job.At(), plan.Data()[0])
    ensures Reachable(With(s.(sequence := s.sequence + 1), sid, job, Staged(plan, [e])))
  {
    e := Event(eventId, s.sequence, job.WalletId(), job.At(), plan.Data()[0]);
    assert [] + [e] == [e];
    var s' := Onward(With(s, sid, job, Staged(plan, [])), Draw(sid, eventId));
    assert s'.sessions == With(s.(sequence := s.sequence + 1), sid, job, Staged(plan, [e])).sessions;
  }

  /** A complete session commits, and is gone. */
  lemma SessionCommits(s: System, sid: Sid, job: Job, phase: Phase, db': Db)
    requires sid !in s.sessions && job.WalletId() !in s.locks && Complete(phase)
    requires Committed(s.db, s.maxAttempts, Session(job, true, phase)) == Ok(db')
    requires Reachable(With(s, sid, job, phase))
    ensures Reachable(s.(db := db'))
  {
    var s' := Onward(With(s, sid, job, phase), Commit(sid));
    assert s'.sessions == s.sessions && s'.locks == s.locks;
  }

  // ------------------------------------------------------------------ the run

  const EUR := Currency("EUR")
  const HOME := WalletRow(1, 10, Money(0, EUR), 1, 1, 1)
  const AWAY := WalletRow(2, 20, Money(0, EUR), 1, 1, 1)

  /** A win of one wallet that refers to an operation of the other, and that operation. */
  const WIN := RecordOf(3, Payload("p", "win", 10, 1, "r", "g", Win, Money(100, EUR), "loss"), "a", 1)
  const LOSS := RecordOf(4, Payload("p", "loss", 20, 2, "r", "g", Loss, Money(0, EUR), ""), "b", 1)

  const WALLETS: Db := EMPTY.(wallets := map[1 := HOME, 2 := AWAY])

  lemma BothWalletsOpen()
    ensures Reachable(Init(1).(db := WALLETS))
  {
    var s0 := Init(1);
    assert Run(s0, []) && After(s0, []) == s0;
    var s1 := EmptyWalletOpens(s0, HOME, 0);
    var s2 := EmptyWalletOpens(s1, AWAY, 0);
    assert s2.db.wallets == WALLETS.wallets;
  }

  const WIN_WAITS := Decision(WIN.(state := PendingReference), HOME, None,
                              [TransactionPending(SummaryOf(WIN), "loss")])
  const LOSS_DONE := Decision(LOSS.(state := State.Processed, result := Some(Money(0, EUR))), AWAY, None,
                              [TransactionProcessed(SummaryOf(LOSS), Money(0, EUR))])

  const TOLD := Event(100, 0, 2, 1, LOSS_DONE.events[0])
  const AFTER_LOSS: Db := WALLETS.(txs := [LOSS_DONE.tx], outbox := [TOLD])

  lemma BothAreDecided()
    ensures IsNew(WIN) && IsNew(LOSS)
    ensures Decide(HOME, WIN, None, false, Arrival, 6, 1) == Ok(WIN_WAITS)
    ensures Decide(AWAY, LOSS, None, false, Arrival, 8, 1) == Ok(LOSS_DONE)
  {
  }

  lemma LossIsRecorded()
    ensures Recorded(WALLETS, Arrival, 1, LOSS_DONE, [TOLD]) == Ok(AFTER_LOSS)
  {
    assert [] + [LOSS_DONE.tx] == [LOSS_DONE.tx] && [] + [TOLD] == [TOLD];
    assert EventsAppended(AFTER_LOSS, [TOLD][1..]) == Ok(AFTER_LOSS);
  }

  /** The win, decided while its reference had not arrived, is still accepted after it did. */
  lemma WinIsAccepted(e: Event)
    requires e.id != TOLD.id && e.sequence != TOLD.sequence
    ensures Recorded(AFTER_LOSS, Arrival, 1, WIN_WAITS, [e]).Ok?
    ensures LookedUp(AFTER_LOSS.txs, WIN) == Some(LOSS_DONE.tx)
  {
    assert ByExt("p", "loss")(AFTER_LOSS.txs[0]);
    assert forall t :: t in AFTER_LOSS.txs ==> t == LOSS_DONE.tx;
    var saved := AFTER_LOSS.(txs := AFTER_LOSS.txs + [WIN_WAITS.tx]);
    assert TransactionInserted(AFTER_LOSS, WIN_WAITS.tx) == Ok(saved);
    var told := saved.(outbox := saved.outbox + [e]);
    assert EventAppended(saved, e) == Ok(told);
    assert EventsAppended(told, [e][1..]) == Ok(told);
  }

  const WIN_JOB := Job.Wager(WIN, 6, None)
  const LOSS_JOB := Job.Wager(LOSS, 8, None)
  const WIN_PLAN := Settle(HOME, WIN, None, WIN_WAITS)
  const LOSS_PLAN := Settle(AWAY, LOSS, None, LOSS_DONE)

  function Before(): System {
    Init(1).(db := WALLETS)
  }

  function Since(): System {
    Before().(sequence := 1, db := AFTER_LOSS)
  }

  lemma BothAreStaged()
    ensures Reachable(With(With(Before(), 0, WIN_JOB, Staged(WIN_PLAN, [])), 1, LOSS_JOB, Staged(LOSS_PLAN, [])))
  {
    BothWalletsOpen();
    BothAreDecided();
    ArrivalStages(Before(), WIN, 6, 0, WIN_WAITS);
    ArrivalStages(With(Before(), 0, WIN_JOB, Staged(WIN_PLAN, [])), LOSS, 8, 1, LOSS_DONE);
  }

  lemma TheLossCommits()
    ensures Reachable(With(Since(), 0, WIN_JOB, Staged(WIN_PLAN, [])))
  {
    var s := With(Before(), 0, WIN_JOB, Staged(WIN_PLAN, []));
    BothAreStaged();
    var told := EventDraws(s, 1, LOSS_JOB, LOSS_PLAN, 100);
    LossIsRecorded();
    SessionCommits(s.(sequence := 1), 1, LOSS_JOB, Staged(LOSS_PLAN, [told]), AFTER_LOSS);
  }

  lemma TheWinMayCommit(s: System, e: Event)
    requires s == With(Since().(sequence := 2), 0, WIN_JOB, Staged(WIN_PLAN, [e])) && e.id == 101 && e.sequence == 1
    ensures ReadyToSettle(s, 0) && Overtaken(s.db.txs, s.sessions[0].phase.plan)
  {
    WinIsAccepted(e);
  }

  /** Such a run exists: a win is decided while its reference has not arrived, a loss of
      another wallet under that identifier commits first, and the win may still commit. */
  lemma AReferenceIsOvertaken() returns (s: System, sid: Sid)
    ensures ReadyToSettle(s, sid) && Reachable(s) && Overtaken(s.db.txs, s.sessions[sid].phase.plan)
    ensures forall m: Marks :: !CommitsAsAlone(s, sid, m)
  {
    TheLossCommits();
    var e := EventDraws(Since(), 0, WIN_JOB, WIN_PLAN, 101);
    s, sid := With(Since().(sequence := 2), 0, WIN_JOB, Staged(WIN_PLAN, [e])), 0;
    TheWinMayCommit(s, e);
    var marks := CommitIsTheUseCaseAlone(s, sid);
  }
}
