/** Replays leave no trace: a run with its replays deleted is a run, and ends in the same tables. */
module Replays {
  import opened Database
  import opened Protocol
  import opened ProtocolInvariant
  import opened Safety
  import opened Theorems
  import opened Runs

  /** The step draws no number and writes no row: a commit is that of a replay, found by its
      key or in the inbox. A message whose operation had arrived otherwise still records its
      inbox row. */
  ghost predicate Quiet(s: System, step: Step)
    requires Enabled(s, step)
  {
    && !step.Draw?
    && (step.Commit? ==>
          var session := s.sessions[step.sid];
          session.phase.Taken? || (session.phase.Answered? && !(session.job.Wager? && session.job.message.Some?)))
  }

  /** The idle sessions do nothing but replay. */
  ghost predicate OnlyReplays(s: System, steps: seq<Step>, idle: set<Sid>)
    requires Run(s, steps)
    decreases |steps|
  {
    steps == [] || ((steps[0].sid in idle ==> Quiet(s, steps[0])) && OnlyReplays(Do(s, steps[0]), steps[1..], idle))
  }

  function Kept(steps: seq<Step>, idle: set<Sid>): seq<Step> {
    if steps == [] then []
    else (if steps[0].sid in idle then [] else [steps[0]]) + Kept(steps[1..], idle)
  }

  /** The system as it would be without the idle sessions. */
  function Without(s: System, idle: set<Sid>): System {
    s.(locks := map w | w in s.locks && s.locks[w] !in idle :: s.locks[w], sessions := s.sessions - idle)
  }

  lemma MovedVanishes(s: System, sid: Sid, session: Session, idle: set<Sid>)
    requires sid in idle
    ensures Without(Moved(s, sid, session), idle) == Without(s, idle)
  {
    assert Without(Moved(s, sid, session), idle).sessions == Without(s, idle).sessions;
  }

  lemma LockedVanishes(s: System, sid: Sid, idle: set<Sid>)
    requires sid in s.sessions && sid in idle && Enabled(s, Lock(sid))
    ensures Without(Do(s, Lock(sid)), idle) == Without(s, idle)
  {
    assert Without(Do(s, Lock(sid)), idle).sessions == Without(s, idle).sessions;
    assert Without(Do(s, Lock(sid)), idle).locks == Without(s, idle).locks;
  }

  lemma EndedVanishes(s: System, sid: Sid, idle: set<Sid>)
    requires LocksOk(s) && sid in s.sessions && sid in idle
    ensures Without(Ended(s, sid), idle) == Without(s, idle)
  {
    assert Without(Ended(s, sid), idle).sessions == Without(s, idle).sessions;
    assert Without(Ended(s, sid), idle).locks == Without(s, idle).locks;
  }

  lemma QuietStepVanishes(s: System, step: Step, idle: set<Sid>)
    requires Enabled(s, step) && LocksOk(s) && step.sid in idle && Quiet(s, step)
    ensures Without(Do(s, step), idle) == Without(s, idle)
  {
    match step
    case Begin(sid, job) => MovedVanishes(s, sid, Session(job, false, FirstPhase(job)), idle);
    case Lock(sid) => LockedVanishes(s, sid, idle);
    case Read(sid) => MovedVanishes(s, sid, Do(s, step).sessions[sid], idle);
    case Commit(sid) => EndedVanishes(s, sid, idle);
    case Abort(sid) => EndedVanishes(s, sid, idle);
    case Draw(_, _) =>
  }

  lemma EndedWithout(s: System, sid: Sid, idle: set<Sid>)
    requires LocksOk(s) && sid in s.sessions && sid !in idle
    ensures sid in Without(s, idle).sessions && Ended(Without(s, idle), sid) == Without(Ended(s, sid), idle)
  {
    assert Ended(Without(s, idle), sid).locks == Without(Ended(s, sid), idle).locks;
    assert Ended(Without(s, idle), sid).sessions == Without(Ended(s, sid), idle).sessions;
  }

  lemma MovedWithout(s: System, sid: Sid, session: Session, idle: set<Sid>)
    requires sid !in idle
    ensures Moved(Without(s, idle), sid, session) == Without(Moved(s, sid, session), idle)
  {
    assert Moved(Without(s, idle), sid, session).sessions == Without(Moved(s, sid, session), idle).sessions;
  }

  lemma LockedWithout(s: System, sid: Sid, idle: set<Sid>)
    requires sid in s.sessions && sid !in idle && Enabled(s, Lock(sid))
    ensures Enabled(Without(s, idle), Lock(sid)) && Do(Without(s, idle), Lock(sid)) == Without(Do(s, Lock(sid)), idle)
  {
    var t, t' := Do(Without(s, idle), Lock(sid)), Without(Do(s, Lock(sid)), idle);
    assert t.sessions == t'.sessions;
    assert t.locks == t'.locks;
  }

  lemma OtherStepStays(s: System, step: Step, idle: set<Sid>)
    requires Enabled(s, step) && LocksOk(s) && step.sid !in idle
    ensures Enabled(Without(s, idle), step) && Do(Without(s, idle), step) == Without(Do(s, step), idle)
  {
    match step
    case Begin(sid, job) => MovedWithout(s, sid, Session(job, false, FirstPhase(job)), idle);
    case Lock(sid) => LockedWithout(s, sid, idle);
    case Read(sid) => MovedWithout(s, sid, Do(s, step).sessions[sid], idle);
    case Draw(sid, _) => MovedWithout(s, sid, Do(s, step).sessions[sid], idle);
    case Commit(sid) => EndedWithout(s, sid, idle);
    case Abort(sid) => EndedWithout(s, sid, idle);
  }

  /** Deleting every step of sessions that only replay leaves a run, of the same sessions
      otherwise, that ends in the same tables. */
  lemma {:induction false} DeletingReplaysChangesNothing(s: System, steps: seq<Step>, idle: set<Sid>)
    requires Inv(s) && Run(s, steps) && OnlyReplays(s, steps, idle)
    ensures Run(Without(s, idle), Kept(steps, idle))
    ensures After(Without(s, idle), Kept(steps, idle)) == Without(After(s, steps), idle)
    ensures After(Without(s, idle), Kept(steps, idle)).db == After(s, steps).db
    decreases |steps|
  {
    if steps != [] {
      StepKeepsInv(s, steps[0]);
      DeletingReplaysChangesNothing(Do(s, steps[0]), steps[1..], idle);
      if steps[0].sid in idle {
        QuietStepVanishes(s, steps[0], idle);
        assert Kept(steps, idle) == Kept(steps[1..], idle);
      } else {
        OtherStepStays(s, steps[0], idle);
        assert Kept(steps, idle)[0] == steps[0] && Kept(steps, idle)[1..] == Kept(steps[1..], idle);
      }
    }
  }

  /** From the start, where no session runs, that is the same run without the replays. */
  lemma ReplaysLeaveNoTrace(maxAttempts: int, steps: seq<Step>, idle: set<Sid>)
    requires maxAttempts >= 1 && Run(Init(maxAttempts), steps) && OnlyReplays(Init(maxAttempts), steps, idle)
    ensures Run(Init(maxAttempts), Kept(steps, idle))
    ensures After(Init(maxAttempts), Kept(steps, idle)).db == After(Init(maxAttempts), steps).db
  {
    InitIsOk(maxAttempts);
    assert Without(Init(maxAttempts), idle) == Init(maxAttempts);
    DeletingReplaysChangesNothing(Init(maxAttempts), steps, idle);
  }

  // ------------------------------------------------------------ redeliveries

  /** An operation received from a message that the inbox holds. */
  predicate Redelivery(db: Db, job: Job) {
    job.Wager? && job.message.Some? && job.message.value in db.inbox
  }

  /** The session found its message, or will. */
  predicate Redelivers(db: Db, session: Session) {
    Redelivery(db, session.job) && (session.phase.Begun? || session.phase.Taken? || session.phase.Refused?)
  }

  ghost predicate AllRedeliver(s: System, idle: set<Sid>) {
    forall sid :: sid in idle && sid in s.sessions ==> Redelivers(s.db, s.sessions[sid])
  }

  /** The sessions a run begins as idle ones are for messages that the inbox holds already. */
  predicate BeginRedeliveries(db: Db, steps: seq<Step>, idle: set<Sid>) {
    forall k :: 0 <= k < |steps| && steps[k].Begin? && steps[k].sid in idle ==> Redelivery(db, steps[k].job)
  }

  lemma RedeliveryIsQuiet(s: System, step: Step, idle: set<Sid>)
    requires Enabled(s, step) && AllRedeliver(s, idle) && step.sid in idle
    requires step.Begin? ==> Redelivery(s.db, step.job)
    ensures Quiet(s, step)
  {
  }

  lemma StillRedelivers(db: Db, db': Db, session: Session)
    requires Grows(db, db') && Redelivers(db, session)
    ensures Redelivers(db', session)
  {
  }

  lemma OwnStepRedelivers(s: System, step: Step)
    requires Enabled(s, step) && step.sid in Do(s, step).sessions
    requires step.sid in s.sessions ==> Redelivers(s.db, s.sessions[step.sid])
    requires step.Begin? ==> Redelivery(s.db, step.job)
    ensures Redelivers(s.db, Do(s, step).sessions[step.sid])
  {
  }

  lemma StepStaysRedelivered(s: System, step: Step, idle: set<Sid>)
    requires Inv(s) && Enabled(s, step) && AllRedeliver(s, idle)
    requires step.Begin? && step.sid in idle ==> Redelivery(s.db, step.job)
    ensures AllRedeliver(Do(s, step), idle) && Grows(s.db, Do(s, step).db)
  {
    StepGrows(s, step);
    forall sid | sid in idle && sid in Do(s, step).sessions ensures Redelivers(Do(s, step).db, Do(s, step).sessions[sid]) {
      if sid == step.sid {
        OwnStepRedelivers(s, step);
        StillRedelivers(s.db, Do(s, step).db, Do(s, step).sessions[sid]);
      } else {
        OthersStandStill(s, step, sid);
        StillRedelivers(s.db, Do(s, step).db, s.sessions[sid]);
      }
    }
  }

  lemma {:induction false} RedeliveriesOnlyReplay(s: System, steps: seq<Step>, idle: set<Sid>)
    requires Inv(s) && Run(s, steps) && AllRedeliver(s, idle) && BeginRedeliveries(s.db, steps, idle)
    ensures OnlyReplays(s, steps, idle)
    decreases |steps|
  {
    if steps != [] {
      var s' := Do(s, steps[0]);
      StepStaysRedelivered(s, steps[0], idle);
      StepKeepsInv(s, steps[0]);
      assert BeginRedeliveries(s'.db, steps[1..], idle);
      RedeliveriesOnlyReplay(s', steps[1..], idle);
      if steps[0].sid in idle {
        RedeliveryIsQuiet(s, steps[0], idle);
      }
    }
  }

  /** From any reachable state, redelivering messages that the inbox holds, any number of times,
      at any moments and in any interleaving, changes no table: the run without the sessions of
      the redeliveries is a run, and ends in the same tables. */
  lemma RedeliveriesLeaveNoTrace(s: System, steps: seq<Step>, idle: set<Sid>)
    requires Reachable(s) && Run(s, steps) && BeginRedeliveries(s.db, steps, idle)
    requires forall sid :: sid in idle ==> sid !in s.sessions
    ensures Run(s, Kept(steps, idle)) && After(s, Kept(steps, idle)).db == After(s, steps).db
  {
    ReachableIsOk(s);
    RedeliveriesOnlyReplay(s, steps, idle);
    DeletingReplaysChangesNothing(s, steps, idle);
    NothingWithout(s, idle);
  }

  lemma NothingWithout(s: System, idle: set<Sid>)
    requires LocksOk(s) && forall sid :: sid in idle ==> sid !in s.sessions
    ensures Without(s, idle) == s
  {
    assert Without(s, idle).sessions == s.sessions;
    assert Without(s, idle).locks == s.locks;
  }
}
