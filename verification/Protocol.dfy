/** Settlement as a concurrent protocol. Sessions are database transactions: each runs one
    statement at a time against the committed tables, holds at most one wallet lock, stages
    its writes, and ends in a commit or an abort. Any session may abort at any point, which
    is also how a crash looks. Clocks and identifiers are arbitrary inputs. */
module Protocol {
  import opened Domain
  import opened Wager
  import opened Ledger
  import opened Events
  import opened Database
  import opened Settlement
  import opened Books

  type Sid = nat

  /** What a session was started for: an operation received, perhaps from a message of the
      queue; another attempt on a leased operation; or the opening of a wallet. */
  datatype Job =
    | Wager(t: Tx, entryId: ID, message: Option<string>)
    | Retry(id: ID, walletId: ID, entryId: ID, at: Time)
    | Opening(w: WalletRow, openingId: ID, entryId: ID)
  {
    function WalletId(): ID {
      match this
      case Wager(t, _, _) => t.walletId
      case Retry(_, walletId, _, _) => walletId
      case Opening(w, _, _) => w.id
    }

    function At(): Time {
      match this
      case Wager(t, _, _) => t.createdAt
      case Retry(_, _, _, at) => at
      case Opening(w, _, _) => w.createdAt
    }

    function Attempt(maxAttempts: int): Attempt {
      if Retry? then Again(maxAttempts) else Arrival
    }
  }

  datatype Plan =
    | Settle(w: WalletRow, t: Tx, seen: Option<Tx>, d: Decision)
    | Open(opening: Option<Decision>)
  {
    function Data(): seq<Data> {
      match this
      case Settle(_, _, _, d) => d.events
      case Open(opening) => if opening.Some? then opening.value.events else []
    }
  }

  /** How far a session got, with what it read on the way. */
  datatype Phase =
    | Begun
    | Ready
    | Locked(w: WalletRow)
    | KeyFree(w: WalletRow)
    | Loaded(w: WalletRow, t: Tx)
    | Looked(w: WalletRow, t: Tx, seen: Option<Tx>)
    | Staged(plan: Plan, events: seq<Event>)
    | Answered(found: Option<Tx>)
    | Taken(transactionId: ID)
    | Refused(error: Error)

  datatype Session = Session(job: Job, held: bool, phase: Phase)

  datatype System = System(
    db: Db, locks: map<ID, Sid>, sessions: map<Sid, Session>, sequence: nat, maxAttempts: int)

  datatype Step =
    | Begin(sid: Sid, job: Job)
    | Lock(sid: Sid)
    | Read(sid: Sid)
    | Draw(sid: Sid, eventId: ID)
    | Commit(sid: Sid)
    | Abort(sid: Sid)

  function Init(maxAttempts: int): System {
    System(EMPTY, map[], map[], 0, maxAttempts)
  }

  // -------------------------------------------------------------- statements

  /** What the use cases build before their transaction begins. A retry was leased from a
      committed row; the lease may be long expired. */
  ghost predicate Startable(db: Db, job: Job) {
    match job
    case Wager(t, _, _) => IsNew(t)
    case Retry(id, walletId, _, _) => exists t :: t in db.txs && t.id == id && t.walletId == walletId
    case Opening(w, _, _) => IsOpenable(w)
  }

  function FirstPhase(job: Job): Phase {
    match job
    case Wager(_, _, message) => if message.Some? then Begun else Ready
    case Retry(_, _, _, _) => Ready
    case Opening(_, _, _) => Begun
  }

  predicate Reads(phase: Phase) {
    phase.Begun? || phase.Locked? || phase.KeyFree? || phase.Loaded? || phase.Looked?
  }

  /** One statement that only reads, and the code up to the next one. */
  function Next(db: Db, maxAttempts: int, job: Job, phase: Phase): Phase
    requires Reads(phase)
  {
    match phase
    case Begun => AfterBegin(db, job)
    case Locked(w) => AfterLock(db, job, w)
    case KeyFree(w) =>
      if job.Wager? then
        if FindByExt(db.txs, job.t.provider, job.t.ext).Some? then Refused(Conflict(IdempotencyConflict))
        else Loaded(w, job.t)
      else Answered(None)
    case Loaded(w, t) =>
      Looked(w, t, if t.refExt == "" then None else FindByExt(db.txs, t.provider, t.refExt))
    case Looked(w, t, seen) =>
      match Decide(w, t, seen, Reversed(db.txs, seen), job.Attempt(maxAttempts), job.entryId, job.At())
      case Ok(d) => Staged(Settle(w, t, seen, d), [])
      case Err(e) => Refused(e)
  }

  /** The inbox lookup of a message, or the opening, which reads nothing. */
  function AfterBegin(db: Db, job: Job): Phase {
    match job
    case Wager(t, _, message) =>
      if message.Some? && message.value in db.inbox then
        if db.inbox[message.value].hash != t.Fields() then Refused(Conflict(IdempotencyConflict))
        else Taken(db.inbox[message.value].transactionId)
      else Ready
    case Retry(_, _, _, _) => Ready
    case Opening(w, openingId, entryId) =>
      match DecideOpening(w, openingId, entryId)
      case Ok(plan) => Staged(Open(plan), [])
      case Err(e) => Refused(e)
  }

  /** The search for a replay by its key, or the operation read again before a retry. */
  function AfterLock(db: Db, job: Job, w: WalletRow): Phase {
    match job
    case Wager(t, _, _) =>
      var previous := FindByKey(db.txs, t.provider, t.key);
      if previous.None? then KeyFree(w)
      else if previous.value.hash != t.hash then Refused(Conflict(IdempotencyConflict))
      else Answered(previous)
    case Retry(id, _, _, _) =>
      var t := FindById(db.txs, id);
      if t.None? || t.value.state != PendingReference then Answered(t) else Loaded(w, t.value)
    case Opening(_, _, _) => Answered(None)
  }

  predicate Complete(phase: Phase) {
    match phase
    case Staged(plan, events) => |events| == |plan.Data()|
    case Answered(_) => true
    case Taken(_) => true
    case _ => false
  }

  /** The inbox row a message is recorded with, in the commit of its operation. */
  function WithInbox(db: Db, job: Job, transactionId: ID): Result<Db> {
    if job.Wager? && job.message.Some?
    then InboxRecorded(db, job.message.value, InboxRow(job.t.Fields(), transactionId))
    else Ok(db)
  }

  /** The tables once the session commits, or the constraint that stops it. */
  function Committed(db: Db, maxAttempts: int, session: Session): Result<Db>
    requires Complete(session.phase)
  {
    match session.phase
    case Staged(Settle(w, t, seen, d), events) =>
      var saved :- Recorded(db, session.job.Attempt(maxAttempts), w.version, d, events);
      WithInbox(saved, session.job, d.tx.id)
    case Staged(Open(opening), events) =>
      if session.job.Opening? then OpeningRecorded(db, session.job.w, opening, events) else Ok(db)
    case Answered(found) => if found.Some? then WithInbox(db, session.job, found.value.id) else Ok(db)
    case Taken(_) => Ok(db)
  }

  // ------------------------------------------------------------------- steps

  /** A lock is granted when free, and a missing wallet is not found; otherwise the session
      waits for the holder to end. */
  ghost predicate Enabled(s: System, step: Step) {
    match step
    case Begin(sid, job) => sid !in s.sessions && Startable(s.db, job)
    case Lock(sid) =>
      && sid in s.sessions && s.sessions[sid].phase == Ready
      && s.sessions[sid].job.WalletId() !in s.locks
    case Read(sid) => sid in s.sessions && Reads(s.sessions[sid].phase)
    case Draw(sid, _) =>
      && sid in s.sessions && s.sessions[sid].phase.Staged?
      && |s.sessions[sid].phase.events| < |s.sessions[sid].phase.plan.Data()|
    case Commit(sid) =>
      && sid in s.sessions && Complete(s.sessions[sid].phase)
      && Committed(s.db, s.maxAttempts, s.sessions[sid]).Ok?
    case Abort(sid) => sid in s.sessions
  }

  function Moved(s: System, sid: Sid, session: Session): System {
    s.(sessions := s.sessions[sid := session])
  }

  /** A session that ended holds nothing. */
  function Ended(s: System, sid: Sid): System
    requires sid in s.sessions
  {
    var session := s.sessions[sid];
    s.(sessions := s.sessions - {sid},
       locks := if session.held then s.locks - {session.job.WalletId()} else s.locks)
  }

  function EventDrawn(s: System, session: Session, eventId: ID): Event
    requires session.phase.Staged? && |session.phase.events| < |session.phase.plan.Data()|
  {
    Event(eventId, s.sequence, session.job.WalletId(), session.job.At(),
          session.phase.plan.Data()[|session.phase.events|])
  }

  ghost function Do(s: System, step: Step): System
    requires Enabled(s, step)
  {
    match step
    case Begin(sid, job) => Moved(s, sid, Session(job, false, FirstPhase(job)))
    case Lock(sid) =>
      var session := s.sessions[sid];
      var w := session.job.WalletId();
      if w in s.db.wallets
      then Moved(s, sid, session.(held := true, phase := Locked(s.db.wallets[w]))).(locks := s.locks[w := sid])
      else Moved(s, sid, session.(phase := Refused(NotFound(WalletNotFound))))
    case Read(sid) =>
      var session := s.sessions[sid];
      Moved(s, sid, session.(phase := Next(s.db, s.maxAttempts, session.job, session.phase)))
    case Draw(sid, eventId) =>
      var session := s.sessions[sid];
      var events := session.phase.events + [EventDrawn(s, session, eventId)];
      Moved(s, sid, session.(phase := session.phase.(events := events))).(sequence := s.sequence + 1)
    case Commit(sid) =>
      Ended(s, sid).(db := Committed(s.db, s.maxAttempts, s.sessions[sid]).value)
    case Abort(sid) => Ended(s, sid)
  }

  /** A run: each step enabled where the steps before it lead. */
  ghost predicate Run(s: System, steps: seq<Step>)
    decreases |steps|
  {
    steps == [] || (Enabled(s, steps[0]) && Run(Do(s, steps[0]), steps[1..]))
  }

  ghost function After(s: System, steps: seq<Step>): System
    requires Run(s, steps)
    decreases |steps|
  {
    if steps == [] then s else After(Do(s, steps[0]), steps[1..])
  }
}
