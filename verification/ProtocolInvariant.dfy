/** What every reachable state of the protocol satisfies: the books are balanced, and what a
    session read under its lock still holds. */
module ProtocolInvariant {
  import opened Domain
  import opened Wager
  import opened Ledger
  import opened Events
  import opened Database
  import opened Settlement
  import opened Accounting
  import opened Books
  import opened Protocol

  // --------------------------------------------------------------- invariant

  ghost predicate LocksOk(s: System) {
    && (forall w :: w in s.locks ==>
          && s.locks[w] in s.sessions && s.sessions[s.locks[w]].held
          && s.sessions[s.locks[w]].job.WalletId() == w)
    && (forall sid :: sid in s.sessions && s.sessions[sid].held ==>
          && s.sessions[sid].job.WalletId() in s.locks
          && s.locks[s.sessions[sid].job.WalletId()] == sid)
  }

  /** No operation of the wallet was sent with the key, nor with the identifier. */
  ghost predicate KeyFreeIn(txs: seq<Tx>, t: Tx) {
    forall y :: y in txs && y.walletId == t.walletId ==> !ByKey(t.provider, t.key)(y)
  }

  ghost predicate ExtFreeIn(txs: seq<Tx>, t: Tx) {
    forall y :: y in txs && y.walletId == t.walletId ==> !ByExt(t.provider, t.ext)(y)
  }

  /** The operation a session settles: the one received, still new to its wallet, or the one
      it read, still waiting. */
  ghost predicate LoadedOk(db: Db, job: Job, t: Tx) {
    match job
    case Wager(received, _, _) => t == received && KeyFreeIn(db.txs, t) && ExtFreeIn(db.txs, t)
    case Retry(id, walletId, _, _) => t in db.txs && t.id == id && t.walletId == walletId && t.state == PendingReference
    case Opening(_, _, _) => false
  }

  /** What was seen of the reference is what a lookup would find now, unless it was still
      awaited when read and is an operation of another wallet, which nobody locked. */
  ghost predicate SeenOk(txs: seq<Tx>, t: Tx, seen: Option<Tx>) {
    if t.refExt == "" then seen == None else
      var now := FindByExt(txs, t.provider, t.refExt);
      now == seen || StaleSeen(t, seen, now)
  }

  ghost predicate StaleSeen(t: Tx, seen: Option<Tx>, now: Option<Tx>) {
    Waiting(seen) && now.Some? && now.value.walletId != t.walletId
  }

  /** Events drawn one by one, each after every event of the wallet stored or drawn before. */
  ghost predicate Drawn(events: seq<Event>, data: seq<Data>, w: ID, outbox: seq<Event>, sequence: nat) {
    && |events| <= |data|
    && (forall k :: 0 <= k < |events| ==>
          events[k].data == data[k] && events[k].aggregateId == w && events[k].sequence < sequence)
    && (forall j, k :: 0 <= j < k < |events| ==> events[j].sequence < events[k].sequence)
    && (forall x, k :: x in outbox && x.aggregateId == w && 0 <= k < |events| ==> x.sequence < events[k].sequence)
  }

  ghost predicate PhaseOk(db: Db, maxAttempts: int, sequence: nat, job: Job, phase: Phase) {
    match phase
    case Begun => true
    case Ready => !job.Opening?
    case Locked(w) => !job.Opening? && Holds(db, job, w)
    case KeyFree(w) => job.Wager? && Holds(db, job, w) && KeyFreeIn(db.txs, job.t)
    case Loaded(w, t) => Holds(db, job, w) && LoadedOk(db, job, t)
    case Looked(w, t, seen) => Holds(db, job, w) && LoadedOk(db, job, t) && SeenOk(db.txs, t, seen)
    case Staged(Settle(w, t, seen, d), events) =>
      && Holds(db, job, w) && LoadedOk(db, job, t) && SeenOk(db.txs, t, seen)
      && Decide(w, t, seen, Reversed(db.txs, seen), job.Attempt(maxAttempts), job.entryId, job.At()) == Ok(d)
      && Drawn(events, d.events, job.WalletId(), db.outbox, sequence)
      && (forall k :: 0 <= k < |events| ==> events[k].occurredAt == job.At())
    case Staged(Open(opening), events) =>
      && job.Opening? && DecideOpening(job.w, job.openingId, job.entryId) == Ok(opening)
      && Drawn(events, phase.plan.Data(), job.w.id,
               if job.w.id in db.wallets then [] else db.outbox, sequence)
    case Answered(found) =>
      && !job.Opening?
      && (job.Wager? ==>
            found.Some? && found.value in db.txs && found.value.hash == job.t.hash && found.value.key == job.t.key)
    case Taken(_) => true
    case Refused(_) => true
  }

  ghost predicate Holds(db: Db, job: Job, w: WalletRow) {
    job.WalletId() in db.wallets && db.wallets[job.WalletId()] == w
  }

  predicate NeedsLock(phase: Phase) {
    match phase
    case Locked(_) => true
    case KeyFree(_) => true
    case Loaded(_, _) => true
    case Looked(_, _, _) => true
    case Staged(Settle(_, _, _, _), _) => true
    case Answered(_) => true
    case _ => false
  }

  ghost predicate SessionOk(db: Db, maxAttempts: int, sequence: nat, session: Session) {
    && Startable(db, session.job)
    && (NeedsLock(session.phase) ==> session.held)
    && (session.held ==> session.job.WalletId() in db.wallets)
    && PhaseOk(db, maxAttempts, sequence, session.job, session.phase)
  }

  ghost predicate OutboxOk(outbox: seq<Event>, sequence: nat) {
    && Ordered(outbox)
    && (forall e :: e in outbox ==> e.sequence < sequence)
    && DistinctEvents(outbox)
  }

  ghost predicate SessionsOk(s: System) {
    forall sid :: sid in s.sessions ==> SessionOk(s.db, s.maxAttempts, s.sequence, s.sessions[sid])
  }

  ghost predicate Inv(s: System) {
    Balanced(s.db, s.maxAttempts) && OutboxOk(s.db.outbox, s.sequence) && LocksOk(s) && SessionsOk(s)
  }

  lemma InitIsOk(maxAttempts: int)
    requires maxAttempts >= 1
    ensures Inv(Init(maxAttempts))
  {
    EmptyIsBalanced(maxAttempts);
  }

  // ----------------------------------------------------------------- reading

  /** A statement leaves its session in order: what it read is what it holds. */
  lemma NextIsOk(db: Db, maxAttempts: int, sequence: nat, session: Session)
    requires TxsOk(db.txs, maxAttempts) && SessionOk(db, maxAttempts, sequence, session) && Reads(session.phase)
    ensures SessionOk(db, maxAttempts, sequence, session.(phase := Next(db, maxAttempts, session.job, session.phase)))
  {
    match session.phase
    case Locked(w) => AfterLockIsOk(db, maxAttempts, sequence, session.job, w);
    case KeyFree(w) => KeyFreeNextIsOk(db, maxAttempts, sequence, session.job, w);
    case _ =>
  }

  lemma AfterLockIsOk(db: Db, maxAttempts: int, sequence: nat, job: Job, w: WalletRow)
    requires TxsOk(db.txs, maxAttempts) && Startable(db, job) && !job.Opening? && Holds(db, job, w)
    ensures PhaseOk(db, maxAttempts, sequence, job, AfterLock(db, job, w))
  {
    if job.Retry? {
      RetriedIsInItsWallet(db, maxAttempts, job);
    } else if FindByKey(db.txs, job.t.provider, job.t.key).None? {
      assert KeyFreeIn(db.txs, job.t);
    }
  }

  lemma KeyFreeNextIsOk(db: Db, maxAttempts: int, sequence: nat, job: Job, w: WalletRow)
    requires job.Wager? && Holds(db, job, w) && KeyFreeIn(db.txs, job.t)
    ensures PhaseOk(db, maxAttempts, sequence, job, Next(db, maxAttempts, job, KeyFree(w)))
  {
    if FindByExt(db.txs, job.t.provider, job.t.ext).None? {
      assert ExtFreeIn(db.txs, job.t);
    }
  }

  lemma RetriedIsInItsWallet(db: Db, maxAttempts: int, job: Job)
    requires TxsOk(db.txs, maxAttempts) && job.Retry? && Startable(db, job)
    ensures var t := FindById(db.txs, job.id); t.Some? && t.value.walletId == job.walletId
  {
    var t :| t in db.txs && t.id == job.id && t.walletId == job.walletId;
    assert ById(job.id)(t);
    PlaceOfAWaiting(db.txs, t);
  }
}
