/** What a commit under one wallet leaves alone: everything the sessions of other wallets
    read, except the operations of that wallet they looked at without its lock. */
module Framing {
  import opened Domain
  import opened Wager
  import opened Ledger
  import opened Events
  import opened Database
  import opened Settlement
  import opened Accounting
  import opened Conservation
  import opened Books
  import opened Protocol
  import opened ProtocolInvariant

  /** Rows are added only in the wallet, and change only there, only while they wait, and
      never in their identity. */
  ghost predicate TxsFramed(txs: seq<Tx>, txs': seq<Tx>, w: ID) {
    && |txs| <= |txs'|
    && (forall i :: 0 <= i < |txs| ==> txs'[i] == txs[i] || ChangedIn(txs[i], txs'[i], w))
    && (forall i :: |txs| <= i < |txs'| ==> txs'[i].walletId == w)
  }

  ghost predicate ChangedIn(t: Tx, t': Tx, w: ID) {
    t.state == PendingReference && t.SameIdentity(t') && t.walletId == w
  }

  ghost predicate Framed(db: Db, db': Db, w: ID) {
    && w in db'.wallets
    && (forall v :: v in db.wallets ==> v in db'.wallets && (v != w ==> db'.wallets[v] == db.wallets[v]))
    && TxsFramed(db.txs, db'.txs, w)
    && db.ledger <= db'.ledger
    && (forall k :: |db.ledger| <= k < |db'.ledger| ==> db'.ledger[k].walletId == w)
    && db.outbox <= db'.outbox
    && (forall k :: |db.outbox| <= k < |db'.outbox| ==> db'.outbox[k].aggregateId == w)
  }

  lemma CommitIsFramed(db: Db, db': Db, i: nat, x: Tx, row: WalletRow, entry: Option<Entry>, events: seq<Event>)
    requires Commits(db, db', i, x, row, entry, events) && HasWallets(db)
    ensures Framed(db, db', row.id)
  {
    if i < |db.txs| {
      assert db.txs[i] in db.txs;
    }
  }

  ghost predicate ByIdentity(p: Tx -> bool) {
    forall a: Tx, b: Tx :: a.SameIdentity(b) ==> p(a) == p(b)
  }

  /** A lookup by identity finds the row it found before, perhaps changed, or a new one. */
  lemma FindFramed(txs: seq<Tx>, txs': seq<Tx>, w: ID, p: Tx -> bool)
    requires TxsFramed(txs, txs', w) && ByIdentity(p)
    ensures var now, then_ := Find(txs, p), Find(txs', p);
            if now.None? then then_.None? || then_.value.walletId == w
            else then_.Some? && (then_ == now || ChangedIn(now.value, then_.value, w))
  {
    var i, j := First(txs, p), First(txs', p);
    forall k | 0 <= k < |txs| ensures p(txs'[k]) == p(txs[k]) {}
    if i < |txs| {
      assert p(txs'[i]) && j <= i;
      assert p(txs[j]) && i <= j;
    } else if j < |txs'| {
      assert j >= |txs|;
    }
  }

  lemma SeenStaysOk(txs: seq<Tx>, txs': seq<Tx>, w: ID, t: Tx, seen: Option<Tx>)
    requires TxsFramed(txs, txs', w) && t.walletId != w && SeenOk(txs, t, seen)
    ensures SeenOk(txs', t, seen)
  {
    if t.refExt != "" {
      FindFramed(txs, txs', w, ByExt(t.provider, t.refExt));
    }
  }

  lemma MemberStays(txs: seq<Tx>, txs': seq<Tx>, w: ID, t: Tx)
    requires TxsFramed(txs, txs', w) && t in txs && (t.walletId != w || t.state != PendingReference)
    ensures t in txs'
  {
    var k :| 0 <= k < |txs| && txs[k] == t;
    assert txs'[k] == t;
  }

  /** No commit under another wallet reverses an operation of this one. */
  lemma ReversedStays(txs: seq<Tx>, txs': seq<Tx>, w: ID, r: Tx)
    requires TxsFramed(txs, txs', w) && ReversalsOk(txs') && DistinctIds(txs')
    requires r in txs && r.walletId != w && r.state != PendingReference
    ensures HasProcessedReversal(txs', r.id) == HasProcessedReversal(txs, r.id)
  {
    if HasProcessedReversal(txs, r.id) {
      var x := Find(txs, ReversalOf(r.id)).value;
      MemberStays(txs, txs', w, x);
      assert ReversalOf(r.id)(x);
    }
    if HasProcessedReversal(txs', r.id) {
      var x := Find(txs', ReversalOf(r.id)).value;
      var a :| 0 <= a < |txs'| && txs'[a] == x;
      MemberStays(txs, txs', w, r);
      var b :| 0 <= b < |txs'| && txs'[b] == r;
      assert Reverses(txs', a, b);
      ReversesAgree(txs', a, b);
      assert txs[a] == x && x in txs && ReversalOf(r.id)(x);
    }
  }

  lemma DecisionStays(db: Db, db': Db, w: ID, row: WalletRow, t: Tx, seen: Option<Tx>, attempt: Attempt, entryId: ID, at: Time)
    requires TxsFramed(db.txs, db'.txs, w) && ReversalsOk(db'.txs) && DistinctIds(db'.txs)
    requires t.walletId != w && SeenOk(db.txs, t, seen)
    ensures Decide(row, t, seen, Reversed(db'.txs, seen), attempt, entryId, at)
            == Decide(row, t, seen, Reversed(db.txs, seen), attempt, entryId, at)
  {
    if !Waiting(seen) && seen.value.walletId == t.walletId {
      ReversedStays(db.txs, db'.txs, w, seen.value);
    } else {
      OnlyAResolvedReferenceIsChecked(t, seen, Reversed(db.txs, seen), Reversed(db'.txs, seen));
    }
  }

  lemma StartableStays(db: Db, db': Db, w: ID, job: Job)
    requires TxsFramed(db.txs, db'.txs, w) && Startable(db, job)
    ensures Startable(db', job)
  {
    if job.Retry? {
      var t :| t in db.txs && t.id == job.id && t.walletId == job.walletId;
      var k :| 0 <= k < |db.txs| && db.txs[k] == t;
      assert db'.txs[k] in db'.txs;
    }
  }

  lemma LoadedStaysOk(db: Db, db': Db, w: ID, job: Job, t: Tx)
    requires TxsFramed(db.txs, db'.txs, w) && LoadedOk(db, job, t) && t.walletId != w
    ensures LoadedOk(db', job, t)
  {
    if job.Retry? {
      MemberStays(db.txs, db'.txs, w, t);
    } else {
      FreeStays(db.txs, db'.txs, w, t);
    }
  }

  lemma FreeStays(txs: seq<Tx>, txs': seq<Tx>, w: ID, t: Tx)
    requires TxsFramed(txs, txs', w) && t.walletId != w
    ensures KeyFreeIn(txs, t) ==> KeyFreeIn(txs', t)
    ensures ExtFreeIn(txs, t) ==> ExtFreeIn(txs', t)
  {
    forall y | y in txs' && y.walletId == t.walletId ensures y in txs {
      var k :| 0 <= k < |txs'| && txs'[k] == y;
      assert k < |txs| && txs'[k] == txs[k];
    }
  }

  lemma DrawnStays(events: seq<Event>, data: seq<Data>, v: ID, outbox: seq<Event>, outbox': seq<Event>, sequence: nat, w: ID)
    requires Drawn(events, data, v, outbox, sequence) && v != w && outbox <= outbox'
    requires forall k :: |outbox| <= k < |outbox'| ==> outbox'[k].aggregateId == w
    ensures Drawn(events, data, v, outbox', sequence)
  {
    forall x, k | x in outbox' && x.aggregateId == v && 0 <= k < |events| ensures x.sequence < events[k].sequence {
      var n :| 0 <= n < |outbox'| && outbox'[n] == x;
      assert n < |outbox| && outbox[n] == x;
    }
  }

  lemma AnsweredStaysOk(db: Db, db': Db, w: ID, maxAttempts: int, sequence: nat, job: Job, found: Option<Tx>)
    requires TxsOk(db.txs, maxAttempts) && TxsFramed(db.txs, db'.txs, w) && Startable(db, job)
    requires PhaseOk(db, maxAttempts, sequence, job, Answered(found)) && job.WalletId() != w
    ensures PhaseOk(db', maxAttempts, sequence, job, Answered(found))
  {
    if job.Wager? {
      assert RowOk(found.value, maxAttempts);
      assert found.value.Fields() == job.t.Fields();
      MemberStays(db.txs, db'.txs, w, found.value);
    }
  }

  lemma StagedStaysOk(db: Db, db': Db, w: ID, maxAttempts: int, sequence: nat, job: Job, plan: Plan, events: seq<Event>)
    requires Framed(db, db', w) && ReversalsOk(db'.txs) && DistinctIds(db'.txs) && WalletsOk(db)
    requires plan.Settle? ==> job.WalletId() != w
    requires PhaseOk(db, maxAttempts, sequence, job, Staged(plan, events))
    requires plan.Settle? && job.Wager? ==> plan.t.walletId == job.WalletId()
    ensures PhaseOk(db', maxAttempts, sequence, job, Staged(plan, events))
  {
    match plan
    case Settle(row, t, seen, d) =>
      LoadedStaysOk(db, db', w, job, t);
      SeenStaysOk(db.txs, db'.txs, w, t, seen);
      DecisionStays(db, db', w, row, t, seen, job.Attempt(maxAttempts), job.entryId, job.At());
      DrawnStays(events, d.events, job.WalletId(), db.outbox, db'.outbox, sequence, w);
    case Open(opening) =>
      if job.w.id !in db'.wallets {
        DrawnStays(events, plan.Data(), job.w.id, db.outbox, db'.outbox, sequence, w);
      }
  }

  /** A session that does not hold the wallet of a commit stays in order through it. */
  lemma SessionStaysOk(db: Db, db': Db, w: ID, maxAttempts: int, sequence: nat, session: Session)
    requires Framed(db, db', w) && TxsOk(db.txs, maxAttempts) && WalletsOk(db)
    requires ReversalsOk(db'.txs) && DistinctIds(db'.txs)
    requires SessionOk(db, maxAttempts, sequence, session) && (session.held ==> session.job.WalletId() != w)
    ensures SessionOk(db', maxAttempts, sequence, session)
  {
    var job := session.job;
    StartableStays(db, db', w, job);
    match session.phase
    case KeyFree(row) => FreeStays(db.txs, db'.txs, w, job.t);
    case Loaded(row, t) => LoadedStaysOk(db, db', w, job, t);
    case Looked(row, t, seen) =>
      LoadedStaysOk(db, db', w, job, t);
      SeenStaysOk(db.txs, db'.txs, w, t, seen);
    case Staged(plan, events) => StagedStaysOk(db, db', w, maxAttempts, sequence, job, plan, events);
    case Answered(found) => AnsweredStaysOk(db, db', w, maxAttempts, sequence, job, found);
    case _ =>
  }
}
