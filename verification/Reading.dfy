/** What the queries about a wallet show in every reachable state. */
module Reading {
  import opened Domain
  import opened Sequences
  import opened Money
  import opened Wager
  import opened Ledger
  import opened Events
  import opened Database
  import opened Settlement
  import opened Accounting
  import opened Protocol
  import opened ProtocolInvariant
  import opened Safety
  import opened Theorems
  import opened Runs
  import opened Paging

  // ---------------------------------------------------------- reconciliation

  datatype Reconciliation = Reconciliation(
    walletId: ID, stored: Money, calculated: Money, difference: Money, consistent: bool, checkedEntries: nat)

  function SignedAmounts(es: seq<Entry>): (s: seq<int>)
    ensures |s| == |es|
  {
    seq(|es|, k requires 0 <= k < |es| => es[k].Signed())
  }

  /** The sum is computed without a bound and then cast to 64 bits, which fails out of range. */
  function Rebuilt(es: seq<Entry>): Result<int64> {
    var total := Sum(SignedAmounts(es));
    if MIN_INT64 <= total <= MAX_INT64 then Ok(total as int64) else Err(Violation)
  }

  /** ReadWallet.Reconcile. */
  function Reconciled(db: Db, w: ID): Result<Reconciliation> {
    var _ :- Require(w in db.wallets, NotFound(WalletNotFound));
    var stored := db.wallets[w].balance;
    var mine := Filter(db.ledger, OfWallet(w));
    var rebuilt :- Rebuilt(mine);
    var calculated :- New(rebuilt, stored.currency);
    var difference :- stored.Sub(calculated);
    Ok(Reconciliation(w, stored, calculated, difference, difference.IsZero(), |mine|))
  }

  /** Over any tables the reconciliation tells whether the ledger explains the balance, and by how
      much it does not: it fails only when the sum, or the difference, leaves 64 bits. */
  lemma ReconciledExactly(db: Db, w: ID)
    requires w in db.wallets && db.wallets[w].balance.currency.code != ""
    ensures var stored, mine := db.wallets[w].balance, Filter(db.ledger, OfWallet(w));
            var total := Sum(SignedAmounts(mine));
            var difference := stored.Units() - total;
            Reconciled(db, w)
            == if !(MIN_INT64 <= total <= MAX_INT64) then Err(Violation)
               else if !(MIN_INT64 <= difference <= MAX_INT64) then Err(Validation(AmountOverflow))
               else Ok(Reconciliation(w, stored, Money(total as int64, stored.currency),
                                      Money(difference as int64, stored.currency), stored.Units() == total, |mine|))
  {
  }

  /** The signed amounts of a chain add up to where it ends. */
  lemma {:induction false} ChainAddsUp(es: seq<Entry>)
    requires Chained(es)
    ensures Sum(SignedAmounts(es)) == if es == [] then 0 else es[|es| - 1].after.Units()
  {
    if es != [] {
      var init := es[..|es| - 1];
      ChainAddsUp(init);
      assert SignedAmounts(es) == SignedAmounts(init) + [es[|es| - 1].Signed()];
      SumAppend(SignedAmounts(init), es[|es| - 1].Signed());
    }
  }

  /** In every reachable state the reconciliation of every wallet finds no difference, and
      neither its sum nor its subtraction overflows. */
  lemma ReconcilesAlways(s: System, w: ID)
    requires Reachable(s) && w in s.db.wallets
    ensures var b := s.db.wallets[w].balance;
            Reconciled(s.db, w)
            == Ok(Reconciliation(w, b, b, Money(0, b.currency), true, |Filter(s.db.ledger, OfWallet(w))|))
  {
    ReachableIsOk(s);
    assert Explains(Filter(s.db.ledger, OfWallet(w)), s.db.wallets[w], HasOpening(s.db.txs, w));
    assert s.db.wallets[w].Valid();
    ExplainedReconciles(s.db, w);
  }

  lemma ExplainedReconciles(db: Db, w: ID)
    requires w in db.wallets && db.wallets[w].Valid() && HasRebuilt(db, w)
    ensures var b := db.wallets[w].balance;
            Reconciled(db, w) == Ok(Reconciliation(w, b, b, Money(0, b.currency), true, |Filter(db.ledger, OfWallet(w))|))
  {
    var es := Filter(db.ledger, OfWallet(w));
    ChainAddsUp(es);
  }

  ghost predicate HasRebuilt(db: Db, w: ID)
    requires w in db.wallets
  {
    var es := Filter(db.ledger, OfWallet(w));
    Chained(es) && if es == [] then db.wallets[w].balance.Units() == 0 else es[|es| - 1].after == db.wallets[w].balance
  }

  // ------------------------------------------------------------------ ledger

  /** The ledger of a wallet in every reachable state: each entry is sound and starts where
      the one before it ended, from zero to the balance, which is never negative; the
      version is one plus the entries other than the opening. */
  lemma LedgerExplainsTheWallet(s: System, w: ID)
    requires Reachable(s) && w in s.db.wallets
    ensures var es, row := Filter(s.db.ledger, OfWallet(w)), s.db.wallets[w];
            && (forall k :: 0 <= k < |es| ==>
                  es[k].Valid() && es[k].before.Units() == (if k == 0 then 0 else es[k - 1].after.Units()))
            && Sum(SignedAmounts(es)) == row.balance.Units() >= 0
            && row.version == 1 + |es| - (if HasOpening(s.db.txs, w) then 1 else 0)
  {
    var es, row, hasOpening := Filter(s.db.ledger, OfWallet(w)), s.db.wallets[w], HasOpening(s.db.txs, w);
    assert Explains(es, row, hasOpening) && row.Valid() by { ReachableIsOk(s); }
    ExplainedInFull(es, row, hasOpening);
  }

  lemma ExplainedInFull(es: seq<Entry>, row: WalletRow, hasOpening: bool)
    requires Explains(es, row, hasOpening) && row.Valid()
    ensures forall k :: 0 <= k < |es| ==>
              es[k].Valid() && es[k].before.Units() == (if k == 0 then 0 else es[k - 1].after.Units())
    ensures Sum(SignedAmounts(es)) == row.balance.Units() >= 0
    ensures row.version == 1 + |es| - (if hasOpening then 1 else 0)
  {
    ChainAddsUp(es);
  }

  /** Every operation of every reachable state is accounted for across the tables: a processed
      one other than a LOSS by one entry with its result as the balance after, any other by
      none; a terminal one by one outcome event that tells its outcome, one that waits by
      none. */
  lemma EveryOperationIsAccounted(s: System, t: Tx)
    requires Reachable(s) && t in s.db.txs
    ensures var entries, outcomes := Filter(s.db.ledger, OfTransaction(t.id)), Filter(s.db.outbox, OutcomesOf(t.id));
            && (t.state == Processed && t.kind != Loss ==>
                  |entries| == 1 && t.result == Some(entries[0].after) && entries[0].walletId == t.walletId
                  && entries[0].amount == t.amount)
            && (!(t.state == Processed && t.kind != Loss) ==> entries == [])
            && (t.state.IsTerminal() ==> |outcomes| == 1 && TellsOutcome(outcomes[0], t))
            && (!t.state.IsTerminal() ==> outcomes == [])
  {
    ReachableIsOk(s);
    assert EntriesAccounted(s.db, t) && OutcomeAccounted(s.db, t);
  }

  /** The k-th balance event of a wallet tells its k-th entry, field by field, at consecutive
      versions up to the present one. */
  lemma EveryEntryIsTold(s: System, w: ID, k: nat)
    requires Reachable(s) && w in s.db.wallets && k < |Filter(s.db.ledger, OfWallet(w))|
    ensures var changes, es := Filter(s.db.outbox, ChangesOf(w)), Filter(s.db.ledger, OfWallet(w));
            && |changes| == |es|
            && changes[k].aggregateId == w
            && changes[k].data == BalanceChanged(w, es[k].transactionId, es[k].direction, es[k].amount, es[k].before,
                                                 es[k].after, s.db.wallets[w].version - |es| + 1 + k)
  {
    ReachableIsOk(s);
    var changes, es := Filter(s.db.outbox, ChangesOf(w)), Filter(s.db.ledger, OfWallet(w));
    assert Mirrors(changes, es, s.db.wallets[w].version);
    FilterMembers(s.db.outbox, ChangesOf(w), changes[k]);
    FilterMembers(s.db.ledger, OfWallet(w), es[k]);
  }

  /** Although sequence numbers are drawn before commits, which come in any order, the events
      of each wallet are committed in the order of their numbers. */
  lemma EventsCommitInSequence(s: System, i: nat, j: nat)
    requires Reachable(s) && i < j < |s.db.outbox| && s.db.outbox[i].aggregateId == s.db.outbox[j].aggregateId
    ensures s.db.outbox[i].sequence < s.db.outbox[j].sequence
  {
    ReachableIsOk(s);
  }

  // ----------------------------------------------------- pages during a run

  /** At most one entry is added, under a new identifier. */
  ghost predicate AddsOne(ledger: seq<Entry>, ledger': seq<Entry>) {
    || ledger' == ledger
    || (ledger' != [] && ledger' == ledger + [ledger'[|ledger'| - 1]]
        && forall x :: x in ledger ==> x.id != ledger'[|ledger'| - 1].id)
  }

  lemma RecordedAddsOne(db: Db, attempt: Attempt, loadedVersion: int, d: Decision, events: seq<Event>)
    requires Recorded(db, attempt, loadedVersion, d, events).Ok?
    ensures AddsOne(db.ledger, Recorded(db, attempt, loadedVersion, d, events).value.ledger)
  {
    var saved := (if attempt.Arrival? then TransactionInserted(db, d.tx) else PendingUpdated(db, d.tx)).value;
    EventsAppendedAppends(EntryRecorded(saved, loadedVersion, d).value, events);
  }

  lemma OpeningAddsOne(db: Db, w: WalletRow, d: Decision, events: seq<Event>)
    requires OpeningRecorded(db, w, Some(d), events).Ok?
    ensures AddsOne(db.ledger, OpeningRecorded(db, w, Some(d), events).value.ledger)
  {
    var saved := TransactionInserted(WalletInserted(db, w).value, d.tx).value;
    EventsAppendedAppends(if d.entry.Some? then EntryAppended(saved, d.entry.value).value else saved, events);
  }

  lemma CommittedAddsOne(db: Db, maxAttempts: int, session: Session)
    requires Complete(session.phase) && Committed(db, maxAttempts, session).Ok?
    ensures AddsOne(db.ledger, Committed(db, maxAttempts, session).value.ledger)
  {
    match session.phase
    case Staged(Settle(w, t, seen, d), events) =>
      RecordedAddsOne(db, session.job.Attempt(maxAttempts), w.version, d, events);
    case Staged(Open(opening), events) =>
      if session.job.Opening? && opening.Some? {
        OpeningAddsOne(db, session.job.w, opening.value, events);
      }
    case _ =>
  }

  lemma {:induction false} RunKeepsDistinct(s: System, steps: seq<Step>)
    requires Run(s, steps) && DistinctEntries(s.db.ledger)
    ensures DistinctEntries(After(s, steps).db.ledger)
    decreases |steps|
  {
    if steps != [] {
      if steps[0].Commit? {
        CommittedAddsOne(s.db, s.maxAttempts, s.sessions[steps[0].sid]);
      }
      RunKeepsDistinct(Do(s, steps[0]), steps[1..]);
    }
  }

  lemma ReachableIsDistinct(s: System)
    requires Reachable(s)
    ensures DistinctEntries(s.db.ledger)
  {
    var maxAttempts: int, steps: seq<Step> :|
      maxAttempts >= 1 && Run(Init(maxAttempts), steps) && After(Init(maxAttempts), steps) == s;
    RunKeepsDistinct(Init(maxAttempts), steps);
  }

  /** A run splits anywhere. */
  lemma {:induction false} RunSplits(s: System, steps: seq<Step>, n: nat)
    requires Run(s, steps) && n <= |steps|
    ensures Run(s, steps[..n]) && Run(After(s, steps[..n]), steps[n..])
    ensures After(After(s, steps[..n]), steps[n..]) == After(s, steps)
    decreases |steps|
  {
    if n > 0 {
      RunSplits(Do(s, steps[0]), steps[1..], n - 1);
      assert steps[..n][1..] == steps[1..][..n - 1] && steps[1..][n - 1..] == steps[n..];
    } else {
      assert steps[n..] == steps;
    }
  }

  /** The moments of a run at which the pages of a walk are read. */
  ghost predicate Moments(steps: seq<Step>, at: seq<nat>) {
    && (forall i :: 0 <= i < |at| ==> at[i] <= |steps|)
    && (forall i, j :: 0 <= i < j < |at| ==> at[i] <= at[j])
  }

  ghost function LedgersAt(s: System, steps: seq<Step>, at: seq<nat>): (r: seq<seq<Entry>>)
    requires Run(s, steps) && Moments(steps, at)
    ensures |r| == |at|
  {
    seq(|at|, i requires 0 <= i < |at| => LedgerAt(s, steps, at[i]))
  }

  ghost function LedgerAt(s: System, steps: seq<Step>, n: nat): seq<Entry>
    requires Run(s, steps) && n <= |steps|
  {
    RunSplits(s, steps, n);
    After(s, steps[..n]).db.ledger
  }

  lemma LedgerOnlyGrows(s: System, steps: seq<Step>, m: nat, n: nat)
    requires Run(s, steps) && Inv(s) && m <= n <= |steps|
    ensures LedgerAt(s, steps, m) <= LedgerAt(s, steps, n)
  {
    RunSplits(s, steps, n);
    var early := steps[..n];
    RunSplits(s, early, m);
    assert early[..m] == steps[..m];
    var s' := After(s, steps[..m]);
    assert Inv(s') by { RunKeepsInv(s, steps[..m]); }
    assert Grows(s'.db, After(s', early[m..]).db) by { RunGrows(s', early[m..]); }
  }

  /** A walk whose pages are read at any moments of any run, while sessions settle between
      them, has no entry twice and misses none that was there when it began. */
  lemma WalkDuringARun(s: System, steps: seq<Step>, at: seq<nat>, w: ID, limit: int)
    requires 0 <= limit <= MAX_PAGE_SIZE && Moments(steps, at) && Run(s, steps) && Reachable(s)
    requires Ends(LedgersAt(s, steps, at), w, None, PageSize(limit))
    ensures var ledgers := LedgersAt(s, steps, at);
            Faithful(Walk(ledgers, w, None, PageSize(limit)), ledgers[0], After(s, steps).db.ledger, w)
  {
    var ledgers := LedgersAt(s, steps, at);
    LedgersAppend(s, steps, at);
    LastLedger(s, steps, at[|at| - 1]);
    WholeWalkLater(ledgers, w, limit, After(s, steps).db.ledger);
  }

  lemma LastLedger(s: System, steps: seq<Step>, n: nat)
    requires Reachable(s) && Run(s, steps) && n <= |steps|
    ensures LedgerAt(s, steps, n) <= After(s, steps).db.ledger
  {
    ReachableIsOk(s);
    LedgerOnlyGrows(s, steps, n, |steps|);
    assert steps[..|steps|] == steps;
  }

  lemma LedgersAppend(s: System, steps: seq<Step>, at: seq<nat>)
    requires Reachable(s) && Run(s, steps) && Moments(steps, at)
    ensures Appending(LedgersAt(s, steps, at))
  {
    var ledgers := LedgersAt(s, steps, at);
    assert Inv(s) by { ReachableIsOk(s); }
    ReachableIsDistinct(s);
    forall i | 0 <= i < |ledgers| ensures DistinctEntries(ledgers[i]) {
      RunSplits(s, steps, at[i]);
      RunKeepsDistinct(s, steps[..at[i]]);
    }
    forall i, j | 0 <= i < j < |ledgers| ensures ledgers[i] <= ledgers[j] {
      LedgerOnlyGrows(s, steps, at[i], at[j]);
    }
  }
}
