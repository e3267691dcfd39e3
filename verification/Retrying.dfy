/** The worker that tries waiting operations again: the lease of the due ones, and an execution
    that tries those leased in turn, each with its own answer and effect. */
module Retrying {
  import opened Domain
  import opened Sequences
  import opened Wager
  import opened Ledger
  import opened Events
  import opened Database
  import opened Settlement
  import opened Accounting
  import opened Conservation
  import opened Books
  import opened UseCases
  import opened Bookkeeping
  import opened Schedule
  import opened Execution
  import B = Backoff

  /** What a lease answers of an operation. */
  datatype Taken = Taken(transactionId: ID, walletId: ID)

  /** The tables with the column that schedules attempts. */
  datatype Tables = Tables(db: Db, schedule: Schedule)

  /** What an attempt draws: its instant, and the identifiers and numbers it may use. */
  datatype Draws = Draws(at: Time, entryId: ID, marks: Marks)

  // ------------------------------------------------------------------- lease

  /** An operation whose attempt is due and whose row no other worker has locked. */
  predicate IsDue(txs: seq<Tx>, schedule: Schedule, k: nat, dueAt: Time, locked: set<nat>)
    requires k < |txs|
  {
    txs[k].state == PendingReference && txs[k].id in schedule && schedule[txs[k].id] <= dueAt && k !in locked
  }

  ghost predicate AreDue(txs: seq<Tx>, schedule: Schedule, picks: seq<nat>, dueAt: Time, locked: set<nat>) {
    && (forall i :: 0 <= i < |picks| ==> picks[i] < |txs| && IsDue(txs, schedule, picks[i], dueAt, locked))
    && (forall i, j :: 0 <= i < j < |picks| ==> picks[i] != picks[j])
  }

  ghost predicate EarliestFirst(txs: seq<Tx>, schedule: Schedule, picks: seq<nat>, dueAt: Time, locked: set<nat>)
    requires AreDue(txs, schedule, picks, dueAt, locked)
  {
    forall i, k :: 0 <= i < |picks| && 0 <= k < |txs| && IsDue(txs, schedule, k, dueAt, locked) && k !in picks ==>
      schedule[txs[picks[i]].id] <= schedule[txs[k].id]
  }

  /** A lease takes as many due operations as the batch holds, those due the longest, in any
      order. */
  ghost predicate Picked(txs: seq<Tx>, schedule: Schedule, picks: seq<nat>, dueAt: Time, locked: set<nat>, limit: int) {
    && AreDue(txs, schedule, picks, dueAt, locked)
    && |picks| <= (if limit > 0 then limit else 0)
    && (|picks| < limit ==> forall k :: 0 <= k < |txs| && IsDue(txs, schedule, k, dueAt, locked) ==> k in picks)
    && EarliestFirst(txs, schedule, picks, dueAt, locked)
  }

  function Postponed(txs: seq<Tx>, schedule: Schedule, picks: seq<nat>, leaseUntil: Time): Schedule {
    schedule + (map k | k in picks && k < |txs| :: txs[k].id := leaseUntil)
  }

  function Leased(x: Tables, picks: seq<nat>, leaseUntil: Time): Tables {
    x.(schedule := Postponed(x.db.txs, x.schedule, picks, leaseUntil))
  }

  function ReferencesAt(txs: seq<Tx>, picks: seq<nat>): (r: seq<Taken>)
    requires forall i :: 0 <= i < |picks| ==> picks[i] < |txs|
    ensures |r| == |picks|
  {
    seq(|picks|, i requires 0 <= i < |picks| => Taken(txs[picks[i]].id, txs[picks[i]].walletId))
  }

  /** The due operation not yet picked that is due the longest, or the end of the table. */
  method NextDue(txs: seq<Tx>, schedule: Schedule, picks: seq<nat>, dueAt: Time, locked: set<nat>) returns (k: nat)
    ensures k <= |txs|
    ensures k == |txs| ==> forall j :: 0 <= j < |txs| && IsDue(txs, schedule, j, dueAt, locked) ==> j in picks
    ensures k < |txs| ==> IsDue(txs, schedule, k, dueAt, locked) && k !in picks
    ensures k < |txs| ==> forall j :: 0 <= j < |txs| && IsDue(txs, schedule, j, dueAt, locked) && j !in picks ==>
                            schedule[txs[k].id] <= schedule[txs[j].id]
  {
    k := |txs|;
    for i := 0 to |txs|
      invariant k < i || k == |txs|
      invariant k == |txs| ==> forall j :: 0 <= j < i && IsDue(txs, schedule, j, dueAt, locked) ==> j in picks
      invariant k < |txs| ==> IsDue(txs, schedule, k, dueAt, locked) && k !in picks
      invariant k < |txs| ==> forall j :: 0 <= j < i && IsDue(txs, schedule, j, dueAt, locked) && j !in picks ==>
                                schedule[txs[k].id] <= schedule[txs[j].id]
    {
      if IsDue(txs, schedule, i, dueAt, locked) && i !in picks
         && (k == |txs| || schedule[txs[i].id] < schedule[txs[k].id]) {
        k := i;
      }
    }
  }

  method LeasePendingReferences(store: Store, dueAt: Time, leaseUntil: Time, limit: int, locked: set<nat>)
    returns (leased: seq<Taken>, ghost picks: seq<nat>)
    modifies store`schedule
    ensures Picked(store.txs, old(store.schedule), picks, dueAt, locked, limit)
    ensures |picks| < limit ==>
              forall k :: 0 <= k < |store.txs| && k !in locked && k !in picks ==>
                store.txs[k].state == PendingReference && store.txs[k].id in old(store.schedule) ==>
                  dueAt < old(store.schedule)[store.txs[k].id]
    ensures leased == ReferencesAt(old(store.txs), picks)
    ensures Tables(store.Db(), store.schedule) == Leased(old(Tables(store.Db(), store.schedule)), picks, leaseUntil)
  {
    var found: seq<nat> := [];
    var more := true;
    while |found| < limit && more
      invariant store.schedule == old(store.schedule)
      invariant |found| <= (if limit > 0 then limit else 0)
      invariant AreDue(store.txs, store.schedule, found, dueAt, locked)
      invariant EarliestFirst(store.txs, store.schedule, found, dueAt, locked)
      invariant !more ==> forall k :: 0 <= k < |store.txs| && IsDue(store.txs, store.schedule, k, dueAt, locked) ==>
                            k in found
      decreases limit - |found|, more
    {
      var k := NextDue(store.txs, store.schedule, found, dueAt, locked);
      if k == |store.txs| {
        more := false;
      } else {
        found := found + [k];
      }
    }
    picks := found;
    leased := ReferencesAt(store.txs, found);
    store.schedule := Postponed(store.txs, store.schedule, found, leaseUntil);
  }

  // --------------------------------------------------------------- execution

  /** One attempt on a leased operation, in a database transaction of its own. */
  function TriedOnce(x: Tables, leased: Taken, draws: Draws, policy: Policy): Result<(Tables, Option<State>)>
    requires policy.Valid()
  {
    var id := leased.transactionId;
    var done :- Retried(x.db, id, leased.walletId, draws.entryId, draws.marks, policy.maxAttempts, draws.at);
    var schedule := ScheduledOnRetry(x.schedule, FindById(x.db.txs, id), FindById(done.0.txs, id), policy, draws.at);
    Ok((Tables(done.0, schedule), done.1))
  }

  /** An attempt that fails leaves the tables to the next. */
  function OneTried(x: Tables, leased: Taken, draws: Draws, policy: Policy): (Tables, Answer)
    requires policy.Valid()
  {
    match TriedOnce(x, leased, draws, policy)
    case Ok(done) => (done.0, Ok(done.1))
    case Err(e) => (x, Err(e))
  }

  type Answer = Result<Option<State>>

  function Turn(leased: seq<Taken>, draws: nat -> Draws, policy: Policy): (Tables, nat) -> (Tables, Answer)
    requires policy.Valid()
  {
    (x: Tables, i: nat) =>
      if i < |leased| then OneTried(x, leased[i], draws(i), policy) else (x, Ok(None))
  }

  /** The tables after the first n attempts, and what each answered. */
  function AllTried(x: Tables, leased: seq<Taken>, n: nat, draws: nat -> Draws, policy: Policy): (r: (Tables, seq<Answer>))
    requires policy.Valid()
    ensures |r.1| == n
  {
    Turns(x, n, Turn(leased, draws, policy))
  }

  method TryOne(store: Store, leased: Taken, draws: Draws, policy: Policy) returns (r: Answer)
    requires policy.Valid()
    modifies store
    ensures (Tables(store.Db(), store.schedule), r) == OneTried(old(Tables(store.Db(), store.schedule)), leased, draws, policy)
  {
    r := Retry(store, leased.transactionId, leased.walletId, draws.entryId, draws.marks, policy, draws.at);
  }

  method TryAll(store: Store, leased: seq<Taken>, draws: nat -> Draws, policy: Policy)
    returns (answers: seq<Answer>)
    requires policy.Valid()
    modifies store
    ensures (Tables(store.Db(), store.schedule), answers)
            == AllTried(old(Tables(store.Db(), store.schedule)), leased, |leased|, draws, policy)
  {
    answers := [];
    for k := 0 to |leased|
      invariant (Tables(store.Db(), store.schedule), answers)
                == AllTried(old(Tables(store.Db(), store.schedule)), leased, k, draws, policy)
    {
      var r := TryOne(store, leased[k], draws(k), policy);
      answers := answers + [r];
    }
  }

  /** An execution over the operations picked: each is postponed, and then tried. */
  function Executed(x: Tables, picks: seq<nat>, policy: Policy, now: Time, draws: nat -> Draws)
    : (r: (Tables, seq<Answer>))
    requires policy.Valid() && forall i :: 0 <= i < |picks| ==> picks[i] < |x.db.txs|
    ensures |r.1| == |picks|
  {
    AllTried(Leased(x, picks, policy.LeaseUntil(now)), ReferencesAt(x.db.txs, picks), |picks|, draws, policy)
  }

  /** ResolvePendingReferences.Execute: every operation leased is tried, whatever becomes of the
      others. */
  method Execute(store: Store, policy: Policy, now: Time, locked: set<nat>, draws: nat -> Draws)
    returns (answers: seq<Answer>, ghost picks: seq<nat>)
    requires policy.Valid()
    modifies store
    ensures Picked(old(store.txs), old(store.schedule), picks, now, locked, policy.batchSize)
    ensures (Tables(store.Db(), store.schedule), answers)
            == Executed(old(Tables(store.Db(), store.schedule)), picks, policy, now, draws)
  {
    var leased;
    leased, picks := LeasePendingReferences(store, now, policy.LeaseUntil(now), policy.batchSize, locked);
    answers := TryAll(store, leased, draws, policy);
  }

  // ------------------------------------------------------------ one attempt

  ghost predicate InOrder(x: Tables, maxAttempts: int) {
    Balanced(x.db, maxAttempts) && ScheduledExactly(x.db.txs, x.schedule)
  }

  /** An attempt on a waiting operation leaves it concluded, or waiting with one attempt more. */
  ghost predicate Attempted(t: Tx, x: Tx) {
    && t.SameIdentity(x)
    && (x.state.IsTerminal() || (x.state == PendingReference && x.attempts == t.attempts + 1))
  }

  lemma TriedAgainPutsTheRow(db: Db, w: WalletRow, t: Tx, entryId: ID, marks: Marks, maxAttempts: int, at: Time,
                             done: (Db, Tx))
    requires TxsOk(db.txs, maxAttempts) && WalletsOk(db) && t in db.txs && t.state == PendingReference
    requires t.walletId in db.wallets && db.wallets[t.walletId] == w
    requires TriedAgain(db, w, t, entryId, marks, maxAttempts, at) == Ok(done)
    ensures done.0.txs == Put(db.txs, First(db.txs, ById(t.id)), done.1) && Attempted(t, done.1)
  {
    var seen := LookedUp(db.txs, t);
    var d := Decide(w, t, seen, Reversed(db.txs, seen), Again(maxAttempts), entryId, at).value;
    assert RowOk(t, maxAttempts);
    assert Sound(w, t, seen, Reversed(db.txs, seen), Again(maxAttempts), entryId, d) by {
      DecisionIsSound(w, t, seen, Reversed(db.txs, seen), Again(maxAttempts), entryId, at);
    }
    SoundPutsTheRow(db, w, t, seen, entryId, d, Stamp(d.events, t.walletId, at, marks), maxAttempts);
  }

  lemma SoundPutsTheRow(db: Db, w: WalletRow, t: Tx, seen: Option<Tx>, entryId: ID, d: Decision, events: seq<Event>,
                        maxAttempts: int)
    requires TxsOk(db.txs, maxAttempts) && WalletsOk(db) && t in db.txs && t.state == PendingReference
    requires t.walletId in db.wallets && db.wallets[t.walletId] == w && Settles(t, Again(maxAttempts))
    requires Sound(w, t, seen, Reversed(db.txs, seen), Again(maxAttempts), entryId, d)
    requires Recorded(db, Again(maxAttempts), w.version, d, events).Ok?
    ensures Recorded(db, Again(maxAttempts), w.version, d, events).value.txs
            == Put(db.txs, First(db.txs, ById(t.id)), d.tx)
    ensures Attempted(t, d.tx)
  {
    RecordedEffect(db, w, t, Again(maxAttempts), d, events, maxAttempts);
  }

  lemma RetriedIsTriedAgain(db: Db, id: ID, walletId: ID, t: Tx, entryId: ID, marks: Marks, maxAttempts: int, at: Time,
                            done: (Db, Option<State>)) returns (x: Tx)
    requires FindById(db.txs, id) == Some(t) && t.state == PendingReference
    requires Retried(db, id, walletId, entryId, marks, maxAttempts, at) == Ok(done)
    ensures walletId in db.wallets && done.1 == Some(x.state)
    ensures TriedAgain(db, db.wallets[walletId], t, entryId, marks, maxAttempts, at) == Ok((done.0, x))
  {
    x := TriedAgain(db, db.wallets[walletId], t, entryId, marks, maxAttempts, at).value.1;
  }

  lemma WhereItIs(txs: seq<Tx>, k: nat)
    requires DistinctIds(txs) && k < |txs|
    ensures First(txs, ById(txs[k].id)) == k && FindById(txs, txs[k].id) == Some(txs[k])
  {
    assert ById(txs[k].id)(txs[k]);
    SameId(txs, First(txs, ById(txs[k].id)), k);
  }

  /** An attempt changes the row of the operation, and no other. */
  lemma RetryPutsTheRow(db: Db, k: nat, entryId: ID, marks: Marks, maxAttempts: int, at: Time, done: (Db, Option<State>))
    requires TxsOk(db.txs, maxAttempts) && WalletsOk(db) && k < |db.txs| && db.txs[k].state == PendingReference
    requires Retried(db, db.txs[k].id, db.txs[k].walletId, entryId, marks, maxAttempts, at) == Ok(done)
    ensures |done.0.txs| == |db.txs| && done.0.txs == db.txs[k := done.0.txs[k]]
    ensures Attempted(db.txs[k], done.0.txs[k]) && done.1 == Some(done.0.txs[k].state)
  {
    var t := db.txs[k];
    WhereItIs(db.txs, k);
    var x := RetriedIsTriedAgain(db, t.id, t.walletId, t, entryId, marks, maxAttempts, at, done);
    TriedAgainPutsTheRow(db, db.wallets[t.walletId], t, entryId, marks, maxAttempts, at, (done.0, x));
  }

  lemma TriedOnceIsRetried(x: Tables, leased: Taken, draws: Draws, policy: Policy, done: (Tables, Option<State>))
    requires policy.Valid() && TriedOnce(x, leased, draws, policy) == Ok(done)
    ensures Retried(x.db, leased.transactionId, leased.walletId, draws.entryId, draws.marks, policy.maxAttempts, draws.at)
            == Ok((done.0.db, done.1))
    ensures done.0.schedule
            == ScheduledOnRetry(x.schedule, FindById(x.db.txs, leased.transactionId),
                                FindById(done.0.db.txs, leased.transactionId), policy, draws.at)
  {
  }

  /** Only the row k changed, as an attempt changes it, and its schedule with it. */
  ghost predicate Changed(x: Tables, later: Tables, k: nat, at: Time, policy: Policy)
    requires policy.Valid()
  {
    && k < |x.db.txs| == |later.db.txs|
    && later.db.txs == x.db.txs[k := later.db.txs[k]] && Attempted(x.db.txs[k], later.db.txs[k])
    && later.schedule == Scheduled(x.schedule, later.db.txs[k], policy.NextAttempt(at, later.db.txs[k].attempts))
  }

  /** An attempt that succeeds schedules the next one when the operation goes on waiting. */
  lemma TriedPutsTheRow(x: Tables, k: nat, draws: Draws, policy: Policy, done: (Tables, Option<State>))
    requires policy.Valid() && TxsOk(x.db.txs, policy.maxAttempts) && WalletsOk(x.db)
    requires k < |x.db.txs| && x.db.txs[k].state == PendingReference
    requires TriedOnce(x, Taken(x.db.txs[k].id, x.db.txs[k].walletId), draws, policy) == Ok(done)
    ensures Changed(x, done.0, k, draws.at, policy) && done.1 == Some(done.0.db.txs[k].state)
  {
    var t := x.db.txs[k];
    TriedOnceIsRetried(x, Taken(t.id, t.walletId), draws, policy, done);
    RetryPutsTheRow(x.db, k, draws.entryId, draws.marks, policy.maxAttempts, draws.at, (done.0.db, done.1));
    StillDistinct(x.db.txs, k, done.0.db.txs[k]);
    WhereItIs(x.db.txs, k);
    WhereItIs(done.0.db.txs, k);
  }

  /** A retry that leaves the operation waiting schedules its next attempt after the base delay,
      doubled for each attempt but the first and capped; an odd cap is reached one short of it. */
  lemma RetryWaits(x: Tables, k: nat, draws: Draws, policy: Policy, done: (Tables, Option<State>))
    requires policy.Valid() && TxsOk(x.db.txs, policy.maxAttempts) && WalletsOk(x.db)
    requires k < |x.db.txs| && x.db.txs[k].state == PendingReference
    requires TriedOnce(x, Taken(x.db.txs[k].id, x.db.txs[k].walletId), draws, policy) == Ok(done)
    ensures k < |done.0.db.txs| && done.0.db.txs[k].SameIdentity(x.db.txs[k])
    ensures Postpones(x.schedule, done.0.schedule, done.0.db.txs[k], x.db.txs[k].attempts + 1, policy, draws.at)
  {
    TriedPutsTheRow(x, k, draws, policy, done);
    ScheduledPostpones(x.schedule, done.0.db.txs[k], policy, draws.at);
  }

  lemma StillDistinct(txs: seq<Tx>, k: nat, y: Tx)
    requires DistinctIds(txs) && k < |txs| && txs[k].id == y.id
    ensures DistinctIds(txs[k := y])
  {
  }

  /** And it keeps the tables in order. */
  lemma TriedKeepsOrder(x: Tables, k: nat, draws: Draws, policy: Policy, done: (Tables, Option<State>))
    requires policy.Valid() && InOrder(x, policy.maxAttempts) && k < |x.db.txs|
    requires x.db.txs[k].state == PendingReference && Changed(x, done.0, k, draws.at, policy)
    requires TriedOnce(x, Taken(x.db.txs[k].id, x.db.txs[k].walletId), draws, policy) == Ok(done)
    ensures InOrder(done.0, policy.maxAttempts)
  {
    var t, y := x.db.txs[k], done.0.db.txs[k];
    assert Balanced(done.0.db, policy.maxAttempts) by {
      TriedOnceIsRetried(x, Taken(t.id, t.walletId), draws, policy, done);
      assert t in x.db.txs;
      RetriedKeepsTheBooks(x.db, t.id, t.walletId, draws.entryId, draws.marks, policy.maxAttempts, draws.at);
    }
    assert ScheduledExactly(done.0.db.txs, done.0.schedule) by {
      ScheduleStaysExact(x.db.txs, x.schedule, k, y, policy.NextAttempt(draws.at, y.attempts));
    }
  }

  // --------------------------------------------------------------- one batch

  /** An operation taken, once its attempt answered: one that failed is as it was, and due again
      when its lease runs out; one that goes on waiting has its next attempt scheduled. */
  ghost predicate TriedAt(t: Tx, x: Tx, answer: Answer, at: Time, policy: Policy, leaseUntil: Time,
                          schedule: Schedule)
    requires policy.Valid()
  {
    match answer
    case Err(_) => x == t && t.id in schedule && schedule[t.id] == leaseUntil
    case Ok(state) =>
      && Attempted(t, x) && state == Some(x.state)
      && (if x.state == PendingReference
          then x.id in schedule
               && schedule[x.id] == at + B.Delay(policy.baseDelay as int, policy.maxDelay as int, x.attempts)
          else x.id !in schedule)
  }

  /** An operation as it was, due when it was. */
  ghost predicate Stands(x: Tables, now: Tables, k: nat)
    requires k < |x.db.txs| == |now.db.txs|
  {
    var id := x.db.txs[k].id;
    && now.db.txs[k] == x.db.txs[k]
    && (id in now.schedule <==> id in x.schedule)
    && (id in x.schedule ==> now.schedule[id] == x.schedule[id])
  }

  /** Operations taken: distinct, waiting, and leased. */
  ghost predicate Held(x: Tables, picks: seq<nat>, leaseUntil: Time) {
    && (forall i :: 0 <= i < |picks| ==>
          && picks[i] < |x.db.txs| && x.db.txs[picks[i]].state == PendingReference
          && x.db.txs[picks[i]].id in x.schedule && x.schedule[x.db.txs[picks[i]].id] == leaseUntil)
    && (forall i, j :: 0 <= i < j < |picks| ==> picks[i] != picks[j])
  }

  /** After the first n attempts, the operations they were on were tried and the others stand. */
  ghost predicate FirstTried(x: Tables, picks: seq<nat>, n: nat, draws: nat -> Draws, policy: Policy, leaseUntil: Time,
                             now: Tables, answers: seq<Answer>)
    requires policy.Valid() && Held(x, picks, leaseUntil) && n <= |picks|
  {
    && |now.db.txs| == |x.db.txs| && |answers| == n
    && (forall i :: 0 <= i < n ==>
          TriedAt(x.db.txs[picks[i]], now.db.txs[picks[i]], answers[i], draws(i).at, policy, leaseUntil, now.schedule))
    && (forall k :: 0 <= k < |x.db.txs| && (forall i :: 0 <= i < n ==> picks[i] != k) ==> Stands(x, now, k))
  }

  /** An attempt that succeeded, on the row k, leaves every other row as it stood. */
  lemma OthersStand(now: Tables, later: Tables, k: nat, j: nat, at: Time)
    requires DistinctIds(now.db.txs) && k < |now.db.txs| == |later.db.txs| && j < |now.db.txs| && j != k
    requires later.db.txs == now.db.txs[k := later.db.txs[k]] && later.db.txs[k].id == now.db.txs[k].id
    requires later.schedule == Scheduled(now.schedule, later.db.txs[k], at)
    ensures Stands(now, later, j)
  {
    SameId(now.db.txs, j, k);
  }

  lemma OneMoreTried(x: Tables, picks: seq<nat>, n: nat, draws: nat -> Draws, policy: Policy, leaseUntil: Time,
                     now: Tables, answers: seq<Answer>, later: Tables, state: Option<State>)
    requires policy.Valid() && Held(x, picks, leaseUntil) && n < |picks| && DistinctIds(now.db.txs)
    requires FirstTried(x, picks, n, draws, policy, leaseUntil, now, answers)
    requires Changed(now, later, picks[n], draws(n).at, policy) && state == Some(later.db.txs[picks[n]].state)
    ensures FirstTried(x, picks, n + 1, draws, policy, leaseUntil, later, answers + [Ok(state)])
  {
    var k, at := picks[n], policy.NextAttempt(draws(n).at, later.db.txs[picks[n]].attempts);
    assert Stands(x, now, k);
    forall i | 0 <= i < n
      ensures TriedAt(x.db.txs[picks[i]], later.db.txs[picks[i]], answers[i], draws(i).at, policy, leaseUntil, later.schedule)
    {
      OthersStand(now, later, k, picks[i], at);
    }
    forall j | 0 <= j < |x.db.txs| && (forall i :: 0 <= i < n + 1 ==> picks[i] != j) ensures Stands(x, later, j) {
      assert picks[n] != j;
      assert Stands(x, now, j);
      OthersStand(now, later, k, j, at);
    }
  }

  lemma OneMoreFailed(x: Tables, picks: seq<nat>, n: nat, draws: nat -> Draws, policy: Policy, leaseUntil: Time,
                      now: Tables, answers: seq<Answer>, error: Error)
    requires policy.Valid() && Held(x, picks, leaseUntil) && n < |picks|
    requires FirstTried(x, picks, n, draws, policy, leaseUntil, now, answers)
    ensures FirstTried(x, picks, n + 1, draws, policy, leaseUntil, now, answers + [Err(error)])
  {
    assert Stands(x, now, picks[n]);
    forall j | 0 <= j < |x.db.txs| && (forall i :: 0 <= i < n + 1 ==> picks[i] != j) ensures Stands(x, now, j) {
      assert picks[n] != j;
    }
  }

  ghost function Orderly(maxAttempts: int): Tables -> bool {
    x => InOrder(x, maxAttempts)
  }

  lemma TriedInOrder(x: Tables, k: nat, draws: Draws, policy: Policy, done: (Tables, Option<State>))
    requires policy.Valid() && Orderly(policy.maxAttempts)(x) && k < |x.db.txs| && x.db.txs[k].state == PendingReference
    requires TriedOnce(x, Taken(x.db.txs[k].id, x.db.txs[k].walletId), draws, policy) == Ok(done)
    ensures Orderly(policy.maxAttempts)(done.0) && DistinctIds(done.0.db.txs)
    ensures Changed(x, done.0, k, draws.at, policy) && done.1 == Some(done.0.db.txs[k].state)
  {
    TriedPutsTheRow(x, k, draws, policy, done);
    TriedKeepsOrder(x, k, draws, policy, done);
  }

  lemma OnwardInOrder(x: Tables, k: nat, draws: Draws, policy: Policy, tried: (Tables, Answer))
    requires policy.Valid() && Orderly(policy.maxAttempts)(x) && DistinctIds(x.db.txs)
    requires k < |x.db.txs| && x.db.txs[k].state == PendingReference
    requires tried == OneTried(x, Taken(x.db.txs[k].id, x.db.txs[k].walletId), draws, policy)
    ensures Orderly(policy.maxAttempts)(tried.0) && DistinctIds(tried.0.db.txs)
    ensures tried.1.Ok? ==> Changed(x, tried.0, k, draws.at, policy) && tried.1.value == Some(tried.0.db.txs[k].state)
    ensures tried.1.Err? ==> tried.0 == x
  {
    if tried.1.Ok? {
      TriedInOrder(x, k, draws, policy, (tried.0, tried.1.value));
    }
  }

  lemma OneMoreAnswered(x: Tables, picks: seq<nat>, n: nat, draws: nat -> Draws, policy: Policy, leaseUntil: Time,
                        now: Tables, answers: seq<Answer>, tried: (Tables, Answer))
    requires policy.Valid() && Held(x, picks, leaseUntil) && n < |picks| && DistinctIds(now.db.txs)
    requires FirstTried(x, picks, n, draws, policy, leaseUntil, now, answers)
    requires tried.1.Ok? ==> Changed(now, tried.0, picks[n], draws(n).at, policy)
                             && tried.1.value == Some(tried.0.db.txs[picks[n]].state)
    requires tried.1.Err? ==> tried.0 == now
    ensures FirstTried(x, picks, n + 1, draws, policy, leaseUntil, tried.0, answers + [tried.1])
  {
    match tried.1
    case Ok(state) => OneMoreTried(x, picks, n, draws, policy, leaseUntil, now, answers, tried.0, state);
    case Err(error) => OneMoreFailed(x, picks, n, draws, policy, leaseUntil, now, answers, error);
  }

  /** What the attempts so far amount to. */
  ghost function Progress(x: Tables, picks: seq<nat>, draws: nat -> Draws, policy: Policy, leaseUntil: Time)
    : (Tables, seq<Answer>) -> bool
    requires policy.Valid() && Held(x, picks, leaseUntil)
  {
    (now: Tables, answers: seq<Answer>) =>
      |answers| <= |picks| && DistinctIds(now.db.txs)
      && FirstTried(x, picks, |answers|, draws, policy, leaseUntil, now, answers)
  }

  /** The operation tried next is as it was. */
  lemma NextStands(x: Tables, picks: seq<nat>, draws: nat -> Draws, policy: Policy, leaseUntil: Time, now: Tables,
                   answers: seq<Answer>)
    requires policy.Valid() && Held(x, picks, leaseUntil) && |answers| < |picks|
    requires Progress(x, picks, draws, policy, leaseUntil)(now, answers)
    ensures |now.db.txs| == |x.db.txs| && now.db.txs[picks[|answers|]] == x.db.txs[picks[|answers|]]
    ensures DistinctIds(now.db.txs)
  {
    assert Stands(x, now, picks[|answers|]);
  }

  lemma ProgressOn(x: Tables, picks: seq<nat>, draws: nat -> Draws, policy: Policy, leaseUntil: Time, now: Tables,
                   answers: seq<Answer>, tried: (Tables, Answer))
    requires policy.Valid() && Held(x, picks, leaseUntil) && |answers| < |picks|
    requires Progress(x, picks, draws, policy, leaseUntil)(now, answers) && DistinctIds(tried.0.db.txs)
    requires tried.1.Ok? ==> Changed(now, tried.0, picks[|answers|], draws(|answers|).at, policy)
                             && tried.1.value == Some(tried.0.db.txs[picks[|answers|]].state)
    requires tried.1.Err? ==> tried.0 == now
    ensures Progress(x, picks, draws, policy, leaseUntil)(tried.0, answers + [tried.1])
  {
    OneMoreAnswered(x, picks, |answers|, draws, policy, leaseUntil, now, answers, tried);
  }

  lemma ProgressGoesOn(x: Tables, picks: seq<nat>, draws: nat -> Draws, policy: Policy, leaseUntil: Time, now: Tables,
                       answers: seq<Answer>)
    requires policy.Valid() && Held(x, picks, leaseUntil) && |answers| < |picks| && Orderly(policy.maxAttempts)(now)
    requires Progress(x, picks, draws, policy, leaseUntil)(now, answers)
    ensures var tried := OneTried(now, ReferencesAt(x.db.txs, picks)[|answers|], draws(|answers|), policy);
            Orderly(policy.maxAttempts)(tried.0)
            && Progress(x, picks, draws, policy, leaseUntil)(tried.0, answers + [tried.1])
  {
    NextStands(x, picks, draws, policy, leaseUntil, now, answers);
    var tried := OneTried(now, ReferencesAt(x.db.txs, picks)[|answers|], draws(|answers|), policy);
    OnwardInOrder(now, picks[|answers|], draws(|answers|), policy, tried);
    ProgressOn(x, picks, draws, policy, leaseUntil, now, answers, tried);
  }

  lemma ProgressStarts(x: Tables, picks: seq<nat>, draws: nat -> Draws, policy: Policy, leaseUntil: Time)
    requires policy.Valid() && DistinctIds(x.db.txs) && Held(x, picks, leaseUntil)
    ensures Progress(x, picks, draws, policy, leaseUntil)(x, [])
  {
  }

  /** The row k is that of x. */
  predicate SameRow(x: Tables, now: Tables, k: nat) {
    k < |x.db.txs| == |now.db.txs| && now.db.txs[k] == x.db.txs[k]
  }

  /** One more attempt, after those made. */
  function OneMore(x: Tables, picks: seq<nat>, draws: nat -> Draws, policy: Policy, now: (Tables, seq<Answer>))
    : (Tables, seq<Answer>)
    requires policy.Valid() && forall i :: 0 <= i < |picks| ==> picks[i] < |x.db.txs|
  {
    OneMoreTurn(now, Turn(ReferencesAt(x.db.txs, picks), draws, policy))
  }

  lemma OneMoreKeeps(x: Tables, picks: seq<nat>, draws: nat -> Draws, policy: Policy, leaseUntil: Time,
                     kept: (Tables, nat) -> bool, now: (Tables, seq<Answer>))
    requires policy.Valid() && Held(x, picks, leaseUntil) && |now.1| < |picks|
    requires Orderly(policy.maxAttempts)(now.0) && Progress(x, picks, draws, policy, leaseUntil)(now.0, now.1)
    requires kept(now.0, |now.1|)
    requires SameRow(x, now.0, picks[|now.1|]) ==> kept(OneMore(x, picks, draws, policy, now).0, |now.1| + 1)
    ensures var later := OneMore(x, picks, draws, policy, now);
            && Orderly(policy.maxAttempts)(later.0) && Progress(x, picks, draws, policy, leaseUntil)(later.0, later.1)
            && kept(later.0, |later.1|)
  {
    NextStands(x, picks, draws, policy, leaseUntil, now.0, now.1);
    ProgressGoesOn(x, picks, draws, policy, leaseUntil, now.0, now.1);
  }

  lemma RowOfTheNext(x: Tables, picks: seq<nat>, draws: nat -> Draws, policy: Policy, leaseUntil: Time,
                     now: (Tables, seq<Answer>))
    requires policy.Valid() && Held(x, picks, leaseUntil)
    requires Progress(x, picks, draws, policy, leaseUntil)(now.0, now.1)
    ensures |now.1| < |picks| ==> SameRow(x, now.0, picks[|now.1|])
  {
    if |now.1| < |picks| {
      NextStands(x, picks, draws, policy, leaseUntil, now.0, now.1);
    }
  }

  /** After n attempts the tables are in order and the attempts are those made; and so is
      whatever else each attempt keeps, on tables in order and a row as it was. */
  lemma AttemptsKeep(x: Tables, picks: seq<nat>, n: nat, draws: nat -> Draws, policy: Policy, leaseUntil: Time,
                     kept: (Tables, nat) -> bool)
    requires policy.Valid() && Orderly(policy.maxAttempts)(x) && DistinctIds(x.db.txs) && Held(x, picks, leaseUntil)
    requires n <= |picks| && kept(x, 0)
    requires forall now: (Tables, seq<Answer>) ::
               kept(now.0, |now.1|) && |now.1| < |picks| && Orderly(policy.maxAttempts)(now.0)
               && SameRow(x, now.0, picks[|now.1|]) ==>
               kept(OneMore(x, picks, draws, policy, now).0, |now.1| + 1)
    ensures var done := AllTried(x, ReferencesAt(x.db.txs, picks), n, draws, policy);
            && Orderly(policy.maxAttempts)(done.0) && Progress(x, picks, draws, policy, leaseUntil)(done.0, done.1)
            && kept(done.0, n) && (n < |picks| ==> SameRow(x, done.0, picks[n]))
  {
    var orderly, progress := Orderly(policy.maxAttempts), Progress(x, picks, draws, policy, leaseUntil);
    var all := (now: (Tables, seq<Answer>)) => orderly(now.0) && progress(now.0, now.1) && kept(now.0, |now.1|);
    var turn := Turn(ReferencesAt(x.db.txs, picks), draws, policy);
    forall now: (Tables, seq<Answer>) | all(now) && |now.1| < n ensures all(OneMoreTurn(now, turn)) {
      OneMoreKeeps(x, picks, draws, policy, leaseUntil, kept, now);
    }
    ProgressStarts(x, picks, draws, policy, leaseUntil);
    TurnsKeep(x, n, turn, all);
    RowOfTheNext(x, picks, draws, policy, leaseUntil, Turns(x, n, turn));
  }

  /** An execution leaves the tables in order; every operation it took was tried exactly once,
      and no other changed. */
  lemma EachIsTried(x: Tables, picks: seq<nat>, draws: nat -> Draws, policy: Policy, leaseUntil: Time, now: Tables,
                    answers: seq<Answer>)
    requires policy.Valid() && InOrder(x, policy.maxAttempts) && Held(x, picks, leaseUntil)
    requires (now, answers) == AllTried(x, ReferencesAt(x.db.txs, picks), |picks|, draws, policy)
    ensures InOrder(now, policy.maxAttempts)
    ensures FirstTried(x, picks, |picks|, draws, policy, leaseUntil, now, answers)
  {
    AttemptsKeep(x, picks, |picks|, draws, policy, leaseUntil, (now, i) => true);
  }
}
