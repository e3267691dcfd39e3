/** The outbox over an endless run: executions of publishers, one after another, while sessions
    append events. */
module Draining {
  import opened Domain
  import opened Sequences
  import opened Events
  import opened Database
  import opened Clocks
  import opened Counting
  import opened Outbox
  import opened Publishing

  /** A step: an execution over what it picked, or what sessions do between two of them. */
  type Taking = Option<seq<nat>>

  /** Events are appended, and others may be published: each row stays, or is published. */
  ghost predicate Meanwhile(rows: seq<Row>, later: seq<Row>) {
    && |rows| <= |later|
    && forall k :: 0 <= k < |rows| ==>
         later[k] == rows[k] || (later[k].Published() && later[k].event == rows[k].event)
  }

  /** Sequence numbers are never drawn twice. */
  ghost predicate Numbered(rows: seq<Row>) {
    forall i, j :: 0 <= i < j < |rows| ==> rows[i].event.sequence != rows[j].event.sequence
  }

  ghost predicate Steps(policy: Policy, now: Time, clock: Event -> Time, answers: Event -> Answer, rows: seq<Row>,
                        taking: Taking, later: seq<Row>)
    requires policy.Valid()
  {
    match taking
    case None => Meanwhile(rows, later) && Numbered(later)
    case Some(picks) =>
      && Picked(rows, picks, now, {}, policy.batchSize)
      && later == Executed(rows, picks, policy, policy.LeaseUntil(now), clock, answers)
  }

  ghost function Draining(policy: Policy, now: nat -> Time, clock: nat -> Event -> Time, answers: nat -> Event -> Answer)
    : nat -> (seq<Row>, Taking, seq<Row>) -> bool
    requires policy.Valid()
  {
    (n: nat) => (rows: seq<Row>, taking: Taking, later: seq<Row>) =>
      Steps(policy, now(n), clock(n), answers(n), rows, taking, later)
  }

  /** An endless run from numbered rows, whose executions keep coming, whatever their clocks, and
      whose publications succeed and are recorded from some step on. */
  ghost predicate Drains(policy: Policy, now: nat -> Time, clock: nat -> Event -> Time, answers: nat -> Event -> Answer,
                         start: nat, trace: nat -> seq<Row>, taking: nat -> Taking)
  {
    && policy.Valid() && policy.batchSize >= 1 && Numbered(trace(0))
    && (forall length: nat :: Follow(Draining(policy, now, clock, answers), trace, taking, length))
    && KeepsRunning(Running(taking), now) && SucceedFrom(answers, start)
  }

  // -------------------------------------------------------------------- steps

  lemma StepOf(policy: Policy, now: nat -> Time, clock: nat -> Event -> Time, answers: nat -> Event -> Answer, start: nat,
               trace: nat -> seq<Row>, taking: nat -> Taking, n: nat)
    requires Drains(policy, now, clock, answers, start, trace, taking)
    ensures Steps(policy, now(n), clock(n), answers(n), trace(n), taking(n), trace(n + 1))
  {
    assert Follow(Draining(policy, now, clock, answers), trace, taking, n + 1);
    assert Draining(policy, now, clock, answers)(n)(trace(n), taking(n), trace(n + 1));
  }

  lemma ExecutionAdvances(rows: seq<Row>, picks: seq<nat>, policy: Policy, dueAt: Time, leaseUntil: Time,
                          clock: Event -> Time, answers: Event -> Answer)
    requires policy.Valid() && Pickable(rows, picks, dueAt) && Numbered(rows)
    ensures var later := Executed(rows, picks, policy, leaseUntil, clock, answers);
            Advances(rows, later) && |later| == |rows| && Numbered(later)
  {
    var later := Executed(rows, picks, policy, leaseUntil, clock, answers);
    forall k | 0 <= k < |rows| ensures later[k].event == rows[k].event && (rows[k].Published() ==> later[k].Published()) {
      RoundReschedules(rows, picks, policy, dueAt, leaseUntil, clock, answers, k);
    }
  }

  /** A step keeps rows in place with their numbers, and what is published. */
  lemma StepAdvances(policy: Policy, now: nat -> Time, clock: nat -> Event -> Time, answers: nat -> Event -> Answer,
                     start: nat, trace: nat -> seq<Row>, taking: nat -> Taking, n: nat)
    requires Drains(policy, now, clock, answers, start, trace, taking) && Numbered(trace(n))
    ensures Advances(trace(n), trace(n + 1)) && Numbered(trace(n + 1))
    ensures taking(n).Some? ==> |trace(n + 1)| == |trace(n)|
  {
    StepOf(policy, now, clock, answers, start, trace, taking, n);
    if taking(n).Some? {
      ExecutionAdvances(trace(n), taking(n).value, policy, now(n), policy.LeaseUntil(now(n)), clock(n), answers(n));
    }
  }

  lemma {:induction false} RunAdvances(policy: Policy, now: nat -> Time, clock: nat -> Event -> Time,
                                       answers: nat -> Event -> Answer, start: nat, trace: nat -> seq<Row>,
                                       taking: nat -> Taking, n: nat, m: nat)
    requires Drains(policy, now, clock, answers, start, trace, taking) && n <= m
    ensures Numbered(trace(n)) && Numbered(trace(m)) && Advances(trace(n), trace(m))
    ensures (forall j: nat :: n <= j < m ==> taking(j).Some?) ==> |trace(m)| == |trace(n)|
    decreases m
  {
    if n < m {
      var k: nat := m - 1;
      RunAdvances(policy, now, clock, answers, start, trace, taking, n, k);
      StepAdvances(policy, now, clock, answers, start, trace, taking, k);
    } else if n > 0 {
      var k: nat := n - 1;
      RunAdvances(policy, now, clock, answers, start, trace, taking, k, k);
      StepAdvances(policy, now, clock, answers, start, trace, taking, k);
    }
  }

  /** In the protocol of publishers and bus, every step is one of these but the lease, and the
      failure recorded, of another publisher. */
  lemma OthersStepMeanwhile(b: Bus, step: Step)
    requires Enabled(b, step) && !step.Lease?
    requires step.Conclude? && step.stored ==> b.publishers[step.pid].reported.value
    ensures Meanwhile(b.rows, Do(b, step).rows)
    ensures Numbered(b.rows) && !step.Append? ==> Numbered(Do(b, step).rows)
  {
    var rows, later := b.rows, Do(b, step).rows;
    assert forall k :: 0 <= k < |rows| ==> later[k].event == rows[k].event;
  }

  /** What a commit appends waits for its first publication, due at once, under numbers of its own:
      the table takes no number twice. */
  lemma AppendedIsNumbered(db: Db, rows: seq<Row>, events: seq<Event>, at: Time)
    requires db.outbox == EventsIn(rows) && Numbered(rows) && EventsAppended(db, events).Ok?
    ensures Meanwhile(rows, Appended(rows, events, at)) && Numbered(Appended(rows, events, at))
    ensures |Appended(rows, events, at)| == |rows| + |events|
    ensures forall k :: 0 <= k < |events| ==> Appended(rows, events, at)[|rows| + k] == Row(events[k], None, 0, at)
  {
    EventsAppendedAppends(db, events);
    var later := Appended(rows, events, at);
    forall i, j | 0 <= i < j < |later| ensures later[i].event.sequence != later[j].event.sequence {
      if i < |rows| <= j {
        assert EventsIn(rows)[i] in db.outbox && events[j - |rows|] in events;
      }
    }
  }

  // ------------------------------------------------------------------ numbers

  /** The numbers up to q that are stored, and those that are published. */
  function Stored(rows: seq<Row>, q: nat): set<nat> {
    set k: nat | k < |rows| && rows[k].event.sequence <= q :: rows[k].event.sequence
  }

  function Marked(rows: seq<Row>, q: nat): set<nat> {
    set k: nat | k < |rows| && rows[k].event.sequence <= q && rows[k].Published() :: rows[k].event.sequence
  }

  lemma NumbersGrow(rows: seq<Row>, later: seq<Row>, q: nat)
    requires Advances(rows, later)
    ensures Stored(rows, q) <= Stored(later, q) && Marked(rows, q) <= Marked(later, q)
    ensures |Stored(later, q)| <= q + 1 && |Marked(later, q)| <= q + 1
  {
    forall s | s in Stored(rows, q) ensures s in Stored(later, q) {
      var k: nat :| k < |rows| && rows[k].event.sequence == s <= q;
      assert later[k].event.sequence == s;
    }
    forall s | s in Marked(rows, q) ensures s in Marked(later, q) {
      var k: nat :| k < |rows| && rows[k].event.sequence == s <= q && rows[k].Published();
      assert later[k].event.sequence == s && later[k].Published();
    }
    Below(Stored(later, q), q + 1);
    Below(Marked(later, q), q + 1);
  }

  /** The numbers up to q that are yet to be stored, and to be published. */
  function Ahead(trace: nat -> seq<Row>, q: nat): nat -> nat {
    (n: nat) =>
      var done := |Stored(trace(n), q)| + |Marked(trace(n), q)|;
      if done <= 2 * q + 2 then 2 * q + 2 - done else 0
  }

  /** What is stored and published up to q comes to rest. */
  lemma NumbersComeToRest(policy: Policy, now: nat -> Time, clock: nat -> Event -> Time, answers: nat -> Event -> Answer,
                          start: nat, trace: nat -> seq<Row>, taking: nat -> Taking, n: nat, q: nat) returns (m: nat)
    requires Drains(policy, now, clock, answers, start, trace, taking)
    ensures n <= m
    ensures forall j: nat :: m <= j ==> Stored(trace(j), q) == Stored(trace(m), q) && Marked(trace(j), q) == Marked(trace(m), q)
  {
    forall j: nat | n <= j ensures Ahead(trace, q)(j + 1) <= Ahead(trace, q)(j) {
      AheadFalls(policy, now, clock, answers, start, trace, taking, j, j + 1, q);
    }
    m := ComesToRest(Ahead(trace, q), n);
    forall j: nat | m <= j
      ensures Stored(trace(j), q) == Stored(trace(m), q) && Marked(trace(j), q) == Marked(trace(m), q)
    {
      AheadFalls(policy, now, clock, answers, start, trace, taking, m, j, q);
    }
  }

  lemma AheadFalls(policy: Policy, now: nat -> Time, clock: nat -> Event -> Time, answers: nat -> Event -> Answer,
                   start: nat, trace: nat -> seq<Row>, taking: nat -> Taking, n: nat, m: nat, q: nat)
    requires Drains(policy, now, clock, answers, start, trace, taking) && n <= m
    ensures Ahead(trace, q)(m) <= Ahead(trace, q)(n)
    ensures Ahead(trace, q)(m) == Ahead(trace, q)(n) ==>
              Stored(trace(m), q) == Stored(trace(n), q) && Marked(trace(m), q) == Marked(trace(n), q)
  {
    RunAdvances(policy, now, clock, answers, start, trace, taking, n, m);
    NumbersGrow(trace(n), trace(m), q);
    Fits(Stored(trace(n), q), Stored(trace(m), q));
    Fits(Marked(trace(n), q), Marked(trace(m), q));
    if Stored(trace(m), q) != Stored(trace(n), q) {
      FewerThan(Stored(trace(n), q), Stored(trace(m), q));
    }
    if Marked(trace(m), q) != Marked(trace(n), q) {
      FewerThan(Marked(trace(n), q), Marked(trace(m), q));
    }
  }

  // ---------------------------------------------------------------------- rest

  lemma MarkedWhenPublished(rows: seq<Row>, k: nat, q: nat)
    requires Numbered(rows) && k < |rows| && rows[k].event.sequence <= q
    ensures rows[k].event.sequence in Marked(rows, q) <==> rows[k].Published()
  {
    if rows[k].event.sequence in Marked(rows, q) {
      var i: nat :| i < |rows| && rows[i].event.sequence == rows[k].event.sequence && rows[i].Published();
      assert i == k;
    }
  }

  lemma StoredUpTo(rows: seq<Row>, j: nat, q: nat)
    requires j < |rows|
    ensures rows[j].event.sequence in Stored(rows, q) <==> rows[j].event.sequence <= q
  {
  }

  lemma NewIsNotStored(rows: seq<Row>, later: seq<Row>, j: nat, q: nat)
    requires Advances(rows, later) && Numbered(later) && |rows| <= j < |later|
    ensures later[j].event.sequence !in Stored(rows, q)
  {
    forall i: nat | i < |rows| ensures rows[i].event.sequence != later[j].event.sequence {
      assert later[i].event.sequence != later[j].event.sequence;
    }
  }

  /** While nothing up to its number is stored or published anew, a head stays as it is. */
  lemma HeadRests(rows: seq<Row>, later: seq<Row>, h: nat, q: nat)
    requires Advances(rows, later) && Numbered(rows) && Numbered(later) && h < |rows| && IsHead(rows, h)
    requires rows[h].event.sequence <= q
    requires Stored(later, q) == Stored(rows, q) && Marked(later, q) == Marked(rows, q)
    ensures IsHead(later, h)
  {
    MarkedWhenPublished(rows, h, q);
    MarkedWhenPublished(later, h, q);
    forall j | 0 <= j < |later| && later[j].event.aggregateId == later[h].event.aggregateId && !later[j].Published()
      ensures later[h].event.sequence <= later[j].event.sequence
    {
      if j >= |rows| {
        NewIsNotStored(rows, later, j, q);
        StoredUpTo(later, j, q);
      }
    }
  }

  /** And it is due when it was: nobody takes it, for what is taken is published. */
  lemma StepRests(policy: Policy, now: nat -> Time, clock: nat -> Event -> Time, answers: nat -> Event -> Answer,
                  start: nat, trace: nat -> seq<Row>, taking: nat -> Taking, n: nat, h: nat, q: nat)
    requires Drains(policy, now, clock, answers, start, trace, taking) && start <= n
    requires Numbered(trace(n)) && h < |trace(n)| && IsHead(trace(n), h) && trace(n)[h].event.sequence <= q
    requires Stored(trace(n + 1), q) == Stored(trace(n), q) && Marked(trace(n + 1), q) == Marked(trace(n), q)
    ensures h < |trace(n + 1)| && trace(n + 1)[h] == trace(n)[h] && IsHead(trace(n + 1), h)
  {
    StepAdvances(policy, now, clock, answers, start, trace, taking, n);
    StepOf(policy, now, clock, answers, start, trace, taking, n);
    HeadRests(trace(n), trace(n + 1), h, q);
    if taking(n).Some? {
      RoundReschedules(trace(n), taking(n).value, policy, now(n), policy.LeaseUntil(now(n)), clock(n), answers(n), h);
    }
  }

  lemma {:induction false} RunRests(policy: Policy, now: nat -> Time, clock: nat -> Event -> Time,
                                    answers: nat -> Event -> Answer, start: nat, trace: nat -> seq<Row>,
                                    taking: nat -> Taking, n: nat, m: nat, h: nat, q: nat)
    requires Drains(policy, now, clock, answers, start, trace, taking) && start <= n <= m
    requires h < |trace(n)| && IsHead(trace(n), h) && trace(n)[h].event.sequence <= q
    requires forall j: nat :: n <= j ==> Stored(trace(j), q) == Stored(trace(n), q) && Marked(trace(j), q) == Marked(trace(n), q)
    ensures h < |trace(m)| && trace(m)[h] == trace(n)[h] && IsHead(trace(m), h)
    decreases m
  {
    if n < m {
      var k: nat := m - 1;
      RunRests(policy, now, clock, answers, start, trace, taking, n, k, h, q);
      RunAdvances(policy, now, clock, answers, start, trace, taking, k, k);
      assert Stored(trace(k), q) == Stored(trace(n), q) && Marked(trace(k), q) == Marked(trace(n), q);
      assert Stored(trace(k + 1), q) == Stored(trace(n), q) && Marked(trace(k + 1), q) == Marked(trace(n), q);
      StepRests(policy, now, clock, answers, start, trace, taking, k, h, q);
    }
  }

  /** An execution whose clock reached the due time of a head publishes something up to its
      number. */
  lemma ExecutionPublishesSomething(rows: seq<Row>, picks: seq<nat>, policy: Policy, now: Time, clock: Event -> Time,
                                    answers: Event -> Answer, h: nat, q: nat)
    requires policy.Valid() && policy.batchSize >= 1 && Picked(rows, picks, now, {}, policy.batchSize) && Numbered(rows)
    requires h < |rows| && IsDue(rows, h, now) && rows[h].event.sequence <= q
    requires forall e: Event :: answers(e).Complete()
    ensures Marked(Executed(rows, picks, policy, policy.LeaseUntil(now), clock, answers), q) != Marked(rows, q)
  {
    assert IsFree(rows, h, now, {});
    var p := if h in picks then h else picks[0];
    assert p in picks && IsDue(rows, p, now) && rows[p].event.sequence <= q;
    var later := Executed(rows, picks, policy, policy.LeaseUntil(now), clock, answers);
    RoundReschedules(rows, picks, policy, now, policy.LeaseUntil(now), clock, answers, p);
    ExecutionAdvances(rows, picks, policy, now, policy.LeaseUntil(now), clock, answers);
    MarkedWhenPublished(rows, p, q);
    MarkedWhenPublished(later, p, q);
  }

  /** Every event stored is published, whatever lease or backoff it waits for, whatever is appended
      meanwhile, and however the executions are spaced. */
  lemma EveryEventIsPublished(policy: Policy, now: nat -> Time, clock: nat -> Event -> Time,
                              answers: nat -> Event -> Answer, start: nat, trace: nat -> seq<Row>, taking: nat -> Taking,
                              n: nat, k: nat) returns (m: nat)
    requires Drains(policy, now, clock, answers, start, trace, taking) && k < |trace(n)|
    ensures n <= m && k < |trace(m)| && trace(m)[k].Published()
  {
    var q := trace(n)[k].event.sequence;
    m := NumbersComeToRest(policy, now, clock, answers, start, trace, taking, if n < start then start else n, q);
    RunAdvances(policy, now, clock, answers, start, trace, taking, n, m);
    if !trace(m)[k].Published() {
      var h := SomeHeadWaits(trace(m), k);
      assert RunsPast(Running(taking), now, trace(m)[h].nextAttemptAt, m);
      var j: nat :| m <= j && Running(taking)(j) && trace(m)[h].nextAttemptAt <= now(j);
      RunRests(policy, now, clock, answers, start, trace, taking, m, j, h, q);
      RunAdvances(policy, now, clock, answers, start, trace, taking, j, j);
      StepOf(policy, now, clock, answers, start, trace, taking, j);
      assert Marked(trace(j), q) == Marked(trace(m), q) && Marked(trace(j + 1), q) == Marked(trace(m), q);
      ExecutionPublishesSomething(trace(j), taking(j).value, policy, now(j), clock(j), answers(j), h, q);
      assert false;
    }
  }

  lemma {:induction false} FirstArePublished(policy: Policy, now: nat -> Time, clock: nat -> Event -> Time,
                                             answers: nat -> Event -> Answer, start: nat, trace: nat -> seq<Row>,
                                             taking: nat -> Taking, n: nat, size: nat) returns (m: nat)
    requires Drains(policy, now, clock, answers, start, trace, taking) && size <= |trace(n)|
    ensures n <= m && size <= |trace(m)| && forall k :: 0 <= k < size ==> trace(m)[k].Published()
    decreases size
  {
    if size == 0 {
      m := n;
    } else {
      var early := FirstArePublished(policy, now, clock, answers, start, trace, taking, n, size - 1);
      RunAdvances(policy, now, clock, answers, start, trace, taking, n, early);
      m := EveryEventIsPublished(policy, now, clock, answers, start, trace, taking, early, size - 1);
      RunAdvances(policy, now, clock, answers, start, trace, taking, early, m);
    }
  }

  /** The outbox drains: from any moment on, a moment comes at which all that was stored is
      published; and so is everything, when nothing was appended meanwhile. */
  lemma OutboxDrains(policy: Policy, now: nat -> Time, clock: nat -> Event -> Time, answers: nat -> Event -> Answer,
                     start: nat, trace: nat -> seq<Row>, taking: nat -> Taking, n: nat) returns (m: nat)
    requires Drains(policy, now, clock, answers, start, trace, taking)
    ensures n <= m && |trace(n)| <= |trace(m)| && forall k :: 0 <= k < |trace(n)| ==> trace(m)[k].Published()
    ensures (forall j: nat :: n <= j ==> taking(j).Some?) ==> AllPublished(trace(m))
  {
    m := FirstArePublished(policy, now, clock, answers, start, trace, taking, n, |trace(n)|);
    RunAdvances(policy, now, clock, answers, start, trace, taking, n, m);
  }
}
