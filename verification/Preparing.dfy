/** What the rounds ask of clocks and draws can be had, from any tables in order. */
module Preparing {
  import opened Domain
  import opened Ledger
  import opened Events
  import opened Database
  import opened UseCases
  import opened Schedule
  import opened Retrying
  import opened Failing
  import opened Worker
  import opened Counting
  import opened Clocks
  import opened Spacing
  import opened Fairness

  // ------------------------------------------------------------------- pairs

  function Triangle(k: nat): nat {
    if k == 0 then 0 else Triangle(k - 1) + k
  }

  /** A number for every attempt of every round. */
  function Number(n: nat, i: nat): nat {
    Triangle(n + i) + i
  }

  lemma {:induction false} TrianglesGrow(k: nat, l: nat)
    requires k < l
    ensures Triangle(k) + k < Triangle(l)
    decreases l
  {
    if k < l - 1 {
      TrianglesGrow(k, l - 1);
    }
  }

  lemma NumbersDiffer(n: nat, i: nat, m: nat, j: nat)
    requires n != m || i != j
    ensures Number(n, i) != Number(m, j)
  {
    if n + i < m + j {
      TrianglesGrow(n + i, m + j);
    } else if m + j < n + i {
      TrianglesGrow(m + j, n + i);
    }
  }

  // ------------------------------------------------------------------ bounds

  lemma {:induction false} EntriesBelow(ledger: seq<Entry>) returns (b: nat)
    ensures forall e :: e in ledger ==> e.id < b
  {
    if ledger == [] {
      b := 0;
    } else {
      var last := ledger[|ledger| - 1];
      b := EntriesBelow(ledger[..|ledger| - 1]);
      b := if b <= last.id then last.id + 1 else b;
      assert ledger == ledger[..|ledger| - 1] + [last];
    }
  }

  lemma {:induction false} EventsBelow(outbox: seq<Event>) returns (b: nat)
    ensures forall e :: e in outbox ==> e.id < b && e.sequence < b
  {
    if outbox == [] {
      b := 0;
    } else {
      var last := outbox[|outbox| - 1];
      b := EventsBelow(outbox[..|outbox| - 1]);
      b := if b <= last.id + last.sequence then last.id + last.sequence + 1 else b;
      assert outbox == outbox[..|outbox| - 1] + [last];
    }
  }

  lemma {:induction false} ScheduledBy(schedule: Schedule) returns (t: nat)
    ensures forall id :: id in schedule ==> schedule[id] <= t
    decreases |schedule|
  {
    if schedule == map[] {
      t := 0;
    } else {
      var id :| id in schedule;
      var rest := schedule - {id};
      var early := ScheduledBy(rest);
      t := if early < schedule[id] then schedule[id] else early;
      forall other | other in schedule ensures schedule[other] <= t {
        assert other == id || (other in rest && rest[other] == schedule[other]);
      }
    }
  }

  // ------------------------------------------------------------- preparation

  function Clock(t: nat, step: nat): nat -> Time {
    (n: nat) => 1 + t + Times(n, step)
  }

  function Drawn(b: nat, clock: nat -> Time): nat -> nat -> Draws {
    (n: nat) => (i: nat) =>
      var k := b + 1 + 2 * Number(n, i);
      Draws(clock(n), k, Marks(k, k, k + 1, k + 1))
  }

  lemma DrawnAreApart(b: nat, clock: nat -> Time)
    ensures DrawnApart(Drawn(b, clock), 0)
  {
    forall n: nat, i: nat, m: nat, j: nat | n != m || i != j
      ensures Drawn(b, clock)(n)(i).entryId != Drawn(b, clock)(m)(j).entryId
              && Apart(Drawn(b, clock)(n)(i).marks, Drawn(b, clock)(m)(j).marks)
    {
      NumbersDiffer(n, i, m, j);
    }
  }

  lemma ClockIsSpaced(policy: Policy, t: nat, b: nat, step: nat)
    requires policy.Valid() && step == policy.lease + policy.maxDelay as int
    ensures Spaced(policy, Clock(t, step), Drawn(b, Clock(t, step)), 0)
  {
    forall m: nat, n: nat | m < n ensures Clock(t, step)(m) + step <= Clock(t, step)(n) {
      MoreTimes(m, n, step);
    }
  }

  lemma IdsBelow(db: Db) returns (b: nat)
    ensures forall e :: e in db.ledger ==> e.id < b
    ensures forall e :: e in db.outbox ==> e.id < b && e.sequence < b
  {
    var e := EntriesBelow(db.ledger);
    var o := EventsBelow(db.outbox);
    b := e + o;
  }

  lemma DrawnAreFresh(db: Db, b: nat, t: nat, step: nat)
    requires forall e :: e in db.ledger ==> e.id < b
    requires forall e :: e in db.outbox ==> e.id < b && e.sequence < b
    ensures FreshAhead(db, Drawn(b, Clock(t, step)), 0, 0, 0)
  {
    forall m: nat, j: nat
      ensures var d := Drawn(b, Clock(t, step))(m)(j); FreshFor(db, d.entryId, d.marks, d.at)
    {
      assert Clock(t, step)(m) != ZERO_TIME;
    }
  }

  lemma EverythingIsDue(schedule: Schedule, t: nat, step: nat)
    requires forall id :: id in schedule ==> schedule[id] <= t
    ensures DueFrom(schedule, Clock(t, step), 0)
  {
  }

  lemma {:induction false} AtLeast(n: nat, step: nat)
    requires step >= 1
    ensures Times(n, step) >= n
  {
    if n > 0 {
      AtLeast(n - 1, step);
    }
  }

  lemma ClockKeepsReaching(t: nat, step: nat)
    requires step >= 1
    ensures KeepsReaching(Clock(t, step))
  {
    forall s: Time, n: nat ensures Reaches(Clock(t, step), s, n) {
      var m: nat := if s > n then s else n;
      AtLeast(m, step);
      assert n <= m && s <= Clock(t, step)(m);
    }
  }

  lemma AttemptsPass(b: nat, t: nat, step: nat, s: Time)
    requires step >= 1
    ensures AttemptsLeave(Drawn(b, Clock(t, step)), s)
  {
    var from: nat := if s > 0 then s else 0;
    forall n: nat, i: nat | from <= n ensures s <= Drawn(b, Clock(t, step))(n)(i).at {
      AtLeast(n, step);
    }
    assert AttemptedPast(Drawn(b, Clock(t, step)), s, from);
  }

  lemma DrawsCanBeHad(db: Db, schedule: Schedule, policy: Policy) returns (now: nat -> Time, draws: nat -> nat -> Draws)
    requires policy.Valid()
    ensures KeepsReaching(now) && DrawnApart(draws, 0) && FreshAhead(db, draws, 0, 0, 0)
    ensures Spaced(policy, now, draws, 0) && DueFrom(schedule, now, 0) && forall s: Time :: AttemptsLeave(draws, s)
  {
    var b := IdsBelow(db);
    var t := ScheduledBy(schedule);
    var step: nat := policy.lease + policy.maxDelay as int;
    now, draws := Clock(t, step), Drawn(b, Clock(t, step));
    assert KeepsReaching(now) by { ClockKeepsReaching(t, step); }
    assert DrawnApart(draws, 0) by { DrawnAreApart(b, Clock(t, step)); }
    assert Spaced(policy, now, draws, 0) by { ClockIsSpaced(policy, t, b, step); }
    assert FreshAhead(db, draws, 0, 0, 0) by { DrawnAreFresh(db, b, t, step); }
    forall s: Time ensures AttemptsLeave(draws, s) {
      AttemptsPass(b, t, step, s);
    }
    assert DueFrom(schedule, now, 0) by { EverythingIsDue(schedule, t, step); }
  }

  /** From any tables in order, some clock and some draws prepare the rounds at once, whether
      spaced or open to arrivals. */
  lemma RoundsCanBePrepared(x: Tables, policy: Policy) returns (now: nat -> Time, draws: nat -> nat -> Draws)
    requires policy.Valid() && policy.batchSize >= 1 && InOrder(x, policy.maxAttempts)
    ensures KeepsReaching(now) && Prepared(x, policy, draws, 0) && InTime(x, policy, now, draws, 0)
    ensures forall s: Time :: AttemptsLeave(draws, s)
  {
    now, draws := DrawsCanBeHad(x.db, x.schedule, policy);
  }
}
