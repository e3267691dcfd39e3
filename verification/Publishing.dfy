/** One publisher at work: the statements on the outbox table, an execution that leases,
    publishes and records a batch, and the rounds that drain the outbox. */
module Publishing {
  import opened Domain
  import opened Money
  import opened Events
  import opened Outbox
  import opened Clocks
  import opened Counting
  import B = Backoff

  /** The configuration refuses any other delays. */
  datatype Policy = Policy(baseDelay: int64, maxDelay: int64, lease: int, batchSize: int) {
    predicate Valid() {
      0 < baseDelay <= maxDelay
    }

    function LeaseUntil(now: Time): Time {
      now + lease
    }
  }

  /** What becomes of a publication: whether the event arrives, what the bus reports, and
      whether the transaction that records the report commits. */
  datatype Answer = Answer(arrives: bool, succeeds: bool, recorded: bool) {
    /** A success is reported only of an event that arrived. */
    predicate Honest() {
      succeeds ==> arrives
    }

    predicate Complete() {
      succeeds && recorded
    }
  }

  // ------------------------------------------------------------------- table

  /** A due head whose row no other publisher has locked. */
  predicate IsFree(rows: seq<Row>, k: nat, dueAt: Time, locked: set<nat>)
    requires k < |rows|
  {
    IsDue(rows, k, dueAt) && k !in locked
  }

  /** A lease takes as many free heads as the batch holds, those with the smallest numbers, in
      any order. */
  ghost predicate Picked(rows: seq<Row>, picks: seq<nat>, dueAt: Time, locked: set<nat>, limit: int) {
    && Pickable(rows, picks, dueAt)
    && |picks| <= (if limit > 0 then limit else 0)
    && (forall i :: 0 <= i < |picks| ==> picks[i] !in locked)
    && (|picks| < limit ==> forall k :: 0 <= k < |rows| && IsFree(rows, k, dueAt, locked) ==> k in picks)
    && SmallestFirst(rows, picks, dueAt, locked)
  }

  ghost predicate SmallestFirst(rows: seq<Row>, picks: seq<nat>, dueAt: Time, locked: set<nat>)
    requires forall i :: 0 <= i < |picks| ==> picks[i] < |rows|
  {
    forall i, k :: 0 <= i < |picks| && 0 <= k < |rows| && IsFree(rows, k, dueAt, locked) && k !in picks ==>
      rows[picks[i]].event.sequence <= rows[k].event.sequence
  }

  /** The free head not yet picked with the smallest number, or the end of the table. */
  method NextDue(rows: seq<Row>, picks: seq<nat>, dueAt: Time, locked: set<nat>) returns (k: nat)
    ensures k <= |rows|
    ensures k == |rows| ==> forall j :: 0 <= j < |rows| && IsFree(rows, j, dueAt, locked) ==> j in picks
    ensures k < |rows| ==> IsFree(rows, k, dueAt, locked) && k !in picks
    ensures k < |rows| ==> forall j :: 0 <= j < |rows| && IsFree(rows, j, dueAt, locked) && j !in picks ==>
                             rows[k].event.sequence <= rows[j].event.sequence
  {
    k := |rows|;
    for i := 0 to |rows|
      invariant k < i || k == |rows|
      invariant k == |rows| ==> forall j :: 0 <= j < i && IsFree(rows, j, dueAt, locked) ==> j in picks
      invariant k < |rows| ==> IsFree(rows, k, dueAt, locked) && k !in picks
      invariant k < |rows| ==> forall j :: 0 <= j < i && IsFree(rows, j, dueAt, locked) && j !in picks ==>
                                 rows[k].event.sequence <= rows[j].event.sequence
    {
      if IsFree(rows, i, dueAt, locked) && i !in picks
         && (k == |rows| || rows[i].event.sequence < rows[k].event.sequence) {
        k := i;
      }
    }
  }

  class OutboxTable {
    var rows: seq<Row>

    constructor (rows: seq<Row>)
      ensures this.rows == rows
    {
      this.rows := rows;
    }

    method LeasePending(dueAt: Time, leaseUntil: Time, limit: int, locked: set<nat>)
      returns (records: seq<Record>, ghost picks: seq<nat>)
      modifies this
      ensures Picked(old(rows), picks, dueAt, locked, limit)
      ensures records == RecordsOf(old(rows), picks)
      ensures rows == Leased(old(rows), picks, leaseUntil)
    {
      var found: seq<nat> := [];
      var more := true;
      while |found| < limit && more
        invariant rows == old(rows)
        invariant |found| <= (if limit > 0 then limit else 0)
        invariant Pickable(rows, found, dueAt) && SmallestFirst(rows, found, dueAt, locked)
        invariant forall i :: 0 <= i < |found| ==> found[i] !in locked
        invariant !more ==> forall k :: 0 <= k < |rows| && IsFree(rows, k, dueAt, locked) ==> k in found
        decreases limit - |found|, more
      {
        var k := NextDue(rows, found, dueAt, locked);
        if k == |rows| {
          more := false;
        } else {
          found := found + [k];
        }
      }
      picks := found;
      records := RecordsOf(rows, found);
      rows := Leased(rows, found, leaseUntil);
    }

    /** The row of an event, while it is not published. */
    method Waiting(id: ID) returns (k: nat)
      ensures k <= |rows|
      ensures k < |rows| ==> Matches(rows[k], id)
      ensures k == |rows| ==> forall j :: 0 <= j < |rows| ==> !Matches(rows[j], id)
    {
      k := 0;
      while k < |rows| && !Matches(rows[k], id)
        invariant k <= |rows| && forall j :: 0 <= j < k ==> !Matches(rows[j], id)
      {
        k := k + 1;
      }
    }

    method MarkPublished(id: ID, at: Time)
      requires DistinctEvents(EventsIn(rows))
      modifies this
      ensures rows == Outbox.MarkedPublished(old(rows), id, at)
    {
      var k := Waiting(id);
      if k < |rows| {
        OnlyOneMatches(rows, k, id);
        rows := rows[k := rows[k].(publishedAt := Some(at))];
      }
    }

    method ReschedulePublication(id: ID, attempts: int, nextAttemptAt: Time)
      requires DistinctEvents(EventsIn(rows))
      modifies this
      ensures rows == Outbox.Rescheduled(old(rows), id, attempts, nextAttemptAt)
    {
      var k := Waiting(id);
      if k < |rows| {
        OnlyOneMatches(rows, k, id);
        rows := rows[k := rows[k].(attempts := attempts, nextAttemptAt := nextAttemptAt)];
      }
    }
  }

  lemma OnlyOneMatches(rows: seq<Row>, k: nat, id: ID)
    requires DistinctEvents(EventsIn(rows)) && k < |rows| && rows[k].event.id == id
    ensures forall j :: 0 <= j < |rows| && j != k ==> rows[j].event.id != id
  {
    forall j | 0 <= j < |rows| && j != k ensures rows[j].event.id != id {
      assert EventsIn(rows)[j] == rows[j].event && EventsIn(rows)[k] == rows[k].event;
      if j < k { assert EventsIn(rows)[j].id != EventsIn(rows)[k].id; }
    }
  }

  /** What the bus delivered, in order of arrival. */
  class Topic {
    var delivered: seq<Event>

    constructor ()
      ensures delivered == []
    {
      delivered := [];
    }

    method Publish(e: Event, answer: Answer) returns (ok: bool)
      modifies this
      ensures delivered == old(delivered) + (if answer.arrives then [e] else []) && ok == answer.succeeds
    {
      if answer.arrives {
        delivered := delivered + [e];
      }
      return answer.succeeds;
    }
  }

  // --------------------------------------------------------------- execution

  /** The row of an event once the answer is recorded: published, or waiting for another
      attempt after the doubling delay; only leased when the recording fails. */
  function Recorded(row: Row, policy: Policy, leaseUntil: Time, at: Time, answer: Answer): Row
    requires policy.Valid()
  {
    if !answer.recorded then row.(nextAttemptAt := leaseUntil)
    else if answer.succeeds then row.(publishedAt := Some(at), nextAttemptAt := leaseUntil)
    else row.(attempts := row.attempts + 1,
              nextAttemptAt := at + B.Delay(policy.baseDelay as int, policy.maxDelay as int, row.attempts + 1))
  }

  /** The statement that records an answer, unless its transaction fails. */
  function Noted(rows: seq<Row>, record: Record, policy: Policy, at: Time, answer: Answer): seq<Row>
    requires policy.Valid()
  {
    if answer.recorded then Answered(rows, record, answer.succeeds, NotedAt(record, policy, at, answer.succeeds))
    else rows
  }

  /** The moment written: of the publication, or of the next attempt. */
  function NotedAt(record: Record, policy: Policy, at: Time, succeeded: bool): Time
    requires policy.Valid()
  {
    if succeeded then at else at + B.Delay(policy.baseDelay as int, policy.maxDelay as int, record.attempts + 1)
  }

  /** The table once the first n picks are recorded, and the others are only leased. */
  function Progress(rows: seq<Row>, picks: seq<nat>, n: nat, policy: Policy, leaseUntil: Time, clock: Event -> Time,
                    answers: Event -> Answer): (r: seq<Row>)
    requires policy.Valid() && n <= |picks|
    ensures |r| == |rows|
  {
    seq(|rows|, k requires 0 <= k < |rows| =>
      if k in picks[..n]
      then Recorded(rows[k], policy, leaseUntil, clock(rows[k].event), answers(rows[k].event))
      else if k in picks then rows[k].(nextAttemptAt := leaseUntil)
      else rows[k])
  }

  function Executed(rows: seq<Row>, picks: seq<nat>, policy: Policy, leaseUntil: Time, clock: Event -> Time,
                    answers: Event -> Answer): (r: seq<Row>)
    requires policy.Valid()
  {
    Progress(rows, picks, |picks|, policy, leaseUntil, clock, answers)
  }

  function Arrived(record: Record, answers: Event -> Answer): seq<Event> {
    if answers(record.event).arrives then [record.event] else []
  }

  /** The events that arrive, in order. */
  function Arrivals(records: seq<Record>, answers: Event -> Answer): seq<Event> {
    if records == [] then [] else
      Arrivals(records[..|records| - 1], answers) + Arrived(records[|records| - 1], answers)
  }

  lemma RecordingAdvances(rows: seq<Row>, picks: seq<nat>, n: nat, policy: Policy, dueAt: Time, leaseUntil: Time,
                          clock: Event -> Time, answers: Event -> Answer)
    requires policy.Valid() && n < |picks| && Pickable(rows, picks, dueAt) && DistinctEvents(EventsIn(rows))
    ensures var now, next := Progress(rows, picks, n, policy, leaseUntil, clock, answers),
                             Progress(rows, picks, n + 1, policy, leaseUntil, clock, answers);
            var r := RecordsOf(rows, picks)[n];
            next == Noted(now, r, policy, clock(r.event), answers(r.event))
  {
    var now := Progress(rows, picks, n, policy, leaseUntil, clock, answers);
    var r := RecordsOf(rows, picks)[n];
    OnlyOneMatches(rows, picks[n], r.event.id);
    assert picks[..n + 1] == picks[..n] + [picks[n]];
    assert picks[n] !in picks[..n];
    forall k | 0 <= k < |rows| ensures Matches(now[k], r.event.id) <==> k == picks[n] {
      assert now[k].event == rows[k].event && now[k] == Progress(rows, picks, n, policy, leaseUntil, clock, answers)[k];
      if k == picks[n] {
        assert k in picks && IsDue(rows, k, dueAt);
      }
    }
  }

  lemma ProgressKeepsEvents(rows: seq<Row>, picks: seq<nat>, n: nat, policy: Policy, leaseUntil: Time,
                            clock: Event -> Time, answers: Event -> Answer)
    requires policy.Valid() && n <= |picks|
    ensures EventsIn(Progress(rows, picks, n, policy, leaseUntil, clock, answers)) == EventsIn(rows)
  {
  }

  /** PublishOutbox.publish: publish, then record what was reported; it fails when either does. */
  method PublishRecord(table: OutboxTable, topic: Topic, policy: Policy, record: Record, at: Time, answer: Answer)
    returns (ok: bool)
    requires policy.Valid() && DistinctEvents(EventsIn(table.rows))
    modifies table, topic
    ensures table.rows == Noted(old(table.rows), record, policy, at, answer)
    ensures topic.delivered == old(topic.delivered) + (if answer.arrives then [record.event] else [])
    ensures ok == answer.Complete()
  {
    var published := topic.Publish(record.event, answer);
    if !answer.recorded {
      return false;
    }
    if published {
      table.MarkPublished(record.event.id, at);
    } else {
      var attempts := record.attempts + 1;
      var delay := B.Backoff(policy.baseDelay, policy.maxDelay, attempts);
      table.ReschedulePublication(record.event.id, attempts, at + delay as int);
    }
    return published;
  }

  /** The statements of all the records, one after the other. */
  function Folded(rows: seq<Row>, records: seq<Record>, policy: Policy, clock: Event -> Time, answers: Event -> Answer)
    : (r: seq<Row>)
    requires policy.Valid()
    ensures EventsIn(r) == EventsIn(rows)
  {
    if records == [] then rows else
      var init, last := records[..|records| - 1], records[|records| - 1];
      Noted(Folded(rows, init, policy, clock, answers), last, policy, clock(last.event), answers(last.event))
  }

  /** The publications that failed, or whose recording did. */
  function Failures(records: seq<Record>, answers: Event -> Answer): nat {
    if records == [] then 0
    else Failures(records[..|records| - 1], answers) + (if answers(records[|records| - 1].event).Complete() then 0 else 1)
  }

  /** One for each publication that did not succeed, or was not recorded. */
  lemma {:induction false} FailuresAreThese(records: seq<Record>, answers: Event -> Answer)
    ensures Failures(records, answers)
            == |set i: nat | i < |records| && !(answers(records[i].event).succeeds && answers(records[i].event).recorded)|
  {
    var failed := set i: nat | i < |records| && !(answers(records[i].event).succeeds && answers(records[i].event).recorded);
    if records == [] {
      assert failed == {};
    } else {
      var n, init := |records| - 1, records[..|records| - 1];
      FailuresAreThese(init, answers);
      var before := set i: nat | i < n && !(answers(init[i].event).succeeds && answers(init[i].event).recorded);
      assert failed == if answers(records[n].event).Complete() then before else before + {n};
    }
  }

  /** The events leased are published one by one, whatever became of those before. The clock
      is read anew for each. */
  method PublishAll(table: OutboxTable, topic: Topic, policy: Policy, records: seq<Record>, clock: Event -> Time,
                    answers: Event -> Answer) returns (failures: nat)
    requires policy.Valid() && DistinctEvents(EventsIn(table.rows))
    modifies table, topic
    ensures table.rows == Folded(old(table.rows), records, policy, clock, answers)
    ensures topic.delivered == old(topic.delivered) + Arrivals(records, answers)
    ensures failures == Failures(records, answers)
  {
    failures := 0;
    var i := 0;
    while i < |records|
      invariant 0 <= i <= |records|
      invariant table.rows == Folded(old(table.rows), records[..i], policy, clock, answers)
      invariant topic.delivered == old(topic.delivered) + Arrivals(records[..i], answers)
      invariant failures == Failures(records[..i], answers)
    {
      assert records[..i + 1][..i] == records[..i];
      var e := records[i].event;
      var ok := PublishRecord(table, topic, policy, records[i], clock(e), answers(e));
      failures := if ok then failures else failures + 1;
      i := i + 1;
    }
    assert records[..|records|] == records;
  }

  lemma LeasedKeepsEvents(rows: seq<Row>, picks: seq<nat>, leaseUntil: Time)
    ensures EventsIn(Leased(rows, picks, leaseUntil)) == EventsIn(rows)
  {
  }

  lemma NothingRecordedYet(rows: seq<Row>, picks: seq<nat>, policy: Policy, leaseUntil: Time, clock: Event -> Time,
                           answers: Event -> Answer)
    requires policy.Valid()
    ensures Progress(rows, picks, 0, policy, leaseUntil, clock, answers) == Leased(rows, picks, leaseUntil)
  {
  }

  /** One after the other, the statements leave the table as the closed form says. */
  lemma {:induction false} FoldedIsProgress(
      rows: seq<Row>, picks: seq<nat>, n: nat, policy: Policy, dueAt: Time, leaseUntil: Time, clock: Event -> Time,
      answers: Event -> Answer)
    requires policy.Valid() && n <= |picks| && Pickable(rows, picks, dueAt) && DistinctEvents(EventsIn(rows))
    ensures Folded(Leased(rows, picks, leaseUntil), RecordsOf(rows, picks)[..n], policy, clock, answers)
            == Progress(rows, picks, n, policy, leaseUntil, clock, answers)
  {
    if n == 0 {
      NothingRecordedYet(rows, picks, policy, leaseUntil, clock, answers);
    } else {
      var records := RecordsOf(rows, picks);
      FoldedIsProgress(rows, picks, n - 1, policy, dueAt, leaseUntil, clock, answers);
      RecordingAdvances(rows, picks, n - 1, policy, dueAt, leaseUntil, clock, answers);
      assert records[..n][..n - 1] == records[..n - 1];
    }
  }

  /** PublishOutbox.Execute: how many events it took, and how many of them failed. */
  method Execute(table: OutboxTable, topic: Topic, policy: Policy, now: Time, locked: set<nat>, clock: Event -> Time,
                 answers: Event -> Answer) returns (taken: nat, failures: nat, ghost picks: seq<nat>)
    requires policy.Valid() && DistinctEvents(EventsIn(table.rows))
    modifies table, topic
    ensures Picked(old(table.rows), picks, now, locked, policy.batchSize) && taken == |picks|
    ensures table.rows == Executed(old(table.rows), picks, policy, policy.LeaseUntil(now), clock, answers)
    ensures topic.delivered == old(topic.delivered) + Arrivals(RecordsOf(old(table.rows), picks), answers)
    ensures failures == Failures(RecordsOf(old(table.rows), picks), answers)
  {
    ghost var before := table.rows;
    var leaseUntil := policy.LeaseUntil(now);
    var records: seq<Record>;
    records, picks := table.LeasePending(now, leaseUntil, policy.batchSize, locked);
    LeasedKeepsEvents(before, picks, leaseUntil);
    failures := PublishAll(table, topic, policy, records, clock, answers);
    FoldedIsProgress(before, picks, |picks|, policy, now, leaseUntil, clock, answers);
    assert records[..|picks|] == records;
    taken := |records|;
  }

  // -------------------------------------------------------------- refinement

  lemma {:induction false} ArrivalsFromTheLeft(records: seq<Record>, answers: Event -> Answer)
    requires records != []
    ensures Arrivals(records, answers) == Arrived(records[0], answers) + Arrivals(records[1..], answers)
  {
    var init, rest := records[..|records| - 1], records[1..];
    if init == [] {
      assert rest == [];
    } else {
      ArrivalsFromTheLeft(init, answers);
      assert init[1..] == rest[..|rest| - 1] && rest[|rest| - 1] == records[|records| - 1];
      Associates(Arrived(records[0], answers), Arrivals(init[1..], answers), Arrived(records[|records| - 1], answers));
    }
  }

  lemma Associates(a: seq<Event>, b: seq<Event>, c: seq<Event>)
    ensures (a + b) + c == a + (b + c)
  {
  }

  lemma ArrivalsAfter(d: seq<Event>, records: seq<Record>, answers: Event -> Answer)
    requires records != []
    ensures d + Arrivals(records, answers) == d + Arrived(records[0], answers) + Arrivals(records[1..], answers)
  {
    ArrivalsFromTheLeft(records, answers);
  }

  lemma {:induction false} FoldedFromTheLeft(rows: seq<Row>, records: seq<Record>, policy: Policy, clock: Event -> Time,
                                             answers: Event -> Answer)
    requires policy.Valid() && records != []
    ensures var r := records[0];
            Folded(rows, records, policy, clock, answers)
            == Folded(Noted(rows, r, policy, clock(r.event), answers(r.event)), records[1..], policy, clock, answers)
  {
    var init := records[..|records| - 1];
    if init != [] {
      FoldedFromTheLeft(rows, init, policy, clock, answers);
      assert init[1..] == records[1..][..|records| - 2];
    }
  }

  lemma {:induction false} PublishingIsARun(b: Bus, pid: Pid, records: seq<Record>, policy: Policy, clock: Event -> Time,
                                            answers: Event -> Answer) returns (steps: seq<Step>)
    requires policy.Valid() && forall e: Event :: answers(e).Honest()
    requires pid in b.publishers && b.publishers[pid] == Publisher(records, None)
    ensures Run(b, steps)
    ensures After(b, steps).rows == Folded(b.rows, records, policy, clock, answers)
    ensures After(b, steps).delivered == b.delivered + Arrivals(records, answers)
    decreases |records|
  {
    if records == [] {
      steps := [];
    } else {
      var first, second, b2 := OneRecordIsARun(b, pid, records, policy, clock, answers);
      var rest := PublishingIsARun(b2, pid, records[1..], policy, clock, answers);
      steps := [first] + ([second] + rest);
      OneMoreStep(Do(b, first), second, rest);
      OneMoreStep(b, first, [second] + rest);
      FoldedFromTheLeft(b.rows, records, policy, clock, answers);
      ArrivalsAfter(b.delivered, records, answers);
    }
  }

  lemma OneRecordIsARun(b: Bus, pid: Pid, records: seq<Record>, policy: Policy, clock: Event -> Time,
                        answers: Event -> Answer) returns (first: Step, second: Step, b2: Bus)
    requires policy.Valid() && forall e: Event :: answers(e).Honest()
    requires pid in b.publishers && b.publishers[pid] == Publisher(records, None) && records != []
    ensures Enabled(b, first) && Enabled(Do(b, first), second) && b2 == Do(Do(b, first), second)
    ensures var r := records[0];
            && b2.rows == Noted(b.rows, r, policy, clock(r.event), answers(r.event))
            && b2.delivered == b.delivered + Arrived(r, answers)
    ensures pid in b2.publishers && b2.publishers[pid] == Publisher(records[1..], None)
  {
    var r := records[0];
    var answer := answers(r.event);
    first := Publish(pid, answer.arrives, answer.succeeds);
    second := Conclude(pid, NotedAt(r, policy, clock(r.event), answer.succeeds), answer.recorded);
    b2 := Do(Do(b, first), second);
  }

  lemma OneMoreStep(b: Bus, first: Step, rest: seq<Step>)
    requires Enabled(b, first) && Run(Do(b, first), rest)
    ensures Run(b, [first] + rest) && After(b, [first] + rest) == After(Do(b, first), rest)
  {
    assert ([first] + rest)[1..] == rest;
  }

  /** An execution is a run of the protocol of publishers, so it keeps all that runs keep:
      consumers see a prefix of the events of their wallet. */
  lemma ExecutionIsARun(b: Bus, pid: Pid, picks: seq<nat>, policy: Policy, now: Time, locked: set<nat>,
                        clock: Event -> Time, answers: Event -> Answer) returns (steps: seq<Step>)
    requires policy.Valid() && BusOk(b) && pid !in b.publishers && Picked(b.rows, picks, now, locked, policy.batchSize)
    requires forall e: Event :: answers(e).Honest()
    ensures Run(b, steps)
    ensures After(b, steps).rows == Executed(b.rows, picks, policy, policy.LeaseUntil(now), clock, answers)
    ensures After(b, steps).delivered == b.delivered + Arrivals(RecordsOf(b.rows, picks), answers)
    ensures BusOk(After(b, steps))
  {
    var lease := Lease(pid, picks, now, policy.LeaseUntil(now));
    var records := RecordsOf(b.rows, picks);
    var rest := PublishingIsARun(Do(b, lease), pid, records, policy, clock, answers);
    steps := [lease] + rest;
    OneMoreStep(b, lease, rest);
    FoldedIsProgress(b.rows, picks, |picks|, policy, now, policy.LeaseUntil(now), clock, answers);
    assert records[..|picks|] == records;
    assert BusOk(After(b, steps)) by { RunKeepsBus(b, steps); }
  }

  // --------------------------------------------------------------- progress

  ghost function Unpublished(rows: seq<Row>): set<nat> {
    set k: nat | 0 <= k < |rows| && !rows[k].Published()
  }

  ghost function MembersOf(picks: seq<nat>): set<nat> {
    set k | k in picks
  }

  lemma {:induction false} DistinctMembers(picks: seq<nat>)
    requires forall i, j :: 0 <= i < j < |picks| ==> picks[i] != picks[j]
    ensures |MembersOf(picks)| == |picks|
  {
    if picks != [] {
      var init, last := picks[..|picks| - 1], picks[|picks| - 1];
      DistinctMembers(init);
      assert MembersOf(picks) == MembersOf(init) + {last};
    }
  }

  /** The picks whose publication succeeds and is recorded. */
  ghost function Successes(rows: seq<Row>, picks: seq<nat>, answers: Event -> Answer): set<nat>
    requires forall k :: k in picks ==> k < |rows|
  {
    set k | k in picks && answers(rows[k].event).Complete()
  }

  /** An execution publishes exactly those of its events whose publication succeeds and is
      recorded. */
  lemma ExecutionPublishes(rows: seq<Row>, picks: seq<nat>, policy: Policy, dueAt: Time, leaseUntil: Time,
                           clock: Event -> Time, answers: Event -> Answer)
    requires policy.Valid() && Pickable(rows, picks, dueAt)
    ensures Unpublished(Executed(rows, picks, policy, leaseUntil, clock, answers))
            == Unpublished(rows) - Successes(rows, picks, answers)
  {
    var rows' := Executed(rows, picks, policy, leaseUntil, clock, answers);
    forall k: nat ensures k in Unpublished(rows') <==> k in Unpublished(rows) - Successes(rows, picks, answers) {
      if k < |rows| {
        PublishedExactly(rows, picks, policy, leaseUntil, clock, answers, k);
      }
    }
  }

  lemma PublishedExactly(rows: seq<Row>, picks: seq<nat>, policy: Policy, leaseUntil: Time, clock: Event -> Time,
                         answers: Event -> Answer, k: nat)
    requires policy.Valid() && k < |rows|
    ensures Executed(rows, picks, policy, leaseUntil, clock, answers)[k].Published()
            <==> rows[k].Published() || (k in picks && answers(rows[k].event).Complete())
  {
    assert picks[..|picks|] == picks;
    assert Executed(rows, picks, policy, leaseUntil, clock, answers)[k]
           == if k in picks then Recorded(rows[k], policy, leaseUntil, clock(rows[k].event), answers(rows[k].event))
              else rows[k];
  }

  /** When everything succeeds, each execution leaves fewer unpublished by what it took. */
  lemma SuccessesCount(rows: seq<Row>, picks: seq<nat>, dueAt: Time, answers: Event -> Answer)
    requires Pickable(rows, picks, dueAt) && forall k :: k in picks ==> answers(rows[k].event).Complete()
    ensures |Unpublished(rows) - Successes(rows, picks, answers)| == |Unpublished(rows)| - |picks|
  {
    DistinctMembers(picks);
    assert Successes(rows, picks, answers) == MembersOf(picks);
    forall k | k in MembersOf(picks) ensures k in Unpublished(rows) {
      var i :| 0 <= i < |picks| && picks[i] == k;
      assert IsDue(rows, picks[i], dueAt);
    }
  }

  /** While an event of a wallet is unpublished, the oldest such event may be leased: no event
      is ever stuck behind nothing. */
  lemma {:induction false} SomeHeadWaits(rows: seq<Row>, k: nat) returns (head: nat)
    requires k < |rows| && !rows[k].Published()
    ensures head < |rows| && IsHead(rows, head) && rows[head].event.aggregateId == rows[k].event.aggregateId
    decreases rows[k].event.sequence
  {
    if IsHead(rows, k) {
      head := k;
    } else {
      var j :| 0 <= j < |rows| && rows[j].event.aggregateId == rows[k].event.aggregateId && !rows[j].Published()
               && rows[j].event.sequence < rows[k].event.sequence;
      head := SomeHeadWaits(rows, j);
    }
  }

  ghost predicate AllPublished(rows: seq<Row>) {
    forall k :: 0 <= k < |rows| ==> rows[k].Published()
  }

  /** An execution that takes nothing, when everything unpublished is due, leaves nothing. */
  lemma NothingTakenNothingLeft(rows: seq<Row>, picks: seq<nat>, dueAt: Time, limit: int)
    requires Picked(rows, picks, dueAt, {}, limit) && limit >= 1 && picks == []
    requires forall k :: 0 <= k < |rows| && !rows[k].Published() ==> rows[k].nextAttemptAt <= dueAt
    ensures AllPublished(rows)
  {
    forall k | 0 <= k < |rows| ensures rows[k].Published() {
      if !rows[k].Published() {
        var head := SomeHeadWaits(rows, k);
        assert IsFree(rows, head, dueAt, {});
      }
    }
  }

  /** Whatever is unpublished becomes due: leases run out and backoffs end by some round. */
  ghost predicate DueFrom(rows: seq<Row>, now: nat -> Time, start: nat) {
    forall n: nat, k :: start <= n && 0 <= k < |rows| && !rows[k].Published() ==> rows[k].nextAttemptAt <= now(n)
  }

  /** From a round on, the clock is past every lease granted and every delay given before it. */
  ghost predicate Outlasts(policy: Policy, now: nat -> Time, clock: nat -> Event -> Time, start: nat) {
    && (forall m: nat, n: nat :: m < start <= n ==> policy.LeaseUntil(now(m)) <= now(n))
    && (forall m: nat, n: nat, e: Event :: m < start <= n ==> clock(m)(e) + policy.maxDelay as int <= now(n))
  }

  /** From a round on, publications succeed and are recorded; before it, anything may fail. */
  ghost predicate SucceedFrom(answers: nat -> Event -> Answer, start: nat) {
    forall n: nat, e: Event :: start <= n ==> answers(n)(e).Complete()
  }

  /** A round changes when unpublished rows are due only by a lease or a delay. */
  lemma RoundReschedules(rows: seq<Row>, picks: seq<nat>, policy: Policy, dueAt: Time, leaseUntil: Time,
                         clock: Event -> Time, answers: Event -> Answer, k: nat)
    requires policy.Valid() && Pickable(rows, picks, dueAt) && k < |rows|
    ensures var row := Executed(rows, picks, policy, leaseUntil, clock, answers)[k];
            && row.event == rows[k].event && (rows[k].Published() ==> row == rows[k])
            && (row.Published() || row == rows[k] || row.nextAttemptAt == leaseUntil
                || row.nextAttemptAt <= clock(rows[k].event) + policy.maxDelay as int)
            && (k !in picks ==> row == rows[k])
            && (k in picks && answers(rows[k].event).Complete() ==> row.Published())
  {
    assert picks[..|picks|] == picks;
    if k in picks {
      var n := rows[k].attempts + 1;
      B.WaitsGrowToTheCap(policy.baseDelay as int, policy.maxDelay as int, n, n);
    }
  }

  /** Each row after an execution, in full: leased and, once its answer is recorded, published, or
      waiting for the n-th time, each wait but the first twice the one before it up to the cap. */
  lemma ExecutionLeavesRows(rows: seq<Row>, picks: seq<nat>, policy: Policy, now: Time, clock: Event -> Time,
                            answers: Event -> Answer, k: nat)
    requires policy.Valid() && Pickable(rows, picks, now) && k < |rows| && rows[k].attempts >= 0
    ensures var row, answer, at := rows[k], answers(rows[k].event), clock(rows[k].event);
            Executed(rows, picks, policy, policy.LeaseUntil(now), clock, answers)[k]
            == if k !in picks then row
               else if !answer.recorded then Row(row.event, None, row.attempts, now + policy.lease)
               else if answer.succeeds then Row(row.event, Some(at), row.attempts, now + policy.lease)
               else Row(row.event, None, row.attempts + 1,
                        at + B.NthWait(policy.baseDelay as int, policy.maxDelay as int, row.attempts + 1))
  {
    assert picks[..|picks|] == picks;
    B.NthWaitIsDelay(policy.baseDelay as int, policy.maxDelay as int, rows[k].attempts + 1);
    if k in picks {
      var i :| 0 <= i < |picks| && picks[i] == k;
      assert IsDue(rows, picks[i], now);
    }
  }

  /** Until a lease runs out nobody else takes what it took. */
  lemma LeaseExcludes(rows: seq<Row>, picks: seq<nat>, leaseUntil: Time, others: seq<nat>, dueAt: Time)
    requires Pickable(Leased(rows, picks, leaseUntil), others, dueAt) && dueAt < leaseUntil
    ensures forall i :: 0 <= i < |others| ==> others[i] !in picks
  {
    forall i | 0 <= i < |others| ensures others[i] !in picks {
      assert IsDue(Leased(rows, picks, leaseUntil), others[i], dueAt);
    }
  }

  lemma RoundKeepsDue(rows: seq<Row>, picks: seq<nat>, policy: Policy, n: nat, now: nat -> Time, start: nat,
                      clock: nat -> Event -> Time, answers: nat -> Event -> Answer)
    requires policy.Valid() && Pickable(rows, picks, now(n))
    requires DueFrom(rows, now, start) && Outlasts(policy, now, clock, start) && SucceedFrom(answers, start)
    ensures DueFrom(Executed(rows, picks, policy, policy.LeaseUntil(now(n)), clock(n), answers(n)), now, start)
  {
    var rows' := Executed(rows, picks, policy, policy.LeaseUntil(now(n)), clock(n), answers(n));
    forall m: nat, k | start <= m && 0 <= k < |rows'| && !rows'[k].Published()
      ensures rows'[k].nextAttemptAt <= now(m)
    {
      RoundReschedules(rows, picks, policy, now(n), policy.LeaseUntil(now(n)), clock(n), answers(n), k);
    }
  }

  lemma RoundProgresses(rows: seq<Row>, picks: seq<nat>, policy: Policy, n: nat, now: nat -> Time, start: nat,
                        clock: nat -> Event -> Time, answers: nat -> Event -> Answer)
    requires policy.Valid() && policy.batchSize >= 1 && Picked(rows, picks, now(n), {}, policy.batchSize)
    requires DueFrom(rows, now, start) && SucceedFrom(answers, start)
    ensures var rows' := Executed(rows, picks, policy, policy.LeaseUntil(now(n)), clock(n), answers(n));
            && |Unpublished(rows')| <= |Unpublished(rows)| - (if n >= start then |picks| else 0)
            && (n >= start && picks == [] ==> AllPublished(rows'))
  {
    var leaseUntil := policy.LeaseUntil(now(n));
    var rows' := Executed(rows, picks, policy, leaseUntil, clock(n), answers(n));
    ExecutionPublishes(rows, picks, policy, now(n), leaseUntil, clock(n), answers(n));
    if n >= start {
      SuccessesCount(rows, picks, now(n), answers(n));
    } else {
      Fits(Unpublished(rows'), Unpublished(rows));
    }
    if n >= start && picks == [] {
      NothingTakenNothingLeft(rows, picks, now(n), policy.batchSize);
      forall k | 0 <= k < |rows'| ensures rows'[k].Published() {
        RoundReschedules(rows, picks, policy, now(n), leaseUntil, clock(n), answers(n), k);
      }
    }
  }

  /** The rounds of a worker. Events may still be leased by publishers that died, or wait in
      backoff, and any publication or recording may fail until some round; once publications
      succeed and the clock is past what was granted before, the rounds run on until one takes
      nothing, and that leaves no event unpublished, within as many rounds as there were
      unpublished events, and one. */
  method Drain(table: OutboxTable, topic: Topic, policy: Policy, now: nat -> Time, clock: nat -> Event -> Time,
               answers: nat -> Event -> Answer, start: nat) returns (rounds: nat)
    requires policy.Valid() && policy.batchSize >= 1 && DistinctEvents(EventsIn(table.rows))
    requires DueFrom(table.rows, now, start) && Outlasts(policy, now, clock, start) && SucceedFrom(answers, start)
    modifies table, topic
    ensures EventsIn(table.rows) == EventsIn(old(table.rows)) && AllPublished(table.rows)
    ensures rounds <= start + |Unpublished(old(table.rows))| + 1
  {
    rounds := 0;
    var taken := 1;
    while rounds <= start || taken > 0
      invariant EventsIn(table.rows) == EventsIn(old(table.rows)) && DueFrom(table.rows, now, start)
      invariant |Unpublished(table.rows)| <= |Unpublished(old(table.rows))|
      invariant rounds > start && taken > 0 ==>
                  rounds + |Unpublished(table.rows)| <= start + |Unpublished(old(table.rows))|
      invariant rounds > start && taken == 0 ==>
                  rounds <= start + |Unpublished(old(table.rows))| + 1 && AllPublished(table.rows)
      decreases if rounds <= start then start + 1 - rounds else 0, |Unpublished(table.rows)|, taken
    {
      ghost var rows := table.rows;
      ghost var picks: seq<nat>;
      var failures: nat;
      taken, failures, picks := Execute(table, topic, policy, now(rounds), {}, clock(rounds), answers(rounds));
      RoundProgresses(rows, picks, policy, rounds, now, start, clock, answers);
      RoundKeepsDue(rows, picks, policy, rounds, now, start, clock, answers);
      ProgressKeepsEvents(rows, picks, |picks|, policy, policy.LeaseUntil(now(rounds)), clock(rounds), answers(rounds));
      rounds := rounds + 1;
    }
  }

  /** Under a clock that leaves every instant behind, every event becomes due, whatever lease or
      backoff it waits for. */
  lemma {:induction false} EventuallyDue(rows: seq<Row>, now: nat -> Time) returns (start: nat)
    requires LeavesAll(now)
    ensures DueFrom(rows, now, start)
  {
    if rows == [] {
      start := 0;
    } else {
      var init, last := rows[..|rows| - 1], rows[|rows| - 1];
      var early := EventuallyDue(init, now);
      assert Leaves(now, last.nextAttemptAt);
      var late: nat :| PastFrom(now, last.nextAttemptAt, late);
      start := if early < late then late else early;
      forall n: nat, k | start <= n && 0 <= k < |rows| && !rows[k].Published() ensures rows[k].nextAttemptAt <= now(n) {
        assert k < |init| ==> init[k] == rows[k];
      }
    }
  }
}
