/** Publishing the outbox: any number of publishers lease the oldest unpublished event of each
    wallet, publish it, and only then mark it. Leases expire, clocks disagree, publications
    fail or arrive unreported, and publishers die at any point. The queue is assumed to hand the
    events of a wallet on in the order it accepted them, as a FIFO queue grouped by wallet does,
    and to report success only of an event it accepted. */
module Outbox {
  import opened Domain
  import opened Sequences
  import opened Events

  /** An event with the columns that publishers update. */
  datatype Row = Row(event: Event, publishedAt: Option<Time>, attempts: int, nextAttemptAt: Time) {
    predicate Published() {
      publishedAt.Some?
    }
  }

  /** What a publisher knows of a row it leased. */
  datatype Record = Record(event: Event, attempts: int)

  function EventsIn(rows: seq<Row>): (s: seq<Event>)
    ensures |s| == |rows|
  {
    seq(|rows|, k requires 0 <= k < |rows| => rows[k].event)
  }

  // -------------------------------------------------------------- statements

  function Appended(rows: seq<Row>, events: seq<Event>, at: Time): seq<Row> {
    rows + seq(|events|, k requires 0 <= k < |events| => Row(events[k], None, 0, at))
  }

  /** The oldest unpublished event of its aggregate. */
  predicate IsHead(rows: seq<Row>, k: nat)
    requires k < |rows|
  {
    && !rows[k].Published()
    && forall j :: 0 <= j < |rows| && rows[j].event.aggregateId == rows[k].event.aggregateId && !rows[j].Published() ==>
         rows[k].event.sequence <= rows[j].event.sequence
  }

  predicate IsDue(rows: seq<Row>, k: nat, dueAt: Time)
    requires k < |rows|
  {
    IsHead(rows, k) && rows[k].nextAttemptAt <= dueAt
  }

  predicate Pickable(rows: seq<Row>, picks: seq<nat>, dueAt: Time) {
    && (forall i :: 0 <= i < |picks| ==> picks[i] < |rows| && IsDue(rows, picks[i], dueAt))
    && (forall i, j :: 0 <= i < j < |picks| ==> picks[i] != picks[j])
  }

  function Leased(rows: seq<Row>, picks: seq<nat>, leaseUntil: Time): (r: seq<Row>)
    ensures |r| == |rows|
  {
    seq(|rows|, k requires 0 <= k < |rows| => if k in picks then rows[k].(nextAttemptAt := leaseUntil) else rows[k])
  }

  function RecordsOf(rows: seq<Row>, picks: seq<nat>): (r: seq<Record>)
    requires forall i :: 0 <= i < |picks| ==> picks[i] < |rows|
    ensures |r| == |picks|
  {
    seq(|picks|, i requires 0 <= i < |picks| => Record(rows[picks[i]].event, rows[picks[i]].attempts))
  }

  predicate Matches(row: Row, id: ID) {
    row.event.id == id && !row.Published()
  }

  function MarkedPublished(rows: seq<Row>, id: ID, at: Time): (r: seq<Row>)
    ensures |r| == |rows|
  {
    seq(|rows|, k requires 0 <= k < |rows| => if Matches(rows[k], id) then rows[k].(publishedAt := Some(at)) else rows[k])
  }

  function Rescheduled(rows: seq<Row>, id: ID, attempts: int, nextAttemptAt: Time): (r: seq<Row>)
    ensures |r| == |rows|
  {
    seq(|rows|, k requires 0 <= k < |rows| =>
      if Matches(rows[k], id) then rows[k].(attempts := attempts, nextAttemptAt := nextAttemptAt) else rows[k])
  }

  // ------------------------------------------------------------------- steps

  type Pid = nat

  /** The batch left to publish; `reported` is what the bus answered about its first event,
      once that was published and while it is not recorded. */
  datatype Publisher = Publisher(batch: seq<Record>, reported: Option<bool>)

  /** `sent` is everything ever handed to the bus, which may deliver it at any later time, and
      more than once. */
  datatype Bus = Bus(rows: seq<Row>, publishers: map<Pid, Publisher>, sent: set<Event>, delivered: seq<Event>)

  datatype Step =
    | Append(events: seq<Event>, at: Time)
    | Lease(pid: Pid, picks: seq<nat>, dueAt: Time, leaseUntil: Time)
    | Publish(pid: Pid, arrives: bool, succeeds: bool)
    | Arrive(event: Event)
    | Conclude(pid: Pid, at: Time, stored: bool)
    | Crash(pid: Pid)

  const IDLE: Bus := Bus([], map[], {}, [])

  /** Rows locked by another publisher are skipped, so a lease may pick any due heads. A
      success is reported only of an event that arrived; a failure tells nothing. */
  ghost predicate Enabled(b: Bus, step: Step) {
    match step
    case Append(events, _) => Ordered(EventsIn(b.rows) + events) && DistinctEvents(EventsIn(b.rows) + events)
    case Lease(pid, picks, dueAt, _) => pid !in b.publishers && Pickable(b.rows, picks, dueAt)
    case Publish(pid, arrives, succeeds) =>
      && pid in b.publishers && b.publishers[pid].batch != [] && b.publishers[pid].reported.None?
      && (succeeds ==> arrives)
    case Arrive(event) => event in b.sent
    case Conclude(pid, _, _) =>
      pid in b.publishers && b.publishers[pid].batch != [] && b.publishers[pid].reported.Some?
    case Crash(pid) => pid in b.publishers
  }

  /** What recording the answer does to the rows, unless its transaction fails. A failure is
      rescheduled at whatever moment the backoff gave. */
  function Answered(rows: seq<Row>, record: Record, succeeded: bool, at: Time): seq<Row> {
    if succeeded then MarkedPublished(rows, record.event.id, at)
    else Rescheduled(rows, record.event.id, record.attempts + 1, at)
  }

  ghost function Do(b: Bus, step: Step): Bus
    requires Enabled(b, step)
  {
    match step
    case Append(events, at) => b.(rows := Appended(b.rows, events, at))
    case Lease(pid, picks, _, leaseUntil) =>
      b.(rows := Leased(b.rows, picks, leaseUntil),
         publishers := b.publishers[pid := Publisher(RecordsOf(b.rows, picks), None)])
    case Publish(pid, arrives, succeeds) =>
      var p := b.publishers[pid];
      var e := p.batch[0].event;
      b.(publishers := b.publishers[pid := p.(reported := Some(succeeds))],
         sent := b.sent + {e},
         delivered := if arrives then b.delivered + [e] else b.delivered)
    case Arrive(event) => b.(delivered := b.delivered + [event])
    case Conclude(pid, at, stored) =>
      var p := b.publishers[pid];
      b.(rows := if stored then Answered(b.rows, p.batch[0], p.reported.value, at) else b.rows,
         publishers := b.publishers[pid := Publisher(p.batch[1..], None)])
    case Crash(pid) => b.(publishers := b.publishers - {pid})
  }

  // --------------------------------------------------------------- invariant

  /** The event is a row, and every earlier event of its aggregate was published. */
  ghost predicate Cleared(rows: seq<Row>, e: Event) {
    && e in EventsIn(rows)
    && forall j :: 0 <= j < |rows| && rows[j].event.aggregateId == e.aggregateId && rows[j].event.sequence < e.sequence ==>
         rows[j].Published()
  }

  ghost predicate PublishersOk(b: Bus) {
    forall pid :: pid in b.publishers ==>
      && (forall r :: r in b.publishers[pid].batch ==> Cleared(b.rows, r.event))
      && (b.publishers[pid].reported == Some(true) ==>
            b.publishers[pid].batch != [] && b.publishers[pid].batch[0].event in b.delivered)
  }

  ghost predicate DeliveriesOk(b: Bus) {
    && (forall e :: e in b.sent ==> Cleared(b.rows, e))
    && (forall e :: e in b.delivered ==> e in b.sent)
    && (forall k :: 0 <= k < |b.rows| && b.rows[k].Published() ==> b.rows[k].event in b.delivered)
  }

  /** The events of a wallet as its consumer sees them: in the order they first arrive,
      repeats left out by the identifier of the event. */
  function Seen(delivered: seq<Event>, w: ID): seq<Event> {
    if delivered == [] then [] else
      var before, e := Seen(delivered[..|delivered| - 1], w), delivered[|delivered| - 1];
      if e.aggregateId == w && !HasEvent(before, e.id) then before + [e] else before
  }

  predicate HasEvent(events: seq<Event>, id: ID) {
    exists x :: x in events && x.id == id
  }

  /** The events of the wallet in commit order. */
  function Told(rows: seq<Row>, w: ID): seq<Event> {
    Filter(EventsIn(rows), EventsOfWallet(w))
  }

  ghost predicate InOrder(b: Bus) {
    forall w :: Seen(b.delivered, w) <= Told(b.rows, w)
  }

  ghost predicate BusOk(b: Bus) {
    && Ordered(EventsIn(b.rows)) && DistinctEvents(EventsIn(b.rows))
    && PublishersOk(b) && DeliveriesOk(b) && InOrder(b)
  }

  // -------------------------------------------------------------------- rows

  /** Rows stay in place, with their events, and stay published; later ones come after. */
  ghost predicate Advances(rows: seq<Row>, rows': seq<Row>) {
    && |rows| <= |rows'|
    && (forall k :: 0 <= k < |rows| ==> rows'[k].event == rows[k].event && (rows[k].Published() ==> rows'[k].Published()))
  }

  lemma ClearedStays(rows: seq<Row>, rows': seq<Row>, e: Event)
    requires Advances(rows, rows') && Ordered(EventsIn(rows')) && Cleared(rows, e)
    ensures Cleared(rows', e)
  {
    var k :| 0 <= k < |rows| && EventsIn(rows)[k] == e;
    assert EventsIn(rows')[k] == e;
    forall j | 0 <= j < |rows'| && rows'[j].event.aggregateId == e.aggregateId && rows'[j].event.sequence < e.sequence
      ensures rows'[j].Published()
    {
      assert EventsIn(rows')[j] == rows'[j].event;
      assert j < k;
    }
  }

  lemma ToldGrows(rows: seq<Row>, rows': seq<Row>, w: ID)
    requires Advances(rows, rows')
    ensures Told(rows, w) <= Told(rows', w)
  {
    assert EventsIn(rows) <= EventsIn(rows');
    FilterPrefix(EventsIn(rows), EventsIn(rows'), EventsOfWallet(w));
  }

  lemma HeadIsCleared(rows: seq<Row>, k: nat)
    requires k < |rows| && IsHead(rows, k)
    ensures Cleared(rows, rows[k].event)
  {
    assert EventsIn(rows)[k] == rows[k].event;
  }

  // -------------------------------------------------------------- deliveries

  lemma {:induction false} SeenMembers(delivered: seq<Event>, w: ID, e: Event)
    ensures e in Seen(delivered, w) ==> e in delivered && e.aggregateId == w
    ensures e in delivered && e.aggregateId == w ==> HasEvent(Seen(delivered, w), e.id)
  {
    if delivered != [] {
      var init, last := delivered[..|delivered| - 1], delivered[|delivered| - 1];
      SeenMembers(init, w, e);
      assert delivered == init + [last];
      var before, after := Seen(init, w), Seen(delivered, w);
      if HasEvent(before, e.id) {
        var x :| x in before && x.id == e.id;
        assert x in after;
      }
      if e == last && e.aggregateId == w && !HasEvent(before, e.id) {
        assert e in after;
      }
    }
  }

  ghost predicate Increasing(events: seq<Event>) {
    forall i, j :: 0 <= i < j < |events| ==> events[i].sequence < events[j].sequence
  }

  lemma {:induction false} ToldIncreases(events: seq<Event>, w: ID)
    requires Ordered(events)
    ensures Increasing(Filter(events, EventsOfWallet(w)))
  {
    if events != [] {
      var init, last := events[..|events| - 1], events[|events| - 1];
      var before := Filter(init, EventsOfWallet(w));
      ToldIncreases(init, w);
      forall i | 0 <= i < |before| && last.aggregateId == w ensures before[i].sequence < last.sequence {
        assert before[i] in before;
        FilterMembers(init, EventsOfWallet(w), before[i]);
        var k :| 0 <= k < |init| && init[k] == before[i];
        assert events[k] == before[i];
      }
    }
  }

  /** What was delivered of a wallet is seen, when identifiers are distinct. */
  lemma DeliveredIsSeen(rows: seq<Row>, delivered: seq<Event>, w: ID, e: Event)
    requires DistinctEvents(EventsIn(rows)) && (forall x :: x in delivered ==> x in EventsIn(rows))
    requires e in EventsIn(rows) && e.aggregateId == w
    ensures e in delivered <==> e in Seen(delivered, w)
    ensures HasEvent(Seen(delivered, w), e.id) <==> e in Seen(delivered, w)
  {
    SeenMembers(delivered, w, e);
    if HasEvent(Seen(delivered, w), e.id) {
      var x :| x in Seen(delivered, w) && x.id == e.id;
      SeenMembers(delivered, w, x);
      var i :| 0 <= i < |rows| && EventsIn(rows)[i] == x;
      var j :| 0 <= j < |rows| && EventsIn(rows)[j] == e;
      assert i == j by { if i < j { assert false; } else if j < i { assert false; } }
    }
  }

  /** The events before a cleared one were delivered, so they were seen. */
  lemma EarlierWereSeen(b: Bus, w: ID, m: nat)
    requires BusOk(b) && m < |Told(b.rows, w)| && Cleared(b.rows, Told(b.rows, w)[m])
    ensures m <= |Seen(b.delivered, w)|
  {
    var told, seen := Told(b.rows, w), Seen(b.delivered, w);
    ToldIncreases(EventsIn(b.rows), w);
    assert seen <= told;
    if m > 0 {
      var x := told[m - 1];
      assert told[m] in told && x in told;
      FilterMembers(EventsIn(b.rows), EventsOfWallet(w), told[m]);
      FilterMembers(EventsIn(b.rows), EventsOfWallet(w), x);
      var k :| 0 <= k < |b.rows| && EventsIn(b.rows)[k] == x;
      assert b.rows[k].Published();
      DeliveredAreRows(b);
      DeliveredIsSeen(b.rows, b.delivered, w, x);
      var l :| 0 <= l < |seen| && seen[l] == x;
      assert told[l] == x;
      assert l == m - 1;
    }
  }

  lemma DeliveredAreRows(b: Bus)
    requires DeliveriesOk(b)
    ensures forall x :: x in b.delivered ==> x in EventsIn(b.rows)
  {
  }

  /** A cleared event that arrives is the next to be seen, or was seen already. */
  lemma ArrivalKeepsOrder(b: Bus, e: Event, w: ID)
    requires BusOk(b) && Cleared(b.rows, e)
    ensures Seen(b.delivered + [e], w) <= Told(b.rows, w)
  {
    var told, seen := Told(b.rows, w), Seen(b.delivered, w);
    assert seen <= told;
    assert (b.delivered + [e])[..|b.delivered|] == b.delivered;
    if e.aggregateId == w && !HasEvent(seen, e.id) {
      FilterMembers(EventsIn(b.rows), EventsOfWallet(w), e);
      var m :| 0 <= m < |told| && told[m] == e;
      EarlierWereSeen(b, w, m);
      assert e !in seen && forall l :: 0 <= l < |seen| ==> told[l] in seen;
      assert |seen| <= m;
      assert seen + [e] == told[..m + 1];
    }
  }

  // ------------------------------------------------------------------- steps

  lemma AppendKeepsBus(b: Bus, events: seq<Event>, at: Time)
    requires BusOk(b) && Enabled(b, Append(events, at))
    ensures BusOk(Do(b, Append(events, at)))
  {
    var b' := Do(b, Append(events, at));
    assert EventsIn(b'.rows) == EventsIn(b.rows) + events;
    RowsAdvance(b, b');
  }

  /** Everything but what happens to the rows stays as it was. */
  lemma RowsAdvance(b: Bus, b': Bus)
    requires BusOk(b) && b' == b.(rows := b'.rows) && Advances(b.rows, b'.rows)
    requires Ordered(EventsIn(b'.rows)) && DistinctEvents(EventsIn(b'.rows))
    requires forall k :: 0 <= k < |b'.rows| && b'.rows[k].Published() ==> b'.rows[k].event in b.delivered
    ensures BusOk(b')
  {
    forall e | Cleared(b.rows, e) ensures Cleared(b'.rows, e) {
      ClearedStays(b.rows, b'.rows, e);
    }
    forall w ensures Seen(b'.delivered, w) <= Told(b'.rows, w) {
      ToldGrows(b.rows, b'.rows, w);
      assert Seen(b.delivered, w) <= Told(b.rows, w);
    }
  }

  lemma LeaseKeepsBus(b: Bus, pid: Pid, picks: seq<nat>, dueAt: Time, leaseUntil: Time)
    requires BusOk(b) && Enabled(b, Lease(pid, picks, dueAt, leaseUntil))
    ensures BusOk(Do(b, Lease(pid, picks, dueAt, leaseUntil)))
  {
    var b' := Do(b, Lease(pid, picks, dueAt, leaseUntil));
    var leased := b.(rows := b'.rows);
    assert EventsIn(b'.rows) == EventsIn(b.rows);
    RowsAdvance(b, leased);
    forall r | r in RecordsOf(b.rows, picks) ensures Cleared(b'.rows, r.event) {
      var i :| 0 <= i < |picks| && RecordsOf(b.rows, picks)[i] == r;
      HeadIsCleared(b.rows, picks[i]);
      ClearedStays(b.rows, b'.rows, r.event);
    }
  }

  lemma PublishKeepsBus(b: Bus, pid: Pid, arrives: bool, succeeds: bool)
    requires BusOk(b) && Enabled(b, Publish(pid, arrives, succeeds))
    ensures BusOk(Do(b, Publish(pid, arrives, succeeds)))
  {
    var e := b.publishers[pid].batch[0].event;
    assert b.publishers[pid].batch[0] in b.publishers[pid].batch;
    if arrives {
      forall w ensures Seen(b.delivered + [e], w) <= Told(b.rows, w) {
        ArrivalKeepsOrder(b, e, w);
      }
    }
  }

  lemma ArriveKeepsBus(b: Bus, e: Event)
    requires BusOk(b) && Enabled(b, Arrive(e))
    ensures BusOk(Do(b, Arrive(e)))
  {
    forall w ensures Seen(b.delivered + [e], w) <= Told(b.rows, w) {
      ArrivalKeepsOrder(b, e, w);
    }
  }

  lemma ConcludeKeepsBus(b: Bus, pid: Pid, at: Time, stored: bool)
    requires BusOk(b) && Enabled(b, Conclude(pid, at, stored))
    ensures BusOk(Do(b, Conclude(pid, at, stored)))
  {
    var b' := Do(b, Conclude(pid, at, stored));
    var p := b.publishers[pid];
    assert EventsIn(b'.rows) == EventsIn(b.rows);
    forall k | 0 <= k < |b'.rows| && b'.rows[k].Published() ensures b'.rows[k].event in b.delivered {
      if !b.rows[k].Published() {
        SameIdentityOfEvent(b.rows, p.batch[0].event, k);
      }
    }
    RowsAdvance(b, b.(rows := b'.rows));
    forall r | r in p.batch[1..] ensures r in p.batch {}
  }

  lemma SameIdentityOfEvent(rows: seq<Row>, e: Event, k: nat)
    requires DistinctEvents(EventsIn(rows)) && Cleared(rows, e) && k < |rows| && rows[k].event.id == e.id
    ensures rows[k].event == e
  {
    var i :| 0 <= i < |rows| && EventsIn(rows)[i] == e;
    assert EventsIn(rows)[k] == rows[k].event;
    assert i == k by { if i < k { assert false; } else if k < i { assert false; } }
  }

  lemma StepKeepsBus(b: Bus, step: Step)
    requires BusOk(b) && Enabled(b, step)
    ensures BusOk(Do(b, step))
  {
    match step
    case Append(events, at) => AppendKeepsBus(b, events, at);
    case Lease(pid, picks, dueAt, leaseUntil) => LeaseKeepsBus(b, pid, picks, dueAt, leaseUntil);
    case Publish(pid, arrives, succeeds) => PublishKeepsBus(b, pid, arrives, succeeds);
    case Arrive(event) => ArriveKeepsBus(b, event);
    case Conclude(pid, at, stored) => ConcludeKeepsBus(b, pid, at, stored);
    case Crash(_) =>
  }

  // ---------------------------------------------------------------- theorems

  ghost predicate Run(b: Bus, steps: seq<Step>)
    decreases |steps|
  {
    steps == [] || (Enabled(b, steps[0]) && Run(Do(b, steps[0]), steps[1..]))
  }

  ghost function After(b: Bus, steps: seq<Step>): Bus
    requires Run(b, steps)
    decreases |steps|
  {
    if steps == [] then b else After(Do(b, steps[0]), steps[1..])
  }

  lemma IdleIsOk()
    ensures BusOk(IDLE)
  {
    forall w ensures Seen(IDLE.delivered, w) <= Told(IDLE.rows, w) {}
  }

  lemma {:induction false} RunKeepsBus(b: Bus, steps: seq<Step>)
    requires BusOk(b) && Run(b, steps)
    ensures BusOk(After(b, steps))
    decreases |steps|
  {
    if steps != [] {
      StepKeepsBus(b, steps[0]);
      RunKeepsBus(Do(b, steps[0]), steps[1..]);
    }
  }

  /** In every run, what each consumer sees once repeats are left out is a prefix of the events
      of the wallet in commit order, which is the order of their sequence numbers; and it is
      all of them once they are all marked published. */
  lemma ConsumersSeeAPrefix(steps: seq<Step>, w: ID)
    requires Run(IDLE, steps)
    ensures var b := After(IDLE, steps);
            && Seen(b.delivered, w) <= Told(b.rows, w)
            && Increasing(Told(b.rows, w))
            && ((forall k :: 0 <= k < |b.rows| && b.rows[k].event.aggregateId == w ==> b.rows[k].Published()) ==>
                  Seen(b.delivered, w) == Told(b.rows, w))
  {
    var b := After(IDLE, steps);
    IdleIsOk();
    RunKeepsBus(IDLE, steps);
    ToldIncreases(EventsIn(b.rows), w);
    if forall k :: 0 <= k < |b.rows| && b.rows[k].event.aggregateId == w ==> b.rows[k].Published() {
      PublishedIsSeen(b, w);
    }
  }

  lemma PublishedIsSeen(b: Bus, w: ID)
    requires BusOk(b)
    requires forall k :: 0 <= k < |b.rows| && b.rows[k].event.aggregateId == w ==> b.rows[k].Published()
    ensures Seen(b.delivered, w) == Told(b.rows, w)
  {
    var told, seen := Told(b.rows, w), Seen(b.delivered, w);
    assert seen <= told;
    if told != [] {
      var m := |told| - 1;
      var x := told[m];
      assert x in told;
      FilterMembers(EventsIn(b.rows), EventsOfWallet(w), x);
      var k :| 0 <= k < |b.rows| && EventsIn(b.rows)[k] == x;
      assert b.rows[k].event == x && x in b.delivered;
      DeliveredAreRows(b);
      DeliveredIsSeen(b.rows, b.delivered, w, x);
      ToldIncreases(EventsIn(b.rows), w);
      var l :| 0 <= l < |seen| && seen[l] == x;
      assert told[l] == x;
      assert l == m;
    }
  }
}
