/** The service and its publishers in one run: what the consumer of a wallet's balance events
    knows of the wallet. */
module EndToEnd {
  import opened Domain
  import opened Sequences
  import opened Ledger
  import opened Events
  import opened Accounting
  import opened ProtocolInvariant
  import opened Theorems
  import opened Runs
  import opened Outbox
  import Protocol
  import Reading

  /** The committed tables and the rows publishers see are one database. */
  datatype World = World(service: Protocol.System, bus: Bus)

  datatype Step = Serve(step: Protocol.Step, at: Time) | Deliver(publishing: Outbox.Step)

  function Start(maxAttempts: int): World {
    World(Protocol.Init(maxAttempts), IDLE)
  }

  ghost predicate Enabled(x: World, step: Step) {
    match step
    case Serve(step, _) => Protocol.Enabled(x.service, step)
    case Deliver(publishing) => !publishing.Append? && Outbox.Enabled(x.bus, publishing)
  }

  /** The events of a commit become rows in the commit itself. */
  function Stored(bus: Bus, outbox: seq<Event>, at: Time): Bus {
    if |bus.rows| <= |outbox| then bus.(rows := Appended(bus.rows, outbox[|bus.rows|..], at)) else bus
  }

  ghost function Do(x: World, step: Step): World
    requires Enabled(x, step)
  {
    match step
    case Serve(step, at) =>
      var service := Protocol.Do(x.service, step);
      World(service, Stored(x.bus, service.db.outbox, at))
    case Deliver(publishing) => x.(bus := Outbox.Do(x.bus, publishing))
  }

  ghost predicate Run(x: World, steps: seq<Step>)
    decreases |steps|
  {
    steps == [] || (Enabled(x, steps[0]) && Run(Do(x, steps[0]), steps[1..]))
  }

  ghost function After(x: World, steps: seq<Step>): World
    requires Run(x, steps)
    decreases |steps|
  {
    if steps == [] then x else After(Do(x, steps[0]), steps[1..])
  }

  // --------------------------------------------------------------- invariant

  ghost predicate WorldOk(x: World) {
    Reachable(x.service) && BusOk(x.bus) && EventsIn(x.bus.rows) == x.service.db.outbox
  }

  lemma StartIsOk(maxAttempts: int)
    requires maxAttempts >= 1
    ensures WorldOk(Start(maxAttempts))
  {
    IdleIsOk();
    assert Protocol.Run(Protocol.Init(maxAttempts), []);
    assert Protocol.After(Protocol.Init(maxAttempts), []) == Protocol.Init(maxAttempts);
  }

  /** What a commit adds to the outbox, publishers may go on to lease. */
  lemma ServeKeepsWorld(x: World, step: Protocol.Step, at: Time)
    requires WorldOk(x) && Enabled(x, Serve(step, at))
    ensures WorldOk(Do(x, Serve(step, at)))
    ensures x.service.db.ledger <= Do(x, Serve(step, at)).service.db.ledger
    ensures x.service.db.outbox <= Do(x, Serve(step, at)).service.db.outbox
  {
    var service := Protocol.Do(x.service, step);
    var outbox, outbox' := x.service.db.outbox, service.db.outbox;
    ReachableOn(x.service, step);
    assert OutboxOk(outbox', service.sequence) by { ReachableIsOk(service); }
    assert outbox <= outbox' && x.service.db.ledger <= service.db.ledger by {
      ReachableIsOk(x.service);
      StepGrows(x.service, step);
    }
    StoredIsOk(x.bus, outbox, outbox', at);
  }

  lemma StoredIsOk(bus: Bus, outbox: seq<Event>, outbox': seq<Event>, at: Time)
    requires BusOk(bus) && EventsIn(bus.rows) == outbox && outbox <= outbox'
    requires Ordered(outbox') && DistinctEvents(outbox')
    ensures BusOk(Stored(bus, outbox', at)) && EventsIn(Stored(bus, outbox', at).rows) == outbox'
  {
    var added := outbox'[|outbox|..];
    assert EventsIn(bus.rows) + added == outbox';
    AppendKeepsBus(bus, added, at);
  }

  lemma StepKeepsWorld(x: World, step: Step)
    requires WorldOk(x) && Enabled(x, step)
    ensures WorldOk(Do(x, step))
    ensures x.service.db.ledger <= Do(x, step).service.db.ledger && x.service.db.outbox <= Do(x, step).service.db.outbox
  {
    match step
    case Serve(inner, at) => ServeKeepsWorld(x, inner, at);
    case Deliver(inner) =>
      StepKeepsBus(x.bus, inner);
      OnlyAppendAddsRows(x.bus, inner);
  }

  lemma OnlyAppendAddsRows(b: Bus, step: Outbox.Step)
    requires Outbox.Enabled(b, step) && !step.Append?
    ensures EventsIn(Outbox.Do(b, step).rows) == EventsIn(b.rows)
  {
  }

  lemma {:induction false} RunKeepsWorld(x: World, steps: seq<Step>)
    requires WorldOk(x) && Run(x, steps)
    ensures WorldOk(After(x, steps))
    ensures x.service.db.ledger <= After(x, steps).service.db.ledger
    ensures x.service.db.outbox <= After(x, steps).service.db.outbox
    decreases |steps|
  {
    if steps != [] {
      StepKeepsWorld(x, steps[0]);
      RunKeepsWorld(Do(x, steps[0]), steps[1..]);
    }
  }

  lemma {:induction false} RunSplits(x: World, steps: seq<Step>, n: nat)
    requires Run(x, steps) && n <= |steps|
    ensures Run(x, steps[..n]) && Run(After(x, steps[..n]), steps[n..])
    ensures After(After(x, steps[..n]), steps[n..]) == After(x, steps)
    decreases |steps|
  {
    if n > 0 {
      RunSplits(Do(x, steps[0]), steps[1..], n - 1);
      assert steps[..n][1..] == steps[1..][..n - 1] && steps[1..][n - 1..] == steps[n..];
    } else {
      assert steps[n..] == steps;
    }
  }

  // ---------------------------------------------------------------- consumer

  function EntriesOf(x: World, w: ID): seq<Entry> {
    Filter(x.service.db.ledger, OfWallet(w))
  }

  /** The balance events of the wallet that its consumer has seen, repeats left out. */
  function Followed(x: World, w: ID): seq<Event> {
    Filter(Seen(x.bus.delivered, w), IsChange)
  }

  lemma FollowedIsAPrefix(x: World, w: ID)
    requires WorldOk(x)
    ensures Followed(x, w) <= Filter(x.service.db.outbox, ChangesOf(w))
  {
    var outbox := x.service.db.outbox;
    assert Seen(x.bus.delivered, w) <= Told(x.bus.rows, w);
    FilterPrefix(Seen(x.bus.delivered, w), Told(x.bus.rows, w), IsChange);
    FilterTwice(outbox, EventsOfWallet(w), IsChange, ChangesOf(w));
  }

  /** What is known of a wallet in order: its entries are chained and its changes mirror them. */
  ghost predicate Known(es: seq<Entry>, changes: seq<Event>, row: WalletRow) {
    && Chained(es) && Mirrors(changes, es, row.version)
    && (es != [] ==> es[|es| - 1].after == row.balance)
  }

  lemma WalletIsKnown(s: Protocol.System, w: ID)
    requires Reachable(s) && w in s.db.wallets
    ensures Known(Filter(s.db.ledger, OfWallet(w)), Filter(s.db.outbox, ChangesOf(w)), s.db.wallets[w])
  {
    ReachableIsOk(s);
    assert Explains(Filter(s.db.ledger, OfWallet(w)), s.db.wallets[w], HasOpening(s.db.txs, w));
  }

  lemma WithoutWalletNothingIsTold(s: Protocol.System, w: ID)
    requires Reachable(s) && w !in s.db.wallets
    ensures Filter(s.db.ledger, OfWallet(w)) == [] && Filter(s.db.outbox, ChangesOf(w)) == []
  {
    ReachableIsOk(s);
    NothingBeforeTheWallet(s.db, w);
  }

  /** By how much a change tells that the balance moved. */
  function ToldBy(change: Data): int
    requires change.BalanceChanged?
  {
    if change.direction == Credit then change.money.Units() else -change.money.Units()
  }

  /** Consecutive versions, each balance meeting the one before, from zero, and moved by what the
      change tells, in the direction it tells. */
  ghost predicate Consecutive(changes: seq<Event>) {
    && (forall k :: 0 <= k < |changes| ==> IsChange(changes[k]))
    && (forall k :: 0 <= k < |changes| ==>
          changes[k].data.before.Units() == if k == 0 then 0 else changes[k - 1].data.after.Units())
    && (forall k :: 0 <= k < |changes| ==>
          changes[k].data.after.Units() == changes[k].data.before.Units() + ToldBy(changes[k].data))
    && (forall k :: 0 < k < |changes| ==> changes[k].data.walletVersion == changes[k - 1].data.walletVersion + 1)
  }

  lemma KnownIsConsecutive(es: seq<Entry>, changes: seq<Event>, row: WalletRow, followed: seq<Event>)
    requires Known(es, changes, row) && followed <= changes
    ensures Consecutive(followed)
  {
    forall k | 0 <= k < |followed| ensures followed[k].data == ChangeOf(es[k], row.version - |es| + 1 + k) {}
  }

  /** A consumer that folds the balance events of a wallet, repeats left out, sees consecutive
      versions, each balance meeting the one before; whatever the sessions, publishers,
      clocks, failures and crashes of the run. */
  lemma ConsumerFollowsTheWallet(maxAttempts: int, steps: seq<Step>, w: ID)
    requires maxAttempts >= 1 && Run(Start(maxAttempts), steps)
    ensures Consecutive(Followed(After(Start(maxAttempts), steps), w))
  {
    var x := After(Start(maxAttempts), steps);
    StartIsOk(maxAttempts);
    RunKeepsWorld(Start(maxAttempts), steps);
    FollowedIsAPrefix(x, w);
    if w in x.service.db.wallets {
      WalletIsKnown(x.service, w);
      KnownIsConsecutive(EntriesOf(x, w), Filter(x.service.db.outbox, ChangesOf(w)), x.service.db.wallets[w],
                         Followed(x, w));
    } else {
      WithoutWalletNothingIsTold(x.service, w);
    }
  }

  // ----------------------------------------------------------------- history

  lemma StepAddsOne(x: World, step: Step, w: ID)
    requires Enabled(x, step)
    ensures |EntriesOf(Do(x, step), w)| <= |EntriesOf(x, w)| + 1
  {
    if step.Serve? && step.step.Commit? {
      var s := x.service;
      var ledger, ledger' := s.db.ledger, Do(x, step).service.db.ledger;
      assert Reading.AddsOne(ledger, ledger') by {
        Reading.CommittedAddsOne(s.db, s.maxAttempts, s.sessions[step.step.sid]);
      }
      if ledger' != ledger {
        FilterAppend(ledger, ledger'[|ledger'| - 1], OfWallet(w));
      }
    }
  }

  /** The ledger of a wallet passes through every length up to the one it has. */
  lemma {:induction false} PassesThrough(x: World, steps: seq<Step>, w: ID, m: nat) returns (n: nat)
    requires WorldOk(x) && Run(x, steps) && |EntriesOf(x, w)| <= m <= |EntriesOf(After(x, steps), w)|
    ensures n <= |steps| && Run(x, steps[..n]) && |EntriesOf(After(x, steps[..n]), w)| == m
    decreases |steps|
  {
    if m == |EntriesOf(x, w)| {
      n := 0;
    } else {
      var x1 := Do(x, steps[0]);
      StepKeepsWorld(x, steps[0]);
      StepAddsOne(x, steps[0], w);
      n := PassesThrough(x1, steps[1..], w, m);
      n := n + 1;
      assert steps[..n][1..] == steps[1..][..n - 1];
    }
  }

  /** The wallet is at the version the event tells, with the balance it tells. */
  ghost predicate StandsAt(x: World, w: ID, e: Event) {
    && IsChange(e) && w in x.service.db.wallets
    && x.service.db.wallets[w].version == e.data.walletVersion && x.service.db.wallets[w].balance == e.data.after
  }

  /** Every change a consumer followed was, at some moment of the run, the state of the wallet:
      its row then had that version and that balance. */
  lemma ConsumerSawTheWallet(maxAttempts: int, steps: seq<Step>, w: ID, k: nat) returns (n: nat)
    requires maxAttempts >= 1 && Run(Start(maxAttempts), steps)
    requires k < |Followed(After(Start(maxAttempts), steps), w)|
    ensures n <= |steps| && Run(Start(maxAttempts), steps[..n])
    ensures StandsAt(After(Start(maxAttempts), steps[..n]), w, Followed(After(Start(maxAttempts), steps), w)[k])
  {
    var x0 := Start(maxAttempts);
    var x := After(x0, steps);
    StartIsOk(maxAttempts);
    RunKeepsWorld(x0, steps);
    FollowedHasEntries(x, w);
    n := PassesThrough(x0, steps, w, k + 1);
    EarlierWorld(x0, steps, n);
    SawThen(x, After(x0, steps[..n]), w, k);
  }

  lemma FollowedHasEntries(x: World, w: ID)
    requires WorldOk(x)
    ensures |Followed(x, w)| <= |EntriesOf(x, w)|
  {
    FollowedIsAPrefix(x, w);
    EveryChangeHasItsEntry(x, w);
  }

  lemma SawThen(x: World, y: World, w: ID, k: nat)
    requires WorldOk(x) && WorldOk(y) && y.service.db.outbox <= x.service.db.outbox
    requires k < |Followed(x, w)| && |EntriesOf(y, w)| == k + 1
    ensures StandsAt(y, w, Followed(x, w)[k])
  {
    FollowedIsAPrefix(x, w);
    FilterPrefix(y.service.db.outbox, x.service.db.outbox, ChangesOf(w));
    ThereItWas(y, w, Followed(x, w)[..k + 1], Filter(x.service.db.outbox, ChangesOf(w)));
  }

  lemma EarlierWorld(x: World, steps: seq<Step>, n: nat)
    requires WorldOk(x) && Run(x, steps) && n <= |steps|
    ensures Run(x, steps[..n]) && WorldOk(After(x, steps[..n]))
    ensures After(x, steps[..n]).service.db.outbox <= After(x, steps).service.db.outbox
  {
    RunSplits(x, steps, n);
    RunKeepsWorld(x, steps[..n]);
    RunKeepsWorld(After(x, steps[..n]), steps[n..]);
  }

  lemma EveryChangeHasItsEntry(x: World, w: ID)
    requires WorldOk(x)
    ensures |Filter(x.service.db.outbox, ChangesOf(w))| == |EntriesOf(x, w)|
  {
    if w in x.service.db.wallets {
      WalletIsKnown(x.service, w);
    } else {
      WithoutWalletNothingIsTold(x.service, w);
    }
  }

  lemma ThereItWas(y: World, w: ID, followed: seq<Event>, changes: seq<Event>)
    requires WorldOk(y) && followed != [] && |EntriesOf(y, w)| == |followed|
    requires followed <= changes && Filter(y.service.db.outbox, ChangesOf(w)) <= changes
    ensures StandsAt(y, w, followed[|followed| - 1])
  {
    EveryChangeHasItsEntry(y, w);
    if w !in y.service.db.wallets {
      WithoutWalletNothingIsTold(y.service, w);
    }
    WalletIsKnown(y.service, w);
    var mine, k := Filter(y.service.db.outbox, ChangesOf(w)), |followed| - 1;
    assert mine[k] == changes[k] == followed[k];
  }
}
