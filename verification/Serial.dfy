/** Whole runs as sequences of use cases: exactly when no commit was overtaken, a run leaves the
    tables and gives the answers that the use cases do, each alone, in the order of the commits. */
module Serial {
  import opened Domain
  import opened Wager
  import opened Ledger
  import opened Events
  import opened Database
  import opened Settlement
  import opened Accounting
  import opened Books
  import opened Protocol
  import opened ProtocolInvariant
  import opened Safety
  import opened UseCases
  import opened Theorems
  import opened Runs

  /** A call of a use case, with the identifiers and numbers it drew. */
  datatype Call =
    | Process(t: Tx, entryId: ID, marks: Marks)
    | Deliver(message: string, t: Tx, entryId: ID, marks: Marks)
    | TryAgain(id: ID, walletId: ID, entryId: ID, marks: Marks, at: Time)
    | OpenWallet(w: WalletRow, openingId: ID, entryId: ID, marks: Marks)

  datatype Reply = Result(result: WagerResult) | Attempted(state: Option<State>) | Opened(w: WalletRow)

  /** What a call does to the tables and answers, alone. */
  function Applied(db: Db, call: Call, maxAttempts: int): Domain.Result<(Db, Reply)> {
    match call
    case Process(t, entryId, marks) =>
      var done :- Settled(db, t, entryId, marks);
      Ok((done.0, Result(done.1)))
    case Deliver(message, t, entryId, marks) =>
      var done :- Delivered(db, message, t, entryId, marks);
      Ok((done.0, Result(done.1)))
    case TryAgain(id, walletId, entryId, marks, at) =>
      var done :- Retried(db, id, walletId, entryId, marks, maxAttempts, at);
      Ok((done.0, Attempted(done.1)))
    case OpenWallet(w, openingId, entryId, marks) =>
      var db' :- Credited(db, w, openingId, entryId, marks);
      Ok((db', Opened(w)))
  }

  /** The use cases folded over the calls, each on the tables the one before it left. */
  function Serially(db: Db, calls: seq<Call>, maxAttempts: int): Domain.Result<(Db, seq<Reply>)>
    decreases |calls|
  {
    if calls == [] then Ok((db, [])) else
      var first :- Applied(db, calls[0], maxAttempts);
      var rest :- Serially(first.0, calls[1..], maxAttempts);
      Ok((rest.0, [first.1] + rest.1))
  }

  /** The calls are those of the use cases, on what they build from their inputs. */
  lemma CallsAreTheUseCases(db: Db, message: string, input: Input, id: ID, t: Tx, entryId: ID, marks: Marks, at: Time)
    requires input.correlationId != "" && PayloadHash(input) == Ok(input.payload)
    requires NewExternal(id, input, input.payload, at) == Ok(t)
    ensures UseCases.Processed(db, input, id, entryId, marks, at) == Settled(db, t, entryId, marks)
    ensures message != "" ==>
              Received(db, message, input, id, entryId, marks, at) == Delivered(db, message, t, entryId, marks)
  {
  }

  // -------------------------------------------------------------------- runs

  function CallOf(session: Session): Call {
    var marks := if session.phase.Staged? then MarksOf(session.phase.events) else MarksOf([]);
    match session.job
    case Wager(t, entryId, None) => Process(t, entryId, marks)
    case Wager(t, entryId, Some(message)) => Deliver(message, t, entryId, marks)
    case Retry(id, walletId, entryId, at) => TryAgain(id, walletId, entryId, marks, at)
    case Opening(w, openingId, entryId) => OpenWallet(w, openingId, entryId, marks)
  }

  /** What a complete session answers once its commit succeeds. */
  function ReplyOf(session: Session): Reply
    requires Complete(session.phase)
  {
    match session.job
    case Opening(w, _, _) => Opened(w)
    case Retry(_, _, _, _) =>
      Attempted(match session.phase
                case Staged(Settle(_, _, _, d), _) => Some(d.tx.state)
                case Answered(found) => if found.Some? then Some(found.value.state) else None
                case _ => None)
    case Wager(_, _, _) =>
      Result(match session.phase
             case Staged(Settle(_, _, _, d), _) => ResultOf(d.tx, false)
             case Answered(Some(found)) => ResultOf(found, true)
             case Taken(transactionId) => WagerResult(transactionId, None, NoFailure, None, true)
             case _ => WagerResult(NIL_ID, None, NoFailure, None, false))
  }

  /** The calls of the sessions a run commits, in the order of their commits. */
  ghost function Calls(s: System, steps: seq<Step>): seq<Call>
    requires Run(s, steps)
    decreases |steps|
  {
    if steps == [] then []
    else (if steps[0].Commit? then [CallOf(s.sessions[steps[0].sid])] else []) + Calls(Do(s, steps[0]), steps[1..])
  }

  ghost function Replies(s: System, steps: seq<Step>): seq<Reply>
    requires Run(s, steps)
    decreases |steps|
  {
    if steps == [] then []
    else (if steps[0].Commit? then [ReplyOf(s.sessions[steps[0].sid])] else []) + Replies(Do(s, steps[0]), steps[1..])
  }

  ghost predicate CommitsOvertaken(s: System, step: Step)
    requires Enabled(s, step)
  {
    step.Commit? &&
      var phase := s.sessions[step.sid].phase;
      phase.Staged? && phase.plan.Settle? && Overtaken(s.db.txs, phase.plan)
  }

  ghost predicate NoneOvertaken(s: System, steps: seq<Step>)
    requires Run(s, steps)
    decreases |steps|
  {
    steps == [] || (!CommitsOvertaken(s, steps[0]) && NoneOvertaken(Do(s, steps[0]), steps[1..]))
  }

  // --------------------------------------------------------------- invariant

  /** What a session goes on to answer still holds, and the events it drew bear its instant. */
  ghost predicate ReplyOk(db: Db, session: Session) {
    var job := session.job;
    match session.phase
    case Taken(transactionId) =>
      && job.Wager? && job.message.Some? && job.message.value in db.inbox
      && db.inbox[job.message.value] == InboxRow(job.t.Fields(), transactionId)
    case Answered(found) =>
      job.Retry? ==> found.Some? && found.value in db.txs && found.value.id == job.id && found.value.state.IsTerminal()
    case Staged(_, events) => forall k :: 0 <= k < |events| ==> events[k].occurredAt == job.At()
    case _ => true
  }

  ghost predicate RepliesOk(s: System) {
    forall sid :: sid in s.sessions ==> ReplyOk(s.db, s.sessions[sid])
  }

  lemma ReplyStaysOk(db: Db, db': Db, session: Session)
    requires Grows(db, db') && ReplyOk(db, session)
    ensures ReplyOk(db', session)
  {
    if session.phase.Answered? && session.job.Retry? {
      var k :| 0 <= k < |db.txs| && db.txs[k] == session.phase.found.value;
      assert db'.txs[k] == db.txs[k];
    }
  }

  lemma ReadReplyIsOk(db: Db, maxAttempts: int, sequence: nat, session: Session)
    requires TxsOk(db.txs, maxAttempts) && SessionOk(db, maxAttempts, sequence, session) && Reads(session.phase)
    ensures ReplyOk(db, session.(phase := Next(db, maxAttempts, session.job, session.phase)))
  {
    if session.phase.Locked? && session.job.Retry? {
      RetriedIsInItsWallet(db, maxAttempts, session.job);
      assert RowOk(FindById(db.txs, session.job.id).value, maxAttempts);
    }
  }

  lemma OwnStepKeepsReply(s: System, step: Step)
    requires TxsOk(s.db.txs, s.maxAttempts) && RepliesOk(s) && Enabled(s, step) && step.sid in Do(s, step).sessions
    requires step.sid in s.sessions ==> SessionOk(s.db, s.maxAttempts, s.sequence, s.sessions[step.sid])
    ensures ReplyOk(s.db, Do(s, step).sessions[step.sid])
  {
    if step.Read? {
      ReadReplyIsOk(s.db, s.maxAttempts, s.sequence, s.sessions[step.sid]);
    }
  }

  lemma StepKeepsReplies(s: System, step: Step)
    requires Inv(s) && RepliesOk(s) && Enabled(s, step)
    ensures RepliesOk(Do(s, step))
  {
    StepGrows(s, step);
    forall sid | sid in Do(s, step).sessions ensures ReplyOk(Do(s, step).db, Do(s, step).sessions[sid]) {
      if sid == step.sid {
        TablesUntouched(s, step);
        OwnStepKeepsReply(s, step);
      } else {
        OthersStandStill(s, step, sid);
        ReplyStaysOk(s.db, Do(s, step).db, s.sessions[sid]);
      }
    }
  }

  lemma {:induction false} RunKeepsReplies(s: System, steps: seq<Step>)
    requires Inv(s) && RepliesOk(s) && Run(s, steps)
    ensures RepliesOk(After(s, steps))
    decreases |steps|
  {
    if steps != [] {
      StepKeepsInv(s, steps[0]);
      StepKeepsReplies(s, steps[0]);
      RunKeepsReplies(Do(s, steps[0]), steps[1..]);
    }
  }

  lemma ReachableReplies(s: System)
    requires Reachable(s)
    ensures RepliesOk(s)
  {
    var maxAttempts: int, steps: seq<Step> :|
      maxAttempts >= 1 && Run(Init(maxAttempts), steps) && After(Init(maxAttempts), steps) == s;
    InitIsOk(maxAttempts);
    RunKeepsReplies(Init(maxAttempts), steps);
  }

  // ----------------------------------------------------------------- commits

  /** A session whose commit acts as its call alone. */
  ghost predicate ActsAsItsCall(db: Db, maxAttempts: int, session: Session)
    requires Complete(session.phase)
  {
    && Committed(db, maxAttempts, session).Ok?
    && Applied(db, CallOf(session), maxAttempts) == Ok((Committed(db, maxAttempts, session).value, ReplyOf(session)))
  }

  lemma SettlementActsAsItsCall(db: Db, maxAttempts: int, sequence: nat, session: Session)
    requires WalletsOk(db) && TxsOk(db.txs, maxAttempts) && SessionOk(db, maxAttempts, sequence, session)
    requires session.phase.Staged? && session.phase.plan.Settle? && Complete(session.phase)
    requires Committed(db, maxAttempts, session).Ok? && !Overtaken(db.txs, session.phase.plan)
    ensures ActsAsItsCall(db, maxAttempts, session)
  {
    var marks, db' := MarksOf(session.phase.events), Committed(db, maxAttempts, session).value;
    assert AsAlone(db, maxAttempts, session, db', marks) by { SettledAlone(db, maxAttempts, sequence, session, marks); }
    assert session.job.Wager? ==> session.phase.plan.d.tx.id == session.job.t.id by {
      StagedWasDecidedOn(db, maxAttempts, sequence, session, session.phase.plan.w, session.phase.plan.t,
                         session.phase.plan.seen, session.phase.plan.d, session.phase.events);
    }
    AloneIsItsCall(db, maxAttempts, session, marks);
  }

  lemma AloneIsItsCall(db: Db, maxAttempts: int, session: Session, marks: Marks)
    requires session.phase.Staged? && session.phase.plan.Settle? && Complete(session.phase) && !session.job.Opening?
    requires Committed(db, maxAttempts, session).Ok? && marks == MarksOf(session.phase.events)
    requires AsAlone(db, maxAttempts, session, Committed(db, maxAttempts, session).value, marks)
    requires session.job.Wager? ==> session.phase.plan.d.tx.id == session.job.t.id
    ensures ActsAsItsCall(db, maxAttempts, session)
  {
    if session.job.Wager? && session.job.message.Some? {
      assert session.job.message.value !in db.inbox by {
        SettlingKeepsTheInbox(db, Arrival, session.phase.plan.w.version, session.phase.plan.d, session.phase.events);
      }
    }
  }

  lemma OpeningActsAsItsCall(db: Db, maxAttempts: int, sequence: nat, session: Session)
    requires SessionOk(db, maxAttempts, sequence, session) && ReplyOk(db, session)
    requires session.phase.Staged? && session.phase.plan.Open? && Complete(session.phase)
    requires Committed(db, maxAttempts, session).Ok?
    ensures ActsAsItsCall(db, maxAttempts, session)
  {
    var job, plan, events := session.job, session.phase.plan, session.phase.events;
    StampedBack(events, plan.Data(), job.w.id, job.w.createdAt);
    CreditedIsRecorded(db, job.w, plan.opening, job.openingId, job.entryId, MarksOf(events), events);
  }

  lemma CreditedIsRecorded(db: Db, w: WalletRow, plan: Option<Decision>, openingId: ID, entryId: ID, marks: Marks,
                           events: seq<Event>)
    requires DecideOpening(w, openingId, entryId) == Ok(plan) && OpeningRecorded(db, w, plan, events).Ok?
    requires events == Stamp(if plan.Some? then plan.value.events else [], w.id, w.createdAt, marks)
    ensures Credited(db, w, openingId, entryId, marks) == OpeningRecorded(db, w, plan, events)
  {
  }

  lemma ReplayActsAsItsCall(db: Db, maxAttempts: int, sequence: nat, session: Session)
    requires TxsOk(db.txs, maxAttempts) && SessionOk(db, maxAttempts, sequence, session)
    requires session.phase.Answered? && session.job.Wager? && Committed(db, maxAttempts, session).Ok?
    ensures ActsAsItsCall(db, maxAttempts, session)
  {
    AnsweredAlone(db, maxAttempts, sequence, session, MarksOf([]));
  }

  lemma IdleRetryActsAsItsCall(db: Db, maxAttempts: int, sequence: nat, session: Session)
    requires TxsOk(db.txs, maxAttempts) && SessionOk(db, maxAttempts, sequence, session) && ReplyOk(db, session)
    requires session.phase.Answered? && session.job.Retry? && Committed(db, maxAttempts, session).Ok?
    ensures ActsAsItsCall(db, maxAttempts, session)
  {
    PlaceOfAWaiting(db.txs, session.phase.found.value);
    assert FindById(db.txs, session.job.id) == session.phase.found;
  }

  lemma DuplicateActsAsItsCall(db: Db, maxAttempts: int, session: Session)
    requires ReplyOk(db, session) && session.phase.Taken? && Committed(db, maxAttempts, session).Ok?
    ensures ActsAsItsCall(db, maxAttempts, session)
  {
  }

  /** A commit that no reference overtook, of whatever session, is its call alone. */
  lemma CommitActsAsItsCall(db: Db, maxAttempts: int, sequence: nat, session: Session)
    requires WalletsOk(db) && TxsOk(db.txs, maxAttempts) && SessionOk(db, maxAttempts, sequence, session)
    requires ReplyOk(db, session) && Complete(session.phase) && Committed(db, maxAttempts, session).Ok?
    requires session.phase.Staged? && session.phase.plan.Settle? ==> !Overtaken(db.txs, session.phase.plan)
    ensures ActsAsItsCall(db, maxAttempts, session)
  {
    match session.phase
    case Staged(Settle(_, _, _, _), _) => SettlementActsAsItsCall(db, maxAttempts, sequence, session);
    case Staged(Open(_), _) => OpeningActsAsItsCall(db, maxAttempts, sequence, session);
    case Answered(_) =>
      if session.job.Wager? {
        ReplayActsAsItsCall(db, maxAttempts, sequence, session);
      } else {
        IdleRetryActsAsItsCall(db, maxAttempts, sequence, session);
      }
    case Taken(_) => DuplicateActsAsItsCall(db, maxAttempts, session);
  }

  // ----------------------------------------------------------- one call more

  lemma OneMoreCall(db: Db, call: Call, calls: seq<Call>, maxAttempts: int)
    ensures Serially(db, [call] + calls, maxAttempts)
            == (var first :- Applied(db, call, maxAttempts);
                var rest :- Serially(first.0, calls, maxAttempts);
                Ok((rest.0, [first.1] + rest.1)))
  {
    assert ([call] + calls)[1..] == calls;
  }

  lemma NoCall(calls: seq<Call>, replies: seq<Reply>)
    ensures [] + calls == calls && [] + replies == replies
  {
  }

  // --------------------------------------------------------------- overtaken

  /** What calls alone keep: concluded operations, at their places. */
  ghost predicate Concludes(db: Db, db': Db) {
    && |db.txs| <= |db'.txs|
    && forall i :: 0 <= i < |db.txs| && db.txs[i].state.IsTerminal() ==> db'.txs[i] == db.txs[i]
  }

  lemma RecordedConcludes(db: Db, attempt: Attempt, loadedVersion: int, d: Decision, events: seq<Event>)
    requires Recorded(db, attempt, loadedVersion, d, events).Ok?
    ensures Concludes(db, Recorded(db, attempt, loadedVersion, d, events).value)
  {
    var saved := (if attempt.Arrival? then TransactionInserted(db, d.tx) else PendingUpdated(db, d.tx)).value;
    EventsAppendedAppends(EntryRecorded(saved, loadedVersion, d).value, events);
  }

  lemma OpeningConcludes(db: Db, w: WalletRow, plan: Option<Decision>, events: seq<Event>)
    requires OpeningRecorded(db, w, plan, events).Ok?
    ensures Concludes(db, OpeningRecorded(db, w, plan, events).value)
  {
    if plan.Some? {
      var saved := TransactionInserted(WalletInserted(db, w).value, plan.value.tx).value;
      EventsAppendedAppends(if plan.value.entry.Some? then EntryAppended(saved, plan.value.entry.value).value else saved,
                            events);
    }
  }

  lemma SettledConcludes(db: Db, t: Tx, entryId: ID, marks: Marks)
    requires Settled(db, t, entryId, marks).Ok?
    ensures Concludes(db, Settled(db, t, entryId, marks).value.0)
  {
    if Replayed(db.txs, t).value.None? {
      var w, seen := db.wallets[t.walletId], LookedUp(db.txs, t);
      var d := Decide(w, t, seen, Reversed(db.txs, seen), Arrival, entryId, t.createdAt).value;
      RecordedConcludes(db, Arrival, w.version, d, Stamp(d.events, t.walletId, t.createdAt, marks));
    }
  }

  lemma RetriedConcludes(db: Db, id: ID, walletId: ID, entryId: ID, marks: Marks, maxAttempts: int, at: Time)
    requires Retried(db, id, walletId, entryId, marks, maxAttempts, at).Ok?
    ensures Concludes(db, Retried(db, id, walletId, entryId, marks, maxAttempts, at).value.0)
  {
    var found := FindById(db.txs, id);
    if found.Some? && found.value.state == PendingReference {
      var w, t, seen := db.wallets[walletId], found.value, LookedUp(db.txs, found.value);
      var d := Decide(w, t, seen, Reversed(db.txs, seen), Again(maxAttempts), entryId, at).value;
      RecordedConcludes(db, Again(maxAttempts), w.version, d, Stamp(d.events, t.walletId, at, marks));
    }
  }

  lemma DeliveredConcludes(db: Db, message: string, t: Tx, entryId: ID, marks: Marks)
    requires Delivered(db, message, t, entryId, marks).Ok?
    ensures Concludes(db, Delivered(db, message, t, entryId, marks).value.0)
  {
    if message !in db.inbox {
      SettledConcludes(db, t, entryId, marks);
    }
  }

  lemma CreditedConcludes(db: Db, w: WalletRow, openingId: ID, entryId: ID, marks: Marks)
    requires Credited(db, w, openingId, entryId, marks).Ok?
    ensures Concludes(db, Credited(db, w, openingId, entryId, marks).value)
  {
    var plan := DecideOpening(w, openingId, entryId).value;
    OpeningConcludes(db, w, plan, if plan.Some? then Stamp(plan.value.events, w.id, w.createdAt, marks) else []);
  }

  lemma AppliedConcludes(db: Db, call: Call, maxAttempts: int)
    requires Applied(db, call, maxAttempts).Ok?
    ensures Concludes(db, Applied(db, call, maxAttempts).value.0)
  {
    match call
    case Process(t, entryId, marks) => SettledConcludes(db, t, entryId, marks);
    case Deliver(message, t, entryId, marks) => DeliveredConcludes(db, message, t, entryId, marks);
    case TryAgain(id, walletId, entryId, marks, at) =>
      RetriedConcludes(db, id, walletId, entryId, marks, maxAttempts, at);
    case OpenWallet(w, openingId, entryId, marks) => CreditedConcludes(db, w, openingId, entryId, marks);
  }

  lemma {:induction false} SeriallyConcludes(db: Db, calls: seq<Call>, maxAttempts: int)
    requires Serially(db, calls, maxAttempts).Ok?
    ensures Concludes(db, Serially(db, calls, maxAttempts).value.0)
    decreases |calls|
  {
    if calls != [] {
      AppliedConcludes(db, calls[0], maxAttempts);
      SeriallyConcludes(Applied(db, calls[0], maxAttempts).value.0, calls[1..], maxAttempts);
    }
  }

  /** Tables that concluded an operation differently, and will not agree on it again. */
  ghost predicate Disagree(db: Db, db': Db) {
    exists i :: 0 <= i < |db.txs| && i < |db'.txs| && DisagreeAt(db.txs[i], db'.txs[i])
  }

  predicate DisagreeAt(t: Tx, t': Tx) {
    t.state.IsTerminal() && t'.state.IsTerminal() && t.code != t'.code
  }

  lemma StillDisagree(a: Db, a': Db, b: Db, b': Db)
    requires Disagree(a, b) && Concludes(a, a') && Concludes(b, b')
    ensures a' != b'
  {
    var i :| 0 <= i < |a.txs| && i < |b.txs| && DisagreeAt(a.txs[i], b.txs[i]);
    assert a'.txs[i] == a.txs[i] && b'.txs[i] == b.txs[i];
  }

  /** A settlement overtaken answers what its call does not, or concludes otherwise. */
  lemma OvertakenCallDiffers(db: Db, maxAttempts: int, sequence: nat, session: Session)
    requires WalletsOk(db) && TxsOk(db.txs, maxAttempts) && SessionOk(db, maxAttempts, sequence, session)
    requires session.phase.Staged? && session.phase.plan.Settle? && Overtaken(db.txs, session.phase.plan)
    requires Complete(session.phase) && Committed(db, maxAttempts, session).Ok?
    requires Applied(db, CallOf(session), maxAttempts).Ok?
    ensures var done := Applied(db, CallOf(session), maxAttempts).value;
            done.1 != ReplyOf(session) || Disagree(done.0, Committed(db, maxAttempts, session).value)
  {
    var plan, job := session.phase.plan, session.job;
    assert plan.w == db.wallets[job.WalletId()] && job.WalletId() in db.wallets;
    if job.Wager? {
      OvertakenArrivalDiffers(db, maxAttempts, sequence, session);
    } else {
      OvertakenRetryDiffers(db, maxAttempts, sequence, session);
    }
  }

  lemma OvertakenArrivalDiffers(db: Db, maxAttempts: int, sequence: nat, session: Session)
    requires WalletsOk(db) && TxsOk(db.txs, maxAttempts) && SessionOk(db, maxAttempts, sequence, session)
    requires session.phase.Staged? && session.phase.plan.Settle? && Overtaken(db.txs, session.phase.plan)
    requires Complete(session.phase) && Committed(db, maxAttempts, session).Ok? && session.job.Wager?
    requires Applied(db, CallOf(session), maxAttempts).Ok?
    ensures Applied(db, CallOf(session), maxAttempts).value.1 != ReplyOf(session)
  {
    var plan, job, marks := session.phase.plan, session.job, MarksOf(session.phase.events);
    OvertakenDecidesOtherwise(db, maxAttempts, sequence, session);
    ArrivalAnswersOtherwise(db, job.t, job.entryId, marks, plan.d.tx);
    if job.message.Some? {
      MessageIsNew(db, maxAttempts, session);
    }
    AppliedAsSettled(db, maxAttempts, session);
  }

  /** A message whose settlement commits was not in the inbox. */
  lemma MessageIsNew(db: Db, maxAttempts: int, session: Session)
    requires session.phase.Staged? && session.phase.plan.Settle? && Complete(session.phase)
    requires Committed(db, maxAttempts, session).Ok? && session.job.Wager? && session.job.message.Some?
    ensures session.job.message.value !in db.inbox
  {
    SettlingKeepsTheInbox(db, Arrival, session.phase.plan.w.version, session.phase.plan.d, session.phase.events);
  }

  lemma AppliedAsSettled(db: Db, maxAttempts: int, session: Session)
    requires session.phase.Staged? && session.job.Wager? && Applied(db, CallOf(session), maxAttempts).Ok?
    requires session.job.message.Some? ==> session.job.message.value !in db.inbox
    ensures var settled := Settled(db, session.job.t, session.job.entryId, MarksOf(session.phase.events));
            settled.Ok? && Applied(db, CallOf(session), maxAttempts).value.1 == Result(settled.value.1)
  {
  }

  lemma OvertakenRetryDiffers(db: Db, maxAttempts: int, sequence: nat, session: Session)
    requires WalletsOk(db) && TxsOk(db.txs, maxAttempts) && SessionOk(db, maxAttempts, sequence, session)
    requires session.phase.Staged? && session.phase.plan.Settle? && Overtaken(db.txs, session.phase.plan)
    requires Complete(session.phase) && Committed(db, maxAttempts, session).Ok? && session.job.Retry?
    requires Applied(db, CallOf(session), maxAttempts).Ok?
    ensures var done := Applied(db, CallOf(session), maxAttempts).value;
            done.1 != ReplyOf(session) || Disagree(done.0, Committed(db, maxAttempts, session).value)
  {
    var plan, job, marks := session.phase.plan, session.job, MarksOf(session.phase.events);
    assert plan.d.tx.state == PendingReference || plan.d.tx.state == Rejected by {
      OvertakenOnlyAcrossWallets(db, maxAttempts, sequence, session);
      StaleMovesNothing(db, maxAttempts, sequence, session, LookedUp(db.txs, plan.t));
    }
    PlaceOfAWaiting(db.txs, plan.t);
    AppliedAsRetried(db, maxAttempts, session);
    RetriedDecides(db, job.id, job.walletId, plan.t, job.entryId, marks, maxAttempts, job.at);
    var alone := AloneIsRefused(db, maxAttempts, sequence, session);
    RetriedDiffers(db, plan.w, plan.t, alone, plan.d, job.id, job.walletId, job.entryId, marks, maxAttempts, job.at,
                   session.phase.events);
    CommittedTxs(db, maxAttempts, session);
  }

  /** Alone, an overtaken retry is refused, under another code. */
  lemma AloneIsRefused(db: Db, maxAttempts: int, sequence: nat, session: Session) returns (alone: Decision)
    requires WalletsOk(db) && TxsOk(db.txs, maxAttempts) && SessionOk(db, maxAttempts, sequence, session)
    requires session.phase.Staged? && session.phase.plan.Settle? && Overtaken(db.txs, session.phase.plan)
    requires session.job.Retry?
    requires var plan, job, now := session.phase.plan, session.job, LookedUp(db.txs, session.phase.plan.t);
             Decide(plan.w, plan.t, now, Reversed(db.txs, now), Again(maxAttempts), job.entryId, job.at).Ok?
    ensures var plan, job, now := session.phase.plan, session.job, LookedUp(db.txs, session.phase.plan.t);
            && Decide(plan.w, plan.t, now, Reversed(db.txs, now), Again(maxAttempts), job.entryId, job.at) == Ok(alone)
            && alone.tx.state == Rejected && alone.tx.code != plan.d.tx.code && alone.tx.id == plan.d.tx.id == plan.t.id
  {
    var plan, job, now := session.phase.plan, session.job, LookedUp(db.txs, session.phase.plan.t);
    OvertakenDecidesOtherwise(db, maxAttempts, sequence, session);
    alone := Decide(plan.w, plan.t, now, Reversed(db.txs, now), Again(maxAttempts), job.entryId, job.at).value;
    OvertakenOnlyAcrossWallets(db, maxAttempts, sequence, session);
    assert RowOk(plan.t, maxAttempts);
    CrossWalletIsRefused(plan.w, plan.t, now, Reversed(db.txs, now), Again(maxAttempts), job.entryId, job.at);
  }

  lemma AppliedAsRetried(db: Db, maxAttempts: int, session: Session)
    requires session.phase.Staged? && session.job.Retry? && Applied(db, CallOf(session), maxAttempts).Ok?
    ensures var job := session.job;
            var r := Retried(db, job.id, job.walletId, job.entryId, MarksOf(session.phase.events), maxAttempts, job.at);
            r.Ok? && Applied(db, CallOf(session), maxAttempts).value == (r.value.0, Attempted(r.value.1))
  {
  }

  lemma RetriedDecides(db: Db, id: ID, walletId: ID, t: Tx, entryId: ID, marks: Marks, maxAttempts: int, at: Time)
    requires FindById(db.txs, id) == Some(t) && t.state == PendingReference
    requires Retried(db, id, walletId, entryId, marks, maxAttempts, at).Ok?
    ensures walletId in db.wallets
    ensures var now := LookedUp(db.txs, t);
            Decide(db.wallets[walletId], t, now, Reversed(db.txs, now), Again(maxAttempts), entryId, at).Ok?
  {
  }

  lemma RetriedDiffers(db: Db, w: WalletRow, t: Tx, alone: Decision, d: Decision, id: ID, walletId: ID, entryId: ID,
                       marks: Marks, maxAttempts: int, at: Time, events: seq<Event>)
    requires walletId in db.wallets && db.wallets[walletId] == w
    requires FindById(db.txs, id) == Some(t) && t.state == PendingReference
    requires var now := LookedUp(db.txs, t);
             Decide(w, t, now, Reversed(db.txs, now), Again(maxAttempts), entryId, at) == Ok(alone)
    requires alone.tx.state == Rejected && alone.tx.code != d.tx.code && alone.tx.id == d.tx.id
    requires d.tx.state == PendingReference || d.tx.state == Rejected
    requires Retried(db, id, walletId, entryId, marks, maxAttempts, at).Ok?
    requires Recorded(db, Again(maxAttempts), w.version, d, events).Ok?
    ensures var done := Retried(db, id, walletId, entryId, marks, maxAttempts, at).value;
            done.1 != Some(d.tx.state) || Disagree(done.0, Recorded(db, Again(maxAttempts), w.version, d, events).value)
  {
    RecordedCode(db, maxAttempts, w.version, alone, Stamp(alone.events, t.walletId, at, marks));
    RecordedCode(db, maxAttempts, w.version, d, events);
    if d.tx.state == Rejected {
      var i := First(db.txs, ById(d.tx.id));
      var done := Retried(db, id, walletId, entryId, marks, maxAttempts, at).value.0;
      assert DisagreeAt(done.txs[i], Recorded(db, Again(maxAttempts), w.version, d, events).value.txs[i]);
    }
  }

  lemma OvertakenRunDiffers(s: System, steps: seq<Step>)
    requires Inv(s) && Run(s, steps) && steps != [] && CommitsOvertaken(s, steps[0])
    ensures Serially(s.db, Calls(s, steps), s.maxAttempts) != Ok((After(s, steps).db, Replies(s, steps)))
  {
    var session, s' := s.sessions[steps[0].sid], Do(s, steps[0]);
    var calls, serially := Calls(s', steps[1..]), Serially(s.db, Calls(s, steps), s.maxAttempts);
    if serially.Ok? {
      OneMoreCall(s.db, CallOf(session), calls, s.maxAttempts);
      var first := Applied(s.db, CallOf(session), s.maxAttempts).value;
      assert SessionOk(s.db, s.maxAttempts, s.sequence, session);
      TablesUntouched(s, steps[0]);
      OvertakenCallDiffers(s.db, s.maxAttempts, s.sequence, session);
      if first.1 == ReplyOf(session) {
        SeriallyConcludes(first.0, calls, s.maxAttempts);
        StepKeepsInv(s, steps[0]);
        RunGrows(s', steps[1..]);
        StillDisagree(first.0, serially.value.0, s'.db, After(s, steps).db);
      } else {
        assert serially.value.1[0] == first.1 && Replies(s, steps)[0] == ReplyOf(session);
      }
    }
  }

  // -------------------------------------------------------------- whole runs

  lemma OneMoreReply(reply: Reply, a: seq<Reply>, b: seq<Reply>)
    ensures [reply] + a == [reply] + b <==> a == b
  {
    assert ([reply] + a)[1..] == a && ([reply] + b)[1..] == b;
  }

  lemma SeriallyOn(db: Db, call: Call, calls: seq<Call>, maxAttempts: int, db': Db, reply: Reply, last: Db,
                   replies: seq<Reply>)
    requires Applied(db, call, maxAttempts) == Ok((db', reply))
    ensures Serially(db, [call] + calls, maxAttempts) == Ok((last, [reply] + replies))
            <==> Serially(db', calls, maxAttempts) == Ok((last, replies))
  {
    OneMoreCall(db, call, calls, maxAttempts);
    var rest := Serially(db', calls, maxAttempts);
    if rest.Ok? {
      OneMoreReply(reply, rest.value.1, replies);
    }
  }

  lemma {:induction false} RunActsAsItsCalls(s: System, steps: seq<Step>)
    requires Inv(s) && RepliesOk(s) && Run(s, steps)
    ensures NoneOvertaken(s, steps) <==>
              Serially(s.db, Calls(s, steps), s.maxAttempts) == Ok((After(s, steps).db, Replies(s, steps)))
    decreases |steps|
  {
    if steps != [] {
      if CommitsOvertaken(s, steps[0]) {
        OvertakenRunDiffers(s, steps);
      } else {
        StepKeepsInv(s, steps[0]);
        StepKeepsReplies(s, steps[0]);
        RunActsAsItsCalls(Do(s, steps[0]), steps[1..]);
        StepActsAsItsCall(s, steps);
      }
    }
  }

  /** A step that is not an overtaken commit leaves it to the rest of the run. */
  lemma StepActsAsItsCall(s: System, steps: seq<Step>)
    requires Inv(s) && RepliesOk(s) && Run(s, steps) && steps != [] && !CommitsOvertaken(s, steps[0])
    ensures var s', rest := Do(s, steps[0]), steps[1..];
            Serially(s.db, Calls(s, steps), s.maxAttempts) == Ok((After(s, steps).db, Replies(s, steps)))
            <==> Serially(s'.db, Calls(s', rest), s'.maxAttempts) == Ok((After(s', rest).db, Replies(s', rest)))
  {
    var step, s', rest := steps[0], Do(s, steps[0]), steps[1..];
    assert s'.maxAttempts == s.maxAttempts && After(s, steps) == After(s', rest);
    TablesUntouched(s, step);
    if step.Commit? {
      var session := s.sessions[step.sid];
      CommitActsAsItsCall(s.db, s.maxAttempts, s.sequence, session);
      SeriallyOn(s.db, CallOf(session), Calls(s', rest), s.maxAttempts, s'.db, ReplyOf(session), After(s', rest).db,
                 Replies(s', rest));
    } else {
      NoCall(Calls(s', rest), Replies(s', rest));
    }
  }

  /** However its sessions interleave, wait, crash and are replayed, a run leaves the tables, and
      gives the answers, of its committed calls one after another, exactly when no commit of it
      was overtaken. */
  lemma RunIsSerial(s: System, steps: seq<Step>)
    requires Reachable(s) && Run(s, steps)
    ensures NoneOvertaken(s, steps) <==>
              Serially(s.db, Calls(s, steps), s.maxAttempts) == Ok((After(s, steps).db, Replies(s, steps)))
  {
    ReachableIsOk(s);
    ReachableReplies(s);
    RunActsAsItsCalls(s, steps);
  }
}
