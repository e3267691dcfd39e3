# Betledger: a verified model

This project models the money-settlement core of the betledger wallet service and the
transactional outbox and inbox around it, and proves what the service promises of every run.

The service keeps wallets, the operations that game providers send (bets, wins, losses, refunds
and rollbacks), an append-only ledger, an outbox of events and an inbox of messages in one
database. An operation is settled in a single database transaction under the row lock of its
wallet. An operation that refers to another which has not arrived, or has not concluded, waits
and is tried again by a worker until it concludes or its attempts run out. Publishers lease the
oldest unpublished event of each wallet, publish it, and only then mark it.

## How the model is built

- `Money`, `Wager`, `Ledger`, `Events` are the domain. What the service computes is a function;
  the objects it updates in place (`Wager.Transaction`, `Ledger.Wallet`) are classes whose methods
  are proved against those functions. Amounts are 64-bit integers, and every intermediate value of
  the parser, the printer, the additions and the backoff is proved to stay in range.
- `Database` gives the effect of each SQL statement on the tables, unique indexes included.
  `Settlement` is the decision every settlement takes from the rows it read, and `Rules` the table
  of rules that decision is proved to follow, column by column. `UseCases` specifies the use cases
  as functions of the tables; `Execution` runs them, as methods over the class `Store` that issue
  the statements one after the other, and the two are proved equal, errors and rollbacks included.
  `Outcomes` states what each use case comes to without any of these: every error in its order,
  every row written and every field answered.
- `Schedule` is the column of next attempts, `Retrying` the lease of due operations and the
  execution that tries them, `Failing` the exact reason an attempt fails, `Rounds` and `Worker` what
  the rounds of that worker do. `Headroom` and `Stalling` say what endless rounds come to, with room
  in the wallets and without, however close together they run; `Fairness` and `Arrivals` the same
  while the service goes on receiving operations; `Spacing` bounds the number of rounds when they
  are spaced. `Poller` is the worker as it runs, and `Preparing` shows that what is asked of clocks
  and draws can be had. `Clocks` and `Counting` hold what these and `Draining` share.
- `Accounting`, `Conservation` and `Books` state what the committed tables satisfy and prove that
  each accepted settlement and opening keeps it; `Bookkeeping` draws the conclusion for the use
  cases run alone. `Holdings` is who holds which wallet.
- `Protocol` is the concurrent service: sessions interleave statement by statement, a wallet row
  is locked by one session at a time, reads see committed rows, sequence numbers are drawn at
  insert from one counter, and any session may abort or crash between any two statements. Clocks
  and identifiers are arbitrary inputs: nothing assumes that clocks advance or agree.
  `ProtocolInvariant`, `Framing` and `Safety` prove the invariant; `Theorems`, `Runs`, `Serial`,
  `Replays` and `Reading` draw the properties of every run from it.
- `Outbox` is the protocol of any number of publishers over the outbox, `Publishing` one publisher
  at work, proved to be a run of that protocol, `Draining` what endless executions come to while
  sessions append, and `EndToEnd` both halves in one run, up to what a
  consumer of balance events knows of a wallet.
- `Paging` is the ledger read page by page, `Backoff` the wait between attempts.
- `Overtaking` and `Brimming` build, statement by statement and call by call, runs that show the
  first two limits below.

## Limits the proofs found

- Commits do not always act one at a time. A reference in another wallet is read without that
  wallet's lock, so it may conclude between the lookup and the commit.
  `Theorems.CommitIsTheUseCaseAlone` proves that a commit equals the use case run alone at that
  moment if and only if that did not happen, and `Serial.RunIsSerial` that a whole run equals its use
  cases one after another if and only if it happened at no commit (`Serial.CallsAreTheUseCases` ties
  the calls to the use cases). `Overtaking.AReferenceIsOvertaken` is a run in which it does happen;
  `Theorems.OvertakenMovesNothing` shows that it never moves money.
- Waiting does not always end. An attempt aborts, without being counted, exactly when the rules
  accept the operation and its credit would leave 64 bits (`Failing.AttemptFailsOnOverflow`).
  From some round on such operations are the only ones that wait, and they wait for good
  (`Stalling.OnlyOverflowsGoOnWaiting`, `Stalling.OverflowsWaitForever`); none does when, at the
  start, every wallet has room for the credits that wait. While operations keep arriving, an
  operation concludes exactly unless it overflows again and again (`Fairness.WaitingConcludes`).
  `Brimming.AnOperationWaitsForever` is an input: a
  wallet opened with the greatest amount, a win that arrives before its bet, and the bet.
- The wait is documented as doubled and capped. When the cap is odd, an ideal wait one short of it
  is rounded up to it. `Backoff.CappedDoubling` states exactly when.
- Printing and parsing back returns the same amount for every 64-bit value but the least one, whose
  text is refused as an overflow (`Money.PrintThenParse`).

## Model

The main results come first, then the invariants they rest on, the use cases and their statements,
the readers, and the domain.

| member | source | states |
|---|---|---|
| Safety.RunKeepsInv | internal/usecase/process_wager.go:107-141 | Every run, of any statements, commits, aborts and crashes of any sessions, keeps the invariant of the protocol |
| Theorems.MoneyIsConserved | internal/domain/wallet/wallet.go:133-149 | In every reachable state a balance is the opening amount plus the effective wins minus the effective bets, an operation being effective when processed under an even chain of reversals |
| Theorems.CommitIsTheUseCaseAlone | internal/usecase/process_wager.go:107-141 | A commit does what the use case run alone at that moment does if and only if its reference did not conclude in another wallet after it was read |
| Serial.RunIsSerial | internal/usecase/process_wager.go:107-141 | However its sessions interleave, wait, crash and are replayed, a run leaves the tables, and gives the answers, of the use cases folded over its commits in their order, openings, retries, messages and replays included, if and only if no commit was overtaken |
| Overtaking.AReferenceIsOvertaken | internal/usecase/settlement.go:116-123 | A run, from empty tables, in which a reference of another wallet concludes between lookup and commit, and whose commit no choice of identifiers and numbers makes the use case alone |
| Theorems.OvertakenMovesNothing | internal/usecase/settlement.go:106-111 | An overtaken operation waits or is given up as not found, and neither it nor the use case run alone moves money |
| Theorems.NoLostUpdate | internal/infrastructure/postgres/queries/wallets.sql:11-17 | No commit ever meets a concurrent update, nor the index on reversals: the lock and the checks suffice |
| Theorems.AtMostOneReversal | internal/usecase/settlement.go:127-137 | In every reachable state an operation has at most one processed reversal |
| Theorems.IdentifiersClashAcrossWallets | internal/usecase/process_wager.go:159-187 | At a commit, an operation with the same key or identifier can only be one of another wallet |
| Runs.RunGrows | internal/infrastructure/postgres/queries/wager_transactions.sql:86-96 | No row is ever lost, terminal operations, entries, events and inbox rows never change |
| Runs.TerminalForever | internal/domain/wager/state.go:26-48 | A terminal operation stays as it is through every run |
| Runs.OneOperationPerIdentifier | internal/usecase/process_wager.go:159-187 | At most one operation per provider and key, and per provider and identifier |
| Runs.ReplaysAnswerTheSame | internal/usecase/process_wager.go:189-198 | However late, every replay of a concluded operation answers its identifier, and the state, the code and the balance stored with it |
| Replays.ReplaysLeaveNoTrace | internal/usecase/process_wager.go:113-120 | A run with its replays deleted is a run and ends in the same tables |
| Replays.DeletingReplaysChangesNothing | internal/usecase/process_inbox_message.go:72-78 | The same from any state of the protocol, replays found in the inbox included |
| Runs.InboxExactlyOnce | internal/usecase/process_inbox_message.go:63-90 | A recorded message names one operation with its payload that moved its wallet at most once, and stays recorded |
| Runs.OnePayloadOneOperation | internal/usecase/process_inbox_message.go:63-90 | All messages with one payload, and the operation received with it otherwise, are one and the same operation: applied once |
| Replays.RedeliveriesLeaveNoTrace | internal/usecase/process_inbox_message.go:64-78 | Redelivering messages that the inbox holds, any number of times, at any moments and in any interleaving, changes no table: the run without their sessions is a run and ends in the same tables |
| Runs.HeldWalletStandsStill | internal/infrastructure/postgres/queries/wallets.sql:5-9 | From lock to end, the row, the operations and the ledger of a wallet change only by the session that holds it |
| Runs.WaitingIsBounded | internal/usecase/resolve_pending_references.go:107-157 | No run commits more attempts on an operation than it has left |
| Runs.WaitingEnds | internal/usecase/resolve_pending_references.go:60-69 | An operation is terminal once its attempts, at most the maximum, are committed, whatever it waits for |
| Runs.AttemptLowersTheTotal | internal/domain/wager/transaction.go:323-328 | Every committed attempt strictly lowers the attempts left over all waiting operations, so cycles of them end |
| Reading.ReconcilesAlways | internal/usecase/read_wallet.go:115-142 | In every reachable state reconciliation finds no difference, counts every entry and never overflows |
| Reading.ReconciledExactly | internal/usecase/read_wallet.go:113-142 | Over any tables reconciliation is consistent exactly when the stored balance is the sum of the signed entries, tells the difference otherwise, and fails only when the sum or the difference leaves 64 bits |
| Reading.LedgerExplainsTheWallet | internal/domain/wallet/wallet.go:173-192 | In every reachable state the entries of a wallet chain from zero to its balance, never negative, and its version is one plus the entries other than the opening |
| Reading.EveryOperationIsAccounted | internal/usecase/settlement.go:46-104 | A processed operation other than a LOSS has one entry whose balance after is its result, any other none; a terminal one has one outcome event, a waiting one none |
| Reading.EveryEntryIsTold | internal/domain/event/wallet_balance.go:25-50 | Each entry has exactly one balance event, in order, which tells its wallet, operation, direction, amount and balances before and after, at consecutive versions |
| Reading.EventsCommitInSequence | internal/infrastructure/postgres/migrations/00008_order_outbox_events.sql:2-5 | The events of a wallet commit in the order of numbers drawn before commits that come in any order |
| Reading.WalkDuringARun | internal/usecase/read_wallet.go:74-111 | Pages read at any moments of any run of settlements have every entry present at the start exactly once |
| Outbox.ConsumersSeeAPrefix | internal/usecase/publish_outbox.go:24-27 | For any publishers, clocks, leases, ambiguous publications and crashes, what a consumer sees without repeats is a prefix of the wallet's events in order, and all of them once all are marked |
| EndToEnd.ConsumerFollowsTheWallet | internal/domain/event/wallet_balance.go:25-50 | A consumer of balance events, repeats left out, sees consecutive versions and balances that meet, from zero, each moved by the amount told in the direction told, in every run of sessions and publishers |
| EndToEnd.ConsumerSawTheWallet | internal/domain/event/wallet_balance.go:40-49 | Every change it followed was the version and balance of the wallet at some moment of the run |
| Draining.OutboxDrains | internal/infrastructure/worker/poller.go:83-106 | In every endless run of executions, over any leases and backoffs, at any distance from one another and by any clock that keeps reaching every instant, while sessions append events: once publications succeed and are recorded, from any moment on a moment comes at which all that was stored is published, and everything, when nothing is appended any more |
| Draining.EveryEventIsPublished | internal/usecase/publish_outbox.go:56-59 | In such a run every event ever stored is published: no lease, delay, batch or order of others starves it |
| Publishing.Drain | internal/infrastructure/worker/poller.go:83-106 | The loop that goes on while it takes something, in numbers: provided that a round comes from which publications succeed, and that it and those after it find everything due, past the leases and delays given before it, no event is left unpublished within as many rounds as there were unpublished events, and one, after that round |
| Publishing.EventuallyDue | internal/usecase/publish_outbox.go:9-19 | Whatever leases and delays the rows wait for, a clock that leaves every instant behind for good leaves them all due from some round on |
| Stalling.OnlyOverflowsGoOnWaiting | internal/infrastructure/worker/poller.go:83-106 | In every endless run of rounds, whatever is leased or delayed, whatever the batch holds, at any distance from one another and by any clock that keeps reaching every instant: from some round on no table changes, and an operation still waits only if every rule accepts it and its credit overflows; none waits when, at the start, the wallets had room for the credits that waited |
| Fairness.WaitingConcludes | internal/usecase/resolve_pending_references.go:60-90 | While operations keep arriving between the rounds, an operation that waits concludes if and only if, from some step on, its credit no longer overflows at its turns |
| Fairness.WaitingGetsItsTurn | internal/infrastructure/postgres/queries/wager_transactions.sql:72-84 | However many others arrive, are taken or fail, every operation that waits is taken again |
| Fairness.ConcludedIsLeftAlone | internal/infrastructure/postgres/queries/wager_transactions.sql:72-84 | Through every such run a concluded operation stays as it is, and overflows at no turn |
| Poller.Work | internal/infrastructure/worker/poller.go:83-106 | So many rounds over the store keep the books and the schedule in order, keep the room the wallets had for the credits that waited, and change no table when only operations that overflow waited; only when, besides, each round from some one on runs past the leases and the delays given by those before it, after so many rounds an operation still waits only if its credit overflows, and none waits, after fewer, when there was room |
| Failing.AttemptFailsOnOverflow | internal/usecase/resolve_pending_references.go:127-157 | Under identifiers and numbers nobody used, another attempt fails if and only if every rule accepts the operation and its credit leaves 64 bits, and with that error: no lookup, update, index or event ever fails it |
| Stalling.OverflowsWaitForever | internal/usecase/resolve_pending_references.go:67-69 | Once only operations that overflow wait, no later round changes any table, however soon it runs |
| Headroom.RoomIsEnough | internal/usecase/resolve_pending_references.go:83-90 | When, at the start, the balance of every wallet and its waiting credits together fit 64 bits, no attempt ever fails, and they fit ever after |
| Brimming.AnOperationWaitsForever | internal/domain/wallet/wallet.go:152-193 | A wallet opened with the greatest amount, a win that arrives before its bet and waits, the bet: from then on every attempt on the win fails, whatever it draws, and changes nothing |
| Rounds.ExecutionTriesEach | internal/usecase/resolve_pending_references.go:63-90 | An execution tries each operation it took exactly once: it concludes, or waits with one attempt more and its next attempt scheduled, or failed and is as it was, due again when its lease runs out; no other row or schedule changes, and the books stay in order |
| Outcomes.ProcessedInFull | internal/usecase/process_wager.go:77-198 | Processing in full: the first flaw of the input with its code, the missing wallet, the replay with the stored answer, the conflict of key or name, and otherwise the rows, the entry, the events and the answer that the rules give, value by value; over tables in order nothing else fails but an identifier or a number used before |
| Outcomes.AnswersAreStored | internal/usecase/process_wager.go:189-198 | Whatever is answered is stored: some row has the identifier, state, code and balance answered, the balance is that of the wallet when it was processed just now, and a replay is answered exactly when no table changes |
| Outcomes.RetriedInFull | internal/usecase/resolve_pending_references.go:107-157 | The same of a retry: which error, or which rows and which answer |
| Outcomes.ReceivedInFull | internal/usecase/process_inbox_message.go:53-97 | The same of a message: known under its payload, refused under another, or processed with its inbox row |
| Outcomes.OpenedInFull | internal/usecase/open_wallet.go:54-104 | The same of an opening: refused as existing exactly when some stored wallet has the player and the currency, and otherwise the wallet, and with a positive balance its operation, entry and two events |
| Holdings.OneWalletPerCurrency | internal/infrastructure/postgres/migrations/00001_create_wallets.sql:11 | In every reachable state two wallets of one player in one currency are the same wallet |
| Holdings.RunKeeps | internal/infrastructure/postgres/queries/wallets.sql:11-17 | Through every run a wallet keeps its player and its currency, and one per player and currency stays one |
| Holdings.ProcessedKeeps | internal/usecase/process_wager.go:77-157 | So it does through processing an operation, whatever the other tables hold |
| Holdings.ReceivedKeeps | internal/usecase/process_inbox_message.go:53-97 | Through a message |
| Holdings.RetriedKeeps | internal/usecase/resolve_pending_references.go:107-157 | Through a retry |
| Holdings.OpenedKeeps | internal/usecase/open_wallet.go:54-104 | And through an opening, which gives nobody a second wallet in a currency |
| Rules.DecisionIsRuled | internal/usecase/settlement.go:106-139 | Every settlement, across lookup, checks, movement and conclusion, equals the table of the rules: state, code, reference, attempts, result and instants of the operation, balance and version of the wallet, the entry with its direction, and every field of the events |
| Rules.DecisionFollowsTheRules | internal/usecase/settlement.go:106-139 | The exact outcome of every settlement across lookup, checks, movement and conclusion: processed exactly when every rule accepts, waiting exactly when the reference is awaited and attempts remain, rejected with the code of the first rule broken, aborted exactly on a credit overflow |
| Settlement.DecisionIsSound | internal/usecase/process_wager.go:122-135 | Whatever branch it takes, a settlement moves money only when processed, by the signed amount, once, with its result and events telling it |
| Money.WellFormedParsesExactly | internal/domain/money/money.go:86-144 | A well-formed decimal of any length parses to exactly its value times 100, and is an overflow exactly when that exceeds the range |
| Money.PrintThenParse | internal/domain/money/money.go:161-183 | Signed parsing of the printed amount returns the same minor units for every value but the least 64-bit integer |
| ProtocolInvariant.NextIsOk | internal/usecase/process_wager.go:108-135 | What a session reads, statement by statement, is what it holds when it decides |
| Framing.SessionStaysOk | internal/infrastructure/postgres/queries/wallets.sql:5-9 | A commit under one wallet leaves in order everything that sessions of other wallets read |
| Safety.CommittedIsOk | internal/infrastructure/postgres/transactor.go:38-56 | Every commit of every reachable state balances the books, keeps the outbox in order and touches one wallet |
| Accounting.CommitKeepsAccounts | internal/usecase/settlement.go:80-104 | Every commit keeps the accounts of all tables: chained ledgers, one entry and one outcome event per operation as due, mirrored balance events, unique identifiers, inbox rows that name operations |
| Conservation.ReversalsStayOk | internal/infrastructure/postgres/migrations/00006_constrain_reversals.sql:9-11 | A justified reversal keeps every processed reversal undoing one processed operation, and none undone twice |
| Conservation.WorthMovesByTheSignedAmount | internal/domain/wallet/wallet.go:133-149 | Settling an operation moves the sum of effective operations of its wallet by its signed amount, through chains of reversals, and of every other wallet not at all |
| Books.SettlementKeepsTheBooks | internal/usecase/settlement.go:83-104 | Every accepted settlement keeps the books, balance and conservation included |
| Books.OpeningKeepsTheBooks | internal/usecase/open_wallet.go:65-98 | So does every accepted opening, empty or credited |
| Theorems.ReplayIsTheUseCaseAlone | internal/usecase/process_wager.go:113-120 | A replay answers what was recorded and changes no table |
| Serial.CommitActsAsItsCall | internal/usecase/process_wager.go:107-141 | The commit of any session, a settlement, a replay, a duplicate message, a retry of a concluded operation or an opening, is its use case alone at that moment unless overtaken |
| Rules.ReferenceFollowsTheRules | internal/domain/wager/transaction.go:374-414 | The checks of a concluded reference and their codes, in order |
| Rules.MovementFollowsTheRules | internal/domain/wallet/wallet.go:101-150 | The outcome of a movement: player, currency, funds with the code of its kind, overflow, or the movement |
| Outbox.StepKeepsBus | internal/usecase/publish_outbox.go:60-92 | Lease, publication, arrival, record and crash keep the invariant: only the oldest unpublished event of a wallet is ever sent |
| Publishing.ExecutionIsARun | internal/usecase/publish_outbox.go:60-92 | An execution is a run of the protocol of publishers, so consumers still see prefixes |
| Publishing.ExecutionPublishes | internal/usecase/publish_outbox.go:60-92 | An execution publishes exactly those of its events whose publication succeeds and is recorded |
| Publishing.SomeHeadWaits | internal/usecase/publish_outbox.go:56-59 | While a wallet has an unpublished event, its oldest one may be leased: none is discarded or stuck |
| Draining.OthersStepMeanwhile | internal/usecase/publish_outbox.go:79-92 | Appending, publishing, arriving, crashing, and marking by any other publisher keep every row, or publish it |
| Draining.AppendedIsNumbered | internal/infrastructure/postgres/outbox_repository.go:27-50 | The events a commit appends are due at once for a first attempt, under numbers no other row has |
| Rounds.ExecutionLowersTheTotal | internal/domain/wager/transaction.go:308-329 | An execution never raises the attempts left in all, and lowers them unless every attempt of it failed |
| Worker.RunFailsOnOverflow | internal/usecase/resolve_pending_references.go:83-90 | In the rounds of a worker an attempt fails if and only if, on the tables at its turn, its credit overflows |
| Poller.WorkOn | internal/infrastructure/worker/poller.go:83-106 | The rounds of the loop are rounds of such a run, each from the tables the one before left, whatever the clocks and the draws |
| Spacing.RoundsEndWaiting | internal/usecase/resolve_pending_references.go:63-69 | When each round from some one on runs past the leases and the delays given before it, and no attempt fails, no operation waits after as many of them as there were attempts left in all, and one |
| Spacing.SpacedRoundsLeaveOverflows | internal/usecase/resolve_pending_references.go:63-90 | When rounds are so spaced, after as many of them as the attempts left in all times the operations, and one, and the operations, those that still wait all overflow |
| Arrivals.ProcessingKeepsTurns | internal/usecase/process_wager.go:77-157 | An operation received between two rounds, under identifiers and numbers of its own, leaves the tables ready for the next round and every operation that waits due when it was, and is itself due no earlier than it arrived |
| Arrivals.ReceivingKeepsTurns | internal/usecase/process_inbox_message.go:53-97 | So does a message, new or redelivered |
| Arrivals.OpeningKeepsTurns | internal/usecase/open_wallet.go:54-104 | So does the opening of a wallet |
| Preparing.RoundsCanBePrepared | internal/usecase/resolve_pending_references.go:70-90 | From any tables in order some clock, and some identifiers and numbers, meet all that the rounds ask, spaced or not, alone or with arrivals |
| Runs.RedeliveryWritesNothing | internal/usecase/process_inbox_message.go:64-78 | A redelivery reaches no statement that writes, and is refused exactly when its payload differs |
| Execution.ProcessWager | internal/usecase/process_wager.go:77-157 | Leaves the tables and the answer that the specification gives, and on any error leaves them untouched; an operation that waits is due at once, and a replay schedules nothing |
| Execution.Retry | internal/usecase/resolve_pending_references.go:107-157 | The same for one retry; an operation that goes on waiting is due after its n-th wait, one that concluded is due no more, and one no longer waiting is left alone |
| Retrying.RetryWaits | internal/usecase/resolve_pending_references.go:144-145 | In every retry that leaves an operation waiting, the next attempt is due after the base delay, twice the delay before it each time, up to the cap; the schedule of every other operation stays |
| Execution.ProcessInboxMessage | internal/usecase/process_inbox_message.go:53-97 | A known message answers from the inbox; a new one is settled and recorded in one commit, or not at all |
| Execution.OpenWallet | internal/usecase/open_wallet.go:54-104 | Wallet, opening, credit and events are written together or not at all |
| Execution.Attempt | internal/usecase/resolve_pending_references.go:127-146 | The part settlement and retry share computes the decision over the two objects it updates |
| Execution.FindReference | internal/usecase/settlement.go:112-139 | Computes the checked reference and attaches it in place |
| Execution.Conclude | internal/usecase/settlement.go:32-44 | Updates the operation to the state its outcome calls for, or fails and leaves it |
| Execution.Record | internal/usecase/settlement.go:83-104 | The writes in order: all of them with the schedule of the operation, or those before the first refused |
| Retrying.LeasePendingReferences | internal/infrastructure/postgres/queries/wager_transactions.sql:72-84 | Leases as many due operations as the batch holds, those due the longest, skips locked rows and postpones nothing else |
| Rounds.LeaseExcludes | internal/infrastructure/postgres/queries/wager_transactions.sql:72-84 | Until a lease runs out no other worker takes what it took |
| Retrying.Execute | internal/usecase/resolve_pending_references.go:70-90 | Leases, then tries every operation taken in turn, each answer and each effect that of its retry on the tables the ones before left; a failure stops none of the others |
| Bookkeeping.ProcessedKeepsTheBooks | internal/usecase/process_wager.go:77-157 | Processing an operation over tables in order leaves them in order |
| Bookkeeping.RetriedKeepsTheBooks | internal/usecase/resolve_pending_references.go:107-157 | So does a retry |
| Bookkeeping.ReceivedKeepsTheBooks | internal/usecase/process_inbox_message.go:53-97 | So does a message |
| Bookkeeping.ReceivedIsRecorded | internal/usecase/process_inbox_message.go:63-90 | A message answered is in the inbox with its payload and operation; a duplicate writes nothing |
| Bookkeeping.OpenedKeepsTheBooks | internal/usecase/open_wallet.go:54-104 | So does an opening, which adds one new wallet with the initial balance |
| Bookkeeping.ProcessedKeepsTheSchedule | internal/infrastructure/postgres/migrations/00007_schedule_pending_references.sql:2-8 | Processing keeps the operations scheduled exactly those that wait |
| Bookkeeping.ReceivedKeepsTheSchedule | internal/infrastructure/postgres/migrations/00007_schedule_pending_references.sql:2-8 | So does a message |
| Bookkeeping.OpenedKeepsTheSchedule | internal/infrastructure/postgres/migrations/00007_schedule_pending_references.sql:2-8 | So does an opening, which never waits |
| Execution.Store.InsertWallet | internal/infrastructure/postgres/queries/wallets.sql:1-3 | Inserts exactly when the identifier is free and the player has no wallet in the currency, which is the conflict otherwise |
| Execution.Store.UpdateBalance | internal/infrastructure/postgres/queries/wallets.sql:11-17 | Writes balance, version and instant only over the version loaded, or reports the concurrent update |
| Execution.Store.CreateTransaction | internal/infrastructure/postgres/queries/wager_transactions.sql:1-44 | Appends the operation, due at once when it waits, unless a key, an identifier, an opening or a processed reversal is taken |
| Outcomes.CreatedIsThis | internal/infrastructure/postgres/queries/wager_transactions.sql:1-44 | Inserting an operation succeeds exactly when no row has its identifier, its wallet's opening, its name or key with the provider, nor undoes what it undoes, and tells which of these |
| Execution.Store.UpdatePendingReference | internal/infrastructure/postgres/queries/wager_transactions.sql:86-96 | Writes the listed columns, the next attempt included, only while the row still waits |
| Execution.Store.AppendEntry | internal/infrastructure/postgres/queries/wallet_ledger_entries.sql:1-22 | Appends the entry unless its identifier, or an entry of the same operation, is there |
| Outcomes.EntryIsThis | internal/infrastructure/postgres/queries/wallet_ledger_entries.sql:1-22 | An entry is appended exactly when no other has its identifier, or its wallet and operation |
| Execution.Store.AppendEvents | internal/infrastructure/postgres/outbox_repository.go:27-50 | Appends the events in order: all of them, or those before the first refused |
| Execution.Store.RecordInbox | internal/infrastructure/postgres/queries/inbox_messages.sql:1-3 | One row per message identifier |
| Database.EventsAppendedAppends | internal/infrastructure/postgres/queries/outbox_events.sql:1-3 | Inserting events one by one appends them all, under identifiers and numbers not used before |
| Publishing.Execute | internal/usecase/publish_outbox.go:60-77 | The whole effect of an execution on rows and deliveries, row by row, with how many it took and how many failed |
| Publishing.ExecutionLeavesRows | internal/usecase/publish_outbox.go:79-92 | Every row after an execution, in full: leased until the lease ends, published at the instant recorded, or failed once more and due after the base delay, twice the one before it each time, up to the cap |
| Publishing.FailuresAreThese | internal/usecase/publish_outbox.go:60-77 | The failures counted are the publications that did not succeed or were not recorded |
| Publishing.PublishRecord | internal/usecase/publish_outbox.go:79-92 | Publishes, then records the answer, published or one attempt more after the backoff, unless the recording transaction fails; it fails when either does |
| Publishing.OutboxTable.LeasePending | internal/infrastructure/postgres/queries/outbox_events.sql:5-24 | Leases as many due heads as the batch holds, those with the smallest numbers, skips locked rows and touches no other row |
| Publishing.LeaseExcludes | internal/infrastructure/postgres/queries/outbox_events.sql:5-24 | Until a lease runs out no other publisher takes what it took |
| Publishing.OutboxTable.MarkPublished | internal/infrastructure/postgres/queries/outbox_events.sql:26-30 | Marks the event unless it was already published |
| Publishing.OutboxTable.ReschedulePublication | internal/infrastructure/postgres/queries/outbox_events.sql:32-37 | Reschedules the event unless it was published meanwhile |
| Paging.ReadLedger | internal/usecase/read_wallet.go:76-111 | Limits outside the range and missing wallets are refused, zero means fifty, and the page and its cursor are those of the sorted selection |
| Paging.NextPageContinues | internal/infrastructure/postgres/queries/wallet_ledger_entries.sql:24-34 | The selection after a cursor is the rest of the selection before it |
| Paging.WholeWalk | internal/usecase/read_wallet.go:74-111 | Following the cursor over a growing ledger is strictly increasing and misses no entry that was there |
| Paging.FixedWalk | internal/usecase/read_wallet.go:95-104 | Over a fixed ledger the walk ends exactly when its pages hold the entries, with the whole ledger in order |
| Backoff.Backoff | internal/usecase/resolve_pending_references.go:167-176 | The loop, all in 64 bits, computes the capped doubling, rounded up to an odd cap one above it |
| Backoff.CappedDoubling | internal/usecase/resolve_pending_references.go:165-176 | The wait is the documented doubling capped at the maximum exactly unless it is rounded up |
| Backoff.NthWaitIsDelay | internal/usecase/resolve_pending_references.go:161-176 | The first wait is the base and each further one twice the one before it, or the cap once that was at least half of it |
| Backoff.WaitsGrowToTheCap | internal/usecase/resolve_pending_references.go:165-176 | Waits never shrink with attempts, from the base to the cap |
| Wager.NewExternal | internal/domain/wager/transaction.go:87-148 | A new operation exists exactly when every field required is given and amount and reference are what its kind demands; it carries the payload and key received, and waits for nothing yet |
| Wager.NewOpening | internal/domain/wager/transaction.go:151-185 | The internal opening exists exactly for a positive amount, and is born processed, with its amount as its result and no provider columns |
| Wager.Transaction.TransitionTo | internal/domain/wager/transaction.go:424-439 | Moves the state and the instant exactly when the state machine allows it, and otherwise changes nothing |
| Wager.TransitionsFollow | internal/domain/wager/state.go:26-48 | The transitions allowed are seven, four from PENDING and three from PENDING_REFERENCE, and move nothing but the state and the instant |
| Wager.MarksFollow | internal/domain/wager/transaction.go:300-372 | Each mark is the transition to its state with its own column, for every operation |
| Wager.MarksNeed | internal/domain/wager/transaction.go:333-372 | No rejection or failure without a code, no result without a currency or in another one |
| Wager.Transaction.MarkPendingReference | internal/domain/wager/transaction.go:300-306 | Only an operation with a reference starts to wait |
| Wager.Transaction.MarkProcessed | internal/domain/wager/transaction.go:333-347 | The operation keeps the balance it observed, in its own currency, and only when the transition is allowed |
| Wager.Transaction.MarkRejected | internal/domain/wager/transaction.go:350-359 | A rejection carries a code |
| Wager.Transaction.MarkFailed | internal/domain/wager/transaction.go:363-372 | So does a failure |
| Wager.Transaction.RecordMissingReference | internal/domain/wager/transaction.go:311-329 | Counts an attempt of a waiting operation and rejects it as not found at the last one |
| Wager.MissingReferenceCounts | internal/domain/wager/transaction.go:311-329 | The attempts counted, the last one included, and the state and code it leads to, for every operation |
| Wager.Transaction.ResolveReference | internal/domain/wager/transaction.go:381-414 | Attaches the reference exactly when it passes the checks, in their order, and otherwise changes nothing |
| Wager.ResolutionFollows | internal/domain/wager/transaction.go:374-420 | Which error comes first, for every operation and every reference, and that the five pairs of kinds, and no others, may refer |
| Wager.TerminalNeverChanges | internal/domain/wager/state.go:26-48 | A terminal operation refuses every mark, count and resolution |
| Wager.ResolvedReferenceAgrees | internal/domain/wager/transaction.go:395-420 | A reference resolves exactly when it was processed, is of a kind that may be referred to, and shares wallet, player, round, currency and, for a reversal, amount; no rollback is ever referred to |
| Ledger.NewEntry | internal/domain/ledger/entry.go:36-92 | An entry exists exactly when its amount is positive, its balances are not negative and differ by the signed amount in one currency |
| Ledger.Rehydrate | internal/domain/wallet/wallet.go:47-85 | A wallet is accepted exactly with its identifiers and instants, a currency, a balance not below zero and a version of at least one |
| Ledger.MovedExactly | internal/domain/wallet/wallet.go:152-193 | A movement falls short exactly when a debit exceeds the balance, overflows exactly when a credit leaves the range, and otherwise moves balance, version and entry together |
| Ledger.SignedMoneyIsSummed | internal/domain/ledger/entry.go:103-110 | The signed amount of every valid entry exists, never overflowing, and is the one that conservation and reconciliation sum |
| Ledger.Wallet.Credit | internal/domain/wallet/wallet.go:89-91 | Credits the balance with its entry, or leaves the wallet as it was |
| Ledger.Wallet.Debit | internal/domain/wallet/wallet.go:97-99 | Debits the balance with its entry, or leaves the wallet as it was |
| Ledger.Wallet.Move | internal/domain/wallet/wallet.go:152-193 | Balance, version and instant change together with the entry returned, or not at all |
| Ledger.Wallet.Apply | internal/domain/wallet/wallet.go:109-150 | Each kind moves the wallet in its direction, with the refusals of player, currency and funds in their order |
| Ledger.AppliedRefuses | internal/domain/wallet/wallet.go:109-150 | No operation of another wallet moves this one, and no reversal without the reference it resolved |
| Money.Money.Add | internal/domain/money/money.go:207-217 | The sum is returned exactly when both currencies are the same and set and the mathematical sum fits 64 bits; otherwise the error is an overflow, never a wrapped value |
| Money.Money.Sub | internal/domain/money/money.go:220-230 | The same for the difference |
| Money.Money.Neg | internal/domain/money/money.go:233-242 | The opposite exists exactly for values other than the least 64-bit integer |
| Money.Money.Cmp | internal/domain/money/money.go:245-257 | Compares only values of one currency, and zero means the same value |
| Money.CurrenciesMeet | internal/domain/money/money.go:207-286 | Amounts of different or unset currencies are never added, subtracted or compared, and which error says so |
| Money.Accumulate | internal/domain/money/money.go:125-138 | The digit loop, all in 64 bits, computes the scan of the whole string for strings of any length |
| Money.ParseMinorUnits | internal/domain/money/money.go:86-144 | The parser computes the specification of signed decimal parsing, refusals included |
| Money.OnlyWellFormedParses | internal/domain/money/money.go:86-144 | Whatever the parser accepts is a well-formed decimal: digits, at most one separator with one or two decimals, a sign only where allowed |
| Money.Parse | internal/domain/money/money.go:50-60 | The public parsers check the currency first and answer its error, and otherwise succeed exactly when the amount is valid |
| Money.FormatUint | internal/domain/money/money.go:185-197 | Filling twenty bytes backwards yields the decimal text, without a leading zero, of every 64-bit unsigned value, and twenty bytes are enough |
| Money.DigitsAreTheseTen | internal/domain/money/money.go:125-138 | Each of the ten digit characters stands for its decimal value |
| Money.NoShorterText | internal/domain/money/money.go:185-197 | No shorter text spells the same number |
| Money.Amount | internal/domain/money/money.go:161-183 | The printed text is the canonical one, for the least 64-bit integer too |
| Money.OneCanonicalForm | internal/domain/money/money.go:37-39 | Two spellings print alike exactly when they have the same value, and the printed form parses back to it |

## Left out

- HTTP, authentication, message decoding, the queue client, metrics, logging, configuration and
  timers: plumbing without rules of its own.
- Dead-lettering and deletion of messages by the consumer: only delivery and redelivery appear, as
  sessions started for the same message any number of times.
- The payload hash is the tuple of the business fields, that is, an injective hash; SHA-256 and
  canonical JSON are not modelled.
- Correlation and causation identifiers, event types as text and event payload encoding.
- Unique indexes are checked at commit in `Protocol`, where the database may stop the session
  earlier, at the insert: a session stopped is an abort either way. Foreign keys and row checks,
  which restate what the domain already guarantees, are not modelled.
- In `Protocol` any stored operation may be retried at any time by any number of workers, which
  includes every schedule of leases; the schedule itself is part of `Execution`, `Retrying` and
  `Rounds` only.
- Overflow of the wallet version, which is unbounded here, deadlocks, and connection failures other
  than the abort of the session.
- `MarkFailed` is modelled, but no use case reaches it, so no run has failed operations.
- Rehydration checks of rows read back, which reachable rows pass; a lease that fails as a whole,
  which takes nothing; negative batch sizes, which the database refuses.
- Ledger cursors are pairs of instant and identifier, not text.
- Outbox.ConsumersSeeAPrefix: assumes, as the service does, a FIFO queue that groups messages by
  wallet and reports success only of a message it accepted: an event reported published has arrived,
  and arrives in the order accepted.
- Draining.OutboxDrains: an execution is one step, so leases of other publishers are met only
  between executions, and what sessions append only there.
- Draining.EveryEventIsPublished: the same.
- Publishing.Drain: the number of rounds asks for a start past the leases and delays given before
  it, or with everything due at round 0, and for one publisher alone with nothing appended meanwhile;
  the drain without these is Draining.OutboxDrains.
- Poller.Work: the number of rounds is bounded only when each runs past the leases and the delays
  given by those before it, which the poller at its defaults does not wait for; what it comes to in
  any case is Stalling.OnlyOverflowsGoOnWaiting, without a number of rounds.
- Spacing.RoundsEndWaiting: the same spacing is asked for.
- Spacing.SpacedRoundsLeaveOverflows: the same spacing is asked for.
- Stalling.OnlyOverflowsGoOnWaiting: rounds of one worker after another, with no operations received
  meanwhile, and no connection lost from the start on; identifiers and sequence numbers drawn are
  assumed not to repeat.
- Fairness.WaitingConcludes: a round is one step, and what the service receives comes between rounds;
  an operation may arrive at any instant but those instants, and those of the attempts, are taken to
  leave every instant behind.
- Outcomes.ProcessedInFull: the identifiers drawn and the instant read are taken to be set, as
  generated identifiers and clocks are; so they are in the other results of that module.
- Strings stand for byte strings; text beyond one byte per character is not decoded.
