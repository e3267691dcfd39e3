/** A wallet filled to the brim: an operation that waits, and that no attempt ever concludes. */
module Brimming {
  import opened Domain
  import opened Money
  import opened Wager
  import opened Ledger
  import opened Events
  import opened Database
  import opened Settlement
  import opened Rules
  import opened Books
  import opened UseCases
  import opened Bookkeeping
  import opened Failing
  import opened Stalling

  const EUR := Currency("EUR")
  const MOST := Money(MAX_INT64 as int64, EUR)
  const REST := Money((MAX_INT64 - 1) as int64, EUR)

  /** A win that refers to a bet, and that bet. */
  const WIN := RecordOf(4, Payload("p", "win", 10, 1, "r", "g", Win, Money(100, EUR), "bet"), "a", 1)
  const BET := RecordOf(5, Payload("p", "bet", 10, 1, "r", "g", Bet, Money(1, EUR), ""), "b", 1)

  const FULL := WalletRow(1, 10, MOST, 1, 1, 1)
  const LESS := WalletRow(1, 10, REST, 2, 1, 1)
  const OPENING := NewOpening(2, 1, 10, MOST, 1).value
  const CREDIT := OpeningLedgerEntry(FULL, 3, 2, 1).value
  const DEBIT := NewEntry(7, 1, 5, Debit, Money(1, EUR), MOST, REST, 1).value

  const WIN_WAITS := WIN.(state := PendingReference)
  const BET_DONE := BET.(state := State.Processed, result := Some(REST))

  lemma TheyAreNew()
    ensures IsNew(WIN) && IsNew(BET)
  {
  }

  lemma TheWalletOpens()
    ensures Open(1, 10, MOST, 1) == Ok(FULL)
    ensures DecideOpening(FULL, 2, 3)
            == Ok(Some(Decision(OPENING, FULL, Some(CREDIT),
                                [TransactionProcessed(SummaryOf(OPENING), FULL.balance), ChangeOf(CREDIT, 1)])))
  {
  }

  lemma TheWinWaits()
    ensures Decide(FULL, WIN, None, false, Arrival, 6, 1)
            == Ok(Decision(WIN_WAITS, FULL, None, [TransactionPending(SummaryOf(WIN), "bet")]))
  {
  }

  lemma TheBetIsProcessed()
    ensures Decide(FULL, BET, None, false, Arrival, 7, 1)
            == Ok(Decision(BET_DONE, LESS, Some(DEBIT),
                           [TransactionProcessed(SummaryOf(BET), LESS.balance), ChangeOf(DEBIT, 2)]))
  {
  }

  lemma TheWinOverflows()
    ensures VerdictOn(LESS, WIN_WAITS, Some(BET_DONE), false) == Overflow
  {
  }

  // ------------------------------------------------------------------ tables

  const OPENED_DATA := [TransactionProcessed(SummaryOf(OPENING), MOST), ChangeOf(CREDIT, 1)]
  const WAITS_DATA := [TransactionPending(SummaryOf(WIN), "bet")]
  const DONE_DATA := [TransactionProcessed(SummaryOf(BET), REST), ChangeOf(DEBIT, 2)]

  const FIRST := Marks(100, 0, 101, 1)
  const SECOND := Marks(102, 2, 103, 3)
  const THIRD := Marks(104, 4, 105, 5)

  const OPENED := Db(map[1 := FULL], [OPENING], [CREDIT], Stamp(OPENED_DATA, 1, 1, FIRST), map[])
  const WAITING := OPENED.(txs := [OPENING, WIN_WAITS], outbox := OPENED.outbox + Stamp(WAITS_DATA, 1, 1, SECOND))
  const PLAYED := Db(map[1 := LESS], [OPENING, WIN_WAITS, BET_DONE], [CREDIT, DEBIT],
                     WAITING.outbox + Stamp(DONE_DATA, 1, 1, THIRD), map[])

  lemma StampedAppends(db: Db, db': Db, data: seq<Data>, marks: Marks)
    requires Unused(db.outbox, marks) && |data| <= 2
    requires db' == db.(outbox := db'.outbox) && db'.outbox == db.outbox + Stamp(data, 1, 1, marks)
    ensures EventsAppended(db, Stamp(data, 1, 1, marks)) == Ok(db')
  {
    StampedEventsAreAppended(db, data, 1, 1, marks);
    EventsAppendedAppends(db, Stamp(data, 1, 1, marks));
  }

  lemma TheOpeningIsRecorded()
    ensures Opened(EMPTY, 1, 10, MOST, "c", 2, 3, FIRST, 1) == Ok((OPENED, FULL))
  {
    TheWalletOpens();
    var created := EMPTY.(wallets := map[1 := FULL]);
    assert WalletInserted(EMPTY, FULL) == Ok(created);
    assert [] + [OPENING] == [OPENING] && [] + [CREDIT] == [CREDIT];
    var saved := created.(txs := [OPENING]);
    assert TransactionInserted(created, OPENING) == Ok(saved);
    var moved := saved.(ledger := [CREDIT]);
    assert EntryAppended(saved, CREDIT) == Ok(moved);
    assert moved.outbox + OPENED.outbox == OPENED.outbox;
    StampedAppends(moved, OPENED, OPENED_DATA, FIRST);
  }

  lemma TheWinIsFound()
    ensures FindByKey(OPENED.txs, "p", "a").None? && FindByExt(OPENED.txs, "p", "win").None?
    ensures LookedUp(OPENED.txs, WIN) == None && FindById(OPENED.txs, 4).None?
  {
    assert OPENED.txs == [OPENING];
    assert forall t :: t in OPENED.txs ==> t == OPENING;
  }

  lemma TheWinIsRecorded()
    ensures Settled(OPENED, WIN, 6, SECOND) == Ok((WAITING, ResultOf(WIN_WAITS, false)))
  {
    TheWinWaits();
    TheWinIsFound();
    var saved := OPENED.(txs := WAITING.txs);
    assert [OPENING] + [WIN_WAITS] == WAITING.txs;
    assert TransactionInserted(OPENED, WIN_WAITS) == Ok(saved);
    StampedAppends(saved, WAITING, WAITS_DATA, SECOND);
  }

  lemma TheBetIsNotFound()
    ensures FindByKey(WAITING.txs, "p", "b").None? && FindByExt(WAITING.txs, "p", "bet").None?
    ensures FindById(WAITING.txs, 5).None?
  {
    assert forall t :: t in WAITING.txs ==> t == OPENING || t == WIN_WAITS;
  }

  lemma TheBetIsSaved()
    ensures TransactionInserted(WAITING, BET_DONE) == Ok(WAITING.(txs := PLAYED.txs))
    ensures BalanceUpdated(WAITING.(txs := PLAYED.txs), LESS, 1) == Ok(WAITING.(txs := PLAYED.txs, wallets := PLAYED.wallets))
    ensures EntryAppended(WAITING.(txs := PLAYED.txs, wallets := PLAYED.wallets), DEBIT)
            == Ok(PLAYED.(outbox := WAITING.outbox))
  {
    TheBetIsNotFound();
    assert [OPENING, WIN_WAITS] + [BET_DONE] == PLAYED.txs;
    assert WAITING.wallets[1 := LESS] == PLAYED.wallets;
    assert [CREDIT] + [DEBIT] == PLAYED.ledger;
    assert forall e :: e in WAITING.ledger ==> e == CREDIT;
  }

  lemma TheBetIsRecorded()
    ensures Settled(WAITING, BET, 7, THIRD) == Ok((PLAYED, ResultOf(BET_DONE, false)))
  {
    TheBetIsProcessed();
    TheBetIsNotFound();
    TheBetIsSaved();
    StampedAppends(PLAYED.(outbox := WAITING.outbox), PLAYED, DONE_DATA, THIRD);
  }

  // ---------------------------------------------------------------- overflow

  lemma PlayedIsBalanced(maxAttempts: int)
    requires maxAttempts >= 1
    ensures Balanced(PLAYED, maxAttempts)
  {
    EmptyIsBalanced(maxAttempts);
    TheyAreNew();
    TheOpeningIsRecorded();
    OpenedKeepsTheBooks(EMPTY, 1, 10, MOST, "c", 2, 3, FIRST, 1, maxAttempts);
    TheWinIsRecorded();
    SettledKeepsTheBooks(OPENED, WIN, 6, SECOND, maxAttempts);
    TheBetIsRecorded();
    SettledKeepsTheBooks(WAITING, BET, 7, THIRD, maxAttempts);
  }

  lemma TheBetIsFound()
    ensures LookedUp(PLAYED.txs, WIN_WAITS) == Some(BET_DONE)
  {
    var p := ByExt("p", "bet");
    assert !p(PLAYED.txs[0]) && !p(PLAYED.txs[1]) && p(PLAYED.txs[2]);
  }

  lemma NothingIsReversed()
    ensures !Reversed(PLAYED.txs, Some(BET_DONE))
  {
    assert forall t :: t in PLAYED.txs ==> t == OPENING || t == WIN_WAITS || t == BET_DONE;
  }

  lemma TheWinOverflowsThere()
    ensures Overflows(PLAYED, WIN_WAITS) && OnlyOverflowsWait(PLAYED)
  {
    TheBetIsFound();
    NothingIsReversed();
    TheWinOverflows();
  }

  /** A wallet opens with the greatest amount, a win of it arrives before its bet and waits, the
      bet is processed; and from then on every attempt on the win fails, whatever it draws. */
  lemma AnOperationWaitsForever(maxAttempts: int)
    requires maxAttempts >= 1
    ensures Opened(EMPTY, 1, 10, MOST, "c", 2, 3, FIRST, 1) == Ok((OPENED, FULL))
    ensures Settled(OPENED, WIN, 6, SECOND) == Ok((WAITING, ResultOf(WIN_WAITS, false)))
    ensures Settled(WAITING, BET, 7, THIRD) == Ok((PLAYED, ResultOf(BET_DONE, false)))
    ensures Balanced(PLAYED, maxAttempts) && WIN_WAITS in PLAYED.txs && OnlyOverflowsWait(PLAYED)
    ensures forall entryId, marks, at :: FreshFor(PLAYED, entryId, marks, at) ==>
              Retried(PLAYED, WIN.id, WIN.walletId, entryId, marks, maxAttempts, at) == Err(Validation(AmountOverflow))
  {
    TheOpeningIsRecorded();
    TheWinIsRecorded();
    TheBetIsRecorded();
    PlayedIsBalanced(maxAttempts);
    TheWinOverflowsThere();
    assert PLAYED.txs[1] == WIN_WAITS;
    forall entryId, marks, at | FreshFor(PLAYED, entryId, marks, at)
      ensures Retried(PLAYED, WIN.id, WIN.walletId, entryId, marks, maxAttempts, at) == Err(Validation(AmountOverflow))
    {
      AttemptFailsOnOverflow(PLAYED, WIN_WAITS, entryId, marks, maxAttempts, at);
    }
  }
}
