/** Reading the ledger page by page, while entries may be appended between pages. */
module Paging {
  import opened Domain
  import opened Sequences
  import opened Ledger
  import opened Database

  const DEFAULT_PAGE_SIZE := 50
  const MAX_PAGE_SIZE := 200

  /** Where a page ends and the next one starts. */
  datatype Cursor = Cursor(createdAt: Time, entryId: ID) {
    predicate Before(e: Entry) {
      createdAt < e.createdAt || (createdAt == e.createdAt && entryId < e.id)
    }
  }

  function CursorOf(e: Entry): Cursor {
    Cursor(e.createdAt, e.id)
  }

  datatype Page = Page(entries: seq<Entry>, next: Option<Cursor>)

  // ------------------------------------------------------------------- order

  ghost predicate Increasing(s: seq<Entry>) {
    forall i, j :: 0 <= i < j < |s| ==> CursorOf(s[i]).Before(s[j])
  }

  function Insert(e: Entry, s: seq<Entry>): (r: seq<Entry>)
    ensures forall x :: x in r <==> x == e || x in s
    ensures |r| == |s| + 1
  {
    if s == [] || CursorOf(e).Before(s[0]) then [e] + s else
      var rest := Insert(e, s[1..]);
      assert forall x :: x in s <==> x == s[0] || x in s[1..];
      [s[0]] + rest
  }

  /** ORDER BY created_at, id. */
  function Sorted(s: seq<Entry>): (r: seq<Entry>)
    ensures forall x :: x in r <==> x in s
    ensures |r| == |s|
  {
    if s == [] then [] else
      var init, last := s[..|s| - 1], s[|s| - 1];
      assert forall x :: x in s <==> x in init || x == last;
      Insert(last, Sorted(init))
  }

  ghost predicate DistinctEntries(s: seq<Entry>) {
    forall i, j :: 0 <= i < j < |s| ==> s[i].id != s[j].id
  }

  lemma {:induction false} InsertIncreases(e: Entry, s: seq<Entry>)
    requires Increasing(s) && forall x :: x in s ==> x.id != e.id
    ensures Increasing(Insert(e, s))
  {
    if s != [] && !CursorOf(e).Before(s[0]) {
      var rest := s[1..];
      assert s[0] in s;
      InsertIncreases(e, rest);
      forall x | x in Insert(e, rest) ensures CursorOf(s[0]).Before(x) {
        if x != e {
          var k :| 0 <= k < |rest| && rest[k] == x;
          assert s[k + 1] == x;
        }
      }
    }
  }

  lemma {:induction false} SortedIncreases(s: seq<Entry>)
    requires DistinctEntries(s)
    ensures Increasing(Sorted(s))
  {
    if s != [] {
      var init := s[..|s| - 1];
      SortedIncreases(init);
      InsertIncreases(s[|s| - 1], Sorted(init));
    }
  }

  lemma SomeMember(s: seq<Entry>)
    ensures s != [] ==> exists x :: x in s
  {
    if s != [] {
      assert s[0] in s;
    }
  }

  /** Increasing sequences with the same members are the same. */
  lemma {:induction false} OneIncreasingOrder(s: seq<Entry>, t: seq<Entry>)
    requires Increasing(s) && Increasing(t) && forall x :: x in s <==> x in t
    ensures s == t
  {
    if s == [] {
      SomeMember(t);
    } else {
      assert s[0] in s && s[0] in t;
      assert t[0] in s;
      forall x | x in s[1..] ensures x in t[1..] { MembersOfTheRest(s, t, x); }
      forall x | x in t[1..] ensures x in s[1..] { MembersOfTheRest(t, s, x); }
      OneIncreasingOrder(s[1..], t[1..]);
    }
  }

  lemma MembersOfTheRest(s: seq<Entry>, t: seq<Entry>, x: Entry)
    requires Increasing(s) && Increasing(t) && s != [] && t != [] && s[0] in t && t[0] in s && x in s[1..] && x in t
    ensures s[0] == t[0] && x in t[1..]
  {
    var a :| 0 <= a < |t| && t[a] == s[0];
    var b :| 0 <= b < |s| && s[b] == t[0];
    var k :| 0 < k < |s| && s[k] == x;
    var l :| 0 <= l < |t| && t[l] == x;
    assert a == 0 && b == 0;
    assert l != 0;
    assert t[1..][l - 1] == x;
  }

  // ------------------------------------------------------------------- query

  function Follows(w: ID, cursor: Option<Cursor>): Entry -> bool {
    (e: Entry) => e.walletId == w && (cursor.Some? ==> cursor.value.Before(e))
  }

  /** The entries of the wallet after the cursor, oldest first. */
  function Selected(ledger: seq<Entry>, w: ID, cursor: Option<Cursor>): seq<Entry> {
    Sorted(Filter(ledger, Follows(w, cursor)))
  }

  lemma SelectedMembers(ledger: seq<Entry>, w: ID, cursor: Option<Cursor>, e: Entry)
    ensures e in Selected(ledger, w, cursor) <==> e in ledger && Follows(w, cursor)(e)
  {
    FilterMembers(ledger, Follows(w, cursor), e);
  }

  lemma {:induction false} FilterKeepsDistinct(s: seq<Entry>, p: Entry -> bool)
    requires DistinctEntries(s)
    ensures DistinctEntries(Filter(s, p))
  {
    if s != [] {
      var init := s[..|s| - 1];
      FilterKeepsDistinct(init, p);
      forall x | x in Filter(init, p) ensures x.id != s[|s| - 1].id {
        FilterMembers(init, p, x);
      }
    }
  }

  lemma SelectedIncreases(ledger: seq<Entry>, w: ID, cursor: Option<Cursor>)
    requires DistinctEntries(ledger)
    ensures Increasing(Selected(ledger, w, cursor))
  {
    FilterKeepsDistinct(ledger, Follows(w, cursor));
    SortedIncreases(Filter(ledger, Follows(w, cursor)));
  }

  /** LIMIT. */
  function Limited(s: seq<Entry>, n: int): seq<Entry> {
    if n < 0 then [] else if n < |s| then s[..n] else s
  }

  function PageSize(limit: int): int {
    if limit == 0 then DEFAULT_PAGE_SIZE else limit
  }

  /** A page of n entries: whether another follows, and from where. */
  function PageOf(rows: seq<Entry>, n: nat): (page: Page)
    requires n >= 1
    ensures page.entries <= rows && |page.entries| <= n
    ensures page.next.None? <==> page.entries == rows
    ensures page.next.Some? ==> |page.entries| == n && page.next.value == CursorOf(page.entries[n - 1])
  {
    if |rows| <= n then Page(rows, None) else Page(rows[..n], Some(CursorOf(rows[n - 1])))
  }

  /** ReadWallet.Ledger: one entry beyond the page is read, to tell whether another follows. */
  method ReadLedger(db: Db, walletId: ID, cursor: Option<Cursor>, limit: int) returns (r: Result<Page>)
    ensures r == Err(Validation(InvalidInput)) <==> !(0 <= limit <= 200)
    ensures r == Err(NotFound(WalletNotFound)) <==> 0 <= limit <= 200 && walletId !in db.wallets
    ensures 0 <= limit <= 200 && walletId in db.wallets ==>
              r == Ok(PageOf(Selected(db.ledger, walletId, cursor), if limit == 0 then 50 else limit))
  {
    if limit < 0 || limit > MAX_PAGE_SIZE {
      return Err(Validation(InvalidInput));
    }
    var size := if limit == 0 then DEFAULT_PAGE_SIZE else limit;
    if walletId !in db.wallets {
      return Err(NotFound(WalletNotFound));
    }
    ghost var rows := Selected(db.ledger, walletId, cursor);
    var entries := Limited(Selected(db.ledger, walletId, cursor), size + 1);
    var next: Option<Cursor> := None;
    if |entries| > size {
      assert entries[..size] == rows[..size];
      next := Some(CursorOf(entries[size - 1]));
      entries := entries[..size];
    }
    return Ok(Page(entries, next));
  }

  // -------------------------------------------------------------------- walk

  /** What following the cursor yields, one page from each ledger in turn. */
  function Walk(ledgers: seq<seq<Entry>>, w: ID, cursor: Option<Cursor>, n: nat): seq<Entry>
    requires n >= 1
    decreases |ledgers|
  {
    if ledgers == [] then [] else
      var page := PageOf(Selected(ledgers[0], w, cursor), n);
      page.entries + (if page.next.None? then [] else Walk(ledgers[1..], w, page.next, n))
  }

  /** The walk met a page without a next one. */
  predicate Ends(ledgers: seq<seq<Entry>>, w: ID, cursor: Option<Cursor>, n: nat)
    requires n >= 1
    decreases |ledgers|
  {
    ledgers != [] &&
    var page := PageOf(Selected(ledgers[0], w, cursor), n);
    page.next.None? || Ends(ledgers[1..], w, page.next, n)
  }

  /** Entries are only ever appended between pages, under fresh identifiers. */
  ghost predicate Appending(ledgers: seq<seq<Entry>>) {
    && (forall i :: 0 <= i < |ledgers| ==> DistinctEntries(ledgers[i]))
    && (forall i, j :: 0 <= i < j < |ledgers| ==> ledgers[i] <= ledgers[j])
  }

  lemma PageIsAPart(ledger: seq<Entry>, w: ID, cursor: Option<Cursor>, n: nat)
    requires n >= 1 && DistinctEntries(ledger)
    ensures var page := PageOf(Selected(ledger, w, cursor), n);
            && Increasing(page.entries)
            && (forall e :: e in page.entries ==> e in ledger && Follows(w, cursor)(e))
            && (page.next.Some? ==>
                  forall e :: e in page.entries ==> e == page.entries[n - 1] || CursorOf(e).Before(page.entries[n - 1]))
            && (forall e :: e in ledger && Follows(w, cursor)(e) ==>
                  e in page.entries || (page.next.Some? && page.next.value.Before(e)))
  {
    var rows := Selected(ledger, w, cursor);
    var page := PageOf(rows, n);
    SelectedIncreases(ledger, w, cursor);
    forall e | e in page.entries ensures e in ledger && Follows(w, cursor)(e) {
      assert e in rows;
      SelectedMembers(ledger, w, cursor, e);
    }
    forall e | e in ledger && Follows(w, cursor)(e)
      ensures e in page.entries || (page.next.Some? && page.next.value.Before(e))
    {
      SelectedMembers(ledger, w, cursor, e);
      var k :| 0 <= k < |rows| && rows[k] == e;
      assert k < |page.entries| ==> page.entries[k] == e;
    }
  }

  lemma IncreasingConcat(s: seq<Entry>, t: seq<Entry>)
    requires Increasing(s) && Increasing(t) && forall e, x :: e in s && x in t ==> CursorOf(e).Before(x)
    ensures Increasing(s + t)
  {
    forall i, j | 0 <= i < j < |s + t| ensures CursorOf((s + t)[i]).Before((s + t)[j]) {
      if i < |s| <= j {
        assert (s + t)[i] in s && (s + t)[j] in t;
      }
    }
  }

  /** Every entry of a walk follows its cursor, in strictly increasing order. */
  lemma {:induction false} WalkIncreases(ledgers: seq<seq<Entry>>, w: ID, cursor: Option<Cursor>, n: nat)
    requires n >= 1 && Appending(ledgers)
    ensures Increasing(Walk(ledgers, w, cursor, n))
    ensures forall e :: e in Walk(ledgers, w, cursor, n) ==> Follows(w, cursor)(e)
    decreases |ledgers|
  {
    if ledgers != [] {
      var page := PageOf(Selected(ledgers[0], w, cursor), n);
      PageIsAPart(ledgers[0], w, cursor, n);
      if page.next.Some? {
        WalkIncreases(ledgers[1..], w, page.next, n);
        var rest, last := Walk(ledgers[1..], w, page.next, n), page.entries[n - 1];
        assert last in page.entries;
        forall e, x | e in page.entries && x in rest ensures CursorOf(e).Before(x) && Follows(w, cursor)(x) {
          assert CursorOf(last).Before(x);
        }
        IncreasingConcat(page.entries, rest);
      }
    }
  }

  /** A walk that ends has every entry of the wallet that was there when it began. */
  lemma {:induction false} WalkMissesNothing(ledgers: seq<seq<Entry>>, w: ID, cursor: Option<Cursor>, n: nat, e: Entry)
    requires n >= 1 && Appending(ledgers) && Ends(ledgers, w, cursor, n)
    requires e in ledgers[0] && Follows(w, cursor)(e)
    ensures e in Walk(ledgers, w, cursor, n)
    decreases |ledgers|
  {
    var page := PageOf(Selected(ledgers[0], w, cursor), n);
    PageIsAPart(ledgers[0], w, cursor, n);
    if e !in page.entries {
      assert ledgers[0] <= ledgers[1];
      WalkMissesNothing(ledgers[1..], w, page.next, n, e);
    }
  }

  lemma {:induction false} WalkInventsNothing(ledgers: seq<seq<Entry>>, w: ID, cursor: Option<Cursor>, n: nat, e: Entry)
    requires n >= 1 && Appending(ledgers) && e in Walk(ledgers, w, cursor, n)
    ensures ledgers != [] && e in ledgers[|ledgers| - 1] && e.walletId == w
    decreases |ledgers|
  {
    PageIsAPart(ledgers[0], w, cursor, n);
    var page := PageOf(Selected(ledgers[0], w, cursor), n);
    if e in page.entries {
      assert ledgers[0] <= ledgers[|ledgers| - 1];
    } else {
      WalkInventsNothing(ledgers[1..], w, page.next, n, e);
    }
  }

  /** By instant, and by identifier among those of one instant. */
  ghost predicate OldestFirst(s: seq<Entry>) {
    forall i, j :: 0 <= i < j < |s| ==>
      s[i].createdAt < s[j].createdAt || (s[i].createdAt == s[j].createdAt && s[i].id < s[j].id)
  }

  lemma IncreasingIsOldestFirst(s: seq<Entry>)
    requires Increasing(s)
    ensures OldestFirst(s)
  {
    forall i, j | 0 <= i < j < |s|
      ensures s[i].createdAt < s[j].createdAt || (s[i].createdAt == s[j].createdAt && s[i].id < s[j].id)
    {
      assert CursorOf(s[i]).Before(s[j]);
    }
  }

  /** Oldest first, so no entry twice; every entry of the wallet in the first ledger,
      and only entries of the wallet, from the last. */
  ghost predicate Faithful(walk: seq<Entry>, first: seq<Entry>, last: seq<Entry>, w: ID) {
    && OldestFirst(walk)
    && (forall i, j :: 0 <= i < j < |walk| ==> walk[i] != walk[j])
    && (forall e :: e in first && e.walletId == w ==> e in walk)
    && (forall e :: e in walk ==> e in last && e.walletId == w)
  }

  lemma FaithfulLater(walk: seq<Entry>, first: seq<Entry>, last: seq<Entry>, later: seq<Entry>, w: ID)
    requires Faithful(walk, first, last, w) && last <= later
    ensures Faithful(walk, first, later, w)
  {
  }

  /** However the ledger grows between pages, a whole walk has every entry there at its start
      exactly once. */
  lemma WholeWalk(ledgers: seq<seq<Entry>>, w: ID, limit: int)
    requires 0 <= limit <= MAX_PAGE_SIZE && Appending(ledgers) && Ends(ledgers, w, None, PageSize(limit))
    ensures Faithful(Walk(ledgers, w, None, PageSize(limit)), ledgers[0], ledgers[|ledgers| - 1], w)
  {
    var n := PageSize(limit);
    WalkIncreases(ledgers, w, None, n);
    IncreasingIsOldestFirst(Walk(ledgers, w, None, n));
    forall e | e in ledgers[0] && e.walletId == w ensures e in Walk(ledgers, w, None, n) {
      WalkMissesNothing(ledgers, w, None, n, e);
    }
    forall e | e in Walk(ledgers, w, None, n) ensures e in ledgers[|ledgers| - 1] && e.walletId == w {
      WalkInventsNothing(ledgers, w, None, n, e);
    }
  }

  lemma WholeWalkLater(ledgers: seq<seq<Entry>>, w: ID, limit: int, later: seq<Entry>)
    requires 0 <= limit <= MAX_PAGE_SIZE && Appending(ledgers) && Ends(ledgers, w, None, PageSize(limit))
    requires ledgers[|ledgers| - 1] <= later
    ensures Faithful(Walk(ledgers, w, None, PageSize(limit)), ledgers[0], later, w)
  {
    WholeWalk(ledgers, w, limit);
    FaithfulLater(Walk(ledgers, w, None, PageSize(limit)), ledgers[0], ledgers[|ledgers| - 1], later, w);
  }

  // ------------------------------------------------------------ fixed ledger

  function Repeat(ledger: seq<Entry>, pages: nat): (r: seq<seq<Entry>>)
    ensures |r| == pages && forall i :: 0 <= i < pages ==> r[i] == ledger
  {
    seq(pages, _ => ledger)
  }

  /** A page read after another continues the same selection. */
  lemma NextPageContinues(ledger: seq<Entry>, w: ID, cursor: Option<Cursor>, n: nat)
    requires n >= 1 && DistinctEntries(ledger)
    requires PageOf(Selected(ledger, w, cursor), n).next.Some?
    ensures Selected(ledger, w, PageOf(Selected(ledger, w, cursor), n).next) == Selected(ledger, w, cursor)[n..]
  {
    var rows := Selected(ledger, w, cursor);
    var next := PageOf(rows, n).next;
    SelectedIncreases(ledger, w, cursor);
    SelectedIncreases(ledger, w, next);
    forall e ensures e in Selected(ledger, w, next) <==> e in rows[n..] {
      SelectedMembers(ledger, w, cursor, e);
      SelectedMembers(ledger, w, next, e);
      if e in rows {
        var k :| 0 <= k < |rows| && rows[k] == e;
        assert k >= n ==> rows[n..][k - n] == e;
        if e in rows[n..] {
          var l :| n <= l < |rows| && rows[l] == e;
          assert CursorOf(rows[n - 1]).Before(e);
        } else {
          assert k < n;
          assert k == n - 1 || CursorOf(e).Before(rows[n - 1]);
        }
      } else if e in Selected(ledger, w, next) {
        assert rows[n - 1] in rows;
        SelectedMembers(ledger, w, cursor, rows[n - 1]);
      }
    }
    OneIncreasingOrder(Selected(ledger, w, next), rows[n..]);
  }

  lemma LimitedInTwo(s: seq<Entry>, n: nat, m: nat)
    requires n <= |s|
    ensures s[..n] + Limited(s[n..], m) == Limited(s, n + m)
  {
  }

  lemma FirstPage(ledger: seq<Entry>, w: ID, cursor: Option<Cursor>, n: nat, pages: nat)
    requires n >= 1 && pages >= 1
    ensures var page, rest := PageOf(Selected(ledger, w, cursor), n), Repeat(ledger, pages - 1);
            && (Ends(Repeat(ledger, pages), w, cursor, n) <==> page.next.None? || Ends(rest, w, page.next, n))
            && Walk(Repeat(ledger, pages), w, cursor, n)
               == if page.next.None? then page.entries else page.entries + Walk(rest, w, page.next, n)
  {
    assert Repeat(ledger, pages)[1..] == Repeat(ledger, pages - 1);
  }

  /** What a number of pages can hold. */
  function Capacity(pages: nat, n: nat): nat {
    if pages == 0 then 0 else n + Capacity(pages - 1, n)
  }

  lemma {:induction false} CapacityIsTheProduct(pages: nat, n: nat)
    ensures Capacity(pages, n) == pages * n
  {
    if pages > 0 {
      CapacityIsTheProduct(pages - 1, n);
      assert pages * n == n + (pages - 1) * n;
    }
  }

  lemma {:induction false} FixedWalkEnds(ledger: seq<Entry>, w: ID, cursor: Option<Cursor>, n: nat, pages: nat)
    requires n >= 1 && DistinctEntries(ledger)
    ensures Ends(Repeat(ledger, pages), w, cursor, n)
            <==> pages >= 1 && Capacity(pages, n) >= |Selected(ledger, w, cursor)|
    decreases pages
  {
    if pages > 0 {
      FirstPage(ledger, w, cursor, n, pages);
      var next := PageOf(Selected(ledger, w, cursor), n).next;
      if next.Some? {
        FixedWalkEnds(ledger, w, next, n, pages - 1);
        FewerAreLeft(ledger, w, cursor, n);
      }
    }
  }

  lemma FewerAreLeft(ledger: seq<Entry>, w: ID, cursor: Option<Cursor>, n: nat)
    requires n >= 1 && DistinctEntries(ledger)
    requires PageOf(Selected(ledger, w, cursor), n).next.Some?
    ensures |Selected(ledger, w, PageOf(Selected(ledger, w, cursor), n).next)| == |Selected(ledger, w, cursor)| - n
  {
    NextPageContinues(ledger, w, cursor, n);
  }

  lemma {:induction false} FixedWalkReads(ledger: seq<Entry>, w: ID, cursor: Option<Cursor>, n: nat, pages: nat)
    requires n >= 1 && DistinctEntries(ledger)
    ensures Walk(Repeat(ledger, pages), w, cursor, n) == Limited(Selected(ledger, w, cursor), Capacity(pages, n))
    decreases pages, 1
  {
    if pages > 0 {
      FirstPage(ledger, w, cursor, n, pages);
      if PageOf(Selected(ledger, w, cursor), n).next.Some? {
        RestReads(ledger, w, cursor, n, pages);
        LimitedInTwo(Selected(ledger, w, cursor), n, Capacity(pages - 1, n));
      }
    }
  }

  lemma {:induction false} RestReads(ledger: seq<Entry>, w: ID, cursor: Option<Cursor>, n: nat, pages: nat)
    requires n >= 1 && pages >= 1 && DistinctEntries(ledger)
    requires PageOf(Selected(ledger, w, cursor), n).next.Some?
    ensures Walk(Repeat(ledger, pages - 1), w, PageOf(Selected(ledger, w, cursor), n).next, n)
            == Limited(Selected(ledger, w, cursor)[n..], Capacity(pages - 1, n))
    decreases pages, 0
  {
    NextPageContinues(ledger, w, cursor, n);
    FixedWalkReads(ledger, w, PageOf(Selected(ledger, w, cursor), n).next, n, pages - 1);
  }

  /** Over a ledger that does not change, the walk ends exactly when its pages can hold the
      entries, and then has read the whole of it in order. */
  lemma FixedWalk(ledger: seq<Entry>, w: ID, cursor: Option<Cursor>, n: nat, pages: nat)
    requires n >= 1 && DistinctEntries(ledger)
    ensures var rows := Selected(ledger, w, cursor);
            && (Ends(Repeat(ledger, pages), w, cursor, n) <==> pages >= 1 && pages * n >= |rows|)
            && Walk(Repeat(ledger, pages), w, cursor, n) == Limited(rows, pages * n)
            && OldestFirst(rows)
  {
    SelectedIncreases(ledger, w, cursor);
    IncreasingIsOldestFirst(Selected(ledger, w, cursor));
    FixedWalkEnds(ledger, w, cursor, n, pages);
    FixedWalkReads(ledger, w, cursor, n, pages);
    CapacityIsTheProduct(pages, n);
  }
}
