/** Conservation of money: reversals, and the balance as a sum over the operations alone. */
module Conservation {
  import opened Domain
  import opened Sequences
  import opened Wager
  import opened Database
  import opened Settlement
  import opened Accounting

  // --------------------------------------------------------------- reversals

  /** The processed operation at a undoes the one at b. */
  ghost predicate Reverses(txs: seq<Tx>, a: nat, b: nat) {
    a < |txs| && b < |txs| && IsProcessedReversal(txs[a]) && txs[a].refId == txs[b].id
  }

  /** A reversal agrees with what it undoes, so it undoes the whole of it in the same wallet. */
  ghost predicate Agrees(x: Tx, r: Tx) {
    r.state == Processed && RefersTo(x.kind, r.kind) && r.walletId == x.walletId && r.amount == x.amount
  }

  /** Every processed reversal undoes a processed operation it agrees with, and no operation
      is undone twice. */
  ghost predicate ReversalsOk(txs: seq<Tx>) {
    && (forall a :: 0 <= a < |txs| && IsProcessedReversal(txs[a]) ==>
          exists b :: 0 <= b < |txs| && Reverses(txs, a, b) && Agrees(txs[a], txs[b]))
    && (forall a, a' :: 0 <= a < a' < |txs| && IsProcessedReversal(txs[a]) && IsProcessedReversal(txs[a']) ==>
          txs[a].refId != txs[a'].refId)
  }

  ghost predicate DistinctIds(txs: seq<Tx>) {
    forall i, j :: 0 <= i < j < |txs| ==> txs[i].id != txs[j].id
  }

  lemma SameId(txs: seq<Tx>, a: nat, b: nat)
    requires DistinctIds(txs) && a < |txs| && b < |txs|
    ensures txs[a].id == txs[b].id <==> a == b
  {
  }

  lemma ReversesAgree(txs: seq<Tx>, a: nat, b: nat)
    requires ReversalsOk(txs) && DistinctIds(txs) && Reverses(txs, a, b)
    ensures Agrees(txs[a], txs[b])
  {
    var c :| 0 <= c < |txs| && Reverses(txs, a, c) && Agrees(txs[a], txs[c]);
    SameId(txs, b, c);
  }

  /** What a newly processed reversal was checked against, under the lock. */
  ghost predicate Justified(txs: seq<Tx>, x: Tx) {
    IsProcessedReversal(x) ==>
      && !HasProcessedReversal(txs, x.refId)
      && exists r :: r in txs && r.id == x.refId && Agrees(x, r)
  }

  lemma ReversalsStayOk(txs: seq<Tx>, i: nat, x: Tx)
    requires ReversalsOk(txs) && Replaces(txs, i, x) && Justified(txs, x)
    ensures ReversalsOk(Put(txs, i, x))
  {
    var p := Put(txs, i, x);
    forall a | 0 <= a < |p| && IsProcessedReversal(p[a])
      ensures exists b :: 0 <= b < |p| && Reverses(p, a, b) && Agrees(p[a], p[b])
    {
      var b :| 0 <= b < |txs| && p[a].refId == txs[b].id && Agrees(p[a], txs[b]);
      assert b != i;
      assert Reverses(p, a, b);
    }
    forall a, c | 0 <= a < |p| && 0 <= c < |p| && a != c && IsProcessedReversal(p[a]) && IsProcessedReversal(p[c])
      ensures p[a].refId != p[c].refId
    {
      if a == i {
        assert p[c] == txs[c] && p[c] in txs && !ReversalOf(x.refId)(p[c]);
      } else if c == i {
        assert p[a] == txs[a] && p[a] in txs && !ReversalOf(x.refId)(p[a]);
      }
    }
  }

  // ------------------------------------------------------------ effectiveness

  function Rank(kind: Kind): nat {
    match kind case Rollback => 0 case Refund => 1 case _ => 2
  }

  ghost predicate Undoes(txs: seq<Tx>, a: nat, b: nat) {
    Reverses(txs, a, b) && Rank(txs[a].kind) < Rank(txs[b].kind)
  }

  /** The length of the chain of processed reversals over the operation at b. */
  ghost function Links(txs: seq<Tx>, b: nat): nat
    requires b < |txs|
    decreases Rank(txs[b].kind)
  {
    if exists a: nat :: a < |txs| && Undoes(txs, a, b) then
      var a: nat :| a < |txs| && Undoes(txs, a, b);
      1 + Links(txs, a)
    else 0
  }

  /** An operation stands when it was processed and not undone, or its undoing was undone. */
  ghost predicate Effective(txs: seq<Tx>, b: nat)
    requires b < |txs|
  {
    txs[b].state == Processed && Links(txs, b) % 2 == 0
  }

  ghost function Contribution(txs: seq<Tx>, w: ID, b: nat): int
    requires b < |txs|
  {
    if txs[b].walletId != w || !Effective(txs, b) then 0
    else match txs[b].kind
      case Opening => txs[b].amount.Units()
      case Win => txs[b].amount.Units()
      case Bet => -txs[b].amount.Units()
      case _ => 0
  }

  ghost function Contributions(txs: seq<Tx>, w: ID): (s: seq<int>)
    ensures |s| == |txs|
  {
    seq(|txs|, b requires 0 <= b < |txs| => Contribution(txs, w, b))
  }

  /** The opening amount, plus the effective wins, minus the effective bets. */
  ghost function Worth(txs: seq<Tx>, w: ID): int {
    Sum(Contributions(txs, w))
  }

  ghost predicate Conserved(db: Db) {
    forall w :: w in db.wallets ==> db.wallets[w].balance.Units() == Worth(db.txs, w)
  }

  lemma LinksOver(txs: seq<Tx>, a: nat, b: nat)
    requires ReversalsOk(txs) && DistinctIds(txs) && Reverses(txs, a, b)
    ensures Links(txs, b) == 1 + Links(txs, a)
  {
    ReversesAgree(txs, a, b);
    assert Undoes(txs, a, b);
    forall c: nat | c < |txs| && Undoes(txs, c, b) ensures c == a {
      UndoneOnce(txs, a, c, b);
    }
  }

  lemma UndoneOnce(txs: seq<Tx>, a: nat, c: nat, b: nat)
    requires ReversalsOk(txs) && Reverses(txs, a, b) && Reverses(txs, c, b)
    ensures a == c
  {
    assert txs[a].refId == txs[c].refId;
    if a < c { assert false; } else if c < a { assert false; }
  }

  /** The chain over an operation keeps its length unless it grows by the new reversal. */
  lemma LinksStay(txs: seq<Tx>, i: nat, x: Tx, j: nat, m: nat)
    requires Settling(txs, i, x, j) && m < |txs| && m != i
    requires IsProcessedReversal(x) ==> m != j && !Reverses(txs, j, m)
    ensures Links(Put(txs, i, x), m) == Links(txs, m)
    decreases Rank(txs[m].kind)
  {
    var p := Put(txs, i, x);
    if a: nat :| a < |txs| && Reverses(txs, a, m) {
      assert Rank(txs[a].kind) < Rank(txs[m].kind) && a != i && Reverses(p, a, m) by {
        ReversesAgree(txs, a, m);
        ReversalStays(txs, i, x, j, a, m);
      }
      if IsProcessedReversal(x) && Reverses(txs, j, a) {
        ReversesAgree(txs, j, a);
      }
      LinksStay(txs, i, x, j, a);
      LinksOver(txs, a, m);
      LinksOver(p, a, m);
    } else {
      forall a: nat | a < |p| ensures !Reverses(p, a, m) {
        ReversalStays(txs, i, x, j, a, m);
      }
      NoLinks(txs, m);
      NoLinks(p, m);
    }
  }

  lemma NoLinks(txs: seq<Tx>, m: nat)
    requires m < |txs| && forall a: nat :: a < |txs| ==> !Reverses(txs, a, m)
    ensures Links(txs, m) == 0
  {
  }

  lemma ReversalStays(txs: seq<Tx>, i: nat, x: Tx, j: nat, a: nat, m: nat)
    requires Settling(txs, i, x, j) && m < |txs| && m != i
    requires IsProcessedReversal(x) ==> m != j
    ensures Reverses(Put(txs, i, x), a, m) <==> Reverses(txs, a, m)
    ensures Reverses(txs, a, m) ==> a != i
  {
    if IsProcessedReversal(x) {
      SameId(txs, m, j);
    }
  }

  /** The operation x settles at i; when it is a processed reversal, j is what it undoes. */
  ghost predicate Settling(txs: seq<Tx>, i: nat, x: Tx, j: nat) {
    && Replaces(txs, i, x)
    && ReversalsOk(txs) && DistinctIds(txs) && ReversalsOk(Put(txs, i, x)) && DistinctIds(Put(txs, i, x))
    && (IsProcessedReversal(x) ==>
          && j < |txs| && j != i && txs[j].id == x.refId && Agrees(x, txs[j])
          && forall a :: 0 <= a < |txs| ==> !Reverses(txs, a, j))
  }

  /** Nothing undoes an operation not processed before. */
  lemma NothingUndoesTheNew(txs: seq<Tx>, i: nat, x: Tx, j: nat)
    requires Settling(txs, i, x, j)
    ensures Links(Put(txs, i, x), i) == 0
  {
    var p := Put(txs, i, x);
    forall a: nat | a < |p| ensures !Undoes(p, a, i) {
      if a != i && IsProcessedReversal(p[a]) {
        assert p[a] == txs[a];
        var b :| 0 <= b < |txs| && Reverses(txs, a, b) && Agrees(txs[a], txs[b]);
        assert b != i;
        SameId(p, b, i);
      }
    }
  }

  lemma ContributionStays(txs: seq<Tx>, i: nat, x: Tx, j: nat, m: nat, w: ID)
    requires Settling(txs, i, x, j) && m < |txs| && m != i
    requires IsProcessedReversal(x) ==> m != j && !Reverses(txs, j, m)
    ensures Contribution(Put(txs, i, x), w, m) == Contribution(txs, w, m)
  {
    LinksStay(txs, i, x, j, m);
  }

  /** The contributions of the table with room for the row at i. */
  ghost function Room(txs: seq<Tx>, i: nat, w: ID): seq<int>
    requires i <= |txs|
  {
    Contributions(txs, w) + (if i == |txs| then [0] else [])
  }

  lemma RoomIsWorthTheSame(txs: seq<Tx>, i: nat, w: ID)
    requires i <= |txs| && (i < |txs| ==> txs[i].state == PendingReference)
    ensures Sum(Room(txs, i, w)) == Worth(txs, w) && Room(txs, i, w)[i] == 0
  {
    if i == |txs| {
      SumAppend(Contributions(txs, w), 0);
    } else {
      assert Room(txs, i, w) == Contributions(txs, w);
    }
  }

  /** An operation that undoes nothing adds its own contribution. */
  lemma WorthOfAnOperation(txs: seq<Tx>, i: nat, x: Tx, w: ID)
    requires Settling(txs, i, x, 0) && !IsProcessedReversal(x)
    ensures Worth(Put(txs, i, x), w) == Worth(txs, w) + Contribution(Put(txs, i, x), w, i)
  {
    var p, c := Put(txs, i, x), Contribution(Put(txs, i, x), w, i);
    forall m | 0 <= m < |txs| && m != i ensures Contribution(p, w, m) == Contribution(txs, w, m) {
      ContributionStays(txs, i, x, 0, m, w);
    }
    assert Contributions(p, w) == Room(txs, i, w)[i := c];
    RoomIsWorthTheSame(txs, i, w);
    SumUpdate(Room(txs, i, w), i, c);
  }

  /** A reversal changes the worth by what it changes at one operation: the one it undoes,
      or the bet whose refund it undoes. */
  lemma WorthOfAReversal(txs: seq<Tx>, i: nat, x: Tx, j: nat, w: ID) returns (k: nat)
    requires Settling(txs, i, x, j) && IsProcessedReversal(x)
    ensures k < |txs| && k != i
    ensures k == j <==> txs[j].kind != Refund
    ensures k == j || (Reverses(txs, j, k) && Agrees(txs[j], txs[k]))
    ensures Worth(Put(txs, i, x), w)
            == Worth(txs, w) + Contribution(Put(txs, i, x), w, k) - Contribution(txs, w, k)
  {
    var p := Put(txs, i, x);
    k := j;
    if txs[j].kind == Refund {
      k :| 0 <= k < |txs| && Reverses(txs, j, k) && Agrees(txs[j], txs[k]);
    }
    var c, old_ := Contribution(p, w, k), Contribution(txs, w, k);
    forall m | 0 <= m < |txs| && m != i && m != k ensures Contribution(p, w, m) == Contribution(txs, w, m) {
      if m != j {
        if k != j {
          SameId(txs, m, k);
        }
        assert !Reverses(txs, j, m);
        ContributionStays(txs, i, x, j, m, w);
      }
    }
    assert Contributions(p, w) == Room(txs, i, w)[k := c];
    RoomIsWorthTheSame(txs, i, w);
    SumUpdate(Room(txs, i, w), k, c);
  }

  /** The chain over what a new reversal undoes: it was empty, and now has one link; over the
      bet of an undone refund it had one, and now has two. */
  lemma LinksOfTheUndone(txs: seq<Tx>, i: nat, x: Tx, j: nat)
    requires Settling(txs, i, x, j) && IsProcessedReversal(x)
    ensures Links(txs, j) == 0 && Links(Put(txs, i, x), j) == 1
    ensures forall k :: 0 <= k < |txs| && Reverses(txs, j, k) ==> Links(txs, k) == 1 && Links(Put(txs, i, x), k) == 2
  {
    var p := Put(txs, i, x);
    forall a: nat | a < |txs| ensures !Undoes(txs, a, j) {}
    NothingUndoesTheNew(txs, i, x, j);
    assert Reverses(p, i, j);
    LinksOver(p, i, j);
    forall k | 0 <= k < |txs| && Reverses(txs, j, k) ensures Links(txs, k) == 1 && Links(p, k) == 2 {
      ReversesAgree(txs, j, k);
      assert k != i;
      LinksOver(txs, j, k);
      assert Reverses(p, j, k);
      LinksOver(p, j, k);
    }
  }

  /** The worth of a wallet moves by the signed amount of what is processed in it, and the
      worth of every other stays. */
  lemma WorthMovesByTheSignedAmount(txs: seq<Tx>, i: nat, x: Tx, reference: Option<Tx>, w: ID)
    requires Replaces(txs, i, x) && ReversalsOk(txs) && DistinctIds(txs) && DistinctIds(Put(txs, i, x))
    requires Justified(txs, x)
    requires IsProcessedReversal(x) ==> reference.Some? && reference.value in txs && reference.value.id == x.refId
    requires x.kind == Loss ==> x.amount.Units() == 0
    ensures Worth(Put(txs, i, x), w)
            == Worth(txs, w) + (if x.walletId == w && x.state == Processed then SignedAmount(x, reference) else 0)
  {
    ReversalsStayOk(txs, i, x);
    if IsProcessedReversal(x) {
      var j := TheUndone(txs, i, x);
      assert txs[j] == reference.value by {
        var j' :| 0 <= j' < |txs| && txs[j'] == reference.value;
        if j < j' { assert false; } else if j' < j { assert false; }
      }
      ReversalMovesWorth(txs, i, x, j, w);
    } else {
      WorthOfAnOperation(txs, i, x, w);
      NothingUndoesTheNew(txs, i, x, 0);
      assert Put(txs, i, x)[i] == x;
    }
  }

  /** Where the operation that a justified reversal undoes is. */
  lemma TheUndone(txs: seq<Tx>, i: nat, x: Tx) returns (j: nat)
    requires Replaces(txs, i, x) && ReversalsOk(txs) && DistinctIds(txs) && DistinctIds(Put(txs, i, x))
    requires Justified(txs, x) && IsProcessedReversal(x) && ReversalsOk(Put(txs, i, x))
    ensures Settling(txs, i, x, j)
  {
    var r :| r in txs && r.id == x.refId && Agrees(x, r);
    j :| 0 <= j < |txs| && txs[j] == r;
    forall a | 0 <= a < |txs| ensures !Reverses(txs, a, j) {
      assert txs[a] in txs && !ReversalOf(x.refId)(txs[a]);
    }
  }

  lemma ReversalMovesWorth(txs: seq<Tx>, i: nat, x: Tx, j: nat, w: ID)
    requires Settling(txs, i, x, j) && IsProcessedReversal(x)
    ensures Worth(Put(txs, i, x), w)
            == Worth(txs, w) + (if x.walletId == w then SignedAmount(x, Some(txs[j])) else 0)
  {
    var p := Put(txs, i, x);
    var k := WorthOfAReversal(txs, i, x, j, w);
    assert p[k] == txs[k] && txs[k].walletId == x.walletId && txs[k].state == Processed;
    assert txs[k].amount == x.amount;
    assert if k == j then Links(txs, k) == 0 && Links(p, k) == 1 else Links(txs, k) == 1 && Links(p, k) == 2 by {
      LinksOfTheUndone(txs, i, x, j);
    }
    ReversalSign(x, txs[j]);
    if k == j {
      assert Contribution(p, w, k) == 0;
    } else {
      ReversalSign(txs[j], txs[k]);
      assert txs[k].kind == Bet && Contribution(txs, w, k) == 0;
    }
  }

  /** Undoing a bet returns its amount; undoing anything else takes it away. */
  lemma ReversalSign(x: Tx, r: Tx)
    requires x.kind.IsReversal() && RefersTo(x.kind, r.kind)
    ensures SignedAmount(x, Some(r)) == if r.kind == Bet then x.amount.Units() else -x.amount.Units()
    ensures x.kind == Refund ==> r.kind == Bet
  {
  }
}
