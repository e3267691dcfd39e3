/** Sizes of sets, and products without multiplication. */
module Counting {

  /** The product, and nothing when a is negative. */
  function Times(a: int, n: nat): nat {
    if a <= 0 then 0 else Times(a - 1, n) + n
  }

  lemma {:induction false} TimesIsTheProduct(a: nat, n: nat)
    ensures Times(a, n) == a * n
  {
    if a > 0 {
      TimesIsTheProduct(a - 1, n);
      assert (a - 1) * n + n == a * n;
    }
  }

  lemma {:induction false} MoreTimes(a: nat, b: int, n: nat)
    requires a < b
    ensures Times(a, n) + n <= Times(b, n)
    decreases b
  {
    if a + 1 < b {
      MoreTimes(a, b - 1, n);
    }
  }

  lemma {:induction false} Below(a: set<nat>, n: nat)
    requires forall k :: k in a ==> k < n
    ensures |a| <= n
  {
    if n == 0 {
      assert a == {};
    } else {
      Below(a - {n - 1}, n - 1);
      Fits(a, (a - {n - 1}) + {n - 1});
    }
  }

  lemma Fits(a: set<nat>, b: set<nat>)
    requires a <= b
    ensures |a| <= |b|
  {
    assert b == a + (b - a);
  }

  lemma FitsWithin(a: set<nat>, b: set<nat>, x: nat)
    requires a <= b && x in b && x !in a
    ensures |a| < |b|
  {
    Fits(a, b - {x});
  }

  // ------------------------------------------------------------------ descent

  lemma {:induction false} NeverRises(measure: nat -> nat, n: nat, m: nat)
    requires n <= m && forall j: nat :: n <= j ==> measure(j + 1) <= measure(j)
    ensures measure(m) <= measure(n)
    decreases m
  {
    if n < m {
      var k: nat := m - 1;
      NeverRises(measure, n, k);
      assert measure(k + 1) <= measure(k);
    }
  }

  /** What never rises comes to rest. */
  lemma {:induction false} ComesToRest(measure: nat -> nat, n: nat) returns (m: nat)
    requires forall j: nat :: n <= j ==> measure(j + 1) <= measure(j)
    ensures n <= m && forall j: nat :: m <= j ==> measure(j) == measure(m)
    decreases measure(n)
  {
    if j: nat :| n <= j && measure(j) != measure(n) {
      NeverRises(measure, n, j);
      m := ComesToRest(measure, j);
    } else {
      m := n;
    }
  }

  ghost predicate RecursFrom(falls: nat -> bool, n: nat) {
    exists m: nat :: n <= m && falls(m)
  }

  lemma FewerThan(a: set<nat>, b: set<nat>)
    requires a <= b && a != b
    ensures |a| < |b|
  {
    var x :| x in b && x !in a;
    FitsWithin(a, b, x);
  }

  lemma {:induction false} StaysDue(due: nat -> set<nat>, u: nat, n: nat, m: nat)
    requires n <= m && u in due(n) && forall j: nat :: n <= j && u in due(j) ==> u in due(j + 1)
    ensures u in due(m)
    decreases m
  {
    if n < m {
      var k: nat := m - 1;
      StaysDue(due, u, n, k);
      assert u in due(k + 1);
    }
  }

  function Sizes(due: nat -> set<nat>): nat -> nat {
    (j: nat) => |due(j)|
  }

  ghost predicate KeepsRecurring(falls: nat -> bool) {
    forall j: nat :: RecursFrom(falls, j)
  }

  /** While u is not served it stays in the queue, which gains nobody, and loses somebody when it
      falls. */
  ghost predicate MovesOn(due: nat -> set<nat>, served: nat -> bool, falls: nat -> bool, u: nat, n: nat) {
    forall j: nat :: n <= j && u in due(j) && !served(j) ==>
      u in due(j + 1) && due(j + 1) <= due(j) && (falls(j) ==> due(j + 1) != due(j))
  }

  /** A queue that falls again and again while u is not served serves u. */
  lemma ServedSomeTime(due: nat -> set<nat>, served: nat -> bool, falls: nat -> bool, u: nat, n: nat) returns (m: nat)
    requires u in due(n) && KeepsRecurring(falls) && MovesOn(due, served, falls, u, n)
    ensures n <= m && u in due(m) && served(m)
  {
    if j: nat :| n <= j && u in due(j) && served(j) {
      m := j;
    } else {
      forall j: nat | n <= j ensures u in due(j) {
        StaysDue(due, u, n, j);
      }
      forall j: nat | n <= j ensures Sizes(due)(j + 1) <= Sizes(due)(j) {
        assert u in due(j) && !served(j);
        Fits(due(j + 1), due(j));
      }
      m := ComesToRest(Sizes(due), n);
      assert RecursFrom(falls, m);
      var j: nat :| m <= j && falls(j);
      assert Sizes(due)(j + 1) == Sizes(due)(m) && Sizes(due)(j) == Sizes(due)(m);
      FewerThan(due(j + 1), due(j));
      assert false;
    }
  }
}
