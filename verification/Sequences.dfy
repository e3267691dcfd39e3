/** Selections and sums over tables, which are sequences of rows that grow at the end. */
module Sequences {

  /** The rows that satisfy `p`, in order. */
  function Filter<T>(s: seq<T>, p: T -> bool): seq<T> {
    if s == [] then []
    else Filter(s[..|s| - 1], p) + (if p(s[|s| - 1]) then [s[|s| - 1]] else [])
  }

  lemma FilterAppend<T>(s: seq<T>, x: T, p: T -> bool)
    ensures Filter(s + [x], p) == Filter(s, p) + (if p(x) then [x] else [])
  {
    assert (s + [x])[..|s|] == s;
  }

  lemma {:induction false} FilterConcat<T>(s: seq<T>, t: seq<T>, p: T -> bool)
    ensures Filter(s + t, p) == Filter(s, p) + Filter(t, p)
  {
    if t == [] {
      assert s + t == s;
    } else {
      var init, x := t[..|t| - 1], t[|t| - 1];
      assert s + t == (s + init) + [x];
      FilterAppend(s + init, x, p);
      FilterConcat(s, init, p);
    }
  }

  lemma {:induction false} FilterMembers<T>(s: seq<T>, p: T -> bool, x: T)
    ensures x in Filter(s, p) <==> x in s && p(x)
  {
    if s != [] {
      FilterMembers(s[..|s| - 1], p, x);
      assert s == s[..|s| - 1] + [s[|s| - 1]];
    }
  }

  lemma {:induction false} FilterNone<T>(s: seq<T>, p: T -> bool)
    requires forall x :: x in s ==> !p(x)
    ensures Filter(s, p) == []
  {
    if s != [] {
      FilterNone(s[..|s| - 1], p);
      assert s[|s| - 1] in s;
    }
  }

  /** A selection that takes the first of one or two, and not the second. */
  lemma OneOfTwo<T>(s: seq<T>, p: T -> bool)
    requires 1 <= |s| <= 2 && p(s[0]) && (|s| == 2 ==> !p(s[1]))
    ensures Filter(s, p) == [s[0]]
  {
    FilterAppend([], s[0], p);
    assert [] + [s[0]] == [s[0]];
    if |s| == 2 {
      FilterAppend([s[0]], s[1], p);
      assert s == [s[0]] + [s[1]];
    } else {
      assert s == [s[0]];
    }
  }

  lemma NoneAt<T>(s: seq<T>, p: T -> bool)
    requires forall k :: 0 <= k < |s| ==> !p(s[k])
    ensures Filter(s, p) == []
  {
    FilterNone(s, p);
  }

  /** Selecting from a prefix gives a prefix of the selection. */
  lemma FilterPrefix<T>(s: seq<T>, t: seq<T>, p: T -> bool)
    requires s <= t
    ensures Filter(s, p) <= Filter(t, p)
  {
    assert t == s + t[|s|..];
    FilterConcat(s, t[|s|..], p);
  }

  /** Two selections in a row amount to one, by a predicate both agree on. */
  lemma {:induction false} FilterTwice<T>(s: seq<T>, p: T -> bool, q: T -> bool, both: T -> bool)
    requires forall x :: x in s ==> (both(x) <==> p(x) && q(x))
    ensures Filter(Filter(s, p), q) == Filter(s, both)
  {
    if s != [] {
      var init, x := s[..|s| - 1], s[|s| - 1];
      assert x in s;
      FilterTwice(init, p, q, both);
      FilterAppend(Filter(init, p), x, q);
      assert Filter(init, p) + [] == Filter(init, p);
    }
  }

  /** Only the rows that may change matter: the selection is blind to the others. */
  lemma {:induction false} FilterSame<T>(s: seq<T>, t: seq<T>, p: T -> bool)
    requires |s| == |t|
    requires forall i :: 0 <= i < |s| ==> s[i] == t[i] || (!p(s[i]) && !p(t[i]))
    ensures Filter(s, p) == Filter(t, p)
  {
    if s != [] {
      FilterSame(s[..|s| - 1], t[..|t| - 1], p);
    }
  }

  function Sum(s: seq<int>): int {
    if s == [] then 0 else Sum(s[..|s| - 1]) + s[|s| - 1]
  }

  lemma SumAppend(s: seq<int>, x: int)
    ensures Sum(s + [x]) == Sum(s) + x
  {
    assert (s + [x])[..|s|] == s;
  }

  lemma {:induction false} SumUpdate(s: seq<int>, i: nat, x: int)
    requires i < |s|
    ensures Sum(s[i := x]) == Sum(s) - s[i] + x
  {
    if i == |s| - 1 {
      assert s[i := x][..|s| - 1] == s[..|s| - 1];
    } else {
      SumUpdate(s[..|s| - 1], i, x);
      assert s[i := x][..|s| - 1] == s[..|s| - 1][i := x];
    }
  }

  // ------------------------------------------------------------------- turns

  function OneMoreTurn<S, A>(now: (S, seq<A>), turn: (S, nat) -> (S, A)): (S, seq<A>) {
    var taken := turn(now.0, |now.1|);
    (taken.0, now.1 + [taken.1])
  }

  /** The state after n turns, and what each answered. */
  function Turns<S, A>(x: S, n: nat, turn: (S, nat) -> (S, A)): (r: (S, seq<A>))
    ensures |r.1| == n
  {
    if n == 0 then (x, []) else OneMoreTurn(Turns(x, n - 1, turn), turn)
  }

  /** What each turn keeps, whatever the state and the answers so far, all of them keep. */
  lemma {:induction false} TurnsKeep<S, A>(x: S, n: nat, turn: (S, nat) -> (S, A), kept: ((S, seq<A>)) -> bool)
    requires kept((x, []))
    requires forall now: (S, seq<A>) :: kept(now) && |now.1| < n ==> kept(OneMoreTurn(now, turn))
    ensures kept(Turns(x, n, turn))
  {
    if n > 0 {
      TurnsKeep(x, n - 1, turn, kept);
    }
  }

  /** What the i-th turn answered is not changed by those after it. */
  lemma {:induction false} AnswerOfTurn<S, A>(x: S, n: nat, turn: (S, nat) -> (S, A), i: nat)
    requires i < n
    ensures Turns(x, n, turn).1[i] == turn(Turns(x, i, turn).0, i).1
  {
    if i < n - 1 {
      AnswerOfTurn(x, n - 1, turn, i);
    }
  }

  lemma {:induction false} TurnsThatChangeNothing<S, A>(x: S, n: nat, turn: (S, nat) -> (S, A))
    requires forall i :: 0 <= i < n ==> turn(x, i).0 == x
    ensures Turns(x, n, turn).0 == x
  {
    if n > 0 {
      TurnsThatChangeNothing(x, n - 1, turn);
    }
  }

  /** Turns that change nothing when they fail, and fail, change nothing. */
  lemma {:induction false} FailedTurnsChangeNothing<S, A>(x: S, n: nat, turn: (S, nat) -> (S, A), failed: A -> bool)
    requires forall now: S, i: nat :: failed(turn(now, i).1) ==> turn(now, i).0 == now
    requires forall i :: 0 <= i < n ==> failed(Turns(x, n, turn).1[i])
    ensures Turns(x, n, turn).0 == x
  {
    if n > 0 {
      var early := Turns(x, n - 1, turn).1;
      forall i | 0 <= i < n - 1 ensures failed(early[i]) {
        assert Turns(x, n, turn).1[i] == early[i];
      }
      FailedTurnsChangeNothing(x, n - 1, turn, failed);
      assert failed(Turns(x, n, turn).1[n - 1]);
    }
  }

  // --------------------------------------------------------------------- runs

  /** Each state follows from the one before it, for so many steps. */
  ghost predicate Follow<S, R>(step: nat -> (S, R, S) -> bool, trace: nat -> S, taken: nat -> R, length: nat) {
    forall n: nat :: n < length ==> step(n)(trace(n), taken(n), trace(n + 1))
  }

  function With<T>(s: nat -> T, k: nat, value: T): nat -> T {
    (n: nat) => if n == k then value else s(n)
  }

  lemma OneMoreFollows<S, R>(step: nat -> (S, R, S) -> bool, trace: nat -> S, taken: nat -> R, length: nat, r: R, later: S)
    requires Follow(step, trace, taken, length) && step(length)(trace(length), r, later)
    ensures Follow(step, With(trace, length + 1, later), With(taken, length, r), length + 1)
  {
  }
}
