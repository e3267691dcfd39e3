/** What may be asked of clocks that nobody synchronises. */
module Clocks {
  import opened Domain

  /** From the n-th reading on, some reading is at or past the instant. */
  ghost predicate Reaches(now: nat -> Time, t: Time, n: nat) {
    exists m: nat :: n <= m && t <= now(m)
  }

  /** However it wanders, or is set back, the clock reaches every instant again and again. */
  ghost predicate KeepsReaching(now: nat -> Time) {
    forall t: Time, n: nat :: Reaches(now, t, n)
  }

  ghost predicate PastFrom(now: nat -> Time, t: Time, start: nat) {
    forall n: nat :: start <= n ==> t <= now(n)
  }

  ghost predicate Leaves(now: nat -> Time, t: Time) {
    exists start: nat :: PastFrom(now, t, start)
  }

  /** The clock leaves every instant behind for good, however it wanders meanwhile. */
  ghost predicate LeavesAll(now: nat -> Time) {
    forall t: Time :: Leaves(now, t)
  }

  /** The steps at which something runs. */
  function Running<T>(steps: nat -> Option<T>): nat -> bool {
    (n: nat) => steps(n).Some?
  }

  /** From the n-th step on, some step that runs reads the instant or later. */
  ghost predicate RunsPast(runs: nat -> bool, now: nat -> Time, t: Time, n: nat) {
    exists m: nat :: n <= m && runs(m) && t <= now(m)
  }

  /** Steps that run keep coming, and their clock reaches every instant again and again. */
  ghost predicate KeepsRunning(runs: nat -> bool, now: nat -> Time) {
    forall t: Time, n: nat :: RunsPast(runs, now, t, n)
  }
}
