/** A fact that steps switch on and off, over any number of steps. Steps are numbered; `sets` and `clears` say
    which of them switch it on and off. */
module Histories {
  /** No step from `start` to before `n` is one of these. */
  ghost predicate Never(start: nat, n: nat, steps: nat -> bool) {
    forall j: nat | start <= j < n :: !steps(j)
  }

  /** Step `j` switches the fact on, and no step before `n` switches it off again. */
  ghost predicate LastOn(n: nat, sets: nat -> bool, clears: nat -> bool, j: nat) {
    j < n && sets(j) && Never(j, n, clears)
  }

  /** The fact held at `start` and was never switched off, or it was switched on and not off again. */
  ghost predicate Stands(start: nat, n: nat, before: bool, sets: nat -> bool, clears: nat -> bool) {
    (before && Never(start, n, clears)) || exists j: nat :: start <= j && LastOn(n, sets, clears, j)
  }

  /** The first such step, if there is one. */
  lemma {:induction false} FirstStep(start: nat, n: nat, steps: nat -> bool) returns (j: nat)
    requires !Never(start, n, steps)
    ensures start <= j < n && steps(j) && Never(start, j, steps)
    decreases n
  {
    if Never(start, n - 1, steps) {
      j := n - 1;
    } else {
      j := FirstStep(start, n - 1, steps);
    }
  }

  lemma NeverNext(start: nat, n: nat, steps: nat -> bool)
    requires start <= n
    ensures Never(start, n + 1, steps) <==> Never(start, n, steps) && !steps(n)
  {
  }

  lemma LastOnNext(n: nat, sets: nat -> bool, clears: nat -> bool, j: nat)
    ensures LastOn(n + 1, sets, clears, j) <==> !clears(n) && (LastOn(n, sets, clears, j) || (j == n && sets(n)))
  {
    if j <= n {
      NeverNext(j, n, clears);
    }
  }

  lemma StandsNext(start: nat, n: nat, before: bool, sets: nat -> bool, clears: nat -> bool)
    requires start <= n
    ensures Stands(start, n + 1, before, sets, clears) <==> !clears(n) && (Stands(start, n, before, sets, clears) || sets(n))
  {
    var next := n + 1;
    NeverNext(start, n, clears);
    if exists j: nat :: start <= j && LastOn(next, sets, clears, j) {
      var j: nat :| start <= j && LastOn(next, sets, clears, j);
      LastOnNext(n, sets, clears, j);
    }
    LastOnNext(n, sets, clears, n);
    if exists j: nat :: start <= j && LastOn(n, sets, clears, j) {
      var j: nat :| start <= j && LastOn(n, sets, clears, j);
      LastOnNext(n, sets, clears, j);
    }
  }

  /** If every step changes the fact in this way only, these are exactly the ways in which it can hold. */
  lemma {:induction false} FlagIff(start: nat, n: nat, on: nat -> bool, sets: nat -> bool, clears: nat -> bool)
    requires start <= n
    requires forall j: nat | start <= j < n :: on(j + 1) == (!clears(j) && (on(j) || sets(j)))
    ensures on(n) <==> Stands(start, n, on(start), sets, clears)
    decreases n - start
  {
    if start < n {
      var last := n - 1;
      FlagIff(start, last, on, sets, clears);
      assert on(last + 1) == (!clears(last) && (on(last) || sets(last)));
      StandsNext(start, last, on(start), sets, clears);
    }
  }
}
