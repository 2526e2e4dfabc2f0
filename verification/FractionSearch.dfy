/** The halving-then-bisection search for the largest fraction of a motion that some test accepts. */
module FractionSearch {
  import opened Wrappers

  /** A candidate for every fraction; `None` where the fraction is rejected. */
  type Attempts<!T> = real -> Option<T>

  function Half(n: nat): real {
    if n == 0 then 1.0 else Half(n - 1) / 2.0
  }

  const HALVINGS := 14

  const ROUNDS := 10

  /** Number of halvings until a candidate is accepted, or one more than allowed. */
  function FirstFit<T>(attempt: Attempts<T>, n: nat): nat
    requires n <= HALVINGS
    decreases HALVINGS - n
  {
    if attempt(Half(n)).Some? then n
    else if n == HALVINGS then n + 1
    else FirstFit(attempt, n + 1)
  }

  /** Bisection between an accepted and a rejected fraction. */
  function Refine<T>(attempt: Attempts<T>, low: real, high: real, found: T, rounds: nat): (real, T)
    decreases rounds
  {
    if rounds == 0 then (low, found)
    else
      var middle := (low + high) / 2.0;
      match attempt(middle)
      case Some(p) => Refine(attempt, middle, high, p, rounds - 1)
      case None => Refine(attempt, low, middle, found, rounds - 1)
  }

  function Search<T>(attempt: Attempts<T>, still: T): (real, T) {
    var n := FirstFit(attempt, 0);
    if n > HALVINGS || attempt(Half(n)).None? then (0.0, still)
    else if n == 0 then (1.0, attempt(1.0).value)
    else Refine(attempt, Half(n), Half(n - 1), attempt(Half(n)).value, ROUNDS)
  }

  lemma {:induction false} HalfPositive(n: nat)
    ensures 0.0 < Half(n) <= 1.0
    ensures n > 0 ==> Half(n) < 1.0 && Half(n - 1) == 2.0 * Half(n)
  {
    if n > 0 {
      HalfPositive(n - 1);
    }
  }

  lemma {:induction false} HalfOrder(m: nat, n: nat)
    requires m < n
    ensures Half(n) < Half(m)
  {
    HalfPositive(n);
    if m < n - 1 {
      HalfOrder(m, n - 1);
    }
  }

  lemma HalfFourteen()
    ensures Half(14) == 1.0 / 16384.0
  {
    assert Half(4) == 1.0 / 16.0;
    assert Half(8) == 1.0 / 256.0;
    assert Half(12) == 1.0 / 4096.0;
  }

  lemma {:induction false} FirstFitIsFirst<T>(attempt: Attempts<T>, n: nat, m: nat)
    requires n <= HALVINGS
    ensures n <= FirstFit(attempt, n) <= HALVINGS + 1
    ensures FirstFit(attempt, n) <= HALVINGS ==> attempt(Half(FirstFit(attempt, n))).Some?
    ensures n <= m < FirstFit(attempt, n) ==> attempt(Half(m)).None?
    decreases HALVINGS - n
  {
    if attempt(Half(n)).None? && n < HALVINGS {
      FirstFitIsFirst(attempt, n + 1, m);
    }
  }

  /** A width halved `rounds` times. */
  function Shrink(width: real, rounds: nat): real
    decreases rounds
  {
    if rounds == 0 then width else Shrink(width / 2.0, rounds - 1)
  }

  lemma ShrinkTen(width: real)
    ensures Shrink(width, ROUNDS) == width / 1024.0
  {
    assert Shrink(width, 10) == Shrink(width / 32.0, 5);
    assert Shrink(width / 32.0, 5) == width / 32.0 / 32.0;
  }

  /** Bisection keeps its bracket and halves it each round. */
  lemma {:induction false} RefineBrackets<T>(attempt: Attempts<T>, low: real, high: real, found: T, rounds: nat)
    returns (rejected: real)
    requires low < high && attempt(low) == Some(found) && attempt(high).None?
    ensures var (f, p) := Refine(attempt, low, high, found, rounds);
      && low <= f < rejected <= high && attempt(f) == Some(p) && attempt(rejected).None?
      && rejected - f == Shrink(high - low, rounds)
    decreases rounds
  {
    if rounds == 0 {
      rejected := high;
    } else {
      var middle := (low + high) / 2.0;
      match attempt(middle)
      case Some(p) => rejected := RefineBrackets(attempt, middle, high, p, rounds - 1);
      case None => rejected := RefineBrackets(attempt, low, middle, found, rounds - 1);
    }
  }

  /** The fraction is 1 exactly when the whole motion is accepted; 0 only when every power of a half down to
      1/16384 was rejected; any other fraction is accepted while one at most 1/1024 of it above was not. */
  lemma SearchIsTight<T>(attempt: Attempts<T>, still: T)
    ensures var (f, p) := Search(attempt, still);
      && 0.0 <= f <= 1.0
      && (f == 1.0 <==> attempt(1.0).Some?)
      && (f > 0.0 ==> attempt(f) == Some(p))
      && (f == 0.0 ==> p == still && forall n: nat | n <= HALVINGS :: attempt(Half(n)).None?)
      && (0.0 < f < 1.0 ==> exists rejected :: f < rejected <= f + f / 1024.0 && attempt(rejected).None?)
  {
    var n := FirstFit(attempt, 0);
    FirstFitIsFirst(attempt, 0, 0);
    assert Half(0) == 1.0;
    if n > HALVINGS {
      forall m: nat | m <= HALVINGS
        ensures attempt(Half(m)).None?
      {
        FirstFitIsFirst(attempt, 0, m);
      }
    } else if n > 0 {
      FirstFitIsFirst(attempt, 0, n - 1);
      HalfPositive(n);
      HalfPositive(n - 1);
      var rejected := RefineBrackets(attempt, Half(n), Half(n - 1), attempt(Half(n)).value, ROUNDS);
      ShrinkTen(Half(n - 1) - Half(n));
    }
  }

  /** Of the halved fractions the search takes the largest that is accepted, and goes on from there. */
  lemma LargerHalfRejected<T>(attempt: Attempts<T>, still: T, n: nat)
    requires n <= HALVINGS && Half(n) > Search(attempt, still).0
    ensures attempt(Half(n)).None?
  {
    if FirstFit(attempt, 0) <= n {
      LaterHalfNotLarger(attempt, still, n);
    } else {
      FirstFitIsFirst(attempt, 0, n);
    }
  }

  lemma LaterHalfNotLarger<T>(attempt: Attempts<T>, still: T, n: nat)
    requires FirstFit(attempt, 0) <= n <= HALVINGS
    ensures Half(n) <= Search(attempt, still).0
  {
    SearchFromFirst(attempt, still);
    if FirstFit(attempt, 0) < n {
      HalfOrder(FirstFit(attempt, 0), n);
    }
  }

  lemma SearchFromFirst<T>(attempt: Attempts<T>, still: T)
    requires FirstFit(attempt, 0) <= HALVINGS
    ensures Half(FirstFit(attempt, 0)) <= Search(attempt, still).0
  {
    var first := FirstFit(attempt, 0);
    FirstFitIsFirst(attempt, 0, 0);
    if first > 0 {
      HalfPositive(first);
      RefineGrows(attempt, Half(first), Half(first - 1), attempt(Half(first)).value, ROUNDS);
    }
  }

  lemma {:induction false} RefineGrows<T>(attempt: Attempts<T>, low: real, high: real, found: T, rounds: nat)
    requires low < high
    ensures low <= Refine(attempt, low, high, found, rounds).0
    decreases rounds
  {
    if rounds > 0 {
      var middle := (low + high) / 2.0;
      match attempt(middle)
      case Some(p) => RefineGrows(attempt, middle, high, p, rounds - 1);
      case None => RefineGrows(attempt, low, middle, found, rounds - 1);
    }
  }

  /** The loop's floor, 1/16384, is reached by the fourteenth halving and not before. */
  lemma FloorIsLastHalving(n: nat)
    requires n <= HALVINGS
    ensures Half(n) > 1.0 / 16384.0 <==> n < HALVINGS
  {
    HalfFourteen();
    if n < HALVINGS {
      HalfOrder(n, HALVINGS);
    }
  }

  /** Halves the fraction until a candidate is accepted or the floor is reached. */
  method HalveUntilAccepted<T>(attempt: Attempts<T>) returns (fraction: real, found: Option<T>, ghost n: nat)
    ensures n <= HALVINGS && fraction == Half(n) && found == attempt(fraction)
    ensures FirstFit(attempt, 0) == if found.Some? then n else HALVINGS + 1
  {
    fraction, n := 1.0, 0;
    found := attempt(fraction);
    FloorIsLastHalving(n);
    while found.None? && fraction > 1.0 / 16384.0
      invariant n <= HALVINGS && fraction == Half(n) && found == attempt(fraction)
      invariant fraction > 1.0 / 16384.0 <==> n < HALVINGS
      invariant FirstFit(attempt, 0) == FirstFit(attempt, n)
      decreases HALVINGS - n
    {
      fraction := fraction * 0.5;
      n := n + 1;
      found := attempt(fraction);
      FloorIsLastHalving(n);
    }
  }

  /** Ten rounds of bisection between an accepted and a rejected fraction. */
  method Bisect<T>(attempt: Attempts<T>, accepted: real, rejected: real, found: T) returns (fraction: real, result: T)
    ensures (fraction, result) == Refine(attempt, accepted, rejected, found, ROUNDS)
  {
    var high := rejected;
    fraction, result := accepted, found;
    for round := 0 to ROUNDS
      invariant Refine(attempt, fraction, high, result, ROUNDS - round)
             == Refine(attempt, accepted, rejected, found, ROUNDS)
    {
      var middle := (fraction + high) / 2.0;
      var refined := attempt(middle);
      match refined
      case None => high := middle;
      case Some(p) => fraction, result := middle, p;
    }
  }

  /** The search as the program runs it. */
  method FindFraction<T>(attempt: Attempts<T>, still: T) returns (fraction: real, result: T)
    ensures (fraction, result) == Search(attempt, still)
  {
    var found;
    ghost var n;
    fraction, found, n := HalveUntilAccepted(attempt);
    HalfPositive(n);
    if found.None? {
      fraction, result := 0.0, still;
    } else if fraction < 1.0 {
      HalfPositive(n - 1);
      fraction, result := Bisect(attempt, fraction, if fraction * 2.0 < 1.0 then fraction * 2.0 else 1.0, found.value);
    } else {
      result := found.value;
    }
  }
}
