/** Strings in the order the program sorts them: lexicographically by code points. */
module KeyOrder {
  /** Lexicographic order by code points. */
  predicate Leq(a: string, b: string) {
    a == [] || (b != [] && (a[0] < b[0] || (a[0] == b[0] && Leq(a[1..], b[1..]))))
  }

  function Insert(key: string, keys: seq<string>): (r: seq<string>)
    ensures multiset(r) == multiset(keys) + multiset{key}
  {
    if keys == [] || Leq(key, keys[0]) then [key] + keys
    else
      assert keys == [keys[0]] + keys[1..];
      [keys[0]] + Insert(key, keys[1..])
  }

  function Sort(keys: seq<string>): (r: seq<string>)
    ensures multiset(r) == multiset(keys)
  {
    if keys == [] then []
    else
      assert keys == [keys[0]] + keys[1..];
      Insert(keys[0], Sort(keys[1..]))
  }

  predicate Sorted(keys: seq<string>) {
    forall i, j | 0 <= i < j < |keys| :: Leq(keys[i], keys[j])
  }

  lemma {:induction false} LeqTotal(a: string, b: string)
    ensures Leq(a, b) || Leq(b, a)
    ensures Leq(a, b) && Leq(b, a) ==> a == b
  {
    if a != [] && b != [] && a[0] == b[0] {
      LeqTotal(a[1..], b[1..]);
      assert a == [a[0]] + a[1..] && b == [b[0]] + b[1..];
    }
  }

  lemma {:induction false} LeqTransitive(a: string, b: string, c: string)
    requires Leq(a, b) && Leq(b, c)
    ensures Leq(a, c)
  {
    if a != [] && a[0] == b[0] && b[0] == c[0] {
      LeqTransitive(a[1..], b[1..], c[1..]);
    }
  }

  predicate IsLeast(keys: set<string>, k: string) {
    k in keys && forall x | x in keys :: Leq(k, x)
  }

  lemma {:induction false} LeastExists(keys: set<string>)
    requires keys != {}
    ensures exists k :: IsLeast(keys, k)
    ensures forall j, k | IsLeast(keys, j) && IsLeast(keys, k) :: j == k
    decreases |keys|
  {
    var first :| first in keys;
    var rest := keys - {first};
    LeqTotal(first, first);
    assert keys == rest + {first};
    if rest == {} {
      assert IsLeast(keys, first);
    } else {
      LeastExists(rest);
      var k :| IsLeast(rest, k);
      LeqTotal(first, k);
      if Leq(k, first) {
        assert IsLeast(keys, k);
      } else {
        forall x | x in rest
          ensures Leq(first, x)
        {
          LeqTransitive(first, k, x);
        }
        assert IsLeast(keys, first);
      }
    }
    forall j, k | IsLeast(keys, j) && IsLeast(keys, k)
      ensures j == k
    {
      LeqTotal(j, k);
    }
  }

  /** The members of a set in order. */
  function InOrder(keys: set<string>): (r: seq<string>)
    ensures forall k :: k in r <==> k in keys
    decreases |keys|
  {
    if keys == {} then []
    else
      LeastExists(keys);
      var k :| IsLeast(keys, k);
      [k] + InOrder(keys - {k})
  }

  lemma SameMembers(a: seq<string>, b: seq<string>)
    requires multiset(a) == multiset(b)
    ensures forall k :: k in a <==> k in b
  {
    forall k
      ensures k in a <==> k in b
    {
      assert k in a <==> k in multiset(a);
    }
  }

  lemma {:induction false} InsertSorted(key: string, keys: seq<string>)
    requires Sorted(keys)
    ensures Sorted(Insert(key, keys))
  {
    if keys != [] {
      LeqTotal(key, keys[0]);
      if Leq(key, keys[0]) {
        forall j | 0 < j < |keys|
          ensures Leq(key, keys[j])
        {
          LeqTransitive(key, keys[0], keys[j]);
        }
      } else {
        var rest := Insert(key, keys[1..]);
        InsertSorted(key, keys[1..]);
        SameMembers(rest, keys[1..] + [key]);
        forall j | 0 <= j < |rest|
          ensures Leq(keys[0], rest[j])
        {
          assert rest[j] in keys[1..] + [key];
        }
      }
    }
  }

  lemma {:induction false} SortSorted(keys: seq<string>)
    ensures Sorted(Sort(keys))
  {
    if keys != [] {
      SortSorted(keys[1..]);
      InsertSorted(keys[0], Sort(keys[1..]));
    }
  }

  lemma OnceEach(a: seq<string>, b: seq<string>)
    requires multiset(a) == multiset(b) && forall i, j | 0 <= i < j < |a| :: a[i] != a[j]
    ensures forall i, j | 0 <= i < j < |b| :: b[i] != b[j]
  {
    forall i, j | 0 <= i < j < |b|
      ensures b[i] != b[j]
    {
      if b[i] == b[j] {
        assert b == b[..i] + [b[i]] + b[i + 1..j] + [b[j]] + b[j + 1..];
        assert multiset(b)[b[i]] >= 2;
        AtMostOnce(a, b[i]);
      }
    }
  }

  lemma {:induction false} AtMostOnce(a: seq<string>, x: string)
    requires forall i, j | 0 <= i < j < |a| :: a[i] != a[j]
    ensures multiset(a)[x] <= 1
  {
    if a != [] {
      assert a == [a[0]] + a[1..];
      AtMostOnce(a[1..], x);
      if a[0] == x {
        assert x !in a[1..];
        assert multiset(a[1..])[x] == 0;
      }
    }
  }

  lemma PopFirst(a: seq<string>)
    requires a != []
    ensures multiset(a) == multiset{a[0]} + multiset(a[1..])
  {
    assert a == [a[0]] + a[1..];
  }

  lemma TailsEqual(a: seq<string>, b: seq<string>)
    requires a != [] && b != [] && a[0] == b[0] && multiset(a) == multiset(b)
    ensures multiset(a[1..]) == multiset(b[1..])
  {
    PopFirst(a);
    PopFirst(b);
    assert multiset(a[1..]) == multiset(a) - multiset{a[0]};
  }

  lemma SameLength(a: seq<string>, b: seq<string>)
    requires multiset(a) == multiset(b)
    ensures |a| == |b|
  {
    assert |multiset(a)| == |a| && |multiset(b)| == |b|;
  }

  /** Sorted sequences with the same elements are equal. */
  lemma {:induction false} SortedUnique(a: seq<string>, b: seq<string>)
    requires Sorted(a) && Sorted(b) && multiset(a) == multiset(b)
    ensures a == b
  {
    SameMembers(a, b);
    SameLength(a, b);
    if a != [] {
      assert a[0] in b && b[0] in a;
      FirstIsLeast(a, b[0]);
      FirstIsLeast(b, a[0]);
      LeqTotal(a[0], b[0]);
      TailsEqual(a, b);
      SortedUnique(a[1..], b[1..]);
      assert a == [a[0]] + a[1..] && b == [b[0]] + b[1..];
    }
  }

  lemma {:induction false} LeqReflexive(a: string)
    ensures Leq(a, a)
  {
    LeqTotal(a, a);
  }

  lemma FirstIsLeast(a: seq<string>, x: string)
    requires Sorted(a) && x in a
    ensures Leq(a[0], x)
  {
    LeqReflexive(a[0]);
  }

  /** The order in which a sort is given its strings does not matter. */
  lemma SortForgetsOrder(a: seq<string>, b: seq<string>)
    requires multiset(a) == multiset(b)
    ensures Sort(a) == Sort(b)
  {
    SortSorted(a);
    SortSorted(b);
    SortedUnique(Sort(a), Sort(b));
  }
}
