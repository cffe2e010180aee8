/** Python's `sorted`, lists without repetition, and conditional comprehensions. */
module Sorting {

  function Insert<T>(x: T, s: seq<T>, le: (T, T) -> bool): seq<T> {
    if s == [] then [x]
    else if le(x, s[0]) then [x] + s
    else [s[0]] + Insert(x, s[1..], le)
  }

  /** Python's `sorted` with a key: stable, by `le` on the keys. */
  function Sorted<T>(s: seq<T>, le: (T, T) -> bool): seq<T> {
    if s == [] then [] else Insert(s[0], Sorted(s[1..], le), le)
  }

  ghost predicate Ordered<T>(s: seq<T>, le: (T, T) -> bool) {
    forall i, j :: 0 <= i < j < |s| ==> le(s[i], s[j])
  }

  ghost predicate TotalOrder<T(!new)>(le: (T, T) -> bool) {
    && (forall a, b :: le(a, b) || le(b, a))
    && (forall a, b, c :: le(a, b) && le(b, c) ==> le(a, c))
  }

  lemma {:induction false} InsertAdds<T>(x: T, s: seq<T>, le: (T, T) -> bool)
    ensures multiset(Insert(x, s, le)) == multiset(s) + multiset{x}
  {
    if s != [] {
      assert s == [s[0]] + s[1..];
      InsertAdds(x, s[1..], le);
    }
  }

  lemma {:induction false} InsertOrders<T(!new)>(x: T, s: seq<T>, le: (T, T) -> bool)
    requires TotalOrder(le) && Ordered(s, le)
    ensures Ordered(Insert(x, s, le), le)
  {
    if s != [] {
      if le(x, s[0]) {
        forall i | 0 <= i < |s| ensures le(x, s[i]) {
          assert i > 0 ==> le(s[0], s[i]);
        }
      } else {
        InsertOrders(x, s[1..], le);
        var rest := Insert(x, s[1..], le);
        InsertAdds(x, s[1..], le);
        forall i | 0 <= i < |rest| ensures le(s[0], rest[i]) {
          assert rest[i] in multiset(rest);
          assert rest[i] == x || rest[i] in s[1..];
        }
      }
    }
  }

  lemma {:induction false} SortedIs<T(!new)>(s: seq<T>, le: (T, T) -> bool)
    requires TotalOrder(le)
    ensures Ordered(Sorted(s, le), le) && multiset(Sorted(s, le)) == multiset(s)
    ensures |Sorted(s, le)| == |s|
  {
    if s != [] {
      SortedIs(s[1..], le);
      InsertAdds(s[0], Sorted(s[1..], le), le);
      InsertOrders(s[0], Sorted(s[1..], le), le);
      assert s == [s[0]] + s[1..];
    }
    assert |Sorted(s, le)| == |multiset(Sorted(s, le))| == |multiset(s)|;
  }

  lemma SortedMembers<T(!new)>(s: seq<T>, le: (T, T) -> bool)
    requires TotalOrder(le)
    ensures forall x :: x in Sorted(s, le) <==> x in s
  {
    SortedIs(s, le);
    forall x ensures x in Sorted(s, le) <==> x in s {
      assert x in Sorted(s, le) <==> x in multiset(Sorted(s, le));
      assert x in s <==> x in multiset(s);
    }
  }

  lemma {:induction false} SortedAlready<T(!new)>(s: seq<T>, le: (T, T) -> bool)
    requires Ordered(s, le)
    ensures Sorted(s, le) == s
  {
    if s != [] {
      SortedAlready(s[1..], le);
      assert s == [s[0]] + s[1..];
    }
  }

  // ---------------------------------------------------------------- repetition

  ghost predicate Distinct<T>(s: seq<T>) {
    forall i, j :: 0 <= i < j < |s| ==> s[i] != s[j]
  }

  lemma {:induction false} DistinctCounts<T>(s: seq<T>, x: T)
    requires Distinct(s)
    ensures multiset(s)[x] <= 1
  {
    if s != [] {
      var n := |s| - 1;
      assert s == s[..n] + [s[n]];
      DistinctCounts(s[..n], x);
      if x == s[n] {
        assert x !in s[..n];
      }
    }
  }

  lemma CountsDistinct<T(!new)>(s: seq<T>)
    requires forall x :: multiset(s)[x] <= 1
    ensures Distinct(s)
  {
    forall i, j | 0 <= i < j < |s| ensures s[i] != s[j] {
      assert s == s[..j] + s[j..];
      assert s[i] in s[..j] && s[j] in s[j..];
      assert multiset(s) == multiset(s[..j]) + multiset(s[j..]);
      assert multiset(s[..j])[s[i]] >= 1 && multiset(s[j..])[s[j]] >= 1;
      assert multiset(s)[s[i]] == multiset(s[..j])[s[i]] + multiset(s[j..])[s[i]];
      assert multiset(s)[s[i]] <= 1;
    }
  }

  lemma SortedDistinct<T(!new)>(s: seq<T>, le: (T, T) -> bool)
    requires TotalOrder(le) && Distinct(s)
    ensures Distinct(Sorted(s, le))
  {
    SortedIs(s, le);
    forall x ensures multiset(Sorted(s, le))[x] <= 1 { DistinctCounts(s, x); }
    CountsDistinct(Sorted(s, le));
  }

  // ----------------------------------------------------------------- filtering

  /** A list comprehension with a condition. */
  function Keep<T>(s: seq<T>, f: T -> bool): seq<T> {
    if s == [] then []
    else (if f(s[0]) then [s[0]] else []) + Keep(s[1..], f)
  }

  lemma {:induction false} KeepIs<T(!new)>(s: seq<T>, f: T -> bool)
    ensures forall d :: d in Keep(s, f) <==> d in s && f(d)
    ensures forall d :: multiset(Keep(s, f))[d] == if f(d) then multiset(s)[d] else 0
  {
    if s != [] {
      KeepIs(s[1..], f);
      assert s == [s[0]] + s[1..];
      if f(s[0]) {
        assert Keep(s, f) == [s[0]] + Keep(s[1..], f);
      }
    }
  }

  lemma KeepDistinct<T(!new)>(s: seq<T>, f: T -> bool)
    requires Distinct(s)
    ensures Distinct(Keep(s, f))
  {
    KeepIs(s, f);
    forall d ensures multiset(Keep(s, f))[d] <= 1 { DistinctCounts(s, d); }
    CountsDistinct(Keep(s, f));
  }
}
