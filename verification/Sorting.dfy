/** `Array.prototype.sort` with a comparator: a stable sort. `le(a, b)` stands
    for "the comparator does not put b before a". */
module Sorting {

  ghost predicate TotalOrder<T(!new)>(le: (T, T) -> bool) {
    && (forall a: T, b: T :: le(a, b) || le(b, a))
    && (forall a: T, b: T, c: T :: le(a, b) && le(b, c) ==> le(a, c))
  }

  /** Different elements of s never tie. */
  ghost predicate Untied<T>(s: seq<T>, le: (T, T) -> bool) {
    forall a, b :: a in s && b in s && le(a, b) && le(b, a) ==> a == b
  }

  ghost predicate Sorted<T>(s: seq<T>, le: (T, T) -> bool) {
    forall i, j :: 0 <= i < j < |s| ==> le(s[i], s[j])
  }

  function Insert<T>(s: seq<T>, x: T, le: (T, T) -> bool): (r: seq<T>)
    ensures |r| == |s| + 1
    ensures multiset(r) == multiset(s) + multiset{x}
    ensures forall i :: 0 <= i < |r| ==> r[i] == x || r[i] in s
  {
    if s == [] then [x]
    else
      var n := |s| - 1;
      assert s == s[..n] + [s[n]];
      if le(s[n], x) then s + [x] else Insert(s[..n], x, le) + [s[n]]
  }

  function StableSort<T>(s: seq<T>, le: (T, T) -> bool): (r: seq<T>)
    ensures |r| == |s|
    ensures multiset(r) == multiset(s)
    ensures forall i :: 0 <= i < |r| ==> r[i] in s
  {
    if s == [] then []
    else
      var n := |s| - 1;
      assert s == s[..n] + [s[n]];
      Insert(StableSort(s[..n], le), s[n], le)
  }

  lemma MemberOfSort<T>(s: seq<T>, le: (T, T) -> bool)
    ensures forall x :: x in StableSort(s, le) <==> x in s
  {
    forall x
      ensures x in StableSort(s, le) <==> x in s
    {
      assert x in StableSort(s, le) <==> x in multiset(StableSort(s, le));
      assert x in s <==> x in multiset(s);
    }
  }

  lemma {:induction false} InsertSorted<T(!new)>(s: seq<T>, x: T, le: (T, T) -> bool)
    requires TotalOrder(le) && Sorted(s, le)
    ensures Sorted(Insert(s, x, le), le)
  {
    if s != [] {
      var n := |s| - 1;
      if le(s[n], x) {
        assert forall i :: 0 <= i < n ==> le(s[i], s[n]);
      } else {
        InsertSorted(s[..n], x, le);
        var r := Insert(s[..n], x, le);
        forall i | 0 <= i < |r|
          ensures le(r[i], s[n])
        {
          assert r[i] in multiset(r);
          assert r[i] in multiset(s[..n]) || r[i] == x;
          if r[i] in multiset(s[..n]) {
            assert r[i] in s[..n];
          }
        }
      }
    }
  }

  lemma {:induction false} StableSortSorted<T(!new)>(s: seq<T>, le: (T, T) -> bool)
    requires TotalOrder(le)
    ensures Sorted(StableSort(s, le), le)
  {
    if s != [] {
      StableSortSorted(s[..|s| - 1], le);
      InsertSorted(StableSort(s[..|s| - 1], le), s[|s| - 1], le);
    }
  }

  ghost predicate TiesInOrder(s: seq<nat>, le: (nat, nat) -> bool) {
    forall i, j :: 0 <= i < j < |s| && le(s[j], s[i]) ==> s[i] < s[j]
  }

  lemma {:induction false} InsertTies(s: seq<nat>, x: nat, le: (nat, nat) -> bool)
    requires TotalOrder(le) && Sorted(s, le) && TiesInOrder(s, le)
    requires forall i :: 0 <= i < |s| ==> s[i] < x
    ensures TiesInOrder(Insert(s, x, le), le)
  {
    if s != [] {
      var n := |s| - 1;
      if !le(s[n], x) {
        InsertTies(s[..n], x, le);
        LastStaysLast(s, Insert(s[..n], x, le), x, le);
      }
    }
  }

  lemma LastStaysLast(s: seq<nat>, r: seq<nat>, x: nat, le: (nat, nat) -> bool)
    requires s != [] && TiesInOrder(s, le) && !le(s[|s| - 1], x) && TiesInOrder(r, le)
    requires forall i :: 0 <= i < |r| ==> r[i] == x || r[i] in s[..|s| - 1]
    ensures TiesInOrder(r + [s[|s| - 1]], le)
  {
    var n := |s| - 1;
    forall i | 0 <= i < |r| && le(s[n], r[i])
      ensures r[i] < s[n]
    {
      assert r[i] in s[..n];
      var k :| 0 <= k < n && s[..n][k] == r[i];
      assert s[k] == r[i];
    }
  }

  /** Sorting is stable: of indices that tie the smaller comes first. */
  lemma {:induction false} StableSortTies(s: seq<nat>, le: (nat, nat) -> bool)
    requires TotalOrder(le) && forall i, j :: 0 <= i < j < |s| ==> s[i] < s[j]
    ensures TiesInOrder(StableSort(s, le), le)
  {
    if s != [] {
      var n := |s| - 1;
      StableSortTies(s[..n], le);
      StableSortSorted(s[..n], le);
      var r := StableSort(s[..n], le);
      forall i | 0 <= i < |r|
        ensures r[i] < s[n]
      {
        assert r[i] in s[..n];
        var k :| 0 <= k < n && s[..n][k] == r[i];
      }
      InsertTies(r, s[n], le);
    }
  }

  lemma LastIsGreatest<T(!new)>(s: seq<T>, x: T, le: (T, T) -> bool)
    requires TotalOrder(le) && Sorted(s, le) && x in s
    ensures le(x, s[|s| - 1])
  {
    var i :| 0 <= i < |s| && s[i] == x;
    assert i == |s| - 1 || le(s[i], s[|s| - 1]);
  }

  lemma WithoutLast<T>(s: seq<T>)
    requires s != []
    ensures multiset(s[..|s| - 1]) == multiset(s) - multiset{s[|s| - 1]}
    ensures s[|s| - 1] in multiset(s)
  {
    assert s == s[..|s| - 1] + [s[|s| - 1]];
  }

  lemma SameLast<T(!new)>(s: seq<T>, r: seq<T>, le: (T, T) -> bool)
    requires TotalOrder(le) && Sorted(s, le) && Sorted(r, le)
    requires Untied(s, le)
    requires s != [] && r != [] && multiset(s) == multiset(r)
    ensures s[|s| - 1] == r[|r| - 1]
  {
    var x, y := s[|s| - 1], r[|r| - 1];
    assert x in r by { assert x in multiset(s); assert x in multiset(r); }
    assert y in s by { assert y in multiset(r); assert y in multiset(s); }
    LastIsGreatest(r, x, le);
    LastIsGreatest(s, y, le);
  }

  lemma SameSplit<T>(s: seq<T>, r: seq<T>, n: nat)
    requires |s| == |r| == n + 1 && s[..n] == r[..n] && s[n] == r[n]
    ensures s == r
  {
    assert s == s[..n] + [s[n]] && r == r[..n] + [r[n]];
  }

  lemma SameSize<T>(s: seq<T>, r: seq<T>)
    requires multiset(s) == multiset(r)
    ensures |s| == |r|
  {
    assert |s| == |multiset(s)| && |r| == |multiset(r)|;
  }

  lemma PrefixOfSorted<T>(s: seq<T>, n: nat, le: (T, T) -> bool)
    requires n <= |s|
    ensures Sorted(s, le) ==> Sorted(s[..n], le)
    ensures Untied(s, le) ==> Untied(s[..n], le)
  {
  }

  /** Two sorted arrangements of the same elements agree when no two different
      elements tie: sorting does not depend on the input order. */
  lemma {:induction false} SortedUnique<T(!new)>(s: seq<T>, r: seq<T>, le: (T, T) -> bool)
    requires TotalOrder(le) && Sorted(s, le) && Sorted(r, le)
    requires Untied(s, le)
    requires multiset(s) == multiset(r)
    ensures s == r
  {
    hide Sorted, Untied, TotalOrder;
    SameSize(s, r);
    if s != [] {
      SameLast(s, r, le);
      PrefixOfSorted(s, |s| - 1, le);
      PrefixOfSorted(r, |r| - 1, le);
      WithoutLast(s);
      WithoutLast(r);
      SortedUnique(s[..|s| - 1], r[..|r| - 1], le);
      SameSplit(s, r, |s| - 1);
    }
  }

  ghost predicate Distinct<T>(s: seq<T>) {
    forall i, j :: 0 <= i < j < |s| ==> s[i] != s[j]
  }

  lemma Twice<T>(s: seq<T>, i: nat, j: nat)
    requires i < j < |s| && s[i] == s[j]
    ensures multiset(s)[s[i]] >= 2
  {
    assert s == s[..i] + [s[i]] + s[i + 1..j] + [s[j]] + s[j + 1..];
  }

  lemma {:induction false} OnlyOnce<T>(s: seq<T>, x: T)
    requires Distinct(s)
    ensures multiset(s)[x] <= 1
  {
    if s != [] {
      var n := |s| - 1;
      assert s == s[..n] + [s[n]];
      OnlyOnce(s[..n], x);
      if s[n] == x {
        assert x !in s[..n];
      }
    }
  }

  /** Rearranging keeps elements distinct. */
  lemma StillDistinct<T>(s: seq<T>, r: seq<T>)
    requires Distinct(s) && multiset(s) == multiset(r)
    ensures Distinct(r)
  {
    forall i, j | 0 <= i < j < |r|
      ensures r[i] != r[j]
    {
      if r[i] == r[j] {
        Twice(r, i, j);
        OnlyOnce(s, r[i]);
        assert false;
      }
    }
  }

  lemma FoundElsewhere<T>(r: seq<T>, j: nat, y: T)
    requires j < |r| && y in r && y != r[j]
    ensures y in r[..j] + r[j + 1..]
  {
    var k :| 0 <= k < |r| && r[k] == y;
    assert (r[..j] + r[j + 1..])[if k < j then k else k - 1] == y;
  }

  lemma WithoutOne<T>(r: seq<T>, j: nat)
    requires j < |r|
    ensures multiset(r) == multiset(r[..j] + r[j + 1..]) + multiset{r[j]}
    ensures Distinct(r) ==> Distinct(r[..j] + r[j + 1..])
  {
    assert r == r[..j] + [r[j]] + r[j + 1..];
  }

  /** Where the last element of a stands in a rearrangement b, and that the
      rests are rearrangements again. */
  lemma MatchLast<T>(a: seq<T>, b: seq<T>) returns (j: nat)
    requires multiset(a) == multiset(b) && a != []
    ensures j < |b| && b[j] == a[|a| - 1]
    ensures multiset(a[..|a| - 1]) == multiset(b[..j] + b[j + 1..])
  {
    var n := |a| - 1;
    assert a[n] in multiset(b);
    j :| 0 <= j < |b| && b[j] == a[n];
    WithoutOne(b, j);
    WithoutLast(a);
    assert multiset(b[..j] + b[j + 1..]) == multiset(b) - multiset{a[n]};
  }

  /** Distinct lists of one length, one inside the other, have the same members. */
  lemma {:induction false} SameMembers<T>(s: seq<T>, r: seq<T>)
    requires Distinct(s) && Distinct(r) && |s| == |r|
    requires forall x :: x in s ==> x in r
    ensures multiset(s) == multiset(r)
  {
    if s != [] {
      var n := |s| - 1;
      assert s[n] in r;
      var j :| 0 <= j < |r| && r[j] == s[n];
      WithoutOne(r, j);
      WithoutOne(s, n);
      assert s[..n] + s[n + 1..] == s[..n];
      forall y | y in s[..n]
        ensures y in r[..j] + r[j + 1..]
      {
        FoundElsewhere(r, j, y);
      }
      SameMembers(s[..n], r[..j] + r[j + 1..]);
    }
  }
}
