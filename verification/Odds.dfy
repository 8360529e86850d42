/** Bookmaker odds: removing the overround and taking medians over books.
    Arithmetic over reals, so rounding plays no part. */
module Odds {
  import Sorting

  predicate Le(a: real, b: real) {
    a <= b
  }

  function Sum(s: seq<real>): real {
    if s == [] then 0.0 else Sum(s[..|s| - 1]) + s[|s| - 1]
  }

  function Inverse(o: real): (r: real)
    ensures 0.0 <= r
    ensures 0.0 < r <==> 0.0 < o
  {
    if 0.0 < o then
      assert 0.0 < 1.0 / o by { PositiveQuotient(1.0, o); }
      1.0 / o
    else 0.0
  }

  lemma PositiveQuotient(a: real, b: real)
    requires 0.0 < a && 0.0 < b
    ensures 0.0 < a / b
  {
    assert (a / b) * b == a;
  }

  function Inverses(odds: seq<real>): (r: seq<real>)
    ensures |r| == |odds|
    ensures forall i :: 0 <= i < |odds| ==> r[i] == Inverse(odds[i])
  {
    seq(|odds|, i requires 0 <= i < |odds| => Inverse(odds[i]))
  }

  function Scaled(s: seq<real>, total: real): (r: seq<real>)
    requires total != 0.0
    ensures |r| == |s|
    ensures forall i :: 0 <= i < |s| ==> r[i] == s[i] / total
  {
    seq(|s|, i requires 0 <= i < |s| => s[i] / total)
  }

  function Zeros(n: nat): (r: seq<real>)
    ensures |r| == n && forall i :: 0 <= i < n ==> r[i] == 0.0
  {
    seq(n, i => 0.0)
  }

  function StripVig(odds: seq<real>): (r: seq<real>)
    ensures |r| == |odds|
  {
    var inv := Inverses(odds);
    var total := Sum(inv);
    if total <= 0.0 then Zeros(|odds|) else Scaled(inv, total)
  }

  /** Values in [0, 1] that add up to one, or nothing but zeros. */
  ghost predicate Distribution(p: seq<real>) {
    && (forall i :: 0 <= i < |p| ==> 0.0 <= p[i] <= 1.0)
    && (Sum(p) == 1.0 || forall i :: 0 <= i < |p| ==> p[i] == 0.0)
  }

  lemma DivideSum(a: real, b: real, t: real)
    requires t != 0.0
    ensures a / t + b / t == (a + b) / t
  {
  }

  lemma {:induction false} SumScaled(s: seq<real>, t: real)
    requires t != 0.0
    ensures Sum(Scaled(s, t)) == Sum(s) / t
  {
    if s != [] {
      var n := |s| - 1;
      SumScaled(s[..n], t);
      assert Scaled(s, t)[..n] == Scaled(s[..n], t);
      DivideSum(Sum(s[..n]), s[n], t);
    }
  }

  lemma {:induction false} PartsOfSum(s: seq<real>)
    requires forall i :: 0 <= i < |s| ==> 0.0 <= s[i]
    ensures 0.0 <= Sum(s) && forall i :: 0 <= i < |s| ==> s[i] <= Sum(s)
    ensures Sum(s) == 0.0 <==> forall i :: 0 <= i < |s| ==> s[i] == 0.0
  {
    if s != [] {
      var n := |s| - 1;
      PartsOfSum(s[..n]);
      assert forall i :: 0 <= i < n ==> s[..n][i] == s[i];
    }
  }

  lemma WholeShare(t: real)
    requires t != 0.0
    ensures t / t == 1.0
  {
  }

  lemma NonNegativeQuotient(a: real, b: real)
    requires 0.0 <= a && 0.0 < b
    ensures 0.0 <= a / b
    ensures 0.0 < a / b <==> 0.0 < a
  {
    if 0.0 < a {
      PositiveQuotient(a, b);
    }
  }

  lemma ShareOfTotal(v: real, t: real)
    requires 0.0 <= v <= t && 0.0 < t
    ensures 0.0 <= v / t <= 1.0
    ensures 0.0 < v / t <==> 0.0 < v
  {
    NonNegativeQuotient(v, t);
    NonNegativeQuotient(t - v, t);
    DivideSum(v, t - v, t);
    WholeShare(t);
  }

  /** Dividing by the total makes a distribution. */
  lemma ScaledDistribution(s: seq<real>)
    requires forall i :: 0 <= i < |s| ==> 0.0 <= s[i]
    requires 0.0 < Sum(s)
    ensures Distribution(Scaled(s, Sum(s))) && Sum(Scaled(s, Sum(s))) == 1.0
    ensures forall i :: 0 <= i < |s| ==> (0.0 < Scaled(s, Sum(s))[i] <==> 0.0 < s[i])
  {
    hide Sum;
    var t := Sum(s);
    SumScaled(s, t);
    WholeShare(t);
    PartsOfSum(s);
    SharesOfTotal(s, t);
  }

  lemma SharesOfTotal(s: seq<real>, t: real)
    requires 0.0 < t && forall i :: 0 <= i < |s| ==> 0.0 <= s[i] <= t
    ensures forall i :: 0 <= i < |s| ==> 0.0 <= Scaled(s, t)[i] <= 1.0 && (0.0 < Scaled(s, t)[i] <==> 0.0 < s[i])
  {
    forall i | 0 <= i < |s|
      ensures 0.0 <= Scaled(s, t)[i] <= 1.0 && (0.0 < Scaled(s, t)[i] <==> 0.0 < s[i])
    {
      ShareOfTotal(s[i], t);
    }
  }

  /** Stripping the overround gives probabilities: they add up to one exactly
      when some price is positive, and are all zero otherwise. */
  lemma StripVigIsDistribution(odds: seq<real>)
    ensures Distribution(StripVig(odds))
    ensures Sum(StripVig(odds)) == 1.0 <==> exists i :: 0 <= i < |odds| && 0.0 < odds[i]
    ensures forall i :: 0 <= i < |odds| ==> (0.0 < StripVig(odds)[i] <==> 0.0 < odds[i])
  {
    var inv := Inverses(odds);
    PartsOfSum(inv);
    if Sum(inv) <= 0.0 {
      PartsOfSum(Zeros(|odds|));
      assert forall i :: 0 <= i < |odds| ==> inv[i] == 0.0;
    } else {
      ScaledDistribution(inv);
      var i :| 0 <= i < |odds| && inv[i] != 0.0;
      assert 0.0 < odds[i];
    }
  }

  lemma ShareTimesPrice(o: real, t: real, p: real)
    requires 0.0 < o && 0.0 < t && p == 1.0 / o / t
    ensures p * o == 1.0 / t
  {
    var q := 1.0 / o;
    assert q * o == 1.0 && p * t == q;
    Swapped(p, o, t);
    OnlyInverse(p * o, t);
  }

  lemma Swapped(x: real, o: real, t: real)
    ensures (x * o) * t == (x * t) * o
  {
  }

  lemma OnlyInverse(y: real, t: real)
    requires t != 0.0 && y * t == 1.0
    ensures y == 1.0 / t
  {
  }

  lemma Share(odds: seq<real>, i: nat)
    requires i < |odds| && 0.0 < odds[i]
    ensures 0.0 < Sum(Inverses(odds))
    ensures StripVig(odds)[i] == 1.0 / odds[i] / Sum(Inverses(odds))
  {
    var inv := Inverses(odds);
    PartsOfSum(inv);
    assert inv[i] == 1.0 / odds[i];
  }

  /** The stripped probabilities keep the book's proportions: probability times
      price is the same for every outcome that has a price. */
  lemma StripVigKeepsProportions(odds: seq<real>, i: nat, j: nat)
    requires i < |odds| && j < |odds| && 0.0 < odds[i] && 0.0 < odds[j]
    ensures StripVig(odds)[i] * odds[i] == StripVig(odds)[j] * odds[j]
  {
    hide StripVig, Sum, Inverses;
    var total := Sum(Inverses(odds));
    Share(odds, i);
    Share(odds, j);
    ShareTimesPrice(odds[i], total, StripVig(odds)[i]);
    ShareTimesPrice(odds[j], total, StripVig(odds)[j]);
  }

  // ---------- medians ----------

  /** The i-th outcome of every book, a missing price counting as zero. */
  function Column(rows: seq<seq<real>>, i: nat): (r: seq<real>)
    ensures |r| == |rows|
    ensures forall k :: 0 <= k < |rows| ==> r[k] == (if i < |rows[k]| then rows[k][i] else 0.0)
  {
    seq(|rows|, k requires 0 <= k < |rows| => if i < |rows[k]| then rows[k][i] else 0.0)
  }

  function StripAll(books: seq<seq<real>>): (r: seq<seq<real>>)
    ensures |r| == |books|
    ensures forall k :: 0 <= k < |books| ==> r[k] == StripVig(books[k])
  {
    seq(|books|, k requires 0 <= k < |books| => StripVig(books[k]))
  }

  function Middle(sorted: seq<real>): real
    requires sorted != []
  {
    var mid := |sorted| / 2;
    if |sorted| % 2 == 0 then (sorted[mid - 1] + sorted[mid]) / 2.0 else sorted[mid]
  }

  function Median(col: seq<real>): real
    requires col != []
  {
    Middle(Sorting.StableSort(col, Le))
  }

  function Medians(books: seq<seq<real>>): (r: seq<real>)
    requires books != []
    ensures |r| == |books[0]|
    ensures forall i :: 0 <= i < |r| ==> r[i] == Median(Column(StripAll(books), i))
  {
    seq(|books[0]|, i requires 0 <= i < |books[0]| => Median(Column(StripAll(books), i)))
  }

  function Renormalised(p: seq<real>): (r: seq<real>)
    ensures |r| == |p|
  {
    if 0.0 < Sum(p) then Scaled(p, Sum(p)) else p
  }

  function Consensus(books: seq<seq<real>>): seq<real> {
    if books == [] then [] else Renormalised(Medians(books))
  }

  // ---------- what a median is ----------

  /** How many entries are at most `v`, and how many at least `v`. */
  function AtMost(col: seq<real>, v: real): nat {
    if col == [] then 0 else AtMost(col[..|col| - 1], v) + if col[|col| - 1] <= v then 1 else 0
  }

  function AtLeast(col: seq<real>, v: real): nat {
    if col == [] then 0 else AtLeast(col[..|col| - 1], v) + if col[|col| - 1] >= v then 1 else 0
  }

  /** The lower and the upper of the middle entries, the same one in an odd column. */
  ghost predicate LowerMiddle(col: seq<real>, v: real) {
    v in col && 2 * AtMost(col, v) >= |col| && 2 * AtLeast(col, v) > |col|
  }

  ghost predicate UpperMiddle(col: seq<real>, v: real) {
    v in col && 2 * AtLeast(col, v) >= |col| && 2 * AtMost(col, v) > |col|
  }

  /** Halfway between the middle entries. */
  ghost predicate IsMedian(col: seq<real>, med: real) {
    exists a, b :: LowerMiddle(col, a) && UpperMiddle(col, b) && med == (a + b) / 2.0
  }

  lemma {:induction false} CountsAddUp(a: seq<real>, b: seq<real>, v: real)
    ensures AtMost(a + b, v) == AtMost(a, v) + AtMost(b, v)
    ensures AtLeast(a + b, v) == AtLeast(a, v) + AtLeast(b, v)
  {
    if b == [] {
      assert a + b == a;
    } else {
      var n := |b| - 1;
      assert (a + b)[..|a| + n] == a + b[..n];
      CountsAddUp(a, b[..n], v);
    }
  }

  /** Counts do not depend on the order. */
  lemma {:induction false} SameCounts(a: seq<real>, b: seq<real>, v: real)
    requires multiset(a) == multiset(b)
    ensures AtMost(a, v) == AtMost(b, v) && AtLeast(a, v) == AtLeast(b, v)
  {
    Sorting.SameSize(a, b);
    if a != [] {
      var j := Sorting.MatchLast(a, b);
      SameCounts(a[..|a| - 1], b[..j] + b[j + 1..], v);
      CountsAddUp(b[..j], b[j + 1..], v);
      CountsAddUp(b[..j], [b[j]], v);
      CountsAddUp(b[..j] + [b[j]], b[j + 1..], v);
      assert b == b[..j] + [b[j]] + b[j + 1..];
    }
  }

  lemma {:induction false} CountsBounded(col: seq<real>, v: real)
    ensures AtMost(col, v) <= |col| && AtLeast(col, v) <= |col|
    ensures (forall i :: 0 <= i < |col| ==> col[i] <= v) ==> AtMost(col, v) == |col|
    ensures (forall i :: 0 <= i < |col| ==> v < col[i]) ==> AtMost(col, v) == 0
    ensures (forall i :: 0 <= i < |col| ==> v <= col[i]) ==> AtLeast(col, v) == |col|
    ensures (forall i :: 0 <= i < |col| ==> col[i] < v) ==> AtLeast(col, v) == 0
  {
    if col != [] {
      CountsBounded(col[..|col| - 1], v);
    }
  }

  /** A column cut in two: what the parts count. */
  lemma CountsOfParts(s: seq<real>, k: nat, v: real)
    requires k <= |s|
    ensures (forall i :: 0 <= i < k ==> s[i] <= v) ==> AtMost(s, v) >= k
    ensures (forall i :: k <= i < |s| ==> v < s[i]) ==> AtMost(s, v) <= k
    ensures (forall i :: k <= i < |s| ==> v <= s[i]) ==> AtLeast(s, v) >= |s| - k
    ensures (forall i :: 0 <= i < k ==> s[i] < v) ==> AtLeast(s, v) <= |s| - k
  {
    hide AtMost, AtLeast;
    var front, back := s[..k], s[k..];
    assert s == front + back;
    CountsAddUp(front, back, v);
    CountsBounded(front, v);
    CountsBounded(back, v);
  }

  /** In a sorted column the middle entries are where the sort puts them. */
  lemma MiddlesOfSorted(s: seq<real>, v: real)
    requires Sorting.Sorted(s, Le) && s != []
    ensures LowerMiddle(s, v) <==> v == s[(|s| - 1) / 2]
    ensures UpperMiddle(s, v) <==> v == s[|s| / 2]
  {
    hide AtMost, AtLeast;
    forall i, j | 0 <= i <= j < |s|
      ensures s[i] <= s[j]
    {
      assert i == j || Le(s[i], s[j]);
    }
    var lo, hi := (|s| - 1) / 2, |s| / 2;
    CountsOfParts(s, lo, v);
    CountsOfParts(s, lo + 1, v);
    CountsOfParts(s, hi, v);
    CountsOfParts(s, hi + 1, v);
  }

  lemma MiddlesAnyOrder(a: seq<real>, b: seq<real>, v: real)
    requires multiset(a) == multiset(b)
    ensures LowerMiddle(a, v) <==> LowerMiddle(b, v)
    ensures UpperMiddle(a, v) <==> UpperMiddle(b, v)
  {
    Sorting.SameSize(a, b);
    SameCounts(a, b, v);
    assert v in a <==> v in multiset(a);
    assert v in b <==> v in multiset(b);
  }

  lemma LeIsTotal()
    ensures Sorting.TotalOrder(Le)
  {
  }

  lemma MiddlesOf(col: seq<real>, v: real)
    requires col != []
    ensures var s := Sorting.StableSort(col, Le);
      && (LowerMiddle(col, v) <==> v == s[(|s| - 1) / 2])
      && (UpperMiddle(col, v) <==> v == s[|s| / 2])
  {
    hide Sorting.StableSort, LowerMiddle, UpperMiddle;
    LeIsTotal();
    Sorting.StableSortSorted(col, Le);
    MiddlesOfSorted(Sorting.StableSort(col, Le), v);
    MiddlesAnyOrder(col, Sorting.StableSort(col, Le), v);
  }

  /** The sort finds the median, and there is no other. */
  lemma MedianExactly(col: seq<real>, med: real)
    requires col != []
    ensures med == Median(col) <==> IsMedian(col, med)
  {
    hide Sorting.StableSort, LowerMiddle, UpperMiddle;
    var s := Sorting.StableSort(col, Le);
    var a, b := s[(|s| - 1) / 2], s[|s| / 2];
    assert Middle(s) == (a + b) / 2.0;
    MiddlesOf(col, a);
    MiddlesOf(col, b);
    if IsMedian(col, med) {
      var c, d :| LowerMiddle(col, c) && UpperMiddle(col, d) && med == (c + d) / 2.0;
      MiddlesOf(col, c);
      MiddlesOf(col, d);
    }
  }

  /** The middle entries of the sort are next to each other. */
  lemma Neighbours(col: seq<real>, s: seq<real>)
    requires Sorting.Sorted(s, Le) && s != [] && forall x :: x in col ==> x in s
    ensures s[(|s| - 1) / 2] <= s[|s| / 2]
    ensures forall x :: x in col ==> x <= s[(|s| - 1) / 2] || s[|s| / 2] <= x
  {
    var lo, hi := (|s| - 1) / 2, |s| / 2;
    assert lo == hi || Le(s[lo], s[hi]);
    forall x | x in col
      ensures x <= s[lo] || s[hi] <= x
    {
      var k :| 0 <= k < |s| && s[k] == x;
      assert k < lo ==> Le(s[k], s[lo]);
      assert k > hi ==> Le(s[hi], s[k]);
    }
  }

  /** Two entries with none strictly between them, at least half of the column
      at most the one and at least half at least the other. */
  ghost predicate MiddlePair(col: seq<real>, a: real, b: real) {
    && a in col && b in col && a <= b && 2 * AtMost(col, a) >= |col| && 2 * AtLeast(col, b) >= |col|
    && forall x :: x in col ==> x <= a || b <= x
  }

  lemma MiddlePairOf(col: seq<real>) returns (a: real, b: real)
    requires col != []
    ensures MiddlePair(col, a, b) && Median(col) == (a + b) / 2.0 && (|col| % 2 == 1 ==> a == b)
  {
    hide AtMost, AtLeast, Sorting.StableSort, Sorting.Sorted;
    var s := Sorting.StableSort(col, Le);
    a, b := s[(|s| - 1) / 2], s[|s| / 2];
    LeIsTotal();
    Sorting.StableSortSorted(col, Le);
    Sorting.MemberOfSort(col, Le);
    Neighbours(col, s);
    MiddlesOf(col, a);
    MiddlesOf(col, b);
  }

  /** At least half of the entries are at most the median and at least half are
      at least the median; in an odd column it is an entry, in an even one it
      is halfway between two entries with none strictly between them. */
  lemma MedianHalves(col: seq<real>)
    requires col != []
    ensures 2 * AtMost(col, Median(col)) >= |col| && 2 * AtLeast(col, Median(col)) >= |col|
    ensures |col| % 2 == 1 ==> Median(col) in col
    ensures exists a, b :: MiddlePair(col, a, b) && Median(col) == (a + b) / 2.0
  {
    hide AtMost, AtLeast, Median;
    var a, b := MiddlePairOf(col);
    MoreAtMost(col, a, Median(col));
    MoreAtLeast(col, b, Median(col));
  }

  lemma {:induction false} MoreAtMost(col: seq<real>, v: real, w: real)
    requires v <= w
    ensures AtMost(col, v) <= AtMost(col, w)
  {
    if col != [] {
      MoreAtMost(col[..|col| - 1], v, w);
    }
  }

  lemma {:induction false} MoreAtLeast(col: seq<real>, v: real, w: real)
    requires w <= v
    ensures AtLeast(col, v) <= AtLeast(col, w)
  {
    if col != [] {
      MoreAtLeast(col[..|col| - 1], v, w);
    }
  }

  /** How many books differ from their counterparts. */
  function Replaced(books: seq<seq<real>>, others: seq<seq<real>>): nat
    requires |books| == |others|
  {
    if books == [] then 0
    else
      var n := |books| - 1;
      Replaced(books[..n], others[..n]) + if books[n] == others[n] then 0 else 1
  }

  /** What the books that were not replaced quote for outcome `i`. */
  ghost predicate OthersWithin(books: seq<seq<real>>, others: seq<seq<real>>, i: nat, lo: real, hi: real)
    requires |books| == |others|
  {
    forall k :: 0 <= k < |books| && books[k] == others[k] ==> lo <= Column(StripAll(books), i)[k] <= hi
  }

  lemma ColumnFront(books: seq<seq<real>>, i: nat)
    requires books != []
    ensures Column(StripAll(books), i)[..|books| - 1] == Column(StripAll(books[..|books| - 1]), i)
  {
  }

  lemma {:induction false} KeptEntries(books: seq<seq<real>>, others: seq<seq<real>>, i: nat, lo: real, hi: real)
    requires |books| == |others| && OthersWithin(books, others, i, lo, hi)
    ensures AtLeast(Column(StripAll(others), i), lo) >= |books| - Replaced(books, others)
    ensures AtMost(Column(StripAll(others), i), hi) >= |books| - Replaced(books, others)
  {
    hide StripVig, Column, StripAll;
    if books != [] {
      var n := |books| - 1;
      ColumnFront(books, i);
      ColumnFront(others, i);
      KeptEntries(books[..n], others[..n], i, lo, hi);
      assert books[n] == others[n] ==> Column(StripAll(others), i)[n] == Column(StripAll(books), i)[n];
    }
  }

  lemma {:induction false} Apart(col: seq<real>, v: real, w: real)
    requires v < w
    ensures AtMost(col, v) + AtLeast(col, w) <= |col|
  {
    if col != [] {
      Apart(col[..|col| - 1], v, w);
    }
  }

  /** Replacing fewer than half of the books cannot push the median of an
      outcome out of the range of the other books. */
  lemma FewBooksCannotMove(books: seq<seq<real>>, others: seq<seq<real>>, i: nat, lo: real, hi: real)
    requires |books| == |others| && 2 * Replaced(books, others) < |books|
    requires OthersWithin(books, others, i, lo, hi)
    ensures lo <= Median(Column(StripAll(others), i)) <= hi
  {
    hide AtMost, AtLeast, StripVig, Median, Replaced, OthersWithin;
    var col := Column(StripAll(others), i);
    KeptEntries(books, others, i, lo, hi);
    MedianHalves(col);
    if Median(col) < lo {
      Apart(col, Median(col), lo);
    }
    if hi < Median(col) {
      Apart(col, hi, Median(col));
    }
  }

  /** Sort the column, then take its middle. */
  method MedianOf(column: seq<real>) returns (med: real)
    requires column != []
    ensures med == Median(column) && IsMedian(column, med)
  {
    hide Sorting.StableSort, IsMedian;
    MedianExactly(column, Median(column));
    var col := Sorting.StableSort(column, Le);
    var mid := |col| / 2;
    med := if |col| % 2 == 0 then (col[mid - 1] + col[mid]) / 2.0 else col[mid];
  }

  method MedianProbs(books: seq<seq<real>>) returns (result: seq<real>)
    ensures result == Consensus(books)
    ensures books != [] ==> |result| == |Medians(books)| == |books[0]|
    ensures forall i :: 0 <= i < |result| ==> IsMedian(Column(StripAll(books), i), Medians(books)[i])
    ensures books != [] && 0.0 < Sum(Medians(books)) ==>
              forall i :: 0 <= i < |result| ==> result[i] * Sum(Medians(books)) == Medians(books)[i]
  {
    hide StripVig, Sum, Median, Scaled, Column, IsMedian;
    if books == [] {
      return [];
    }
    var numOutcomes := |books[0]|;
    var stripped := StripAll(books);
    result := [];
    for i := 0 to numOutcomes
      invariant |result| == i
      invariant forall j :: 0 <= j < i ==>
        result[j] == Median(Column(stripped, j)) && IsMedian(Column(stripped, j), result[j])
    {
      var med := MedianOf(Column(stripped, i));
      result := result + [med];
    }
    assert result == Medians(books);
    var sum := Sum(result);
    if 0.0 < sum {
      result := Scaled(result, sum);
    }
  }

  lemma MedianInUnit(col: seq<real>)
    requires col != [] && forall k :: 0 <= k < |col| ==> 0.0 <= col[k] <= 1.0
    ensures 0.0 <= Median(col) <= 1.0
  {
    var sorted := Sorting.StableSort(col, Le);
    assert forall k :: 0 <= k < |sorted| ==> sorted[k] in col;
  }

  /** The consensus is a distribution whatever the prices. */
  lemma ConsensusIsDistribution(books: seq<seq<real>>)
    ensures Distribution(Consensus(books))
  {
    if books != [] {
      var p := Medians(books);
      forall i | 0 <= i < |p|
        ensures 0.0 <= p[i] <= 1.0
      {
        forall k | 0 <= k < |books|
          ensures 0.0 <= Column(StripAll(books), i)[k] <= 1.0
        {
          StripVigIsDistribution(books[k]);
        }
        MedianInUnit(Column(StripAll(books), i));
      }
      PartsOfSum(p);
      if 0.0 < Sum(p) {
        ScaledDistribution(p);
      }
    }
  }

  lemma MedianOfOne(x: real)
    ensures Median([x]) == x
  {
    var sorted := Sorting.StableSort([x], Le);
    assert sorted[0] in [x];
  }

  /** One book is its own consensus. */
  lemma OneBookDecides(book: seq<real>)
    ensures Consensus([book]) == StripVig(book)
  {
    hide StripVig, Median, Sum;
    StripVigIsDistribution(book);
    var p := StripVig(book);
    forall i | 0 <= i < |book|
      ensures Medians([book])[i] == p[i]
    {
      assert Column(StripAll([book]), i) == [p[i]];
      MedianOfOne(p[i]);
    }
    assert Medians([book]) == p;
    PartsOfSum(p);
    if 0.0 < Sum(p) {
      assert Sum(p) == 1.0;
      assert Scaled(p, 1.0) == p;
    }
  }

  // ---------- the order of the books ----------

  lemma ColumnSplit(books: seq<seq<real>>, i: nat)
    requires books != []
    ensures
      var n := |books| - 1;
      Column(StripAll(books), i) == Column(StripAll(books[..n]), i) + Column(StripAll([books[n]]), i)
  {
  }

  lemma ColumnDrop(books: seq<seq<real>>, j: nat, i: nat)
    requires j < |books|
    ensures multiset(Column(StripAll(books), i))
         == multiset(Column(StripAll(books[..j] + books[j + 1..]), i)) + multiset(Column(StripAll([books[j]]), i))
  {
    var col := Column(StripAll(books), i);
    Sorting.WithoutOne(col, j);
    assert col[..j] + col[j + 1..] == Column(StripAll(books[..j] + books[j + 1..]), i);
    assert Column(StripAll([books[j]]), i) == [col[j]];
  }

  lemma {:induction false} SameColumns(books: seq<seq<real>>, shuffled: seq<seq<real>>, i: nat)
    requires multiset(books) == multiset(shuffled)
    ensures multiset(Column(StripAll(books), i)) == multiset(Column(StripAll(shuffled), i))
  {
    Sorting.SameSize(books, shuffled);
    if books != [] {
      var j := Sorting.MatchLast(books, shuffled);
      SameColumns(books[..|books| - 1], shuffled[..j] + shuffled[j + 1..], i);
      ColumnSplit(books, i);
      ColumnDrop(shuffled, j, i);
    }
  }

  lemma SortOfSameMembers(a: seq<real>, b: seq<real>)
    requires multiset(a) == multiset(b)
    ensures Sorting.StableSort(a, Le) == Sorting.StableSort(b, Le)
  {
    Sorting.StableSortSorted(a, Le);
    Sorting.StableSortSorted(b, Le);
    Sorting.SortedUnique(Sorting.StableSort(a, Le), Sorting.StableSort(b, Le), Le);
  }

  /** Rearranging the books changes nothing as long as the first book keeps its
      number of outcomes. */
  lemma OrderIrrelevant(books: seq<seq<real>>, shuffled: seq<seq<real>>)
    requires multiset(books) == multiset(shuffled)
    requires books != [] && shuffled != [] && |books[0]| == |shuffled[0]|
    ensures Consensus(books) == Consensus(shuffled)
  {
    forall i | 0 <= i < |books[0]|
      ensures Medians(books)[i] == Medians(shuffled)[i]
    {
      SameColumns(books, shuffled, i);
      SortOfSameMembers(Column(StripAll(books), i), Column(StripAll(shuffled), i));
    }
    assert Medians(books) == Medians(shuffled);
  }

  ghost predicate SameLengths(books: seq<seq<real>>) {
    forall k :: 0 <= k < |books| ==> |books[k]| == |books[0]|
  }

  ghost predicate OrderFree(books: seq<seq<real>>) {
    forall shuffled: seq<seq<real>> :: multiset(shuffled) == multiset(books) ==> Consensus(shuffled) == Consensus(books)
  }

  /** No rearrangement of the books matters exactly when all of them quote the
      same number of outcomes. */
  lemma OrderFreeExactlyWhenAligned(books: seq<seq<real>>)
    ensures OrderFree(books) <==> SameLengths(books)
  {
    if SameLengths(books) {
      forall shuffled: seq<seq<real>> | multiset(shuffled) == multiset(books)
        ensures Consensus(shuffled) == Consensus(books)
      {
        Sorting.SameSize(shuffled, books);
        if books != [] {
          assert shuffled[0] in multiset(shuffled);
          assert shuffled[0] in books;
          OrderIrrelevant(books, shuffled);
        }
      }
    } else {
      var k :| 0 <= k < |books| && |books[k]| != |books[0]|;
      var rest := books[..k] + books[k + 1..];
      Sorting.WithoutOne(books, k);
      var shuffled := [books[k]] + rest;
      assert multiset(shuffled) == multiset(books);
      assert |Consensus(shuffled)| == |books[k]| && |Consensus(books)| == |books[0]|;
    }
  }

  // ---------- two outcomes ----------

  function Complement(s: seq<real>): (r: seq<real>)
    ensures |r| == |s| && forall i :: 0 <= i < |s| ==> r[i] == 1.0 - s[i]
  {
    seq(|s|, i requires 0 <= i < |s| => 1.0 - s[i])
  }

  function Reversed(s: seq<real>): (r: seq<real>)
    ensures |r| == |s| && forall i :: 0 <= i < |s| ==> r[i] == s[|s| - 1 - i]
  {
    seq(|s|, i requires 0 <= i < |s| => s[|s| - 1 - i])
  }

  lemma {:induction false} ReversedMembers(s: seq<real>)
    ensures multiset(Reversed(s)) == multiset(s)
  {
    if s == [] {
      assert Reversed(s) == s;
    } else {
      var n := |s| - 1;
      ReversedMembers(s[..n]);
      assert Reversed(s) == [s[n]] + Reversed(s[..n]);
      assert s == s[..n] + [s[n]];
    }
  }

  lemma ComplementDrop(b: seq<real>, j: nat)
    requires j < |b|
    ensures multiset(Complement(b)) == multiset(Complement(b[..j] + b[j + 1..])) + multiset{1.0 - b[j]}
  {
    Sorting.WithoutOne(Complement(b), j);
    assert Complement(b)[..j] + Complement(b)[j + 1..] == Complement(b[..j] + b[j + 1..]);
  }

  lemma {:induction false} ComplementMembers(a: seq<real>, b: seq<real>)
    requires multiset(a) == multiset(b)
    ensures multiset(Complement(a)) == multiset(Complement(b))
  {
    hide Complement;
    Sorting.SameSize(a, b);
    if a == [] {
      assert a == b;
    } else {
      var j := Sorting.MatchLast(a, b);
      ComplementMembers(a[..|a| - 1], b[..j] + b[j + 1..]);
      ComplementDrop(a, |a| - 1);
      assert a[..|a| - 1] + a[|a|..] == a[..|a| - 1];
      ComplementDrop(b, j);
    }
  }

  lemma ComplementReverses(up: seq<real>)
    requires Sorting.Sorted(up, Le)
    ensures Sorting.Sorted(Complement(Reversed(up)), Le)
  {
    var down := Complement(Reversed(up));
    forall i, j | 0 <= i < j < |down|
      ensures Le(down[i], down[j])
    {
      assert Le(up[|up| - 1 - j], up[|up| - 1 - i]);
    }
  }

  /** Complementing reverses the sorted column. */
  lemma SortComplement(s: seq<real>)
    ensures Sorting.StableSort(Complement(s), Le) == Complement(Reversed(Sorting.StableSort(s, Le)))
  {
    hide Sorting.StableSort, Sorting.Sorted, Complement, Reversed;
    var up := Sorting.StableSort(s, Le);
    Sorting.StableSortSorted(s, Le);
    Sorting.StableSortSorted(Complement(s), Le);
    ReversedMembers(up);
    ComplementMembers(Reversed(up), s);
    ComplementReverses(up);
    Sorting.SortedUnique(Sorting.StableSort(Complement(s), Le), Complement(Reversed(up)), Le);
  }

  /** The median of the complements is the complement of the median, for odd
      and for even counts. */
  lemma MedianComplement(s: seq<real>)
    requires s != []
    ensures Median(Complement(s)) == 1.0 - Median(s)
  {
    hide Sorting.StableSort, Middle, Complement, Reversed;
    SortComplement(s);
    MiddleFlipped(Sorting.StableSort(s, Le));
  }

  lemma MiddleFlipped(s: seq<real>)
    requires s != []
    ensures Middle(Complement(Reversed(s))) == 1.0 - Middle(s)
  {
    var n := |s|;
    var mid := n / 2;
    if n % 2 == 0 {
      assert n - 1 - mid == mid - 1;
    } else {
      assert n - 1 - mid == mid;
    }
  }

  lemma TwoWayBook(book: seq<real>)
    requires |book| == 2 && 0.0 < book[0] && 0.0 < book[1]
    ensures StripVig(book)[1] == 1.0 - StripVig(book)[0]
  {
    StripVigIsDistribution(book);
    var p := StripVig(book);
    assert Sum(p) == 1.0;
    assert Sum(p) == Sum(p[..1]) + p[1] && Sum(p[..1]) == Sum(p[..0]) + p[0];
  }

  /** With two positive prices in every book the medians already add up to one
      and the final renormalisation changes nothing. */
  lemma TwoWayMediansAddUp(books: seq<seq<real>>)
    requires books != []
    requires forall k :: 0 <= k < |books| ==> |books[k]| == 2 && 0.0 < books[k][0] && 0.0 < books[k][1]
    ensures Sum(Medians(books)) == 1.0
    ensures Consensus(books) == Medians(books)
  {
    var first, second := Column(StripAll(books), 0), Column(StripAll(books), 1);
    forall k | 0 <= k < |books|
      ensures second[k] == 1.0 - first[k]
    {
      TwoWayBook(books[k]);
    }
    assert second == Complement(first);
    MedianComplement(first);
    var m := Medians(books);
    assert Sum(m) == Sum(m[..1]) + m[1] && Sum(m[..1]) == Sum(m[..0]) + m[0];
    assert Scaled(m, 1.0) == m;
  }
}
