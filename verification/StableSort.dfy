/**
  What sorted() and list.sort() promise, for any total preorder: the result is ordered, holds
  the same elements, and elements that compare equal keep their order.
*/
module StableSort {

  ghost predicate IsTotalPreorder<T(!new)>(leq: (T, T) -> bool) {
    && (forall x, y :: leq(x, y) || leq(y, x))
    && (forall x, y, z :: leq(x, y) && leq(y, z) ==> leq(x, z))
  }

  ghost predicate IsSorted<T>(s: seq<T>, leq: (T, T) -> bool) {
    forall i, j :: 0 <= i < j < |s| ==> leq(s[i], s[j])
  }

  function Insert<T>(x: T, s: seq<T>, leq: (T, T) -> bool): seq<T> {
    if s == [] || leq(x, s[0]) then [x] + s else [s[0]] + Insert(x, s[1..], leq)
  }

  function Sort<T>(s: seq<T>, leq: (T, T) -> bool): seq<T> {
    if s == [] then [] else Insert(s[0], Sort(s[1..], leq), leq)
  }

  function Filter<T>(s: seq<T>, keep: T -> bool): seq<T> {
    if s == [] then [] else (if keep(s[0]) then [s[0]] else []) + Filter(s[1..], keep)
  }

  function Sum<T>(s: seq<T>, weight: T -> int): int {
    if s == [] then 0 else weight(s[0]) + Sum(s[1..], weight)
  }

  lemma {:induction false} InsertMultiset<T>(x: T, s: seq<T>, leq: (T, T) -> bool)
    ensures multiset(Insert(x, s, leq)) == multiset{x} + multiset(s)
  {
    if s != [] {
      assert s == [s[0]] + s[1..];
      InsertMultiset(x, s[1..], leq);
    }
  }

  lemma {:induction false} SortIsPermutation<T>(s: seq<T>, leq: (T, T) -> bool)
    ensures multiset(Sort(s, leq)) == multiset(s)
  {
    if s != [] {
      assert s == [s[0]] + s[1..];
      SortIsPermutation(s[1..], leq);
      InsertMultiset(s[0], Sort(s[1..], leq), leq);
    }
  }

  lemma {:induction false} SortKeepsElements<T>(s: seq<T>, leq: (T, T) -> bool)
    ensures |Sort(s, leq)| == |s|
    ensures forall x :: x in Sort(s, leq) <==> x in s
  {
    SortIsPermutation(s, leq);
    assert |multiset(Sort(s, leq))| == |multiset(s)|;
    forall x ensures x in Sort(s, leq) <==> x in s {
      assert x in multiset(Sort(s, leq)) <==> x in multiset(s);
    }
  }

  lemma {:induction false} InsertKeepsSorted<T(!new)>(x: T, s: seq<T>, leq: (T, T) -> bool)
    requires IsTotalPreorder(leq) && IsSorted(s, leq)
    ensures IsSorted(Insert(x, s, leq), leq)
  {
    if s == [] || leq(x, s[0]) {
      FirstIsLeast(x, s, leq);
    } else {
      var rest := Insert(x, s[1..], leq);
      InsertKeepsSorted(x, s[1..], leq);
      forall y <- rest ensures leq(s[0], y) {
        InsertMultiset(x, s[1..], leq);
        assert y in multiset(rest);
      }
      FirstIsLeast(s[0], rest, leq);
    }
  }

  lemma FirstIsLeast<T(!new)>(x: T, s: seq<T>, leq: (T, T) -> bool)
    requires IsTotalPreorder(leq) && IsSorted(s, leq)
    requires s == [] || leq(x, s[0])
    ensures IsSorted([x] + s, leq)
  {
  }

  lemma {:induction false} SortIsSorted<T(!new)>(s: seq<T>, leq: (T, T) -> bool)
    requires IsTotalPreorder(leq)
    ensures IsSorted(Sort(s, leq), leq)
  {
    if s != [] {
      SortIsSorted(s[1..], leq);
      InsertKeepsSorted(s[0], Sort(s[1..], leq), leq);
    }
  }

  /** The elements that compare equal to a pivot. */
  function EqualTo<T>(pivot: T, leq: (T, T) -> bool): T -> bool {
    x => leq(x, pivot) && leq(pivot, x)
  }

  lemma {:induction false} InsertIsStable<T(!new)>(x: T, s: seq<T>, leq: (T, T) -> bool, pivot: T)
    requires IsTotalPreorder(leq)
    ensures Filter(Insert(x, s, leq), EqualTo(pivot, leq)) == Filter([x] + s, EqualTo(pivot, leq))
  {
    if s != [] && !leq(x, s[0]) {
      var keep := EqualTo(pivot, leq);
      InsertIsStable(x, s[1..], leq, pivot);
      assert !keep(x) || !keep(s[0]);
      assert ([x] + s)[1..] == s && ([x] + s[1..])[1..] == s[1..];
    }
  }

  lemma {:induction false} SortIsStable<T(!new)>(s: seq<T>, leq: (T, T) -> bool, pivot: T)
    requires IsTotalPreorder(leq)
    ensures Filter(Sort(s, leq), EqualTo(pivot, leq)) == Filter(s, EqualTo(pivot, leq))
  {
    if s != [] {
      SortIsStable(s[1..], leq, pivot);
      InsertIsStable(s[0], Sort(s[1..], leq), leq, pivot);
      assert ([s[0]] + Sort(s[1..], leq))[1..] == Sort(s[1..], leq);
    }
  }

  /** All that a stable sort promises: it leaves exactly one possible result. */
  ghost predicate IsStablySorted<T(!new)>(sorted: seq<T>, s: seq<T>, leq: (T, T) -> bool) {
    && IsSorted(sorted, leq) && multiset(sorted) == multiset(s)
    && forall pivot :: Filter(sorted, EqualTo(pivot, leq)) == Filter(s, EqualTo(pivot, leq))
  }

  lemma {:induction false} SortIsStablySorted<T(!new)>(s: seq<T>, leq: (T, T) -> bool)
    requires IsTotalPreorder(leq)
    ensures IsStablySorted(Sort(s, leq), s, leq)
  {
    SortIsSorted(s, leq);
    SortIsPermutation(s, leq);
    forall pivot: T ensures Filter(Sort(s, leq), EqualTo(pivot, leq)) == Filter(s, EqualTo(pivot, leq)) {
      SortIsStable(s, leq, pivot);
    }
  }

  lemma {:induction false} FilterKeepsElements<T>(s: seq<T>, keep: T -> bool, x: T)
    requires keep(x)
    ensures x in Filter(s, keep) <==> x in s
  {
    if s != [] {
      FilterKeepsElements(s[1..], keep, x);
    }
  }

  lemma InOrder<T>(a: seq<T>, b: seq<T>, c: seq<T>)
    ensures a + (b + c) == a + b + c
  {
  }

  lemma {:induction false} FilterOfConcatenation<T>(s: seq<T>, t: seq<T>, keep: T -> bool)
    ensures Filter(s + t, keep) == Filter(s, keep) + Filter(t, keep)
  {
    if s == [] {
      assert s + t == t && [] + Filter(t, keep) == Filter(t, keep);
    } else {
      assert (s + t)[1..] == s[1..] + t;
      FilterOfConcatenation(s[1..], t, keep);
      InOrder(if keep(s[0]) then [s[0]] else [], Filter(s[1..], keep), Filter(t, keep));
    }
  }

  lemma {:induction false} FilterTwice<T>(s: seq<T>, first: T -> bool, second: T -> bool, both: T -> bool)
    requires forall x <- s :: both(x) <==> first(x) && second(x)
    ensures Filter(Filter(s, first), second) == Filter(s, both)
  {
    if s != [] {
      FilterTwice(s[1..], first, second, both);
      var rest := Filter(s[1..], first);
      assert ([s[0]] + rest)[1..] == rest && [] + rest == rest;
    }
  }

  /** x stands before y. */
  ghost predicate Precedes<T>(s: seq<T>, x: T, y: T) {
    s != [] && ((s[0] == x && y in s[1..]) || Precedes(s[1..], x, y))
  }

  lemma {:induction false} PrecedesByPosition<T>(s: seq<T>, x: T, y: T)
    requires Precedes(s, x, y)
    ensures exists i, j :: 0 <= i < j < |s| && s[i] == x && s[j] == y
  {
    if s[0] == x && y in s[1..] {
      var j :| 0 <= j < |s[1..]| && s[1..][j] == y;
      assert s[0] == x && s[j + 1] == y;
    } else {
      PrecedesByPosition(s[1..], x, y);
      var i, j :| 0 <= i < j < |s[1..]| && s[1..][i] == x && s[1..][j] == y;
      assert s[i + 1] == x && s[j + 1] == y;
    }
  }

  lemma {:induction false} FilterKeepsOrder<T>(s: seq<T>, keep: T -> bool, x: T, y: T)
    requires keep(x) && keep(y)
    ensures Precedes(Filter(s, keep), x, y) <==> Precedes(s, x, y)
  {
    if s != [] {
      FilterKeepsOrder(s[1..], keep, x, y);
      FilterKeepsElements(s[1..], keep, y);
      assert keep(s[0]) ==> ([s[0]] + Filter(s[1..], keep))[1..] == Filter(s[1..], keep);
      assert [] + Filter(s[1..], keep) == Filter(s[1..], keep);
    }
  }

  /** Elements that compare equal keep their order. */
  lemma {:induction false} SortKeepsOrder<T(!new)>(s: seq<T>, leq: (T, T) -> bool, x: T, y: T)
    requires IsTotalPreorder(leq) && leq(x, y) && leq(y, x)
    ensures Precedes(Sort(s, leq), x, y) <==> Precedes(s, x, y)
  {
    SortIsStable(s, leq, y);
    FilterKeepsOrder(s, EqualTo(y, leq), x, y);
    FilterKeepsOrder(Sort(s, leq), EqualTo(y, leq), x, y);
  }

  // ---------- Elements that differ ----------

  ghost predicate AllDiffer<T>(s: seq<T>, differ: (T, T) -> bool) {
    forall i, j :: 0 <= i < j < |s| ==> differ(s[i], s[j])
  }

  lemma OneMoreDiffers<T>(x: T, s: seq<T>, differ: (T, T) -> bool)
    requires AllDiffer(s, differ) && forall y <- s :: differ(x, y)
    ensures AllDiffer([x] + s, differ)
  {
  }

  lemma {:induction false} InsertKeepsDiffering<T>(x: T, s: seq<T>, leq: (T, T) -> bool, differ: (T, T) -> bool)
    requires AllDiffer(s, differ) && forall y <- s :: differ(x, y) && differ(y, x)
    ensures AllDiffer(Insert(x, s, leq), differ)
  {
    if s == [] || leq(x, s[0]) {
      OneMoreDiffers(x, s, differ);
    } else {
      var rest := Insert(x, s[1..], leq);
      InsertKeepsDiffering(x, s[1..], leq, differ);
      forall y <- rest ensures differ(s[0], y) {
        InsertMultiset(x, s[1..], leq);
        assert y in multiset(rest);
      }
      OneMoreDiffers(s[0], rest, differ);
    }
  }

  /** Sorting keeps a symmetric relation between any two elements. */
  lemma {:induction false} SortKeepsDiffering<T(!new)>(s: seq<T>, leq: (T, T) -> bool, differ: (T, T) -> bool)
    requires AllDiffer(s, differ) && forall x, y :: differ(x, y) ==> differ(y, x)
    ensures AllDiffer(Sort(s, leq), differ)
  {
    if s != [] {
      SortKeepsDiffering(s[1..], leq, differ);
      SortKeepsElements(s[1..], leq);
      InsertKeepsDiffering(s[0], Sort(s[1..], leq), leq, differ);
    }
  }

  // ---------- Sums ----------

  lemma {:induction false} InsertKeepsSum<T>(x: T, s: seq<T>, leq: (T, T) -> bool, weight: T -> int)
    ensures Sum(Insert(x, s, leq), weight) == weight(x) + Sum(s, weight)
  {
    if s == [] || leq(x, s[0]) {
      assert ([x] + s)[1..] == s;
    } else {
      InsertKeepsSum(x, s[1..], leq, weight);
    }
  }

  lemma {:induction false} SortKeepsSum<T>(s: seq<T>, leq: (T, T) -> bool, weight: T -> int)
    ensures Sum(Sort(s, leq), weight) == Sum(s, weight)
  {
    if s != [] {
      SortKeepsSum(s[1..], leq, weight);
      InsertKeepsSum(s[0], Sort(s[1..], leq), leq, weight);
    }
  }

  lemma {:induction false} SumOfConcatenation<T>(s: seq<T>, t: seq<T>, weight: T -> int)
    ensures Sum(s + t, weight) == Sum(s, weight) + Sum(t, weight)
  {
    if s == [] {
      assert s + t == t;
    } else {
      assert (s + t)[1..] == s[1..] + t;
      SumOfConcatenation(s[1..], t, weight);
    }
  }

  lemma {:induction false} SumOfNats<T>(s: seq<T>, weight: T -> int)
    requires forall x <- s :: weight(x) >= 0
    ensures Sum(s, weight) >= 0
  {
    if s != [] {
      SumOfNats(s[1..], weight);
    }
  }
}
