/** sort.Ints, as a function. */
module Sorting {
  function Insert(x: int, xs: seq<int>): seq<int> {
    if xs == [] || x <= xs[0] then [x] + xs else [xs[0]] + Insert(x, xs[1..])
  }

  function SortInts(xs: seq<int>): seq<int> {
    if xs == [] then [] else Insert(xs[0], SortInts(xs[1..]))
  }

  predicate Ascending(xs: seq<int>) {
    forall i, j :: 0 <= i < j < |xs| ==> xs[i] <= xs[j]
  }

  lemma {:induction false} InsertKeeps(x: int, xs: seq<int>)
    ensures multiset(Insert(x, xs)) == multiset(xs) + multiset{x}
  {
    if xs != [] && x > xs[0] {
      InsertKeeps(x, xs[1..]);
      assert xs == [xs[0]] + xs[1..];
    }
  }

  lemma {:induction false} InsertSorts(x: int, xs: seq<int>)
    requires Ascending(xs)
    ensures Ascending(Insert(x, xs))
    ensures xs != [] && x > xs[0] ==> Insert(x, xs)[0] == xs[0]
  {
    if xs != [] && x > xs[0] {
      InsertSorts(x, xs[1..]);
      var rest := Insert(x, xs[1..]);
      assert rest[0] >= xs[0];
    }
  }

  lemma {:induction false} SortIntsSorts(xs: seq<int>)
    ensures Ascending(SortInts(xs)) && multiset(SortInts(xs)) == multiset(xs)
  {
    if xs != [] {
      SortIntsSorts(xs[1..]);
      InsertKeeps(xs[0], SortInts(xs[1..]));
      InsertSorts(xs[0], SortInts(xs[1..]));
      assert xs == [xs[0]] + xs[1..];
    }
  }

  predicate Distinct(xs: seq<int>) {
    forall i, j :: 0 <= i < j < |xs| ==> xs[i] != xs[j]
  }

  lemma {:induction false} DistinctOnce(a: seq<int>, x: int)
    requires Distinct(a)
    ensures multiset(a)[x] <= 1
  {
    if a != [] {
      assert a == a[..|a| - 1] + [a[|a| - 1]];
      DistinctOnce(a[..|a| - 1], x);
    }
  }

  lemma TwiceCounts(a: seq<int>, i: nat, j: nat)
    requires i < j < |a| && a[i] == a[j]
    ensures multiset(a)[a[i]] >= 2
  {
    assert a == a[..i] + [a[i]] + a[i + 1..j] + [a[j]] + a[j + 1..];
  }

  /** Sorting a duplicate-free list gives the same elements, strictly ascending. */
  lemma SortDistinct(xs: seq<int>)
    requires Distinct(xs)
    ensures var s := SortInts(xs);
            && |s| == |xs| && (forall k :: k in s <==> k in xs)
            && forall i, j :: 0 <= i < j < |s| ==> s[i] < s[j]
  {
    var sorted := SortInts(xs);
    SortIntsSorts(xs);
    hide SortInts;
    assert |multiset(sorted)| == |sorted| && |multiset(xs)| == |xs|;
    forall k ensures k in sorted <==> k in xs {
      assert k in sorted <==> k in multiset(sorted);
      assert k in xs <==> k in multiset(xs);
    }
    forall i, j | 0 <= i < j < |sorted| ensures sorted[i] < sorted[j] {
      if sorted[i] == sorted[j] {
        TwiceCounts(sorted, i, j);
        DistinctOnce(xs, sorted[i]);
      }
    }
  }
}
