/** "Sort a copy, then find": the shape of both the provider and the vehicle choice. */
module Selection {
  import opened Wrappers

  type Rank = (int, int)

  predicate Before(a: Rank, b: Rank) {
    a.0 < b.0 || (a.0 == b.0 && a.1 < b.1)
  }

  function Insert<T>(x: T, sorted: seq<T>, rank: T -> Rank): seq<T> {
    if sorted == [] then [x]
    else if Before(rank(sorted[0]), rank(x)) then [sorted[0]] + Insert(x, sorted[1..], rank)
    else [x] + sorted
  }

  /** A stable sort by rank. */
  function Sort<T>(xs: seq<T>, rank: T -> Rank): seq<T> {
    if xs == [] then [] else Insert(xs[0], Sort(xs[1..], rank), rank)
  }

  function Find<T>(xs: seq<T>, p: T -> bool): Option<T> {
    if xs == [] then None
    else if p(xs[0]) then Some(xs[0])
    else Find(xs[1..], p)
  }

  ghost predicate Sorted<T>(xs: seq<T>, rank: T -> Rank) {
    forall i, j :: 0 <= i < j < |xs| ==> !Before(rank(xs[j]), rank(xs[i]))
  }

  /** `choice` is an eligible element that no eligible element ranks before; None
      when nothing is eligible. */
  ghost predicate IsLeast<T(!new)>(xs: seq<T>, rank: T -> Rank, p: T -> bool, choice: Option<T>) {
    match choice
    case None => forall x :: x in xs ==> !p(x)
    case Some(c) => c in xs && p(c) && forall x :: x in xs && p(x) ==> !Before(rank(x), rank(c))
  }

  lemma {:induction false} InsertSorts<T>(x: T, sorted: seq<T>, rank: T -> Rank)
    requires Sorted(sorted, rank)
    ensures Sorted(Insert(x, sorted, rank), rank)
    ensures multiset(Insert(x, sorted, rank)) == multiset{x} + multiset(sorted)
  {
    if sorted != [] {
      assert sorted == [sorted[0]] + sorted[1..];
      if Before(rank(sorted[0]), rank(x)) {
        InsertSorts(x, sorted[1..], rank);
        var rest := Insert(x, sorted[1..], rank);
        forall y | y in rest
          ensures !Before(rank(y), rank(sorted[0]))
        {
          assert y in multiset(rest);
        }
      }
    }
  }

  lemma {:induction false} SortSorts<T>(xs: seq<T>, rank: T -> Rank)
    ensures Sorted(Sort(xs, rank), rank)
    ensures multiset(Sort(xs, rank)) == multiset(xs)
  {
    if xs != [] {
      assert xs == [xs[0]] + xs[1..];
      SortSorts(xs[1..], rank);
      InsertSorts(xs[0], Sort(xs[1..], rank), rank);
    }
  }

  lemma {:induction false} FindInSorted<T(!new)>(xs: seq<T>, rank: T -> Rank, p: T -> bool)
    requires Sorted(xs, rank)
    ensures IsLeast(xs, rank, p, Find(xs, p))
  {
    if xs != [] {
      assert xs == [xs[0]] + xs[1..];
      FindInSorted(xs[1..], rank, p);
    }
  }

  /** Sorting a copy and taking the first eligible element finds a least one. */
  lemma SortThenFindIsLeast<T(!new)>(xs: seq<T>, rank: T -> Rank, p: T -> bool)
    ensures IsLeast(xs, rank, p, Find(Sort(xs, rank), p))
  {
    var sorted := Sort(xs, rank);
    SortSorts(xs, rank);
    FindInSorted(sorted, rank, p);
    assert forall x :: x in sorted <==> x in multiset(sorted);
    assert forall x :: x in xs <==> x in multiset(xs);
  }
}
