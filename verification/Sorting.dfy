/** Stable sorting by a comparison function, as slices.SortStableFunc promises it: what the result
    is when the comparison is a total preorder on the list, and why it is then the only one. */
module Sorting {

  predicate Opposite<T>(cmp: (T, T) -> int, a: T, b: T) {
    cmp(a, b) < 0 <==> cmp(b, a) > 0
  }

  predicate Chain<T>(cmp: (T, T) -> int, a: T, b: T, c: T) {
    cmp(a, b) <= 0 && cmp(b, c) <= 0 ==> cmp(a, c) <= 0
  }

  /** On the elements of the list the comparison is antisymmetric and transitive. */
  predicate PreorderOn<T(==)>(xs: seq<T>, cmp: (T, T) -> int) {
    && (forall a, b {:trigger Opposite(cmp, a, b)} :: a in xs && b in xs ==> Opposite(cmp, a, b))
    && (forall a, b, c {:trigger Chain(cmp, a, b, c)} :: a in xs && b in xs && c in xs ==> Chain(cmp, a, b, c))
  }

  predicate Ordered<T(==)>(xs: seq<T>, cmp: (T, T) -> int) {
    forall i, j :: 0 <= i < j < |xs| ==> cmp(xs[i], xs[j]) <= 0
  }

  function Front<T>(xs: seq<T>): seq<T>
    requires xs != []
  {
    xs[..|xs| - 1]
  }

  function Final<T>(xs: seq<T>): T
    requires xs != []
  {
    xs[|xs| - 1]
  }

  /** Moves `x` in from the end, past every element it is less than. */
  function Insert<T>(xs: seq<T>, x: T, cmp: (T, T) -> int): seq<T> {
    if xs == [] || cmp(x, Final(xs)) >= 0 then xs + [x] else Insert(Front(xs), x, cmp) + [Final(xs)]
  }

  function StableSort<T>(xs: seq<T>, cmp: (T, T) -> int): seq<T> {
    if xs == [] then [] else Insert(StableSort(Front(xs), cmp), Final(xs), cmp)
  }

  /** The elements equivalent to `v`, in order. */
  function Class<T>(xs: seq<T>, v: T, cmp: (T, T) -> int): seq<T> {
    if xs == [] then []
    else Class(Front(xs), v, cmp) + (if cmp(Final(xs), v) == 0 then [Final(xs)] else [])
  }

  lemma {:induction false} InsertPermutes<T>(xs: seq<T>, x: T, cmp: (T, T) -> int)
    ensures multiset(Insert(xs, x, cmp)) == multiset(xs + [x])
  {
    if xs != [] && cmp(x, Final(xs)) < 0 {
      InsertPermutes(Front(xs), x, cmp);
      assert xs == Front(xs) + [Final(xs)];
    }
  }

  lemma {:induction false} SortPermutes<T>(xs: seq<T>, cmp: (T, T) -> int)
    ensures multiset(StableSort(xs, cmp)) == multiset(xs)
  {
    if xs != [] {
      SortPermutes(Front(xs), cmp);
      InsertPermutes(StableSort(Front(xs), cmp), Final(xs), cmp);
      assert xs == Front(xs) + [Final(xs)];
    }
  }

  lemma SameMembers<T>(xs: seq<T>, ys: seq<T>)
    requires multiset(xs) == multiset(ys)
    ensures forall x :: x in xs <==> x in ys
  {
    assert forall x :: x in xs <==> x in multiset(xs);
    assert forall x :: x in ys <==> x in multiset(ys);
  }

  lemma AlsoIn<T>(xs: seq<T>, ys: seq<T>, x: T)
    requires multiset(xs) == multiset(ys) && x in xs
    ensures x in ys
  {
    assert x in multiset(xs);
  }

  lemma OrderedAppend<T>(xs: seq<T>, x: T, cmp: (T, T) -> int)
    requires Ordered(xs, cmp) && forall y :: y in xs ==> cmp(y, x) <= 0
    ensures Ordered(xs + [x], cmp)
  {
  }

  lemma OrderedParts<T>(xs: seq<T>, cmp: (T, T) -> int, y: T)
    requires xs != [] && Ordered(xs, cmp) && y in Front(xs)
    ensures Ordered(Front(xs), cmp) && cmp(y, Final(xs)) <= 0
  {
    var i :| 0 <= i < |Front(xs)| && Front(xs)[i] == y;
    assert cmp(xs[i], xs[|xs| - 1]) <= 0;
  }

  lemma {:induction false} InsertOrders<T>(xs: seq<T>, x: T, cmp: (T, T) -> int, all: seq<T>)
    requires PreorderOn(all, cmp) && Ordered(xs, cmp) && x in all && forall y :: y in xs ==> y in all
    ensures Ordered(Insert(xs, x, cmp), cmp)
  {
    if xs == [] {
    } else if cmp(x, Final(xs)) >= 0 {
      var last := Final(xs);
      assert Opposite(cmp, last, x) && Opposite(cmp, x, last);
      forall y | y in xs ensures cmp(y, x) <= 0 {
        if y in Front(xs) { OrderedParts(xs, cmp, y); } else { assert y == last; }
        assert Chain(cmp, y, last, x);
      }
      OrderedAppend(xs, x, cmp);
    } else {
      InsertOrders(Front(xs), x, cmp, all);
      InsertPermutes(Front(xs), x, cmp);
      forall y | y in Insert(Front(xs), x, cmp) ensures cmp(y, Final(xs)) <= 0 {
        AlsoIn(Insert(Front(xs), x, cmp), Front(xs) + [x], y);
        if y in Front(xs) { OrderedParts(xs, cmp, y); } else { assert y == x; }
      }
      OrderedAppend(Insert(Front(xs), x, cmp), Final(xs), cmp);
    }
  }

  lemma {:induction false} ClassAppend<T>(xs: seq<T>, x: T, v: T, cmp: (T, T) -> int)
    ensures Class(xs + [x], v, cmp) == Class(xs, v, cmp) + (if cmp(x, v) == 0 then [x] else [])
  {
    assert Front(xs + [x]) == xs;
  }

  lemma {:induction false} InsertIsStable<T>(xs: seq<T>, x: T, cmp: (T, T) -> int, v: T, all: seq<T>)
    requires PreorderOn(all, cmp) && x in all && v in all && forall y :: y in xs ==> y in all
    ensures Class(Insert(xs, x, cmp), v, cmp) == Class(xs + [x], v, cmp)
  {
    if xs != [] && cmp(x, Final(xs)) < 0 {
      var last := Final(xs);
      InsertIsStable(Front(xs), x, cmp, v, all);
      ClassAppend(Insert(Front(xs), x, cmp), last, v, cmp);
      ClassAppend(Front(xs), x, v, cmp);
      ClassAppend(xs, x, v, cmp);
      assert last in all;
      assert Opposite(cmp, last, x) && Opposite(cmp, x, last) && Opposite(cmp, v, x) && Opposite(cmp, x, v);
      assert Chain(cmp, last, v, x);
    }
  }

  lemma SortedIn<T>(xs: seq<T>, cmp: (T, T) -> int, all: seq<T>, y: T)
    requires (forall x :: x in xs ==> x in all) && y in StableSort(xs, cmp)
    ensures y in all
  {
    SortPermutes(xs, cmp);
    AlsoIn(StableSort(xs, cmp), xs, y);
  }

  /** On a total preorder the result is an ordered permutation that keeps equivalent elements in
      their order. */
  lemma {:induction false} SortIsStable<T>(xs: seq<T>, cmp: (T, T) -> int, all: seq<T>)
    requires PreorderOn(all, cmp) && forall y :: y in xs ==> y in all
    ensures Ordered(StableSort(xs, cmp), cmp)
    ensures forall v :: v in all ==> Class(StableSort(xs, cmp), v, cmp) == Class(xs, v, cmp)
  {
    if xs != [] {
      var sorted := StableSort(Front(xs), cmp);
      SortIsStable(Front(xs), cmp, all);
      forall y | y in sorted ensures y in all {
        SortedIn(Front(xs), cmp, all, y);
      }
      InsertOrders(sorted, Final(xs), cmp, all);
      forall v | v in all ensures Class(StableSort(xs, cmp), v, cmp) == Class(xs, v, cmp) {
        InsertIsStable(sorted, Final(xs), cmp, v, all);
        ClassAppend(sorted, Final(xs), v, cmp);
      }
    }
  }

  lemma LastIsGreatest<T>(xs: seq<T>, cmp: (T, T) -> int, y: T)
    requires PreorderOn(xs, cmp) && xs != [] && Ordered(xs, cmp) && y in xs
    ensures cmp(y, Final(xs)) <= 0
  {
    if y in Front(xs) {
      OrderedParts(xs, cmp, y);
    } else {
      assert y == Final(xs);
      assert Opposite(cmp, y, y);
    }
  }

  ghost predicate SameClasses<T>(a: seq<T>, b: seq<T>, cmp: (T, T) -> int) {
    forall v {:trigger v in a} :: v in a ==> Class(a, v, cmp) == Class(b, v, cmp)
  }

  lemma SameLast<T>(a: seq<T>, b: seq<T>, cmp: (T, T) -> int)
    requires PreorderOn(a, cmp) && PreorderOn(b, cmp) && a != [] && b != []
    requires multiset(a) == multiset(b) && Ordered(a, cmp) && Ordered(b, cmp)
    requires SameClasses(a, b, cmp)
    ensures Final(a) == Final(b)
  {
    var x, y := Final(a), Final(b);
    SameMembers(a, b);
    LastIsGreatest(a, cmp, y);
    LastIsGreatest(b, cmp, x);
    assert Opposite(cmp, x, y) && Opposite(cmp, y, x) && Opposite(cmp, x, x);
    assert x in a;
    assert Final(Class(a, x, cmp)) == x && Final(Class(b, x, cmp)) == y;
  }

  lemma DropLast<T>(a: seq<T>, b: seq<T>, cmp: (T, T) -> int, v: T)
    requires a != [] && b != [] && Final(a) == Final(b) && Class(a, v, cmp) == Class(b, v, cmp)
    ensures Class(Front(a), v, cmp) == Class(Front(b), v, cmp)
  {
    var c, d := Class(Front(a), v, cmp), Class(Front(b), v, cmp);
    var tail := if cmp(Final(a), v) == 0 then [Final(a)] else [];
    assert Class(a, v, cmp) == c + tail && Class(b, v, cmp) == d + tail;
    assert c == (c + tail)[..|c + tail| - |tail|] && d == (d + tail)[..|d + tail| - |tail|];
  }

  lemma FrontClasses<T>(a: seq<T>, b: seq<T>, cmp: (T, T) -> int)
    requires a != [] && b != [] && Final(a) == Final(b) && SameClasses(a, b, cmp)
    ensures SameClasses(Front(a), Front(b), cmp)
  {
    forall v | v in Front(a) ensures Class(Front(a), v, cmp) == Class(Front(b), v, cmp) {
      assert v in a;
      DropLast(a, b, cmp, v);
    }
  }

  lemma SameLength<T>(a: seq<T>, b: seq<T>)
    requires multiset(a) == multiset(b)
    ensures |a| == |b|
  {
    assert |multiset(a)| == |a| && |multiset(b)| == |b|;
  }

  lemma FrontMultiset<T>(a: seq<T>)
    requires a != []
    ensures multiset(Front(a)) == multiset(a) - multiset{Final(a)}
  {
    assert a == Front(a) + [Final(a)];
    assert multiset(a) == multiset(Front(a)) + multiset{Final(a)};
  }

  lemma FrontMultisets<T>(a: seq<T>, b: seq<T>)
    requires a != [] && b != [] && Final(a) == Final(b) && multiset(a) == multiset(b)
    ensures multiset(Front(a)) == multiset(Front(b))
  {
    FrontMultiset(a);
    FrontMultiset(b);
  }

  lemma PreorderOnFewer<T>(all: seq<T>, xs: seq<T>, cmp: (T, T) -> int)
    requires PreorderOn(all, cmp) && forall x :: x in xs ==> x in all
    ensures PreorderOn(xs, cmp)
  {
  }

  lemma OrderedFront<T>(a: seq<T>, cmp: (T, T) -> int)
    requires a != [] && Ordered(a, cmp)
    ensures Ordered(Front(a), cmp)
  {
  }

  lemma FrontPreorder<T>(a: seq<T>, cmp: (T, T) -> int)
    requires a != [] && PreorderOn(a, cmp) && Ordered(a, cmp)
    ensures PreorderOn(Front(a), cmp) && Ordered(Front(a), cmp)
  {
    OrderedFront(a, cmp);
    PreorderOnFewer(a, Front(a), cmp);
  }

  /** Any ordered permutation that keeps equivalent elements in their order is the same list. */
  lemma {:induction false} StableOrderIsUnique<T>(a: seq<T>, b: seq<T>, cmp: (T, T) -> int)
    requires PreorderOn(a, cmp) && PreorderOn(b, cmp)
    requires multiset(a) == multiset(b) && Ordered(a, cmp) && Ordered(b, cmp)
    requires SameClasses(a, b, cmp)
    ensures a == b
  {
    SameLength(a, b);
    if a != [] {
      SameLast(a, b, cmp);
      FrontMultisets(a, b);
      FrontPreorder(a, cmp);
      FrontPreorder(b, cmp);
      FrontClasses(a, b, cmp);
      StableOrderIsUnique(Front(a), Front(b), cmp);
      assert a == Front(a) + [Final(a)] && b == Front(b) + [Final(b)];
    }
  }
}
