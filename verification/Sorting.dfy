// Sorting as the services rely on it: Go's sort.SliceStable, Python's sorted and
// SQL's ORDER BY. What the callers need is not the algorithm but that a comparator that
// separates all elements leaves exactly one possible answer.
module Sorting {

  ghost predicate StrictWeakOrder<T(!new)>(less: (T, T) -> bool) {
    && (forall x :: !less(x, x))
    && (forall x, y, z :: less(x, y) && less(y, z) ==> less(x, z))
    && (forall x, y, z :: !less(x, y) && !less(y, z) ==> !less(x, z))
  }

  ghost predicate Sorted<T(!new)>(s: seq<T>, less: (T, T) -> bool) {
    forall i, j :: 0 <= i < j < |s| ==> !less(s[j], s[i])
  }

  // No two different elements of s tie.
  ghost predicate Separates<T(!new)>(s: seq<T>, less: (T, T) -> bool) {
    forall x, y :: x in s && y in s && x != y ==> less(x, y) || less(y, x)
  }

  function Insert<T>(x: T, s: seq<T>, less: (T, T) -> bool): (r: seq<T>)
    ensures multiset(r) == multiset([x]) + multiset(s)
  {
    if s == [] then [x]
    else if less(s[0], x) then
      assert s == [s[0]] + s[1..];
      [s[0]] + Insert(x, s[1..], less)
    else [x] + s
  }

  // A stable insertion sort: an element is placed before everything that is not smaller.
  function StableSort<T>(s: seq<T>, less: (T, T) -> bool): (r: seq<T>)
    ensures multiset(r) == multiset(s)
    ensures |r| == |s|
  {
    if s == [] then []
    else
      assert s == [s[0]] + s[1..];
      var r := Insert(s[0], StableSort(s[1..], less), less);
      assert |multiset(r)| == |multiset(s)|;
      r
  }

  lemma {:induction false} InsertSorted<T(!new)>(x: T, s: seq<T>, less: (T, T) -> bool)
    requires StrictWeakOrder(less) && Sorted(s, less)
    ensures Sorted(Insert(x, s, less), less)
  {
    if s != [] && less(s[0], x) {
      InsertSorted(x, s[1..], less);
      var r := Insert(x, s[1..], less);
      forall j | 0 <= j < |r| ensures !less(r[j], s[0]) {
        assert r[j] in multiset(r);
        assert r[j] == x || r[j] in s[1..];
      }
    }
  }

  lemma {:induction false} SortSorted<T(!new)>(s: seq<T>, less: (T, T) -> bool)
    requires StrictWeakOrder(less)
    ensures Sorted(StableSort(s, less), less)
  {
    if s != [] {
      SortSorted(s[1..], less);
      InsertSorted(s[0], StableSort(s[1..], less), less);
    }
  }

  lemma SameElements<T>(a: seq<T>, b: seq<T>)
    requires multiset(a) == multiset(b)
    ensures forall x :: x in a <==> x in b
    ensures |a| == |b|
  {
    forall x ensures x in a <==> x in b {
      assert x in a <==> x in multiset(a);
      assert x in b <==> x in multiset(b);
    }
    assert |multiset(a)| == |multiset(b)|;
  }

  lemma SameFirst<T(!new)>(a: seq<T>, b: seq<T>, less: (T, T) -> bool)
    requires Sorted(a, less) && Sorted(b, less) && Separates(a, less)
    requires a != [] && b != [] && a[0] in b && b[0] in a
    ensures a[0] == b[0]
  {
  }

  lemma TwiceIn<T>(s: seq<T>, i: nat, j: nat)
    requires i < j < |s| && s[i] == s[j]
    ensures multiset(s)[s[i]] >= 2
  {
    assert s == s[..i] + [s[i]] + s[i + 1..j] + [s[j]] + s[j + 1..];
  }

  // Taking the same element out of two permutations leaves permutations.
  lemma DropFirstAndAt<T>(a: seq<T>, b: seq<T>, j: nat)
    requires multiset(a) == multiset(b) && a != [] && j < |b| && b[j] == a[0]
    ensures multiset(a[1..]) == multiset(b[..j] + b[j + 1..])
  {
    assert a == [a[0]] + a[1..];
    assert b == b[..j] + [b[j]] + b[j + 1..];
    assert multiset(a) == multiset([a[0]]) + multiset(a[1..]);
    assert multiset(b) == multiset(b[..j]) + multiset([b[j]]) + multiset(b[j + 1..]);
    assert multiset(a[1..]) == multiset(a) - multiset([a[0]]);
  }

  lemma SameTails<T(!new)>(a: seq<T>, b: seq<T>, less: (T, T) -> bool)
    requires Sorted(a, less) && Sorted(b, less) && Separates(a, less)
    requires multiset(a) == multiset(b) && a != [] && b != []
    ensures a[0] == b[0] && multiset(a[1..]) == multiset(b[1..])
  {
    SameElements(a, b);
    assert a[0] in a && b[0] in b;
    SameFirst(a, b, less);
    DropFirstAndAt(a, b, 0);
    assert b[..0] + b[0 + 1..] == b[1..];
  }

  // Two sorted permutations of the same elements are equal when nothing ties.
  lemma {:induction false} SortedUnique<T(!new)>(a: seq<T>, b: seq<T>, less: (T, T) -> bool)
    requires Sorted(a, less) && Sorted(b, less)
    requires multiset(a) == multiset(b) && Separates(a, less)
    ensures a == b
  {
    assert |a| == |multiset(a)| == |b|;
    if a != [] {
      SameTails(a, b, less);
      TailKeepsOrder(a, less);
      TailKeepsOrder(b, less);
      SortedUnique(a[1..], b[1..], less);
      Reassemble(a, b);
    }
  }

  lemma Reassemble<T>(a: seq<T>, b: seq<T>)
    requires a != [] && b != [] && a[0] == b[0] && a[1..] == b[1..]
    ensures a == b
  {
  }

  lemma TailKeepsOrder<T(!new)>(a: seq<T>, less: (T, T) -> bool)
    requires a != []
    ensures Sorted(a, less) ==> Sorted(a[1..], less)
    ensures Separates(a, less) ==> Separates(a[1..], less)
  {
  }

  lemma {:induction false} InsertCongruent<T(!new)>(x: T, s: seq<T>, f: (T, T) -> bool, g: (T, T) -> bool)
    requires forall a, b :: f(a, b) == g(a, b)
    ensures Insert(x, s, f) == Insert(x, s, g)
  {
    if s != [] {
      InsertCongruent(x, s[1..], f, g);
    }
  }

  // Only what the comparator answers matters.
  lemma {:induction false} SortCongruent<T(!new)>(s: seq<T>, f: (T, T) -> bool, g: (T, T) -> bool)
    requires forall a, b :: f(a, b) == g(a, b)
    ensures StableSort(s, f) == StableSort(s, g)
  {
    if s != [] {
      SortCongruent(s[1..], f, g);
      InsertCongruent(s[0], StableSort(s[1..], f), f, g);
    }
  }

  // The answer does not depend on the order in which the rows were read.
  lemma SortCanonical<T(!new)>(a: seq<T>, b: seq<T>, less: (T, T) -> bool)
    requires StrictWeakOrder(less)
    requires multiset(a) == multiset(b) && Separates(a, less)
    ensures StableSort(a, less) == StableSort(b, less)
  {
    SortSorted(a, less);
    SortSorted(b, less);
    SameElements(a, StableSort(a, less));
    SortedUnique(StableSort(a, less), StableSort(b, less), less);
  }
}
