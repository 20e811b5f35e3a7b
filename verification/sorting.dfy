/** Insertion sort as a function of a comparison, the meaning given to the sorts of the
    program: stable, and determined by the elements when the comparison has no ties. */
module Sorting {
  type Order<!T> = (T, T) -> bool

  function Insert<T>(x: T, xs: seq<T>, le: Order<T>): seq<T> {
    if xs == [] then [x]
    else if le(x, xs[0]) then [x] + xs
    else [xs[0]] + Insert(x, xs[1..], le)
  }

  function Sorted<T>(xs: seq<T>, le: Order<T>): seq<T> {
    if xs == [] then [] else Insert(xs[0], Sorted(xs[1..], le), le)
  }

  lemma {:induction false} InsertPermutes<T>(x: T, xs: seq<T>, le: Order<T>)
    ensures multiset(Insert(x, xs, le)) == multiset(xs) + multiset{x}
  {
    if xs != [] {
      InsertPermutes(x, xs[1..], le);
      assert xs == [xs[0]] + xs[1..];
    }
  }

  lemma {:induction false} SortPermutes<T>(xs: seq<T>, le: Order<T>)
    ensures multiset(Sorted(xs, le)) == multiset(xs)
  {
    if xs != [] {
      SortPermutes(xs[1..], le);
      InsertPermutes(xs[0], Sorted(xs[1..], le), le);
      assert xs == [xs[0]] + xs[1..];
    }
  }

  lemma SortMembers<T>(xs: seq<T>, le: Order<T>)
    ensures forall x :: x in Sorted(xs, le) <==> x in xs
    ensures |Sorted(xs, le)| == |xs|
  {
    SortPermutes(xs, le);
    assert forall x :: x in Sorted(xs, le) <==> x in multiset(Sorted(xs, le));
    assert |multiset(xs)| == |xs| && |multiset(Sorted(xs, le))| == |Sorted(xs, le)|;
  }

  /** Any two are comparable, and comparisons chain. */
  ghost predicate Total<T(!new)>(le: Order<T>) {
    && (forall a, b :: le(a, b) || le(b, a))
    && (forall a, b, c :: le(a, b) && le(b, c) ==> le(a, c))
  }

  ghost predicate IsSorted<T>(xs: seq<T>, le: Order<T>) {
    forall i, j :: 0 <= i < j < |xs| ==> le(xs[i], xs[j])
  }

  ghost predicate NoTies<T>(xs: seq<T>, le: Order<T>) {
    forall i, j :: 0 <= i < |xs| && 0 <= j < |xs| && le(xs[i], xs[j]) && le(xs[j], xs[i]) ==> xs[i] == xs[j]
  }

  lemma {:induction false} InsertSorts<T(!new)>(x: T, xs: seq<T>, le: Order<T>)
    requires Total(le) && IsSorted(xs, le)
    ensures IsSorted(Insert(x, xs, le), le)
  {
    if xs != [] && !le(x, xs[0]) {
      InsertSorts(x, xs[1..], le);
      InsertPermutes(x, xs[1..], le);
      var rest := Insert(x, xs[1..], le);
      forall j | 0 <= j < |rest| ensures le(xs[0], rest[j]) {
        assert rest[j] in multiset(rest);
        if rest[j] != x { assert rest[j] in xs[1..]; }
      }
    }
  }

  lemma {:induction false} SortSorts<T(!new)>(xs: seq<T>, le: Order<T>)
    requires Total(le)
    ensures IsSorted(Sorted(xs, le), le)
  {
    if xs != [] {
      SortSorts(xs[1..], le);
      InsertSorts(xs[0], Sorted(xs[1..], le), le);
    }
  }

  lemma SameLeast<T(!new)>(a: seq<T>, b: seq<T>, le: Order<T>)
    requires IsSorted(a, le) && IsSorted(b, le) && multiset(a) == multiset(b) && NoTies(a, le) && a != [] && b != []
    ensures a[0] == b[0]
  {
    assert a[0] in multiset(b) && b[0] in multiset(a);
    var i :| 0 <= i < |a| && a[i] == b[0];
    var j :| 0 <= j < |b| && b[j] == a[0];
    if i > 0 && j > 0 { assert le(a[0], a[i]) && le(b[0], b[j]); }
  }

  lemma WithoutFirst<T>(a: seq<T>)
    requires a != []
    ensures a == [a[0]] + a[1..] && multiset(a[1..]) == multiset(a) - multiset{a[0]}
  {
    assert a == [a[0]] + a[1..];
  }

  /** Two sorted arrangements of the same elements without ties are the same. */
  lemma {:induction false} SortedUnique<T(!new)>(a: seq<T>, b: seq<T>, le: Order<T>)
    requires IsSorted(a, le) && IsSorted(b, le) && multiset(a) == multiset(b) && NoTies(a, le)
    ensures a == b
    decreases |a|
  {
    assert |multiset(a)| == |a| && |multiset(b)| == |b|;
    if a != [] {
      SameLeast(a, b, le);
      WithoutFirst(a);
      WithoutFirst(b);
      SortedUnique(a[1..], b[1..], le);
    }
  }

  lemma NoTiesStay<T>(a: seq<T>, b: seq<T>, le: Order<T>)
    requires multiset(a) == multiset(b) && NoTies(a, le)
    ensures NoTies(b, le)
  {
    forall i, j | 0 <= i < |b| && 0 <= j < |b| && le(b[i], b[j]) && le(b[j], b[i]) ensures b[i] == b[j] {
      assert b[i] in multiset(a) && b[j] in multiset(a);
      var x :| 0 <= x < |a| && a[x] == b[i];
      var y :| 0 <= y < |a| && a[y] == b[j];
    }
  }

  /** The result depends only on which elements there are, not on their order. */
  lemma SortIgnoresOrder<T(!new)>(a: seq<T>, b: seq<T>, le: Order<T>)
    requires Total(le) && multiset(a) == multiset(b) && NoTies(a, le)
    ensures Sorted(a, le) == Sorted(b, le)
  {
    SortPermutes(a, le);
    SortPermutes(b, le);
    SortSorts(a, le);
    SortSorts(b, le);
    NoTiesStay(a, Sorted(a, le), le);
    SortedUnique(Sorted(a, le), Sorted(b, le), le);
  }
}
