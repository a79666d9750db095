/** Stable sorting by a comparison, as `Array.prototype.sort` does it. */
module Sorting {

  /** `leq(a, b)` says that comparing `a` to `b` gives nothing above zero. */
  ghost predicate TotalPreorder<T(!new)>(leq: (T, T) -> bool) {
    && (forall a, b :: leq(a, b) || leq(b, a))
    && (forall a, b, c :: leq(a, b) && leq(b, c) ==> leq(a, c))
  }

  ghost predicate TotalOrder<T(!new)>(leq: (T, T) -> bool) {
    && TotalPreorder(leq)
    && (forall a, b :: leq(a, b) && leq(b, a) ==> a == b)
  }

  ghost predicate Ordered<T(!new)>(s: seq<T>, leq: (T, T) -> bool) {
    forall i, j :: 0 <= i < j < |s| ==> leq(s[i], s[j])
  }

  predicate Distinct<T(==)>(s: seq<T>) {
    forall i, j :: 0 <= i < j < |s| ==> s[i] != s[j]
  }

  /** The elements that satisfy `p`, in their order. */
  function Filter<T(!new)>(s: seq<T>, p: T -> bool): seq<T> {
    if s == [] then []
    else if p(s[0]) then [s[0]] + Filter(s[1..], p)
    else Filter(s[1..], p)
  }

  lemma {:induction false} FilterMembers<T(!new)>(s: seq<T>, p: T -> bool)
    ensures forall x :: x in Filter(s, p) <==> x in s && p(x)
  {
    if s != [] {
      FilterMembers(s[1..], p);
      assert forall x :: x in s <==> x == s[0] || x in s[1..];
    }
  }

  lemma {:induction false} FilterOfBoth<T(!new)>(a: seq<T>, b: seq<T>, p: T -> bool)
    ensures Filter(a + b, p) == Filter(a, p) + Filter(b, p)
  {
    if a == [] {
      assert a + b == b;
    } else {
      FilterOfBoth(a[1..], b, p);
      assert (a + b)[1..] == a[1..] + b;
    }
  }

  lemma {:induction false} FilterAll<T(!new)>(s: seq<T>, p: T -> bool)
    requires forall x :: x in s ==> p(x)
    ensures Filter(s, p) == s
  {
    if s != [] {
      assert s[0] in s && forall x :: x in s[1..] ==> x in s;
      FilterAll(s[1..], p);
    }
  }

  lemma {:induction false} FilterAlike<T(!new)>(s: seq<T>, p: T -> bool, q: T -> bool)
    requires forall x :: p(x) == q(x)
    ensures Filter(s, p) == Filter(s, q)
  {
    if s != [] {
      FilterAlike(s[1..], p, q);
    }
  }

  lemma FilterNone<T(!new)>(s: seq<T>, p: T -> bool)
    requires forall x :: x in s ==> !p(x)
    ensures Filter(s, p) == []
  {
    FilterMembers(s, p);
    if Filter(s, p) != [] {
      assert Filter(s, p)[0] in Filter(s, p);
    }
  }

  lemma {:induction false} FilterTwice<T(!new)>(s: seq<T>, p: T -> bool, q: T -> bool)
    requires forall x :: x in s && q(x) ==> p(x)
    ensures Filter(Filter(s, p), q) == Filter(s, q)
  {
    if s != [] {
      assert s[0] in s && forall x :: x in s[1..] ==> x in s;
      FilterTwice(s[1..], p, q);
      if p(s[0]) {
        FilterOfBoth([s[0]], Filter(s[1..], p), q);
      }
    }
  }

  lemma OrderedBoth<T(!new)>(a: seq<T>, b: seq<T>, leq: (T, T) -> bool)
    requires Ordered(a, leq) && Ordered(b, leq) && forall x, y :: x in a && y in b ==> leq(x, y)
    ensures Ordered(a + b, leq)
  {
  }

  lemma DistinctBoth<T(!new)>(a: seq<T>, b: seq<T>)
    requires Distinct(a) && Distinct(b) && forall x :: x in a ==> x !in b
    ensures Distinct(a + b)
  {
    forall i, j | 0 <= i < j < |a + b|
      ensures (a + b)[i] != (a + b)[j]
    {
      assert i < |a| ==> a[i] in a;
      assert j >= |a| ==> b[j - |a|] in b;
    }
  }

  /** Puts `x` in front of the first element it does not come after. */
  function Insert<T(!new)>(x: T, s: seq<T>, leq: (T, T) -> bool): seq<T> {
    if s == [] || leq(x, s[0]) then [x] + s else [s[0]] + Insert(x, s[1..], leq)
  }

  function Sort<T(!new)>(s: seq<T>, leq: (T, T) -> bool): seq<T> {
    if s == [] then [] else Insert(s[0], Sort(s[1..], leq), leq)
  }

  lemma {:induction false} InsertAdds<T(!new)>(x: T, s: seq<T>, leq: (T, T) -> bool)
    ensures multiset(Insert(x, s, leq)) == multiset{x} + multiset(s)
  {
    if s != [] {
      assert s == [s[0]] + s[1..];
      InsertAdds(x, s[1..], leq);
    }
  }

  lemma {:induction false} SortPermutes<T(!new)>(s: seq<T>, leq: (T, T) -> bool)
    ensures multiset(Sort(s, leq)) == multiset(s)
  {
    if s != [] {
      assert s == [s[0]] + s[1..];
      SortPermutes(s[1..], leq);
      InsertAdds(s[0], Sort(s[1..], leq), leq);
    }
  }

  lemma SortMembers<T(!new)>(s: seq<T>, leq: (T, T) -> bool)
    ensures forall x :: x in Sort(s, leq) <==> x in s
  {
    SortPermutes(s, leq);
    assert forall x :: x in Sort(s, leq) <==> x in multiset(Sort(s, leq));
    assert forall x :: x in multiset(s) <==> x in s;
  }

  lemma InsertMembers<T(!new)>(x: T, s: seq<T>, leq: (T, T) -> bool)
    ensures forall y :: y in Insert(x, s, leq) <==> y == x || y in s
  {
    InsertAdds(x, s, leq);
    assert forall y :: y in Insert(x, s, leq) <==> y in multiset(Insert(x, s, leq));
    assert forall y :: y in multiset(s) <==> y in s;
  }

  lemma {:induction false} InsertOrdered<T(!new)>(x: T, s: seq<T>, leq: (T, T) -> bool)
    requires TotalPreorder(leq) && Ordered(s, leq)
    ensures Ordered(Insert(x, s, leq), leq)
  {
    if s != [] && leq(x, s[0]) {
      assert forall j :: 0 <= j < |s| ==> leq(s[0], s[j]);
    } else if s != [] {
      InsertOrdered(x, s[1..], leq);
      InsertMembers(x, s[1..], leq);
      var r := Insert(x, s[1..], leq);
      forall j | 0 <= j < |r|
        ensures leq(s[0], r[j])
      {
        assert r[j] in r;
        if r[j] != x {
          assert r[j] in s[1..];
        }
      }
    }
  }

  lemma {:induction false} SortOrdered<T(!new)>(s: seq<T>, leq: (T, T) -> bool)
    requires TotalPreorder(leq)
    ensures Ordered(Sort(s, leq), leq)
  {
    if s != [] {
      SortOrdered(s[1..], leq);
      InsertOrdered(s[0], Sort(s[1..], leq), leq);
    }
  }

  /** Elements that compare alike. */
  function Like<T(!new)>(x: T, leq: (T, T) -> bool): T -> bool {
    y => leq(x, y) && leq(y, x)
  }

  lemma {:induction false} InsertStable<T(!new)>(x: T, s: seq<T>, leq: (T, T) -> bool, z: T)
    requires TotalPreorder(leq) && Ordered(s, leq)
    ensures Filter(Insert(x, s, leq), Like(z, leq)) == Filter([x] + s, Like(z, leq))
  {
    var p := Like(z, leq);
    if s != [] && !leq(x, s[0]) {
      InsertStable(x, s[1..], leq, z);
      FilterOfBoth([x], s, p);
      FilterOfBoth([x], s[1..], p);
      FilterOfBoth([s[0]], s[1..], p);
      FilterOfBoth([s[0]], Insert(x, s[1..], leq), p);
      assert s == [s[0]] + s[1..];
      assert !(p(x) && p(s[0]));
    }
  }

  /** Sorting keeps elements that compare alike in their order. */
  lemma {:induction false} SortStable<T(!new)>(s: seq<T>, leq: (T, T) -> bool, z: T)
    requires TotalPreorder(leq)
    ensures Filter(Sort(s, leq), Like(z, leq)) == Filter(s, Like(z, leq))
  {
    if s != [] {
      var p := Like(z, leq);
      SortStable(s[1..], leq, z);
      SortOrdered(s[1..], leq);
      InsertStable(s[0], Sort(s[1..], leq), leq, z);
      FilterOfBoth([s[0]], Sort(s[1..], leq), p);
      FilterOfBoth([s[0]], s[1..], p);
      assert s == [s[0]] + s[1..];
    }
  }

  /** Two lists that agree on every group of elements that compare alike. */
  ghost predicate Agree<T(!new)>(a: seq<T>, b: seq<T>, leq: (T, T) -> bool) {
    forall z :: Filter(a, Like(z, leq)) == Filter(b, Like(z, leq))
  }

  lemma AgreeIn<T(!new)>(a: seq<T>, b: seq<T>, leq: (T, T) -> bool, z: T)
    requires TotalPreorder(leq) && Agree(a, b, leq) && z in a
    ensures z in b
  {
    assert Like(z, leq)(z);
    FilterMembers(a, Like(z, leq));
    FilterMembers(b, Like(z, leq));
    assert z in Filter(a, Like(z, leq));
  }

  lemma SameFirst<T(!new)>(a: seq<T>, b: seq<T>, leq: (T, T) -> bool)
    requires TotalPreorder(leq) && Ordered(a, leq) && Ordered(b, leq) && Agree(a, b, leq)
    requires a != [] && b != []
    ensures a[0] == b[0]
  {
    AgreeIn(a, b, leq, a[0]);
    AgreeIn(b, a, leq, b[0]);
    var p := Like(a[0], leq);
    assert p(a[0]) && p(b[0]);
    assert Filter(a, p) == Filter(b, p);
    assert Filter(a, p)[0] == a[0] && Filter(b, p)[0] == b[0];
  }

  lemma AgreeOnRest<T(!new)>(a: seq<T>, b: seq<T>, leq: (T, T) -> bool)
    requires Agree(a, b, leq) && a != [] && b != [] && a[0] == b[0]
    ensures Agree(a[1..], b[1..], leq)
  {
    forall z
      ensures Filter(a[1..], Like(z, leq)) == Filter(b[1..], Like(z, leq))
    {
      var p := Like(z, leq);
      assert Filter(a, p) == Filter(b, p);
      if p(a[0]) {
        assert Filter(a[1..], p) == Filter(a, p)[1..];
        assert Filter(b[1..], p) == Filter(b, p)[1..];
      }
    }
  }

  /** An ordered list is determined by the order it gives to the elements that compare alike. */
  lemma {:induction false} StableUnique<T(!new)>(a: seq<T>, b: seq<T>, leq: (T, T) -> bool)
    requires TotalPreorder(leq) && Ordered(a, leq) && Ordered(b, leq) && Agree(a, b, leq)
    ensures a == b
  {
    if a != [] {
      AgreeIn(a, b, leq, a[0]);
      SameFirst(a, b, leq);
      AgreeOnRest(a, b, leq);
      StableUnique(a[1..], b[1..], leq);
    } else if b != [] {
      AgreeIn(b, a, leq, b[0]);
    }
  }

  lemma MultisetOfRest<T(!new)>(s: seq<T>)
    requires s != []
    ensures multiset(s[1..]) == multiset(s) - multiset{s[0]}
  {
    assert s == [s[0]] + s[1..];
  }

  lemma SameLeast<T(!new)>(a: seq<T>, b: seq<T>, leq: (T, T) -> bool)
    requires TotalOrder(leq) && Ordered(a, leq) && Ordered(b, leq)
    requires a != [] && b != [] && a[0] in b && b[0] in a
    ensures a[0] == b[0]
  {
  }

  lemma {:induction false} OrderedUnique<T(!new)>(a: seq<T>, b: seq<T>, leq: (T, T) -> bool)
    requires TotalOrder(leq) && Ordered(a, leq) && Ordered(b, leq) && multiset(a) == multiset(b)
    ensures a == b
  {
    assert |a| == |multiset(a)| && |b| == |multiset(b)|;
    if a != [] {
      assert a[0] in multiset(b) && b[0] in multiset(a);
      SameLeast(a, b, leq);
      MultisetOfRest(a);
      MultisetOfRest(b);
      OrderedUnique(a[1..], b[1..], leq);
    }
  }

  /** Under a total order the sorted list does not depend on the order of arrival. */
  lemma SortUnique<T(!new)>(a: seq<T>, b: seq<T>, leq: (T, T) -> bool)
    requires TotalOrder(leq) && multiset(a) == multiset(b)
    ensures Sort(a, leq) == Sort(b, leq)
  {
    SortOrdered(a, leq);
    SortOrdered(b, leq);
    SortPermutes(a, leq);
    SortPermutes(b, leq);
    OrderedUnique(Sort(a, leq), Sort(b, leq), leq);
  }

  lemma {:induction false} InsertKeepsDistinct<T(!new)>(x: T, s: seq<T>, leq: (T, T) -> bool)
    requires x !in s && Distinct(s)
    ensures Distinct(Insert(x, s, leq))
  {
    if s != [] && !leq(x, s[0]) {
      InsertKeepsDistinct(x, s[1..], leq);
      InsertMembers(x, s[1..], leq);
      assert s[0] !in s[1..] && s[0] !in Insert(x, s[1..], leq);
    }
  }

  lemma {:induction false} SortKeepsDistinct<T(!new)>(s: seq<T>, leq: (T, T) -> bool)
    requires Distinct(s)
    ensures Distinct(Sort(s, leq))
  {
    if s != [] {
      SortKeepsDistinct(s[1..], leq);
      assert s[0] !in s[1..];
      SortMembers(s[1..], leq);
      InsertKeepsDistinct(s[0], Sort(s[1..], leq), leq);
    }
  }
}
