/** Lists grouped by a key: the groups in the order of their keys, each sorted in itself. */
module Grouping {
  import opened Sorting

  function At<T(!new), K(!new, ==)>(key: T -> K, k: K): T -> bool {
    x => key(x) == k
  }

  /** The elements of a key, in the order in which they came. */
  function Arrived<T(!new), K(!new, ==)>(s: seq<T>, key: T -> K, k: K): seq<T> {
    Filter(s, At(key, k))
  }

  function Part<T(!new), K(!new, ==)>(s: seq<T>, key: T -> K, leq: (T, T) -> bool, k: K): seq<T> {
    Sort(Arrived(s, key, k), leq)
  }

  /** The groups of some keys, one after the other. */
  function Parts<T(!new), K(!new, ==)>(s: seq<T>, key: T -> K, leq: (T, T) -> bool, ks: seq<K>): seq<T> {
    if ks == [] then [] else Part(s, key, leq, ks[0]) + Parts(s, key, leq, ks[1..])
  }

  /** The keys of a list, each where it was first met. */
  function Keys<T(!new), K(!new, ==)>(s: seq<T>, key: T -> K): seq<K> {
    if s == [] then []
    else
      var before := Keys(s[..|s| - 1], key);
      var k := key(s[|s| - 1]);
      if k in before then before else before + [k]
  }

  lemma {:induction false} KeysDistinct<T(!new), K(!new)>(s: seq<T>, key: T -> K)
    ensures Distinct(Keys(s, key))
  {
    if s != [] {
      KeysDistinct(s[..|s| - 1], key);
    }
  }

  lemma {:induction false} KeyIsMet<T(!new), K(!new)>(s: seq<T>, key: T -> K, k: K)
    ensures k in Keys(s, key) <==> Arrived(s, key, k) != []
  {
    if s != [] {
      var before, last := s[..|s| - 1], s[|s| - 1];
      KeyIsMet(before, key, k);
      FilterOfBoth(before, [last], At(key, k));
      assert s == before + [last];
    }
  }

  lemma KeysOfOneMore<T(!new), K(!new)>(s: seq<T>, x: T, key: T -> K)
    ensures Keys(s + [x], key) == if key(x) in Keys(s, key) then Keys(s, key) else Keys(s, key) + [key(x)]
  {
    assert (s + [x])[..|s|] == s;
  }

  lemma ArrivedOfOneMore<T(!new), K(!new)>(s: seq<T>, x: T, key: T -> K, k: K)
    ensures Arrived(s + [x], key, k) == if key(x) == k then Arrived(s, key, k) + [x] else Arrived(s, key, k)
  {
    FilterOfBoth(s, [x], At(key, k));
  }

  lemma PartMembers<T(!new), K(!new)>(s: seq<T>, key: T -> K, leq: (T, T) -> bool, k: K, x: T)
    ensures x in Part(s, key, leq, k) <==> x in s && key(x) == k
  {
    FilterMembers(s, At(key, k));
    SortMembers(Arrived(s, key, k), leq);
  }

  lemma {:induction false} PartsMembers<T(!new), K(!new)>(s: seq<T>, key: T -> K, leq: (T, T) -> bool, ks: seq<K>, x: T)
    ensures x in Parts(s, key, leq, ks) <==> x in s && key(x) in ks
  {
    if ks != [] {
      PartMembers(s, key, leq, ks[0], x);
      PartsMembers(s, key, leq, ks[1..], x);
    }
  }

  lemma KeyOfElement<T(!new), K(!new)>(s: seq<T>, key: T -> K, x: T)
    requires x in s
    ensures key(x) in Keys(s, key)
  {
    FilterMembers(s, At(key, key(x)));
    KeyIsMet(s, key, key(x));
    assert x in Arrived(s, key, key(x));
  }

  // ----- Nothing lost, nothing doubled

  function AnyOf<T(!new), K(!new, ==)>(key: T -> K, ks: seq<K>): T -> bool {
    x => key(x) in ks
  }

  lemma {:induction false} FilterSplits<T(!new), K(!new)>(s: seq<T>, key: T -> K, ks: seq<K>)
    requires ks != [] && Distinct(ks)
    ensures multiset(Filter(s, AnyOf(key, ks)))
         == multiset(Arrived(s, key, ks[0])) + multiset(Filter(s, AnyOf(key, ks[1..])))
  {
    if s != [] {
      FilterSplits(s[1..], key, ks);
      var k := key(s[0]);
      assert k in ks <==> k == ks[0] || k in ks[1..];
    }
  }

  lemma {:induction false} PartsHold<T(!new), K(!new)>(s: seq<T>, key: T -> K, leq: (T, T) -> bool, ks: seq<K>)
    requires Distinct(ks)
    ensures multiset(Parts(s, key, leq, ks)) == multiset(Filter(s, AnyOf(key, ks)))
  {
    if ks == [] {
      FilterNone(s, AnyOf(key, ks));
    } else {
      PartsHold(s, key, leq, ks[1..]);
      SortPermutes(Arrived(s, key, ks[0]), leq);
      FilterSplits(s, key, ks);
    }
  }

  lemma PartsPermute<T(!new), K(!new)>(s: seq<T>, key: T -> K, leq: (T, T) -> bool, ks: seq<K>)
    requires Distinct(ks) && forall x :: x in s ==> key(x) in ks
    ensures multiset(Parts(s, key, leq, ks)) == multiset(s)
  {
    PartsHold(s, key, leq, ks);
    FilterAll(s, AnyOf(key, ks));
  }

  // ----- When the groups one after the other are the sorted list

  /** A later element never has an earlier key. */
  ghost predicate KeysFollow<T(!new), K(!new)>(s: seq<T>, key: T -> K, leq: (T, T) -> bool, leqKey: (K, K) -> bool) {
    forall a, b :: a in s && b in s && leq(a, b) ==> leqKey(key(a), key(b))
  }

  function ByKey<T(!new), K(!new)>(key: T -> K, leqKey: (K, K) -> bool): (T, T) -> bool {
    (a, b) => leqKey(key(a), key(b))
  }

  lemma {:induction false} PartsByKey<T(!new), K(!new)>(
    s: seq<T>, key: T -> K, leq: (T, T) -> bool, leqKey: (K, K) -> bool, ks: seq<K>)
    requires TotalOrder(leqKey) && Ordered(ks, leqKey)
    ensures Ordered(Parts(s, key, leq, ks), ByKey(key, leqKey))
  {
    if ks != [] {
      var first, rest := Part(s, key, leq, ks[0]), Parts(s, key, leq, ks[1..]);
      PartsByKey(s, key, leq, leqKey, ks[1..]);
      forall a | a in first
        ensures key(a) == ks[0]
      {
        PartMembers(s, key, leq, ks[0], a);
      }
      forall b | b in rest
        ensures leqKey(ks[0], key(b))
      {
        PartsMembers(s, key, leq, ks[1..], b);
      }
      OrderedBoth(first, rest, ByKey(key, leqKey));
    }
  }

  lemma {:induction false} PartsOrdered<T(!new), K(!new)>(
    s: seq<T>, key: T -> K, leq: (T, T) -> bool, leqKey: (K, K) -> bool, ks: seq<K>)
    requires TotalPreorder(leq) && TotalOrder(leqKey) && KeysFollow(s, key, leq, leqKey)
    requires Ordered(ks, leqKey) && Distinct(ks)
    ensures Ordered(Parts(s, key, leq, ks), leq)
  {
    if ks != [] {
      var first, rest := Part(s, key, leq, ks[0]), Parts(s, key, leq, ks[1..]);
      PartsOrdered(s, key, leq, leqKey, ks[1..]);
      SortOrdered(Arrived(s, key, ks[0]), leq);
      forall a, b | a in first && b in rest
        ensures leq(a, b)
      {
        PartMembers(s, key, leq, ks[0], a);
        PartsMembers(s, key, leq, ks[1..], b);
        assert key(b) in ks[1..];
        assert leqKey(ks[0], key(b)) && ks[0] != key(b);
      }
      OrderedBoth(first, rest, leq);
    }
  }

  lemma PartStable<T(!new), K(!new)>(s: seq<T>, key: T -> K, leq: (T, T) -> bool, at: K, z: T, k: K)
    requires TotalPreorder(leq)
    requires forall x :: x in s && Like(z, leq)(x) ==> key(x) == k
    ensures Filter(Part(s, key, leq, at), Like(z, leq)) == if k == at then Filter(s, Like(z, leq)) else []
  {
    SortStable(Arrived(s, key, at), leq, z);
    if k == at {
      FilterTwice(s, At(key, k), Like(z, leq));
    } else {
      FilterMembers(s, At(key, at));
      FilterNone(Arrived(s, key, at), Like(z, leq));
    }
  }

  lemma {:induction false} PartsStable<T(!new), K(!new)>(
    s: seq<T>, key: T -> K, leq: (T, T) -> bool, ks: seq<K>, z: T, k: K)
    requires TotalPreorder(leq) && Distinct(ks)
    requires forall x :: x in s && Like(z, leq)(x) ==> key(x) == k
    ensures Filter(Parts(s, key, leq, ks), Like(z, leq)) == if k in ks then Filter(s, Like(z, leq)) else []
  {
    if ks != [] {
      PartsStable(s, key, leq, ks[1..], z, k);
      PartStable(s, key, leq, ks[0], z, k);
      FilterOfBoth(Part(s, key, leq, ks[0]), Parts(s, key, leq, ks[1..]), Like(z, leq));
      assert k in ks <==> k == ks[0] || k in ks[1..];
    }
  }

  lemma LikeElementsLikeKeys<T(!new), K(!new)>(
    s: seq<T>, key: T -> K, leq: (T, T) -> bool, leqKey: (K, K) -> bool, ks: seq<K>, z: T)
    requires TotalPreorder(leq) && TotalOrder(leqKey) && KeysFollow(s, key, leq, leqKey)
    requires Distinct(ks) && forall x :: x in s ==> key(x) in ks
    ensures Filter(Parts(s, key, leq, ks), Like(z, leq)) == Filter(s, Like(z, leq))
  {
    FilterMembers(s, Like(z, leq));
    if Filter(s, Like(z, leq)) == [] {
      PartsStable(s, key, leq, ks, z, key(z));
    } else {
      var w := Filter(s, Like(z, leq))[0];
      assert w in Filter(s, Like(z, leq));
      forall x | x in s && Like(z, leq)(x)
        ensures key(x) == key(w)
      {
        assert leq(x, w) && leq(w, x);
      }
      PartsStable(s, key, leq, ks, z, key(w));
    }
  }

  lemma SortedByGroups<T(!new), K(!new)>(
    s: seq<T>, key: T -> K, leq: (T, T) -> bool, leqKey: (K, K) -> bool, ks: seq<K>)
    requires TotalPreorder(leq) && TotalOrder(leqKey) && KeysFollow(s, key, leq, leqKey)
    requires Ordered(ks, leqKey) && Distinct(ks) && forall x :: x in s ==> key(x) in ks
    ensures Parts(s, key, leq, ks) == Sort(s, leq)
  {
    PartsOrdered(s, key, leq, leqKey, ks);
    SortOrdered(s, leq);
    forall z
      ensures Filter(Parts(s, key, leq, ks), Like(z, leq)) == Filter(Sort(s, leq), Like(z, leq))
    {
      SortStable(s, leq, z);
      LikeElementsLikeKeys(s, key, leq, leqKey, ks, z);
    }
    StableUnique(Parts(s, key, leq, ks), Sort(s, leq), leq);
  }

  lemma InPlaces<T(!new), K(!new)>(
    sorted: seq<T>, key: T -> K, leq: (T, T) -> bool, leqKey: (K, K) -> bool, i: nat, j: nat)
    requires TotalOrder(leqKey) && Ordered(sorted, leq) && Ordered(sorted, ByKey(key, leqKey))
    requires i < |sorted| && j < |sorted| && leq(sorted[i], sorted[j])
    requires leq(sorted[j], sorted[i]) ==> key(sorted[i]) == key(sorted[j])
    ensures leqKey(key(sorted[i]), key(sorted[j]))
  {
    if i < j {
      assert ByKey(key, leqKey)(sorted[i], sorted[j]);
    }
  }

  /** Of elements that compare alike, both have the same key. */
  ghost predicate AlikeInKey<T(!new), K(!new)>(key: T -> K, leq: (T, T) -> bool) {
    forall a, b :: leq(a, b) && leq(b, a) ==> key(a) == key(b)
  }

  lemma FollowWhenSorted<T(!new), K(!new)>(
    s: seq<T>, key: T -> K, leq: (T, T) -> bool, leqKey: (K, K) -> bool, ks: seq<K>)
    requires TotalPreorder(leq) && TotalOrder(leqKey) && Ordered(ks, leqKey) && AlikeInKey(key, leq)
    requires Parts(s, key, leq, ks) == Sort(s, leq)
    ensures KeysFollow(s, key, leq, leqKey)
  {
    var sorted := Sort(s, leq);
    PartsByKey(s, key, leq, leqKey, ks);
    SortOrdered(s, leq);
    SortMembers(s, leq);
    forall a, b | a in s && b in s && leq(a, b)
      ensures leqKey(key(a), key(b))
    {
      var i :| 0 <= i < |sorted| && sorted[i] == a;
      var j :| 0 <= j < |sorted| && sorted[j] == b;
      InPlaces(sorted, key, leq, leqKey, i, j);
    }
  }

  /** The groups one after the other are the sorted list exactly when no later element has an
      earlier key. */
  lemma SortedExactlyWhenKeysFollow<T(!new), K(!new)>(
    s: seq<T>, key: T -> K, leq: (T, T) -> bool, leqKey: (K, K) -> bool, ks: seq<K>)
    requires TotalPreorder(leq) && TotalOrder(leqKey) && AlikeInKey(key, leq)
    requires Ordered(ks, leqKey) && Distinct(ks) && forall x :: x in s ==> key(x) in ks
    ensures Parts(s, key, leq, ks) == Sort(s, leq) <==> KeysFollow(s, key, leq, leqKey)
  {
    if KeysFollow(s, key, leq, leqKey) {
      SortedByGroups(s, key, leq, leqKey, ks);
    }
    if Parts(s, key, leq, ks) == Sort(s, leq) {
      FollowWhenSorted(s, key, leq, leqKey, ks);
    }
  }
}
