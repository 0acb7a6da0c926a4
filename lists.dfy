/** Python list operations shared by the models: list.remove and duplicate-free lists. */
module Lists {
  /** No element occurs twice. */
  predicate Distinct<T(==)>(s: seq<T>) {
    forall x | x in s :: multiset(s)[x] == 1
  }

  /** xs is ys with some of its elements left out and the others in their order. */
  predicate Subsequence<T(==)>(xs: seq<T>, ys: seq<T>)
    decreases |ys|
  {
    if ys == [] then xs == []
    else (xs != [] && xs[0] == ys[0] && Subsequence(xs[1..], ys[1..])) || Subsequence(xs, ys[1..])
  }

  /** A non-empty list is its initial part followed by its last element. */
  lemma InitLast<T>(s: seq<T>)
    requires s != []
    ensures s[..|s| - 1] + [s[|s| - 1]] == s
  {
  }

  /** The position of the first occurrence of x. */
  function IndexOf<T(==)>(s: seq<T>, x: T): (i: nat)
    requires x in s
    ensures i < |s| && s[i] == x && x !in s[..i]
  {
    if s[0] == x then 0
    else
      var k := IndexOf(s[1..], x);
      assert s[..k + 1] == [s[0]] + s[1..][..k];
      k + 1
  }

  /** list.remove(x): the first occurrence of x is dropped; a list without x is left as it is. */
  function RemoveFirst<T(==)>(s: seq<T>, x: T): (r: seq<T>)
    ensures x !in s ==> r == s
    ensures |r| == if x in s then |s| - 1 else |s|
  {
    if s == [] then []
    else if s[0] == x then s[1..]
    else [s[0]] + RemoveFirst(s[1..], x)
  }

  /** Removing a present element cuts the list at its first occurrence. */
  lemma {:induction false} RemoveFirstAt<T>(s: seq<T>, x: T)
    requires x in s
    ensures RemoveFirst(s, x) == s[..IndexOf(s, x)] + s[IndexOf(s, x) + 1..]
  {
    if s[0] != x {
      var t := s[1..];
      var k := IndexOf(t, x);
      RemoveFirstAt(t, x);
      assert IndexOf(s, x) == k + 1;
      assert s[..k + 1] == [s[0]] + t[..k];
      assert s[k + 2..] == t[k + 1..];
    }
  }

  /** A list r that cuts position i out of s is s shifted down by one after i. */
  lemma CutAt<T>(r: seq<T>, s: seq<T>, i: nat)
    requires i < |s| && r == s[..i] + s[i + 1..]
    ensures |r| == |s| - 1
    ensures forall a :: 0 <= a < |s| - 1 ==> r[a] == if a < i then s[a] else s[a + 1]
  {
  }

  lemma {:induction false} RemoveFirstAfter<T>(a: seq<T>, b: seq<T>, x: T)
    requires x !in a
    ensures RemoveFirst(a + b, x) == a + RemoveFirst(b, x)
  {
    if a != [] {
      RemoveFirstAfter(a[1..], b, x);
      assert (a + b)[1..] == a[1..] + b;
    } else {
      assert a + b == b;
    }
  }

  /** Removing an element takes exactly one copy out of the multiset. */
  lemma RemoveFirstMultiset<T>(s: seq<T>, x: T)
    requires x in s
    ensures multiset(RemoveFirst(s, x)) == multiset(s) - multiset{x}
  {
    var i := IndexOf(s, x);
    RemoveFirstAt(s, x);
    assert s == s[..i] + [x] + s[i + 1..];
  }

  /** A list whose multiset is another's with some copies taken out holds only elements of that other. */
  lemma MultisetMembers<T>(a: seq<T>, b: seq<T>, m: multiset<T>)
    requires multiset(a) == multiset(b) - m
    ensures forall y | y in a :: y in b
  {
    forall y | y in a
      ensures y in b
    {
      assert y in multiset(a);
    }
  }

  /** From a list without duplicates, remove leaves no copy and keeps the list duplicate-free. */
  lemma RemoveFirstDistinct<T>(s: seq<T>, x: T)
    requires Distinct(s)
    ensures Distinct(RemoveFirst(s, x)) && x !in RemoveFirst(s, x)
    ensures forall y :: y in RemoveFirst(s, x) <==> y in s && y != x
  {
    if x in s {
      RemoveFirstMultiset(s, x);
      var r := RemoveFirst(s, x);
      forall y
        ensures y in r <==> y in s && y != x
      {
        assert y in r <==> y in multiset(r);
        assert y in s <==> y in multiset(s);
      }
    }
  }

  /** Pairwise distinct positions: the index form of the same property. */
  predicate PairwiseDistinct<T(==)>(s: seq<T>) {
    forall i, j :: 0 <= i < j < |s| ==> s[i] != s[j]
  }

  lemma {:induction false} PairwiseCount<T>(s: seq<T>, v: T)
    requires PairwiseDistinct(s)
    ensures multiset(s)[v] <= 1
  {
    if s != [] {
      assert s == [s[0]] + s[1..];
      assert PairwiseDistinct(s[1..]) by {
        forall i, j | 0 <= i < j < |s| - 1
          ensures s[1..][i] != s[1..][j]
        {
          assert s[i + 1] != s[j + 1];
        }
      }
      PairwiseCount(s[1..], v);
      if s[0] == v {
        assert v !in s[1..] by {
          forall j | 0 <= j < |s| - 1
            ensures s[1..][j] != v
          {
            assert s[0] != s[j + 1];
          }
        }
      }
    }
  }

  lemma RepeatCount<T>(s: seq<T>, i: nat, j: nat)
    requires i < j < |s| && s[i] == s[j]
    ensures multiset(s)[s[i]] >= 2
  {
    assert s == s[..j] + [s[j]] + s[j + 1..];
    assert s[..j][i] == s[i];
    assert s[i] in multiset(s[..j]);
  }

  /** Distinct, defined by multiplicities, means that no two positions hold the same element. */
  lemma DistinctIndices<T>(s: seq<T>)
    ensures Distinct(s) <==> PairwiseDistinct(s)
  {
    if PairwiseDistinct(s) {
      forall x | x in s
        ensures multiset(s)[x] == 1
      {
        PairwiseCount(s, x);
      }
    }
    if Distinct(s) {
      forall i, j | 0 <= i < j < |s|
        ensures s[i] != s[j]
      {
        if s[i] == s[j] {
          RepeatCount(s, i, j);
        }
      }
    }
  }

  /** A duplicate-free list with one new element added (in any order) is duplicate-free. */
  lemma DistinctAdd<T>(s: seq<T>, t: seq<T>, x: T)
    requires Distinct(s) && x !in s && multiset(t) == multiset(s) + multiset{x}
    ensures Distinct(t)
  {
    assert multiset(s)[x] == 0;
  }
}
