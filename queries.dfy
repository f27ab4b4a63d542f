/** The two query operations the managers use: `filter`, keeping the rows
    that satisfy a condition, and `order_by`, ordering rows by an integer
    key. The order among rows with equal keys is not part of the contract:
    any two orderings that satisfy it agree on the sequence of keys. */
module Queries {

  /** The rows of `s` that satisfy `p`, in their stored order. */
  function Where<T(!new)>(s: seq<T>, p: T -> bool): (r: seq<T>)
    ensures forall x :: multiset(r)[x] == if p(x) then multiset(s)[x] else 0
  {
    if s == [] then []
    else
      assert s == [s[0]] + s[1..];
      (if p(s[0]) then [s[0]] else []) + Where(s[1..], p)
  }

  ghost predicate SortedBy<T>(s: seq<T>, key: T -> int) {
    forall i, j :: 0 <= i < j < |s| ==> key(s[i]) <= key(s[j])
  }

  /** The keys of `s`, in order. */
  function KeysOf<T>(s: seq<T>, key: T -> int): (ks: seq<int>)
    ensures |ks| == |s|
    ensures forall i :: 0 <= i < |s| ==> ks[i] == key(s[i])
  {
    if s == [] then [] else [key(s[0])] + KeysOf(s[1..], key)
  }

  function Insert<T>(x: T, s: seq<T>, key: T -> int): seq<T> {
    if s == [] then [x]
    else if key(x) <= key(s[0]) then [x] + s
    else [s[0]] + Insert(x, s[1..], key)
  }

  /** The rows of `s` ordered by ascending key. */
  function SortBy<T>(s: seq<T>, key: T -> int): seq<T> {
    if s == [] then [] else Insert(s[0], SortBy(s[1..], key), key)
  }

  lemma {:induction false} InsertSorted<T>(x: T, s: seq<T>, key: T -> int)
    requires SortedBy(s, key)
    ensures multiset(Insert(x, s, key)) == multiset(s) + multiset{x}
    ensures SortedBy(Insert(x, s, key), key)
  {
    if s == [] {
    } else if key(x) <= key(s[0]) {
      HeadBelowAll(s, key, key(x));
      ConsSorted(x, s, key);
    } else {
      var rest := Insert(x, s[1..], key);
      SortedTail(s, key);
      InsertSorted(x, s[1..], key);
      InsertKeepsBound(x, s, rest, key);
      ConsSorted(s[0], rest, key);
      assert s == [s[0]] + s[1..];
    }
  }

  lemma SortedTail<T>(s: seq<T>, key: T -> int)
    requires SortedBy(s, key) && s != []
    ensures SortedBy(s[1..], key)
  {
    forall i, j | 0 <= i < j < |s| - 1
      ensures key(s[1..][i]) <= key(s[1..][j])
    {
      assert s[1..][i] == s[i + 1] && s[1..][j] == s[j + 1];
    }
  }

  /** A bound below the first key of a sorted sequence is below every key. */
  lemma HeadBelowAll<T>(s: seq<T>, key: T -> int, b: int)
    requires SortedBy(s, key) && s != [] && b <= key(s[0])
    ensures forall k :: 0 <= k < |s| ==> b <= key(s[k])
  {
    forall k | 0 < k < |s|
      ensures b <= key(s[k])
    {
      assert key(s[0]) <= key(s[k]);
    }
  }

  /** Putting a row in front of a sorted sequence whose keys it does not
      exceed keeps it sorted. */
  lemma ConsSorted<T>(h: T, t: seq<T>, key: T -> int)
    requires SortedBy(t, key)
    requires forall k :: 0 <= k < |t| ==> key(h) <= key(t[k])
    ensures SortedBy([h] + t, key)
  {
    var s := [h] + t;
    forall i, j | 0 <= i < j < |s|
      ensures key(s[i]) <= key(s[j])
    {
      assert s[j] == t[j - 1];
      if i > 0 {
        assert s[i] == t[i - 1];
      }
    }
  }

  /** Inserting `x` into the tail of `s`, when `x` sorts after the head,
      leaves every key at or above the head's key. */
  lemma InsertKeepsBound<T>(x: T, s: seq<T>, rest: seq<T>, key: T -> int)
    requires SortedBy(s, key) && s != [] && key(s[0]) < key(x)
    requires multiset(rest) == multiset(s[1..]) + multiset{x}
    ensures forall k :: 0 <= k < |rest| ==> key(s[0]) <= key(rest[k])
  {
    forall k | 0 <= k < |rest|
      ensures key(s[0]) <= key(rest[k])
    {
      assert rest[k] in multiset(rest);
      if rest[k] != x {
        assert rest[k] in multiset(s[1..]);
        var m :| 0 <= m < |s[1..]| && s[1..][m] == rest[k];
        assert s[m + 1] == rest[k];
      }
    }
  }

  /** Ordering yields a permutation of the input in ascending key order. */
  lemma {:induction false} SortBySortedPermutation<T>(s: seq<T>, key: T -> int)
    ensures multiset(SortBy(s, key)) == multiset(s)
    ensures SortedBy(SortBy(s, key), key)
  {
    if s != [] {
      SortBySortedPermutation(s[1..], key);
      InsertSorted(s[0], SortBy(s[1..], key), key);
      assert s == [s[0]] + s[1..];
    }
  }

  lemma {:induction false} KeysOfMultiset<T>(s1: seq<T>, s2: seq<T>, key: T -> int)
    requires multiset(s1) == multiset(s2)
    ensures multiset(KeysOf(s1, key)) == multiset(KeysOf(s2, key))
    decreases |s1|
  {
    if s1 != [] {
      var x := s1[0];
      var t := s1[1..];
      TailMultiset(s1);
      assert x in multiset(s2);
      var j :| 0 <= j < |s2| && s2[j] == x;
      var w := s2[..j] + s2[j + 1..];
      RemoveAt(s2, j, key);
      KeysOfMultiset(t, w, key);
      KeysOfCons(s1, key);
      BackIn(multiset(KeysOf(s2, key)), key(x));
    }
  }

  /** The keys of a non-empty sequence: the first key, then the rest. */
  lemma KeysOfCons<T>(s: seq<T>, key: T -> int)
    requires s != []
    ensures multiset(KeysOf(s, key)) == multiset{key(s[0])} + multiset(KeysOf(s[1..], key))
  {
    assert KeysOf(s, key) == [key(s[0])] + KeysOf(s[1..], key);
  }

  /** Taking out an element and putting it back. */
  lemma BackIn<U>(m: multiset<U>, x: U)
    requires x in m
    ensures multiset{x} + (m - multiset{x}) == m
  {
  }

  lemma TailMultiset<T>(s: seq<T>)
    requires s != []
    ensures multiset(s[1..]) == multiset(s) - multiset{s[0]}
  {
    assert s == [s[0]] + s[1..];
  }

  /** Taking out the row at `j` takes it, and its key, out of the multisets. */
  lemma {:induction false} RemoveAt<T>(s: seq<T>, j: nat, key: T -> int)
    requires j < |s|
    ensures multiset(s[..j] + s[j + 1..]) == multiset(s) - multiset{s[j]}
    ensures multiset(KeysOf(s[..j] + s[j + 1..], key)) == multiset(KeysOf(s, key)) - multiset{key(s[j])}
  {
    var u, v := s[..j], s[j + 1..];
    assert s == u + ([s[j]] + v);
    KeysOfAppend(u, [s[j]] + v, key);
    KeysOfAppend(u, v, key);
    assert KeysOf([s[j]] + v, key) == [key(s[j])] + KeysOf(v, key);
  }

  lemma {:induction false} KeysOfAppend<T>(a: seq<T>, b: seq<T>, key: T -> int)
    ensures KeysOf(a + b, key) == KeysOf(a, key) + KeysOf(b, key)
  {
    var l, r := KeysOf(a + b, key), KeysOf(a, key) + KeysOf(b, key);
    forall i | 0 <= i < |l|
      ensures l[i] == r[i]
    {
      if i < |a| {
        assert (a + b)[i] == a[i];
      } else {
        assert (a + b)[i] == b[i - |a|];
      }
    }
  }

  ghost predicate Ascending(a: seq<int>) {
    forall i, j :: 0 <= i < j < |a| ==> a[i] <= a[j]
  }

  lemma AscendingTail(a: seq<int>)
    requires Ascending(a) && a != []
    ensures Ascending(a[1..])
  {
    forall i, j | 0 <= i < j < |a| - 1
      ensures a[1..][i] <= a[1..][j]
    {
      assert a[1..][i] == a[i + 1] && a[1..][j] == a[j + 1];
    }
  }

  /** The keys of a sorted sequence ascend. */
  lemma KeysAscend<T>(s: seq<T>, key: T -> int)
    requires SortedBy(s, key)
    ensures Ascending(KeysOf(s, key))
  {
  }

  /** The first element of an ascending sequence is its least. */
  lemma HeadIsLeast(a: seq<int>, x: int)
    requires Ascending(a)
    requires x in multiset(a)
    ensures a[0] <= x
  {
    var k :| 0 <= k < |a| && a[k] == x;
    if k > 0 {
      assert a[0] <= a[k];
    }
  }

  lemma {:induction false} SortedIntsUnique(a: seq<int>, b: seq<int>)
    requires Ascending(a) && Ascending(b)
    requires multiset(a) == multiset(b)
    ensures a == b
    decreases |a|
  {
    SameSize(a, b);
    if a != [] {
      HeadsAgree(a, b);
      TailsAgree(a, b);
      AscendingTail(a);
      AscendingTail(b);
      SortedIntsUnique(a[1..], b[1..]);
      ConsEqual(a, b);
    }
  }

  lemma SameSize<U>(a: seq<U>, b: seq<U>)
    requires multiset(a) == multiset(b)
    ensures |a| == |b|
  {
    assert |a| == |multiset(a)| && |b| == |multiset(b)|;
  }

  lemma HeadsAgree(a: seq<int>, b: seq<int>)
    requires Ascending(a) && Ascending(b) && a != [] && b != []
    requires multiset(a) == multiset(b)
    ensures a[0] == b[0]
  {
    assert b[0] in multiset(b);
    HeadIsLeast(a, b[0]);
    assert a[0] in multiset(a);
    HeadIsLeast(b, a[0]);
  }

  lemma TailsAgree<U>(a: seq<U>, b: seq<U>)
    requires a != [] && b != [] && a[0] == b[0]
    requires multiset(a) == multiset(b)
    ensures multiset(a[1..]) == multiset(b[1..])
  {
    TailMultiset(a);
    TailMultiset(b);
  }

  lemma ConsEqual<U>(a: seq<U>, b: seq<U>)
    requires a != [] && b != [] && a[0] == b[0] && a[1..] == b[1..]
    ensures a == b
  {
    assert a == [a[0]] + a[1..] && b == [b[0]] + b[1..];
  }

  /** Two orderings of the same rows that are both sorted by `key` list the
      same keys in the same positions: they can differ only by the order of
      rows whose keys are equal. */
  lemma {:induction false} SortedPermutationsAgreeOnKeys<T>(s1: seq<T>, s2: seq<T>, key: T -> int)
    requires multiset(s1) == multiset(s2)
    requires SortedBy(s1, key) && SortedBy(s2, key)
    ensures KeysOf(s1, key) == KeysOf(s2, key)
  {
    KeysOfMultiset(s1, s2, key);
    KeysAscend(s1, key);
    KeysAscend(s2, key);
    SortedIntsUnique(KeysOf(s1, key), KeysOf(s2, key));
  }

  /** When no two rows share a key there is only one sorted arrangement. */
  lemma {:induction false} DistinctKeysDetermineOrder<T>(s1: seq<T>, s2: seq<T>, key: T -> int)
    requires multiset(s1) == multiset(s2)
    requires SortedBy(s1, key) && SortedBy(s2, key)
    requires forall i, j :: 0 <= i < j < |s2| ==> key(s2[i]) != key(s2[j])
    ensures s1 == s2
  {
    SortedPermutationsAgreeOnKeys(s1, s2, key);
    assert |s1| == |s2| by { assert |multiset(s1)| == |multiset(s2)|; }
    forall k | 0 <= k < |s1| ensures s1[k] == s2[k] {
      assert s1[k] in multiset(s2);
      var j :| 0 <= j < |s2| && s2[j] == s1[k];
      assert KeysOf(s1, key)[k] == KeysOf(s2, key)[k];
    }
  }
}
