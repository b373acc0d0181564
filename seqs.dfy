// Sequence helpers with JavaScript array semantics: a stable descending
// sort by a numeric key (`arr.sort((a, b) => key(b) - key(a))`), `slice`
// with negative indices, and sums.

module Seqs {

  predicate SortedDesc<T>(s: seq<T>, key: T -> real) {
    forall i, j :: 0 <= i < j < |s| ==> key(s[i]) >= key(s[j])
  }

  /** Inserts x before the first element whose key is not larger than x's. */
  function Insert<T(==)>(x: T, s: seq<T>, key: T -> real): (r: seq<T>)
    ensures |r| == |s| + 1
    ensures multiset(r) == multiset(s) + multiset{x}
    ensures SortedDesc(s, key) ==> SortedDesc(r, key)
    ensures r[0] == x || (s != [] && r[0] == s[0])
  {
    if s == [] then [x]
    else if key(s[0]) > key(x) then
      var rest := Insert(x, s[1..], key);
      var r := [s[0]] + rest;
      assert s == [s[0]] + s[1..];
      assert multiset(r) == multiset{s[0]} + multiset(rest);
      SortedTail(s, key);
      ConsSorted(s[0], rest, key);
      r
    else
      ConsSorted(x, s, key);
      [x] + s
  }

  lemma SortedTail<T>(s: seq<T>, key: T -> real)
    requires s != []
    ensures SortedDesc(s, key) ==> SortedDesc(s[1..], key)
    ensures SortedDesc(s, key) ==> forall i :: 1 <= i < |s| ==> key(s[0]) >= key(s[i])
  {
  }

  /** A head no smaller than the first key of a sorted tail keeps it sorted. */
  lemma ConsSorted<T>(h: T, t: seq<T>, key: T -> real)
    ensures SortedDesc(t, key) && (t != [] ==> key(h) >= key(t[0])) ==> SortedDesc([h] + t, key)
  {
    var r := [h] + t;
    if !SortedDesc(t, key) || (t != [] && key(h) < key(t[0])) {
      return;
    }
    forall i, j | 0 <= i < j < |r|
      ensures key(r[i]) >= key(r[j])
    {
      if i > 0 {
        assert r[i] == t[i - 1] && r[j] == t[j - 1];
      } else {
        assert r[j] == t[j - 1];
      }
    }
  }

  /** Stable sort, largest key first. */
  function SortDesc<T(==)>(s: seq<T>, key: T -> real): (r: seq<T>)
    ensures |r| == |s|
    ensures multiset(r) == multiset(s)
    ensures SortedDesc(r, key)
  {
    if s == [] then []
    else
      assert s == [s[0]] + s[1..];
      Insert(s[0], SortDesc(s[1..], key), key)
  }

  /** Clamps a JavaScript slice index into [0, n]; negative indices count from the end. */
  function SliceIndex(k: int, n: nat): (r: nat)
    ensures r <= n
  {
    if k < 0 then (if n + k < 0 then 0 else n + k) else if k > n then n else k
  }

  /** `s.slice(start, end)`. */
  function Slice<T>(s: seq<T>, start: int, end: int): (r: seq<T>)
    ensures |r| <= |s|
  {
    var a := SliceIndex(start, |s|);
    var b := SliceIndex(end, |s|);
    if a < b then s[a..b] else []
  }

  /** `s.slice(0, n)` with non-negative n keeps the first min(n, |s|) elements. */
  lemma SliceTake<T>(s: seq<T>, n: nat)
    ensures Slice(s, 0, n) == s[..if n < |s| then n else |s|]
  {
  }

  /** Any slice of a sorted list is sorted. */
  lemma SliceKeepsOrder<T>(s: seq<T>, start: int, end: int, key: T -> real)
    requires SortedDesc(s, key)
    ensures SortedDesc(Slice(s, start, end), key)
  {
  }

  /**
   * The first entries of a descending sort: a sub-multiset of the input, and
   * every element kept fewer times than it occurs ranks no higher than any kept
   * one. Without repeats in the input there are none among the kept.
   */
  lemma TopOfSorted<T>(all: seq<T>, key: T -> real, end: int)
    ensures multiset(Slice(SortDesc(all, key), 0, end)) <= multiset(all)
    ensures forall x, y ::
              (x in all && y in Slice(SortDesc(all, key), 0, end)
               && multiset(Slice(SortDesc(all, key), 0, end))[x] < multiset(all)[x]) ==> key(x) <= key(y)
    ensures NoDuplicates(all) ==> NoDuplicates(Slice(SortDesc(all, key), 0, end))
  {
    var b := SliceIndex(end, |all|);
    assert Slice(SortDesc(all, key), 0, end) == SortDesc(all, key)[..b];
    TopOfSortedPrefix(all, key, b);
    if NoDuplicates(all) {
      DistinctPermutationPrefix(SortDesc(all, key), all, b);
    }
  }

  /** The same for the first n entries of the sort, apart from repeats. */
  lemma TopOfSortedPrefix<T>(all: seq<T>, key: T -> real, n: nat)
    requires n <= |all|
    ensures multiset(SortDesc(all, key)[..n]) <= multiset(all)
    ensures forall x, y ::
              (x in all && y in SortDesc(all, key)[..n]
               && multiset(SortDesc(all, key)[..n])[x] < multiset(all)[x]) ==> key(x) <= key(y)
  {
    var ranked := SortDesc(all, key);
    var top := ranked[..n];
    assert ranked == top + ranked[n..];
    assert multiset(ranked) == multiset(top) + multiset(ranked[n..]);
    forall x, y | x in all && y in top && multiset(top)[x] < multiset(all)[x]
      ensures key(x) <= key(y)
    {
      assert x in multiset(ranked[n..]);
      SortedSplit(ranked, key, n, x, y);
    }
  }

  /** In a sorted list, an element after position n ranks no higher than one before it. */
  lemma SortedSplit<T>(s: seq<T>, key: T -> real, n: nat, x: T, y: T)
    requires n <= |s| && SortedDesc(s, key) && x in s[n..] && y in s[..n]
    ensures key(x) <= key(y)
  {
    var i :| n <= i < |s| && s[i] == x;
    var j :| 0 <= j < n && s[j] == y;
  }

  /** The same for any list that is a prefix of the sort. */
  lemma TopOfSortedTake<T>(all: seq<T>, key: T -> real, top: seq<T>)
    requires |top| <= |all| && top == SortDesc(all, key)[..|top|]
    ensures multiset(top) <= multiset(all)
    ensures forall x, y :: (x in all && y in top && multiset(top)[x] < multiset(all)[x]) ==> key(x) <= key(y)
    ensures NoDuplicates(all) ==> NoDuplicates(top)
  {
    TopOfSortedPrefix(all, key, |top|);
    if NoDuplicates(all) {
      DistinctPermutationPrefix(SortDesc(all, key), all, |top|);
    }
  }

  /** The first n of the elements satisfying p, sorted by descending key. */
  lemma TopOfFiltered<T>(s: seq<T>, p: T -> bool, key: T -> real, n: nat)
    requires n <= |Filter(s, p)|
    ensures var r := SortDesc(Filter(s, p), key)[..n];
      (forall i :: 0 <= i < |r| ==> p(r[i]))
      && SortedDesc(r, key)
      && multiset(r) <= multiset(Filter(s, p))
      && forall x, y :: (x in Filter(s, p) && y in r && multiset(r)[x] < multiset(Filter(s, p))[x]) ==> key(x) <= key(y)
  {
    var f := Filter(s, p);
    var r := SortDesc(f, key)[..n];
    PrefixSorted(SortDesc(f, key), key, n);
    TopOfSortedTake(f, key, r);
    forall i | 0 <= i < |r| ensures p(r[i]) {
      assert r[i] in multiset(r);
      FilterMembers(s, p, r[i]);
    }
  }

  lemma PrefixSorted<T>(s: seq<T>, key: T -> real, n: nat)
    requires n <= |s| && SortedDesc(s, key)
    ensures SortedDesc(s[..n], key)
  {
    assert forall i :: 0 <= i < n ==> s[..n][i] == s[i];
  }

  /** A prefix of a reordering of a list without repeats has no repeats. */
  lemma DistinctPermutationPrefix<T>(a: seq<T>, b: seq<T>, n: nat)
    requires multiset(a) == multiset(b) && NoDuplicates(b) && n <= |a|
    ensures NoDuplicates(a[..n])
  {
    DistinctMultiplicity(b);
    DistinctMultiplicity(a);
  }

  /** A list has no repeats exactly when no element occurs twice in its multiset. */
  lemma {:induction false} DistinctMultiplicity<T>(s: seq<T>)
    ensures NoDuplicates(s) <==> forall x :: multiset(s)[x] <= 1
  {
    if s != [] {
      var t := s[1..];
      assert s == [s[0]] + t;
      assert multiset(s) == multiset{s[0]} + multiset(t);
      DistinctMultiplicity(t);
      if NoDuplicates(s) {
        assert NoDuplicates(t);
        assert s[0] !in t;
      } else if forall x :: multiset(s)[x] <= 1 {
        assert multiset(s)[s[0]] == 1 + multiset(t)[s[0]];
        assert forall x :: multiset(t)[x] <= multiset(s)[x];
        forall i, j | 0 <= i < j < |s| ensures s[i] != s[j] {
          if i == 0 {
            assert s[j] == t[j - 1];
          } else {
            assert s[i] == t[i - 1] && s[j] == t[j - 1];
          }
        }
        assert false;
      }
    }
  }

  function Sum<T>(s: seq<T>, f: T -> real): real
  {
    if s == [] then 0.0 else f(s[0]) + Sum(s[1..], f)
  }

  lemma {:induction false} SumAppend<T>(a: seq<T>, b: seq<T>, f: T -> real)
    ensures Sum(a + b, f) == Sum(a, f) + Sum(b, f)
  {
    if a == [] {
      assert a + b == b;
    } else {
      assert (a + b)[1..] == a[1..] + b;
      SumAppend(a[1..], b, f);
    }
  }

  /** `arr.map(f)`. */
  function Map<A, B>(s: seq<A>, f: A -> B): (r: seq<B>)
    ensures |r| == |s|
    ensures forall i :: 0 <= i < |s| ==> r[i] == f(s[i])
  {
    if s == [] then []
    else
      var n := |s| - 1;
      var init := Map(s[..n], f);
      var r := init + [f(s[n])];
      assert forall i :: 0 <= i < n ==> r[i] == init[i] && s[..n][i] == s[i];
      r
  }

  /** Elements satisfying p, in their original order (JavaScript's `filter`). */
  function Filter<T>(s: seq<T>, p: T -> bool): (r: seq<T>)
    ensures |r| <= |s|
    ensures forall i :: 0 <= i < |r| ==> p(r[i])
    ensures forall x :: x in r ==> x in s
  {
    if s == [] then []
    else if p(s[0]) then [s[0]] + Filter(s[1..], p)
    else Filter(s[1..], p)
  }

  /** Filtering keeps exactly the elements that satisfy the predicate. */
  lemma {:induction false} FilterMembers<T>(s: seq<T>, p: T -> bool, x: T)
    ensures x in Filter(s, p) <==> x in s && p(x)
  {
    if s != [] {
      FilterMembers(s[1..], p, x);
      assert s == [s[0]] + s[1..];
    }
  }

  /** `s` is obtained from `t` by deleting elements: order is preserved. */
  predicate IsSubsequence<T(==)>(s: seq<T>, t: seq<T>)
    decreases |t|
  {
    s == [] || (t != [] && ((s[0] == t[0] && IsSubsequence(s[1..], t[1..])) || IsSubsequence(s, t[1..])))
  }

  lemma {:induction false} FilterSubsequence<T>(s: seq<T>, p: T -> bool)
    ensures IsSubsequence(Filter(s, p), s)
  {
    if s != [] {
      FilterSubsequence(s[1..], p);
      if p(s[0]) {
        assert Filter(s, p)[1..] == Filter(s[1..], p);
      }
    }
  }

  /** Filtering with a predicate every element meets keeps the whole list. */
  lemma {:induction false} FilterAll<T>(s: seq<T>, p: T -> bool)
    requires forall i :: 0 <= i < |s| ==> p(s[i])
    ensures Filter(s, p) == s
  {
    if s != [] {
      FilterAll(s[1..], p);
      assert s == [s[0]] + s[1..];
    }
  }

  /** Filtering with a predicate no element meets leaves nothing. */
  lemma {:induction false} FilterNone<T>(s: seq<T>, p: T -> bool)
    requires forall i :: 0 <= i < |s| ==> !p(s[i])
    ensures Filter(s, p) == []
  {
    if s != [] {
      FilterNone(s[1..], p);
    }
  }

  /** Filtering a concatenation filters each part. */
  lemma {:induction false} FilterConcat<T>(a: seq<T>, b: seq<T>, p: T -> bool)
    ensures Filter(a + b, p) == Filter(a, p) + Filter(b, p)
  {
    if a != [] {
      assert (a + b)[1..] == a[1..] + b;
      FilterConcat(a[1..], b, p);
    } else {
      assert a + b == b;
    }
  }

  function Count<T>(s: seq<T>, p: T -> bool): (n: nat)
    ensures n <= |s|
  {
    if s == [] then 0 else (if p(s[0]) then 1 else 0) + Count(s[1..], p)
  }

  lemma {:induction false} CountIsFilterLength<T>(s: seq<T>, p: T -> bool)
    ensures Count(s, p) == |Filter(s, p)|
  {
    if s != [] {
      CountIsFilterLength(s[1..], p);
    }
  }

  predicate NoDuplicates<T(==)>(s: seq<T>) {
    forall i, j :: 0 <= i < j < |s| ==> s[i] != s[j]
  }

  /** A list without repeats has as many distinct members as entries. */
  lemma {:induction false} DistinctCount<T>(s: seq<T>)
    requires NoDuplicates(s)
    ensures |set x | x in s| == |s|
  {
    if s != [] {
      assert NoDuplicates(s[1..]);
      DistinctCount(s[1..]);
      assert (set x | x in s) == {s[0]} + (set x | x in s[1..]);
      assert s[0] !in s[1..];
    }
  }

  /** The sum of f over the map's values, visiting the keys in the listed order. */
  function SumOver<K, V>(keys: seq<K>, m: map<K, V>, f: V -> real): real
    requires forall k :: k in keys ==> k in m
  {
    if keys == [] then 0.0 else f(m[keys[0]]) + SumOver(keys[1..], m, f)
  }

  /** Replacing one value changes the sum by that value's difference, once if the key is listed. */
  lemma {:induction false} SumOverUpdate<K, V>(keys: seq<K>, m: map<K, V>, k: K, v: V, f: V -> real)
    requires forall x :: x in keys ==> x in m
    requires NoDuplicates(keys) && k in m
    ensures SumOver(keys, m[k := v], f) == SumOver(keys, m, f) + (if k in keys then f(v) - f(m[k]) else 0.0)
  {
    if keys != [] {
      assert NoDuplicates(keys[1..]);
      SumOverUpdate(keys[1..], m, k, v, f);
      if keys[0] == k {
        assert k !in keys[1..];
      }
    }
  }

  /** Listing a new key adds its value. */
  lemma {:induction false} SumOverAppend<K, V>(keys: seq<K>, m: map<K, V>, k: K, v: V, f: V -> real)
    requires forall x :: x in keys ==> x in m
    requires k !in keys
    ensures SumOver(keys + [k], m[k := v], f) == SumOver(keys, m, f) + f(v)
  {
    if keys == [] {
      assert keys + [k] == [k];
    } else {
      assert (keys + [k])[1..] == keys[1..] + [k];
      SumOverAppend(keys[1..], m, k, v, f);
    }
  }

  /** `Array.from(map.values())`: the values in key insertion order (keys
      without a value are skipped). */
  function ValuesOf<K, V>(keys: seq<K>, m: map<K, V>): (r: seq<V>)
    ensures (forall k :: k in keys ==> k in m) ==>
      |r| == |keys| && forall i :: 0 <= i < |keys| ==> r[i] == m[keys[i]]
  {
    if keys == [] then []
    else (if keys[0] in m then [m[keys[0]]] else []) + ValuesOf(keys[1..], m)
  }

  /** Every value listed is a value of the map. */
  lemma ValuesInMap<K, V>(keys: seq<K>, m: map<K, V>)
    requires forall k :: k in keys ==> k in m
    ensures forall v :: v in ValuesOf(keys, m) ==> v in m.Values
  {
    forall v | v in ValuesOf(keys, m) ensures v in m.Values {
      var i :| 0 <= i < |keys| && ValuesOf(keys, m)[i] == v;
      assert m[keys[i]] == v;
    }
  }
}
