/** JavaScript's `Array.prototype.sort` with a descending numeric comparator
    (`(a, b) => key(b) - key(a)`). The sort is stable, so elements with equal keys keep their
    input order; the model is an insertion sort with that property. */
module Sorting {
  import opened Collections

  ghost predicate SortedDesc<T>(s: seq<T>, key: T -> real) {
    forall i, j :: 0 <= i < j < |s| ==> key(s[i]) >= key(s[j])
  }

  /** Puts `x` in front of the first element whose key is not greater than its own. */
  function Insert<T>(x: T, s: seq<T>, key: T -> real): (r: seq<T>)
    ensures |r| == |s| + 1
    ensures multiset(r) == multiset(s) + multiset{x}
  {
    if |s| == 0 then [x]
    else if key(x) >= key(s[0]) then [x] + s
    else
      assert s == [s[0]] + s[1..];
      [s[0]] + Insert(x, s[1..], key)
  }

  lemma {:induction false} InsertSorted<T>(x: T, s: seq<T>, key: T -> real)
    requires SortedDesc(s, key)
    ensures SortedDesc(Insert(x, s, key), key)
    decreases |s|
  {
    if |s| > 0 && key(x) < key(s[0]) {
      var rest := Insert(x, s[1..], key);
      InsertSorted(x, s[1..], key);
      forall i | 0 <= i < |rest| ensures key(s[0]) >= key(rest[i]) {
        assert rest[i] in multiset(rest);
        assert rest[i] in multiset(s[1..]) || rest[i] == x;
      }
    }
  }

  /** The elements of `s` sorted by non-increasing key, ties in input order. */
  function SortDesc<T>(s: seq<T>, key: T -> real): (r: seq<T>)
    ensures |r| == |s|
    ensures multiset(r) == multiset(s)
    ensures SortedDesc(r, key)
  {
    if |s| == 0 then []
    else
      assert s == [s[0]] + s[1..];
      InsertSorted(s[0], SortDesc(s[1..], key), key);
      Insert(s[0], SortDesc(s[1..], key), key)
  }

  /** The elements of `s` whose key is `v`, in their order in `s`. */
  function WithKey<T>(s: seq<T>, key: T -> real, v: real): seq<T> {
    if |s| == 0 then []
    else (if key(s[0]) == v then [s[0]] else []) + WithKey(s[1..], key, v)
  }

  lemma {:induction false} InsertWithKey<T>(x: T, s: seq<T>, key: T -> real, v: real)
    ensures WithKey(Insert(x, s, key), key, v)
         == (if key(x) == v then [x] else []) + WithKey(s, key, v)
    decreases |s|
  {
    if |s| == 0 {
    } else if key(x) >= key(s[0]) {
      assert ([x] + s)[1..] == s;
    } else {
      InsertWithKey(x, s[1..], key, v);
      var r := [s[0]] + Insert(x, s[1..], key);
      assert r[1..] == Insert(x, s[1..], key);
    }
  }

  /** Stability: among elements with equal keys, the sorted order is the input order. */
  lemma {:induction false} SortStable<T>(s: seq<T>, key: T -> real, v: real)
    ensures WithKey(SortDesc(s, key), key, v) == WithKey(s, key, v)
    decreases |s|
  {
    if |s| > 0 {
      SortStable(s[1..], key, v);
      InsertWithKey(s[0], SortDesc(s[1..], key), key, v);
    }
  }

  /** `sorted.slice(0, n)`: the first `n` elements by non-increasing key, all taken from `s`. */
  function Top<T>(s: seq<T>, key: T -> real, n: nat): (r: seq<T>)
    ensures |r| == if n < |s| then n else |s|
    ensures SortedDesc(r, key)
    ensures multiset(r) <= multiset(s)
  {
    var sorted := SortDesc(s, key);
    assert sorted == Take(sorted, n) + sorted[|Take(sorted, n)|..];
    Take(sorted, n)
  }

  /** The cut loses nothing better: an element of `s` left out of the top `n` has a key no greater
      than that of any element kept. */
  lemma TopDominates<T>(s: seq<T>, key: T -> real, n: nat, x: T)
    requires x in s
    ensures x in Top(s, key, n) || forall i :: 0 <= i < |Top(s, key, n)| ==> key(Top(s, key, n)[i]) >= key(x)
  {
    var sorted := SortDesc(s, key);
    var top := Top(s, key, n);
    assert x in multiset(sorted) by {
      assert x in multiset(s);
    }
    var j :| 0 <= j < |sorted| && sorted[j] == x;
    if j < |top| {
      assert top[j] == x;
    } else {
      assert forall i :: 0 <= i < |top| ==> top[i] == sorted[i];
    }
  }

  /** Equal keys keep input order through the cut: the kept elements with key `v` are the first
      elements of `s` with key `v`. */
  lemma TopStable<T>(s: seq<T>, key: T -> real, n: nat, v: real)
    ensures WithKey(Top(s, key, n), key, v) <= WithKey(s, key, v)
  {
    var sorted := SortDesc(s, key);
    SortStable(s, key, v);
    if n < |sorted| {
      WithKeyPrefix(sorted, key, v, n);
    }
  }

  lemma {:induction false} WithKeyPrefix<T>(s: seq<T>, key: T -> real, v: real, n: nat)
    requires n <= |s|
    ensures WithKey(s[..n], key, v) <= WithKey(s, key, v)
    decreases n
  {
    if n > 0 {
      WithKeyPrefix(s[1..], key, v, n - 1);
      assert s[..n][1..] == s[1..][..n - 1];
    }
  }
}
