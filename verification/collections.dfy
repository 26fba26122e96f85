/** Sequence helpers shared by the engine: duplicate-free sequences and JavaScript's `new Set(...)`. */
module Collections {

  /** No element occurs twice. */
  predicate NoDup<T(==)>(s: seq<T>) {
    forall i, j :: 0 <= i < j < |s| ==> s[i] != s[j]
  }

  /** The elements of `s` not already in `acc` (nor earlier in `s`) appended to `acc`, in order of
      first occurrence: `Array.from(new Set([...acc, ...s]))` when `acc` has no duplicates, and
      the loop `for (x of s) if (!acc.includes(x)) acc.push(x)` in general. */
  function AppendNew<T(==,!new)>(acc: seq<T>, s: seq<T>): (r: seq<T>)
    ensures NoDup(acc) ==> NoDup(r)
    ensures acc <= r
    ensures forall x :: x in r <==> x in acc || x in s
    decreases |s|
  {
    if |s| == 0 then acc
    else if s[0] in acc then AppendNew(acc, s[1..])
    else AppendNew(acc + [s[0]], s[1..])
  }

  /** `AppendNew` never adds an element `acc` already holds, and adds any other at most once. */
  lemma {:induction false} AppendNewCounts<T(!new)>(acc: seq<T>, s: seq<T>, x: T)
    ensures x in acc ==> multiset(AppendNew(acc, s))[x] == multiset(acc)[x]
    ensures x !in acc ==> multiset(AppendNew(acc, s))[x] <= 1
    decreases |s|
  {
    if |s| > 0 {
      if s[0] in acc {
        AppendNewCounts(acc, s[1..], x);
      } else {
        AppendNewCounts(acc + [s[0]], s[1..], x);
        assert multiset(acc + [s[0]]) == multiset(acc) + multiset{s[0]};
      }
    }
  }

  lemma ConcatAssoc<T>(a: seq<T>, b: seq<T>, c: seq<T>)
    ensures a + b + c == a + (b + c)
  {
  }

  /** One step of `AppendNew`: the head is appended unless already present. */
  lemma AppendNewCons<T(!new)>(acc: seq<T>, x: T, s: seq<T>)
    ensures AppendNew(acc, [x] + s) == AppendNew(if x in acc then acc else acc + [x], s)
  {
    assert ([x] + s)[0] == x && ([x] + s)[1..] == s;
  }

  /** The loop `for (x of s) if (!acc.includes(x)) acc.push(x)` taken one element further. */
  lemma {:induction false} AppendNewSnoc<T(!new)>(acc: seq<T>, s: seq<T>, x: T)
    ensures AppendNew(acc, s + [x]) == if x in AppendNew(acc, s) then AppendNew(acc, s) else AppendNew(acc, s) + [x]
    decreases |s|
  {
    if |s| == 0 {
      assert s + [x] == [x];
      AppendNewCons(acc, x, []);
    } else {
      assert (s + [x])[0] == s[0] && (s + [x])[1..] == s[1..] + [x];
      AppendNewSnoc(if s[0] in acc then acc else acc + [s[0]], s[1..], x);
    }
  }

  /** `Array.from(new Set(s))`: the distinct elements of `s` in order of first occurrence. */
  function Distinct<T(==,!new)>(s: seq<T>): (r: seq<T>)
    ensures NoDup(r)
    ensures forall x :: x in r <==> x in s
  {
    AppendNew([], s)
  }

  /** A sequence that already has no duplicates passes through a set unchanged. */
  lemma {:induction false} AppendNewKeepsDistinct<T(!new)>(acc: seq<T>, s: seq<T>)
    requires NoDup(acc + s)
    ensures NoDup(acc)
    ensures AppendNew(acc, s) == acc + s
    decreases |s|
  {
    forall i, j | 0 <= i < j < |acc| ensures acc[i] != acc[j] {
      assert acc[i] == (acc + s)[i] && acc[j] == (acc + s)[j];
    }
    if |s| > 0 {
      forall k | 0 <= k < |acc| ensures acc[k] != s[0] {
        assert acc[k] == (acc + s)[k] && s[0] == (acc + s)[|acc|];
      }
      assert acc + s == (acc + [s[0]]) + s[1..];
      AppendNewKeepsDistinct(acc + [s[0]], s[1..]);
    }
  }

  lemma DistinctOfDistinct<T(!new)>(s: seq<T>)
    requires NoDup(s)
    ensures Distinct(s) == s
  {
    assert [] + s == s;
    AppendNewKeepsDistinct([], s);
  }

  /** Two sequences without repeats and without a common element join into one without repeats. */
  lemma NoDupConcat<T>(a: seq<T>, b: seq<T>)
    requires NoDup(a) && NoDup(b)
    requires forall i, j :: 0 <= i < |a| && 0 <= j < |b| ==> a[i] != b[j]
    ensures NoDup(a + b)
  {
    forall i, j | 0 <= i < j < |a + b| ensures (a + b)[i] != (a + b)[j] {
      if j < |a| {
        assert (a + b)[i] == a[i] && (a + b)[j] == a[j];
      } else if i < |a| {
        assert (a + b)[i] == a[i] && (a + b)[j] == b[j - |a|];
      } else {
        assert (a + b)[i] == b[i - |a|] && (a + b)[j] == b[j - |a|];
      }
    }
  }

  /** How many elements of `s` satisfy `p`. */
  function CountWhere<T>(s: seq<T>, p: T -> bool): (n: nat)
    ensures n <= |s|
  {
    if |s| == 0 then 0 else (if p(s[0]) then 1 else 0) + CountWhere(s[1..], p)
  }

  /** The elements of `s` that satisfy `p`, in order (`s.filter(p)`). */
  function Filter<T>(s: seq<T>, p: T -> bool): (r: seq<T>)
    ensures |r| == CountWhere(s, p)
    ensures forall i :: 0 <= i < |r| ==> r[i] in s && p(r[i])
  {
    if |s| == 0 then [] else (if p(s[0]) then [s[0]] else []) + Filter(s[1..], p)
  }

  /** `s.filter(p)` taken one element further. */
  lemma {:induction false} FilterSnoc<T>(s: seq<T>, x: T, p: T -> bool)
    ensures Filter(s + [x], p) == Filter(s, p) + (if p(x) then [x] else [])
    decreases |s|
  {
    if |s| == 0 {
      assert s + [x] == [x];
      assert [x][1..] == [];
    } else {
      assert (s + [x])[0] == s[0] && (s + [x])[1..] == s[1..] + [x];
      FilterSnoc(s[1..], x, p);
    }
  }

  /** Nothing is counted exactly when nothing satisfies `p`; everything, when everything does. */
  lemma {:induction false} CountWhereExtremes<T>(s: seq<T>, p: T -> bool)
    ensures CountWhere(s, p) == 0 <==> forall i :: 0 <= i < |s| ==> !p(s[i])
    ensures CountWhere(s, p) == |s| <==> forall i :: 0 <= i < |s| ==> p(s[i])
    decreases |s|
  {
    if |s| > 0 {
      CountWhereExtremes(s[1..], p);
      assert forall i :: 1 <= i < |s| ==> s[i] == s[1..][i - 1];
    }
  }

  /** Nothing passes the filter when no element satisfies `p`. */
  lemma {:induction false} FilterNone<T>(s: seq<T>, p: T -> bool)
    requires forall i :: 0 <= i < |s| ==> !p(s[i])
    ensures Filter(s, p) == []
    decreases |s|
  {
    if |s| > 0 {
      assert forall i :: 0 <= i < |s[1..]| ==> s[1..][i] == s[i + 1];
      FilterNone(s[1..], p);
    }
  }

  /** Filtering by a condition every element meets keeps everything. */
  lemma {:induction false} FilterAll<T>(s: seq<T>, p: T -> bool)
    requires forall i :: 0 <= i < |s| ==> p(s[i])
    ensures Filter(s, p) == s
    decreases |s|
  {
    if |s| > 0 {
      assert forall i :: 0 <= i < |s[1..]| ==> s[1..][i] == s[i + 1];
      FilterAll(s[1..], p);
      assert [s[0]] + s[1..] == s;
    }
  }

  /** Membership in a filtered sequence. */
  lemma {:induction false} FilterMembers<T(!new)>(s: seq<T>, p: T -> bool)
    ensures forall x :: x in Filter(s, p) <==> x in s && p(x)
    decreases |s|
  {
    if |s| > 0 {
      FilterMembers(s[1..], p);
      assert s == [s[0]] + s[1..];
    }
  }

  /** Position of the first occurrence of `x` in `s` (`s.indexOf(x)` for an element present). */
  function Position<T(==)>(s: seq<T>, x: T): (k: nat)
    requires x in s
    ensures k < |s| && s[k] == x
    ensures forall j :: 0 <= j < k ==> s[j] != x
  {
    if s[0] == x then 0 else 1 + Position(s[1..], x)
  }

  /** Filtering a sequence without repeats keeps it without repeats, and keeps its order: an
      element filtered earlier sits earlier in `s`. */
  lemma {:induction false} FilterOrdered<T>(s: seq<T>, p: T -> bool)
    requires NoDup(s)
    ensures NoDup(Filter(s, p))
    ensures forall i, j :: 0 <= i < j < |Filter(s, p)| ==> Position(s, Filter(s, p)[i]) < Position(s, Filter(s, p)[j])
    decreases |s|
  {
    if |s| > 0 {
      var tail := s[1..];
      assert NoDup(tail) by {
        forall i, j | 0 <= i < j < |tail| ensures tail[i] != tail[j] {
          assert tail[i] == s[i + 1] && tail[j] == s[j + 1];
        }
      }
      FilterOrdered(tail, p);
      var r := Filter(tail, p);
      assert forall x :: x in r ==> x in tail && x != s[0] && Position(s, x) == 1 + Position(tail, x) by {
        forall x | x in r ensures x in tail && x != s[0] && Position(s, x) == 1 + Position(tail, x) {
          var k :| 0 <= k < |r| && r[k] == x;
          var m := Position(tail, x);
          assert s[m + 1] == x;
        }
      }
      var head := if p(s[0]) then [s[0]] else [];
      assert Filter(s, p) == head + r;
    }
  }

  /** `s.slice(0, n)` */
  function Take<T>(s: seq<T>, n: nat): (r: seq<T>)
    ensures |r| == if n < |s| then n else |s|
    ensures r <= s
  {
    if n < |s| then s[..n] else s
  }
}
