/**
 * `Array.prototype.filter` and the subsequence relation it establishes, and
 * `findIndex` by a key.
 */
module Seqs {
  import opened Wrappers

  /** `s.findIndex(x => key(x) === k)`: the index of the first element whose key is `k`. */
  function FindFirst<T, K(==)>(s: seq<T>, key: T -> K, k: K): (r: Option<nat>)
    ensures r.None? <==> forall i :: 0 <= i < |s| ==> key(s[i]) != k
    ensures r.Some? ==> r.value < |s| && key(s[r.value]) == k
    ensures r.Some? ==> forall j :: 0 <= j < r.value ==> key(s[j]) != k
    decreases |s|
  {
    if s == [] then None
    else if key(s[0]) == k then Some(0)
    else match FindFirst(s[1..], key, k)
      case None => None
      case Some(i) => Some(i + 1)
  }

  /** The elements of `s` that satisfy `p`, in their original order. */
  function Filter<T(!new)>(s: seq<T>, p: T -> bool): (r: seq<T>)
    ensures |r| <= |s|
    ensures forall x {:trigger x in r} :: x in r <==> x in s && p(x)
    ensures forall i :: 0 <= i < |r| ==> p(r[i])
  {
    if s == [] then [] else (if p(s[0]) then [s[0]] else []) + Filter(s[1..], p)
  }

  lemma {:induction false} FilterAppend<T(!new)>(a: seq<T>, b: seq<T>, p: T -> bool)
    ensures Filter(a + b, p) == Filter(a, p) + Filter(b, p)
    decreases |a|
  {
    if a != [] {
      assert (a + b)[1..] == a[1..] + b;
      FilterAppend(a[1..], b, p);
    } else {
      assert a + b == b;
    }
  }

  /** Filtering twice with the same predicate changes nothing more. */
  lemma {:induction false} FilterIdempotent<T(!new)>(s: seq<T>, p: T -> bool)
    ensures Filter(Filter(s, p), p) == Filter(s, p)
    decreases |s|
  {
    if s != [] {
      var f := Filter(s[1..], p);
      FilterIdempotent(s[1..], p);
      if p(s[0]) {
        var g := [s[0]] + f;
        assert Filter(s, p) == g;
        assert g[0] == s[0] && g[1..] == f;
        assert Filter(g, p) == [s[0]] + Filter(f, p);
      } else {
        assert Filter(s, p) == f;
      }
    }
  }

  lemma {:induction false} FilterNone<T(!new)>(s: seq<T>, p: T -> bool)
    requires forall i :: 0 <= i < |s| ==> !p(s[i])
    ensures Filter(s, p) == []
    decreases |s|
  {
    if s != [] {
      FilterNone(s[1..], p);
    }
  }

  lemma {:induction false} FilterAll<T(!new)>(s: seq<T>, p: T -> bool)
    requires forall i :: 0 <= i < |s| ==> p(s[i])
    ensures Filter(s, p) == s
    decreases |s|
  {
    if s != [] {
      FilterAll(s[1..], p);
      assert s == [s[0]] + s[1..];
    }
  }

  /** `a` can be obtained from `b` by deleting elements (order kept). */
  predicate IsSubsequence<T(==)>(a: seq<T>, b: seq<T>)
    decreases |b|
  {
    a == [] || (b != [] && if a[0] == b[0] then IsSubsequence(a[1..], b[1..]) else IsSubsequence(a, b[1..]))
  }

  lemma {:induction false} SubsequenceOfSelf<T>(s: seq<T>)
    ensures IsSubsequence(s, s)
    decreases |s|
  {
    if s != [] {
      SubsequenceOfSelf(s[1..]);
    }
  }

  /** A filter keeps its survivors in their original relative order. */
  lemma {:induction false} FilterIsSubsequence<T(!new)>(s: seq<T>, p: T -> bool)
    ensures IsSubsequence(Filter(s, p), s)
    decreases |s|
  {
    if s != [] {
      FilterIsSubsequence(s[1..], p);
      var r := Filter(s, p);
      if p(s[0]) {
        assert r[0] == s[0] && r[1..] == Filter(s[1..], p);
      } else {
        assert r == Filter(s[1..], p);
        assert r == [] || r[0] != s[0];  // r[0] satisfies p, the rejected s[0] does not
      }
    }
  }
}

module Sorting {
  import opened Seqs

  /** `s` is ordered from the largest key to the smallest. */
  predicate SortedDesc<T>(s: seq<T>, key: T -> int)
  {
    forall i, j :: 0 <= i < j < |s| ==> key(s[i]) >= key(s[j])
  }

  /** Every key in `s` is at most `k`. */
  predicate KeysAtMost<T>(s: seq<T>, key: T -> int, k: int)
  {
    forall i :: 0 <= i < |s| ==> key(s[i]) <= k
  }

  /** Places `x` after every element whose key is at least its own, so equal keys keep their order. */
  function InsertDesc<T>(x: T, s: seq<T>, key: T -> int): seq<T>
  {
    if s == [] then [x]
    else if key(s[0]) >= key(x) then [s[0]] + InsertDesc(x, s[1..], key)
    else [x] + s
  }

  /**
   * `s.sort((a, b) => key(b) - key(a))`: JavaScript's sort is stable, so this is an
   * insertion sort, largest key first.
   */
  function SortDesc<T>(s: seq<T>, key: T -> int): seq<T>
  {
    if s == [] then [] else InsertDesc(s[|s| - 1], SortDesc(s[..|s| - 1], key), key)
  }

  lemma {:induction false} InsertDescPermutes<T>(x: T, s: seq<T>, key: T -> int)
    ensures multiset(InsertDesc(x, s, key)) == multiset(s) + multiset{x}
    decreases |s|
  {
    if s != [] && key(s[0]) >= key(x) {
      InsertDescPermutes(x, s[1..], key);
      assert s == [s[0]] + s[1..];
    }
  }

  lemma {:induction false} InsertDescBounded<T>(x: T, s: seq<T>, key: T -> int, k: int)
    requires key(x) <= k && KeysAtMost(s, key, k)
    ensures KeysAtMost(InsertDesc(x, s, key), key, k)
    decreases |s|
  {
    if s != [] && key(s[0]) >= key(x) {
      InsertDescBounded(x, s[1..], key, k);
      var r := InsertDesc(x, s, key);
      assert forall i :: 1 <= i < |r| ==> r[i] == InsertDesc(x, s[1..], key)[i - 1];
    }
  }

  lemma {:induction false} InsertDescSorted<T>(x: T, s: seq<T>, key: T -> int)
    requires SortedDesc(s, key)
    ensures SortedDesc(InsertDesc(x, s, key), key)
    decreases |s|
  {
    if s != [] {
      var r := InsertDesc(x, s, key);
      if key(s[0]) >= key(x) {
        var rest := InsertDesc(x, s[1..], key);
        InsertDescSorted(x, s[1..], key);
        InsertDescBounded(x, s[1..], key, key(s[0]));
        assert r == [s[0]] + rest;
        forall i, j | 0 <= i < j < |r| ensures key(r[i]) >= key(r[j]) {
          assert r[j] == rest[j - 1];
          if i > 0 {
            assert r[i] == rest[i - 1];
          }
        }
      } else {
        assert r == [x] + s;
        forall i, j | 0 <= i < j < |r| ensures key(r[i]) >= key(r[j]) {
          assert r[j] == s[j - 1];
          if i > 0 {
            assert r[i] == s[i - 1];
          } else {
            assert key(s[0]) >= key(s[j - 1]);
          }
        }
      }
    }
  }

  /** The sort is largest-key-first and a permutation of its input. */
  lemma {:induction false} SortDescFacts<T>(s: seq<T>, key: T -> int)
    ensures multiset(SortDesc(s, key)) == multiset(s)
    ensures SortedDesc(SortDesc(s, key), key)
    decreases |s|
  {
    if s != [] {
      var init := s[..|s| - 1];
      SortDescFacts(init, key);
      InsertDescPermutes(s[|s| - 1], SortDesc(init, key), key);
      InsertDescSorted(s[|s| - 1], SortDesc(init, key), key);
      assert init + [s[|s| - 1]] == s;
    }
  }

  /** The test "has key `k`". */
  function KeyIs<T>(key: T -> int, k: int): T -> bool
  {
    x => key(x) == k
  }

  lemma FilterCons<T(!new)>(x: T, s: seq<T>, p: T -> bool)
    ensures Filter([x] + s, p) == (if p(x) then [x] else []) + Filter(s, p)
  {
    assert ([x] + s)[1..] == s;
  }

  lemma {:induction false} InsertDescStable<T(!new)>(x: T, s: seq<T>, key: T -> int, k: int)
    requires SortedDesc(s, key)
    ensures Filter(InsertDesc(x, s, key), KeyIs(key, k)) ==
      Filter(s, KeyIs(key, k)) + (if key(x) == k then [x] else [])
    decreases |s|
  {
    var p := KeyIs(key, k);
    if s == [] {
      FilterCons(x, [], p);
      assert [x] + [] == [x];
    } else if key(s[0]) >= key(x) {
      InsertDescStable(x, s[1..], key, k);
      assert InsertDesc(x, s, key) == [s[0]] + InsertDesc(x, s[1..], key);
      FilterCons(s[0], InsertDesc(x, s[1..], key), p);
      FilterCons(s[0], s[1..], p);
      assert [s[0]] + s[1..] == s;
      var a, t := (if p(s[0]) then [s[0]] else []), (if key(x) == k then [x] else []);
      assert a + (Filter(s[1..], p) + t) == (a + Filter(s[1..], p)) + t;
    } else {
      assert InsertDesc(x, s, key) == [x] + s;
      FilterCons(x, s, p);
      if p(x) {
        forall i | 0 <= i < |s| ensures !p(s[i]) {
          assert key(s[0]) >= key(s[i]);
        }
        FilterNone(s, p);
      }
    }
  }

  /** Elements with equal keys keep their relative order: the sort is stable. */
  lemma {:induction false} SortDescStable<T(!new)>(s: seq<T>, key: T -> int, k: int)
    ensures Filter(SortDesc(s, key), KeyIs(key, k)) == Filter(s, KeyIs(key, k))
    decreases |s|
  {
    if s != [] {
      var p := KeyIs(key, k);
      var init := s[..|s| - 1];
      var x := s[|s| - 1];
      var sorted := SortDesc(init, key);
      assert SortDesc(s, key) == InsertDesc(x, sorted, key);
      SortDescStable(init, key, k);
      SortDescFacts(init, key);
      InsertDescStable(x, sorted, key, k);
      assert init + [x] == s;
      FilterAppend(init, [x], p);
      FilterCons(x, [], p);
      assert [x] + [] == [x];
    }
  }
}
