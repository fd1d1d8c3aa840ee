/**
 * The stable "largest key first" ordering that the pages obtain from
 * `array.sort((a, b) => key(b) - key(a))`. `Array.prototype.sort` is stable
 * (ECMA-262, 2019 edition, section 22.1.3.27), and a result that is ordered by
 * key, a permutation of the input and keeps equal-key elements in input order is
 * unique, so this insertion sort gives the same sequence as the built-in sort.
 */
module Sorting {

  /** Keys never increase from left to right. */
  ghost predicate SortedDesc<T>(s: seq<T>, key: T -> int)
  {
    forall i, j :: 0 <= i < j < |s| ==> key(s[i]) >= key(s[j])
  }

  /** The elements of `s` whose key is exactly `k`, in order. */
  function WithKey<T>(s: seq<T>, key: T -> int, k: int): seq<T>
  {
    if s == [] then [] else (if key(s[0]) == k then [s[0]] else []) + WithKey(s[1..], key, k)
  }

  /** Number of elements whose key is at least `k`. */
  function CountAtLeast<T>(s: seq<T>, key: T -> int, k: int): nat
  {
    if s == [] then 0 else (if key(s[0]) >= k then 1 else 0) + CountAtLeast(s[1..], key, k)
  }

  /** Selecting by key distributes over concatenation. */
  lemma {:induction false} WithKeyAppend<T>(a: seq<T>, b: seq<T>, key: T -> int, k: int)
    ensures WithKey(a + b, key, k) == WithKey(a, key, k) + WithKey(b, key, k)
  {
    if a == [] {
      assert a + b == b;
    } else {
      var head := if key(a[0]) == k then [a[0]] else [];
      assert (a + b)[0] == a[0];
      assert (a + b)[1..] == a[1..] + b;
      assert WithKey(a + b, key, k) == head + WithKey(a[1..] + b, key, k);
      WithKeyAppend(a[1..], b, key, k);
      assert WithKey(a, key, k) == head + WithKey(a[1..], key, k);
    }
  }

  /** Places `x` after every element whose key is at least `key(x)`. */
  function InsertDesc<T>(s: seq<T>, x: T, key: T -> int): (r: seq<T>)
    ensures |r| == |s| + 1
    ensures multiset(r) == multiset(s) + multiset{x}
  {
    if s == [] || key(s[0]) < key(x) then [x] + s
    else
      assert s == [s[0]] + s[1..];
      [s[0]] + InsertDesc(s[1..], x, key)
  }

  /** The stable descending sort: each element is inserted in input order. */
  function SortDesc<T>(s: seq<T>, key: T -> int): (r: seq<T>)
    ensures |r| == |s|
    ensures multiset(r) == multiset(s)
  {
    if s == [] then []
    else
      assert s == s[..|s| - 1] + [s[|s| - 1]];
      InsertDesc(SortDesc(s[..|s| - 1], key), s[|s| - 1], key)
  }

  /** Inserting into an ordered sequence keeps it ordered. */
  lemma {:induction false} InsertDescSorted<T>(s: seq<T>, x: T, key: T -> int)
    requires SortedDesc(s, key)
    ensures SortedDesc(InsertDesc(s, x, key), key)
  {
    if s != [] && key(s[0]) >= key(x) {
      var rest := InsertDesc(s[1..], x, key);
      InsertDescSorted(s[1..], x, key);
      forall j | 0 <= j < |rest| ensures key(s[0]) >= key(rest[j]) {
        assert rest[j] in multiset(rest);
        assert rest[j] in multiset(s[1..]) || rest[j] == x;
        if rest[j] != x {
          var m :| 0 <= m < |s[1..]| && s[1..][m] == rest[j];
          assert s[m + 1] == rest[j];
        }
      }
    }
  }

  /** The sort orders its result by key, largest first. */
  lemma {:induction false} SortDescSorted<T>(s: seq<T>, key: T -> int)
    ensures SortedDesc(SortDesc(s, key), key)
  {
    if s != [] {
      SortDescSorted(s[..|s| - 1], key);
      InsertDescSorted(SortDesc(s[..|s| - 1], key), s[|s| - 1], key);
    }
  }

  /** Inside an ordered sequence whose keys all lie below `k`, nothing has key `k`. */
  lemma {:induction false} NoneWithKey<T>(s: seq<T>, key: T -> int, k: int)
    requires forall i :: 0 <= i < |s| ==> key(s[i]) < k
    ensures WithKey(s, key, k) == []
  {
    if s != [] {
      NoneWithKey(s[1..], key, k);
    }
  }

  /** Insertion puts `x` behind every earlier element with the same key. */
  lemma {:induction false} InsertDescWithKey<T>(s: seq<T>, x: T, key: T -> int, k: int)
    requires SortedDesc(s, key)
    ensures WithKey(InsertDesc(s, x, key), key, k)
         == WithKey(s, key, k) + (if key(x) == k then [x] else [])
  {
    if s == [] {
      assert InsertDesc(s, x, key)[1..] == [];
    } else if key(s[0]) < key(x) {
      assert InsertDesc(s, x, key)[1..] == s;
      if key(x) == k {
        forall i | 0 <= i < |s| ensures key(s[i]) < k {
          assert key(s[0]) >= key(s[i]);
        }
        NoneWithKey(s, key, k);
      }
    } else {
      InsertDescWithKey(s[1..], x, key, k);
      assert InsertDesc(s, x, key)[1..] == InsertDesc(s[1..], x, key);
    }
  }

  /**
   * Stability: among elements with equal keys the sort keeps input order. With
   * SortDescSorted and the multiset clause of SortDesc this fixes the result.
   */
  lemma {:induction false} SortDescStable<T>(s: seq<T>, key: T -> int, k: int)
    ensures WithKey(SortDesc(s, key), key, k) == WithKey(s, key, k)
  {
    if s != [] {
      var init, last := s[..|s| - 1], s[|s| - 1];
      var sorted := SortDesc(init, key);
      assert SortDesc(s, key) == InsertDesc(sorted, last, key);
      SortDescStable(init, key, k);
      SortDescSorted(init, key);
      InsertDescWithKey(sorted, last, key, k);
      assert s == init + [last];
      WithKeyAppend(init, [last], key, k);
      assert WithKey([last], key, k) == (if key(last) == k then [last] else []) + WithKey([], key, k);
    }
  }

  /** On an ordered sequence, inserting `x` is splitting after the keys at least `key(x)`. */
  lemma {:induction false} InsertDescSplit<T>(s: seq<T>, x: T, key: T -> int)
    requires SortedDesc(s, key)
    ensures CountAtLeast(s, key, key(x)) <= |s|
    ensures var p := CountAtLeast(s, key, key(x));
      InsertDesc(s, x, key) == s[..p] + [x] + s[p..]
  {
    if s == [] {
    } else if key(s[0]) < key(x) {
      NoneAtLeast(s, key, key(x));
    } else {
      InsertDescSplit(s[1..], x, key);
      var p := CountAtLeast(s[1..], key, key(x));
      assert s[..p + 1] == [s[0]] + s[1..][..p];
      assert s[p + 1..] == s[1..][p..];
    }
  }

  /** An ordered sequence followed by `x` sorts to the insertion of `x`. */
  lemma SortDescAppend<T>(s: seq<T>, x: T, key: T -> int)
    requires SortedDesc(s, key)
    ensures SortDesc(s + [x], key) == InsertDesc(s, x, key)
  {
    SortDescOfSorted(s, key);
    assert (s + [x])[..|s + [x]| - 1] == s;
  }

  /** Sorting an already ordered sequence changes nothing. */
  lemma {:induction false} SortDescOfSorted<T>(s: seq<T>, key: T -> int)
    requires SortedDesc(s, key)
    ensures SortDesc(s, key) == s
  {
    if s != [] {
      var init, last := s[..|s| - 1], s[|s| - 1];
      assert SortDesc(s, key) == InsertDesc(SortDesc(init, key), last, key);
      assert SortedDesc(init, key);
      SortDescOfSorted(init, key);
      InsertDescSplit(init, last, key);
      forall i | 0 <= i < |init| ensures key(init[i]) >= key(last) {
        assert key(s[i]) >= key(s[|s| - 1]);
      }
      AllAtLeast(init, key, key(last));
      assert init[..|init|] + [last] + init[|init|..] == s;
    }
  }

  /** When every key is below `k`, none counts as at least `k`. */
  lemma {:induction false} NoneAtLeast<T>(s: seq<T>, key: T -> int, k: int)
    requires s != [] && SortedDesc(s, key) && key(s[0]) < k
    ensures CountAtLeast(s, key, k) == 0
  {
    if |s| > 1 {
      assert key(s[1]) <= key(s[0]);
      NoneAtLeast(s[1..], key, k);
    }
  }

  /** When every key is at least `k`, all of them count. */
  lemma {:induction false} AllAtLeast<T>(s: seq<T>, key: T -> int, k: int)
    requires forall i :: 0 <= i < |s| ==> key(s[i]) >= k
    ensures CountAtLeast(s, key, k) == |s|
  {
    if s != [] {
      AllAtLeast(s[1..], key, k);
    }
  }
}
