/**
 * Python's `list.sort(key=..., reverse=True)`: a stable sort, descending by a real key.
 * Given here as insertion sort, with the properties the evaluation code relies on:
 * the result is sorted, a permutation of the input, and keeps equal keys in input order.
 */
module StableSort {
  import opened Seqs

  predicate SortedDesc<T>(s: seq<T>, key: T -> real)
  {
    forall i, j :: 0 <= i < j < |s| ==> key(s[i]) >= key(s[j])
  }

  /** Places `x` ahead of the first element whose key is not larger than its own. */
  function Insert<T>(x: T, s: seq<T>, key: T -> real): (r: seq<T>)
    ensures |r| == |s| + 1
  {
    if s == [] || key(s[0]) <= key(x) then [x] + s else [s[0]] + Insert(x, s[1..], key)
  }

  function SortDesc<T>(s: seq<T>, key: T -> real): (r: seq<T>)
    ensures |r| == |s|
  {
    if s == [] then [] else Insert(s[0], SortDesc(s[1..], key), key)
  }

  /** The elements of `s` whose key is `v`, in the order of `s`. */
  function WithKey<T>(s: seq<T>, key: T -> real, v: real): seq<T>
  {
    if s == [] then [] else (if key(s[0]) == v then [s[0]] else []) + WithKey(s[1..], key, v)
  }

  lemma {:induction false} InsertPermutes<T>(x: T, s: seq<T>, key: T -> real)
    ensures multiset(Insert(x, s, key)) == multiset([x] + s)
  {
    if s != [] && key(s[0]) > key(x) {
      InsertPermutes(x, s[1..], key);
      assert s == [s[0]] + s[1..];
    }
  }

  /** Inserting below a bound that every element respects keeps every element below it. */
  lemma {:induction false} InsertBounded<T>(x: T, s: seq<T>, key: T -> real, bound: real)
    requires key(x) <= bound
    requires forall i :: 0 <= i < |s| ==> key(s[i]) <= bound
    ensures forall i :: 0 <= i < |Insert(x, s, key)| ==> key(Insert(x, s, key)[i]) <= bound
  {
    if s != [] && key(s[0]) > key(x) {
      InsertBounded(x, s[1..], key, bound);
    }
  }

  /** Putting an element with a key no smaller than all the others in front keeps the order. */
  lemma PrependSortedDesc<T>(y: T, t: seq<T>, key: T -> real)
    requires SortedDesc(t, key)
    requires forall i :: 0 <= i < |t| ==> key(t[i]) <= key(y)
    ensures SortedDesc([y] + t, key)
  {
    var r := [y] + t;
    forall i, j | 0 <= i < j < |r| ensures key(r[i]) >= key(r[j]) {
      assert r[j] == t[j - 1];
      if i > 0 {
        assert r[i] == t[i - 1];
      }
    }
  }

  lemma {:induction false} InsertSorted<T>(x: T, s: seq<T>, key: T -> real)
    requires SortedDesc(s, key)
    ensures SortedDesc(Insert(x, s, key), key)
    ensures multiset(Insert(x, s, key)) == multiset([x] + s)
  {
    InsertPermutes(x, s, key);
    if s == [] || key(s[0]) <= key(x) {
      PrependSortedDesc(x, s, key);
    } else {
      var rest := s[1..];
      InsertSorted(x, rest, key);
      InsertBounded(x, rest, key, key(s[0]));
      PrependSortedDesc(s[0], Insert(x, rest, key), key);
    }
  }

  /** The result is sorted descending and a permutation of the input. */
  lemma {:induction false} SortDescCorrect<T>(s: seq<T>, key: T -> real)
    ensures SortedDesc(SortDesc(s, key), key)
    ensures multiset(SortDesc(s, key)) == multiset(s)
  {
    if s != [] {
      SortDescCorrect(s[1..], key);
      InsertSorted(s[0], SortDesc(s[1..], key), key);
      assert s == [s[0]] + s[1..];
    }
  }

  lemma {:induction false} InsertWithKey<T>(x: T, s: seq<T>, key: T -> real, v: real)
    requires SortedDesc(s, key)
    ensures WithKey(Insert(x, s, key), key, v) == (if key(x) == v then [x] else []) + WithKey(s, key, v)
  {
    if s == [] || key(s[0]) <= key(x) {
      var r := [x] + s;
      assert Insert(x, s, key) == r;
      assert r[0] == x && r[1..] == s;
    } else {
      var t := Insert(x, s[1..], key);
      var r := [s[0]] + t;
      assert Insert(x, s, key) == r;
      assert r[0] == s[0] && r[1..] == t;
      InsertWithKey(x, s[1..], key, v);
      assert key(x) == v ==> key(s[0]) != v;
    }
  }

  /** Stability: among elements with equal keys the sort keeps the input order. */
  lemma {:induction false} SortDescStable<T>(s: seq<T>, key: T -> real, v: real)
    ensures WithKey(SortDesc(s, key), key, v) == WithKey(s, key, v)
  {
    if s != [] {
      SortDescStable(s[1..], key, v);
      SortDescCorrect(s[1..], key);
      InsertWithKey(s[0], SortDesc(s[1..], key), key, v);
    }
  }

  lemma {:induction false} InsertCount<T>(x: T, s: seq<T>, key: T -> real, p: T -> bool)
    ensures Count(Insert(x, s, key), p) == (if p(x) then 1 else 0) + Count(s, p)
  {
    if s == [] || key(s[0]) <= key(x) {
      assert Insert(x, s, key) == [x] + s;
      CountCons(x, s, p);
    } else {
      assert Insert(x, s, key) == [s[0]] + Insert(x, s[1..], key);
      InsertCount(x, s[1..], key, p);
      CountCons(s[0], Insert(x, s[1..], key), p);
      CountCons(s[0], s[1..], p);
      assert [s[0]] + s[1..] == s;
    }
  }

  /** Sorting does not change how many elements satisfy any predicate. */
  lemma {:induction false} SortDescCount<T>(s: seq<T>, key: T -> real, p: T -> bool)
    ensures Count(SortDesc(s, key), p) == Count(s, p)
  {
    if s != [] {
      SortDescCount(s[1..], key, p);
      InsertCount(s[0], SortDesc(s[1..], key), key, p);
      CountCons(s[0], s[1..], p);
      assert [s[0]] + s[1..] == s;
    }
  }

  function KeyAtLeast<T>(key: T -> real, threshold: real): T -> bool
  {
    (x: T) => key(x) >= threshold
  }

  /**
   * In a sequence sorted descending, the elements reaching a threshold come first,
   * so a prefix of length m holds min(m, all of them).
   */
  lemma {:induction false} SortedPrefixCount<T>(s: seq<T>, key: T -> real, threshold: real, m: nat)
    requires SortedDesc(s, key)
    requires m <= |s|
    ensures Count(s[..m], KeyAtLeast(key, threshold)) == Min(m, Count(s, KeyAtLeast(key, threshold)))
  {
    var p := KeyAtLeast(key, threshold);
    assert forall y :: p(y) == (key(y) >= threshold);
    if m == 0 {
      assert s[..0] == [];
    } else {
      SortedPrefixCount(s, key, threshold, m - 1);
      var pre := s[..m];
      assert pre == s[..m - 1] + [s[m - 1]];
      CountAppend(s[..m - 1], [s[m - 1]], p);
      CountPrefix(s, m, p);
      if p(s[m - 1]) {
        forall i | 0 <= i < m ensures p(pre[i]) {
          assert key(s[i]) >= key(s[m - 1]);
        }
        CountAll(pre, p);
      } else {
        var rest := s[m - 1..];
        forall i | 0 <= i < |rest| ensures !p(rest[i]) {
          assert rest[i] == s[m - 1 + i];
        }
        CountNone(rest, p);
        assert s == s[..m - 1] + rest;
        CountAppend(s[..m - 1], rest, p);
      }
    }
  }

  lemma {:induction false} WithKeyAppend<T>(a: seq<T>, b: seq<T>, key: T -> real, v: real)
    ensures WithKey(a + b, key, v) == WithKey(a, key, v) + WithKey(b, key, v)
  {
    if a != [] {
      WithKeyAppend(a[1..], b, key, v);
      assert (a + b)[1..] == a[1..] + b;
    } else {
      assert a + b == b;
    }
  }

  /** In a sequence sorted descending, nothing after position `m` has a larger key than anything before it. */
  lemma SortedSplit<T>(s: seq<T>, key: T -> real, m: nat)
    requires SortedDesc(s, key)
    requires m <= |s|
    ensures forall e, x :: e in s[..m] && x in s[m..] ==> key(e) >= key(x)
  {
    forall e, x | e in s[..m] && x in s[m..] ensures key(e) >= key(x) {
      var i :| 0 <= i < m && s[..m][i] == e;
      var j :| 0 <= j < |s| - m && s[m..][j] == x;
      assert s[i] == e && s[m + j] == x;
    }
  }

  /** A prefix of the sorted sequence holds elements whose keys are at least those of all elements left out. */
  lemma SortDescPrefixKeepsHighest<T>(s: seq<T>, key: T -> real, m: nat)
    requires m <= |s|
    ensures forall e, x :: e in SortDesc(s, key)[..m] && x in multiset(s) - multiset(SortDesc(s, key)[..m])
              ==> key(e) >= key(x)
  {
    var sorted := SortDesc(s, key);
    SortDescCorrect(s, key);
    var top := sorted[..m];
    var rest := sorted[m..];
    assert sorted == top + rest;
    assert multiset(sorted) == multiset(top) + multiset(rest);
    SortedSplit(sorted, key, m);
    forall e, x | e in top && x in multiset(s) - multiset(top) ensures key(e) >= key(x) {
      assert x in multiset(rest);
      assert x in rest;
    }
  }

  /** Any prefix of the sorted sequence holds only elements of the input. */
  lemma SortDescPrefixMembers<T>(s: seq<T>, key: T -> real, m: nat)
    requires m <= |s|
    ensures forall x :: x in SortDesc(s, key)[..m] ==> x in s
  {
    SortDescCorrect(s, key);
    var sorted := SortDesc(s, key);
    forall x | x in sorted[..m] ensures x in s {
      assert x in multiset(sorted);
    }
  }
}
