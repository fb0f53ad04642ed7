/**
 * Python's ordering of `str` values (code point by code point, a proper prefix first) and
 * numpy's `np.unique` on a list of strings: the distinct values, sorted ascending.
 */
module LexOrder {
  import opened Seqs

  /** `a < b` on Python strings. */
  predicate LexLess(a: string, b: string)
    decreases |a|
  {
    if a == [] then b != []
    else if b == [] then false
    else if a[0] != b[0] then a[0] < b[0]
    else LexLess(a[1..], b[1..])
  }

  lemma {:induction false} LexLessIrreflexive(a: string)
    ensures !LexLess(a, a)
    decreases |a|
  {
    if a != [] {
      LexLessIrreflexive(a[1..]);
    }
  }

  lemma {:induction false} LexLessTransitive(a: string, b: string, c: string)
    requires LexLess(a, b) && LexLess(b, c)
    ensures LexLess(a, c)
    decreases |a|
  {
    if a != [] && b != [] && c != [] && a[0] == b[0] && b[0] == c[0] {
      LexLessTransitive(a[1..], b[1..], c[1..]);
    }
  }

  lemma {:induction false} LexLessTotal(a: string, b: string)
    requires a != b
    ensures LexLess(a, b) || LexLess(b, a)
    decreases |a|
  {
    if a != [] && b != [] && a[0] == b[0] {
      assert a == [a[0]] + a[1..] && b == [b[0]] + b[1..];
      LexLessTotal(a[1..], b[1..]);
    }
  }

  predicate StrictlySorted(s: seq<string>)
  {
    forall i, j :: 0 <= i < j < |s| ==> LexLess(s[i], s[j])
  }

  /** Places `x` ahead of the first element it is smaller than. */
  function InsertLex(x: string, s: seq<string>): (r: seq<string>)
    ensures multiset(r) == multiset([x] + s)
  {
    if s == [] || LexLess(x, s[0]) then [x] + s
    else
      assert s == [s[0]] + s[1..];
      [s[0]] + InsertLex(x, s[1..])
  }

  function SortLex(s: seq<string>): (r: seq<string>)
    ensures multiset(r) == multiset(s)
  {
    if s == [] then []
    else
      assert s == [s[0]] + s[1..];
      InsertLex(s[0], SortLex(s[1..]))
  }

  /** Putting a value smaller than the head in front keeps a sequence sorted. */
  lemma PrependSorted(x: string, s: seq<string>)
    requires StrictlySorted(s)
    requires s != [] ==> LexLess(x, s[0])
    ensures StrictlySorted([x] + s)
  {
    var r := [x] + s;
    forall i, j | 0 <= i < j < |r| ensures LexLess(r[i], r[j]) {
      if i == 0 {
        if j > 1 {
          LexLessTransitive(x, s[0], s[j - 1]);
        }
      } else {
        assert r[i] == s[i - 1] && r[j] == s[j - 1];
      }
    }
  }

  lemma {:induction false} InsertLexSorted(x: string, s: seq<string>)
    requires StrictlySorted(s)
    requires x !in s
    ensures StrictlySorted(InsertLex(x, s))
  {
    if s == [] || LexLess(x, s[0]) {
      assert InsertLex(x, s) == [x] + s;
      PrependSorted(x, s);
    } else {
      var rest := s[1..];
      var t := InsertLex(x, rest);
      assert InsertLex(x, s) == [s[0]] + t;
      LexLessTotal(x, s[0]);
      InsertLexSorted(x, rest);
      if t != [] {
        assert t[0] in multiset([x] + rest);
        if t[0] != x {
          assert t[0] in rest;
          var i :| 0 <= i < |rest| && rest[i] == t[0];
          assert s[i + 1] == t[0];
        }
      }
      PrependSorted(s[0], t);
    }
  }

  lemma {:induction false} SortLexSorted(s: seq<string>)
    requires forall i, j :: 0 <= i < j < |s| ==> s[i] != s[j]
    ensures StrictlySorted(SortLex(s))
  {
    if s != [] {
      SortLexSorted(s[1..]);
      var sorted := SortLex(s[1..]);
      assert forall i :: 0 <= i < |s[1..]| ==> s[1..][i] == s[i + 1] != s[0];
      assert s[0] !in multiset(s[1..]);
      InsertLexSorted(s[0], sorted);
    }
  }

  /** `np.unique(s)`: each distinct value once, in ascending order. */
  function Unique(s: seq<string>): (r: seq<string>)
    ensures forall x :: x in r <==> x in s
    ensures StrictlySorted(r)
  {
    var d := Distinct(s);
    SortLexSorted(d);
    var r := SortLex(d);
    assert forall x :: x in r <==> x in multiset(d);
    r
  }

  /** A strictly sorted sequence holds no value twice. */
  lemma StrictlySortedDistinct(s: seq<string>)
    requires StrictlySorted(s)
    ensures forall i, j :: 0 <= i < |s| && 0 <= j < |s| && i != j ==> s[i] != s[j]
  {
    forall i, j | 0 <= i < |s| && 0 <= j < |s| && i != j ensures s[i] != s[j] {
      if i < j {
        LexLessIrreflexive(s[i]);
      } else {
        LexLessIrreflexive(s[j]);
      }
    }
  }

  /** Each value is smaller than the next, so by transitivity the sequence is strictly sorted. */
  lemma {:induction false} ChainSorted(s: seq<string>)
    requires forall i :: 0 <= i < |s| - 1 ==> LexLess(s[i], s[i + 1])
    ensures StrictlySorted(s)
  {
    if |s| > 1 {
      var rest := s[1..];
      forall i | 0 <= i < |rest| - 1 ensures LexLess(rest[i], rest[i + 1]) {
        assert rest[i] == s[i + 1] && rest[i + 1] == s[i + 2];
      }
      ChainSorted(rest);
      PrependSorted(s[0], rest);
      assert s == [s[0]] + rest;
    }
  }

  /** Two strictly sorted sequences with the same elements are equal. */
  lemma {:induction false} SortedSetEqual(r: seq<string>, t: seq<string>)
    requires StrictlySorted(r) && StrictlySorted(t)
    requires forall x :: x in r <==> x in t
    ensures r == t
    decreases |r|
  {
    assert r != [] ==> r[0] in t;
    assert t != [] ==> t[0] in r;
    if r != [] && t != [] {
      var k :| 0 <= k < |t| && t[k] == r[0];
      var m :| 0 <= m < |r| && r[m] == t[0];
      if k != 0 && m != 0 {
        LexLessTransitive(r[0], t[0], r[0]);
        LexLessIrreflexive(r[0]);
      }
      assert r[0] == t[0];
      StrictlySortedDistinct(r);
      StrictlySortedDistinct(t);
      forall x ensures x in r[1..] <==> x in t[1..] {
        if x in r[1..] {
          var i :| 0 <= i < |r[1..]| && r[1..][i] == x;
          assert r[i + 1] == x && x != r[0] && x in r && x in t;
          var j :| 0 <= j < |t| && t[j] == x;
          assert j != 0 && t[1..][j - 1] == x;
        }
        if x in t[1..] {
          var i :| 0 <= i < |t[1..]| && t[1..][i] == x;
          assert t[i + 1] == x && x != t[0] && x in t && x in r;
          var j :| 0 <= j < |r| && r[j] == x;
          assert j != 0 && r[1..][j - 1] == x;
        }
      }
      SortedSetEqual(r[1..], t[1..]);
      assert r == [r[0]] + r[1..] && t == [t[0]] + t[1..];
    }
  }

  /** `np.unique(s)` is the one strictly sorted sequence holding exactly the values of `s`. */
  lemma UniqueIs(s: seq<string>, t: seq<string>)
    requires StrictlySorted(t)
    requires forall x :: x in t <==> x in s
    ensures Unique(s) == t
  {
    SortedSetEqual(Unique(s), t);
  }
}
