/** Sequence helpers shared by the table filters and the metrics: counting, Python's `s[:n]`, subsequences. */
module Seqs {

  function Min(a: int, b: int): int { if a <= b then a else b }

  function Max(a: int, b: int): int { if a >= b then a else b }

  /** Number of elements of `s` satisfying `p` (Python's `sum(p(x) for x in s)`). */
  function Count<T>(s: seq<T>, p: T -> bool): (c: nat)
    ensures c <= |s|
  {
    if s == [] then 0 else Count(s[..|s| - 1], p) + (if p(s[|s| - 1]) then 1 else 0)
  }

  lemma {:induction false} CountNone<T>(s: seq<T>, p: T -> bool)
    requires forall i :: 0 <= i < |s| ==> !p(s[i])
    ensures Count(s, p) == 0
  {
    if s != [] {
      CountNone(s[..|s| - 1], p);
    }
  }

  lemma {:induction false} CountAll<T>(s: seq<T>, p: T -> bool)
    requires forall i :: 0 <= i < |s| ==> p(s[i])
    ensures Count(s, p) == |s|
  {
    if s != [] {
      CountAll(s[..|s| - 1], p);
    }
  }

  lemma {:induction false} CountAppend<T>(a: seq<T>, b: seq<T>, p: T -> bool)
    ensures Count(a + b, p) == Count(a, p) + Count(b, p)
  {
    if b == [] {
      assert a + b == a;
    } else {
      assert (a + b)[..|a + b| - 1] == a + b[..|b| - 1];
      CountAppend(a, b[..|b| - 1], p);
    }
  }

  lemma CountCons<T>(x: T, s: seq<T>, p: T -> bool)
    ensures Count([x] + s, p) == (if p(x) then 1 else 0) + Count(s, p)
  {
    CountAppend([x], s, p);
    assert [x][..0] == [];
  }

  /** A prefix never counts more than the whole sequence. */
  lemma CountPrefix<T>(s: seq<T>, m: nat, p: T -> bool)
    requires m <= |s|
    ensures Count(s[..m], p) <= Count(s, p)
  {
    assert s == s[..m] + s[m..];
    CountAppend(s[..m], s[m..], p);
  }

  /** Counting a stronger predicate never gives more. */
  lemma {:induction false} CountMonotone<T>(s: seq<T>, p: T -> bool, q: T -> bool)
    requires forall x :: p(x) ==> q(x)
    ensures Count(s, p) <= Count(s, q)
  {
    if s != [] {
      CountMonotone(s[..|s| - 1], p, q);
    }
  }

  /** Python's `s[:n]`: the first `n` elements, or all but the last `-n` when `n` is negative. */
  function SliceTo<T>(s: seq<T>, n: int): (r: seq<T>)
    ensures |r| == if n >= 0 then Min(n, |s|) else Max(0, |s| + n)
    ensures r == s[..|r|]
  {
    if n >= 0 then s[..Min(n, |s|)] else s[..Max(0, |s| + n)]
  }

  /** A boolean mask applied to a table, `[x for x in s if p(x)]`: the rows of `s` satisfying `p`, in order. */
  function Filter<T>(s: seq<T>, p: T -> bool): (r: seq<T>)
    ensures |r| == Count(s, p)
  {
    if s == [] then [] else Filter(s[..|s| - 1], p) + (if p(s[|s| - 1]) then [s[|s| - 1]] else [])
  }

  /** The positions of the rows a mask keeps, in order. */
  function KeptIndices<T>(s: seq<T>, p: T -> bool): (idx: seq<nat>)
    ensures |idx| == Count(s, p)
  {
    if s == [] then [] else KeptIndices(s[..|s| - 1], p) + (if p(s[|s| - 1]) then [|s| - 1] else [])
  }

  /**
   * A mask keeps exactly the rows satisfying it, each once, in their original order: row `i`
   * of the result is the row at the `i`-th kept position, and kept positions increase.
   */
  lemma FilterKeeps<T>(s: seq<T>, p: T -> bool)
    ensures var r, idx := Filter(s, p), KeptIndices(s, p);
            |idx| == |r| &&
            (forall i :: 0 <= i < |idx| ==> idx[i] < |s| && r[i] == s[idx[i]]) &&
            (forall i, j :: 0 <= i < j < |idx| ==> idx[i] < idx[j]) &&
            (forall j :: 0 <= j < |s| ==> (p(s[j]) <==> j in idx))
  {
    FilterAt(s, p);
    KeptIncreasing(s, p);
    KeptMembers(s, p);
  }

  lemma {:induction false} FilterAt<T>(s: seq<T>, p: T -> bool)
    ensures forall i :: 0 <= i < |KeptIndices(s, p)| ==> KeptIndices(s, p)[i] < |s| && Filter(s, p)[i] == s[KeptIndices(s, p)[i]]
  {
    if s != [] {
      var n := |s| - 1;
      FilterAt(s[..n], p);
      KeptIncreasing(s[..n], p);
      KeptIncreasing(s, p);
      var idx0 := KeptIndices(s[..n], p);
      assert forall i :: 0 <= i < |idx0| ==> idx0[i] < n && s[..n][idx0[i]] == s[idx0[i]];
    }
  }

  lemma {:induction false} KeptIncreasing<T>(s: seq<T>, p: T -> bool)
    ensures forall i :: 0 <= i < |KeptIndices(s, p)| ==> KeptIndices(s, p)[i] < |s|
    ensures forall i, j :: 0 <= i < j < |KeptIndices(s, p)| ==> KeptIndices(s, p)[i] < KeptIndices(s, p)[j]
  {
    if s != [] {
      var n := |s| - 1;
      KeptIncreasing(s[..n], p);
      var idx0 := KeptIndices(s[..n], p);
      assert forall i :: 0 <= i < |idx0| ==> idx0[i] < n;
    }
  }

  lemma {:induction false} KeptMembers<T>(s: seq<T>, p: T -> bool)
    ensures forall j :: 0 <= j < |s| ==> (p(s[j]) <==> j in KeptIndices(s, p))
  {
    if s != [] {
      var n := |s| - 1;
      KeptMembers(s[..n], p);
      KeptIncreasing(s[..n], p);
      assert forall j :: 0 <= j < n ==> s[..n][j] == s[j];
      assert n !in KeptIndices(s[..n], p);
    }
  }

  /** Two tables whose masks agree row by row keep the same positions. */
  lemma {:induction false} KeptIndicesAgree<T, U>(s: seq<T>, t: seq<U>, p: T -> bool, q: U -> bool)
    requires |s| == |t| && forall i :: 0 <= i < |s| ==> p(s[i]) == q(t[i])
    ensures KeptIndices(s, p) == KeptIndices(t, q)
  {
    if s != [] {
      var n := |s| - 1;
      assert forall i :: 0 <= i < n ==> s[..n][i] == s[i] && t[..n][i] == t[i];
      KeptIndicesAgree(s[..n], t[..n], p, q);
    }
  }

  /** A row is in the result exactly when it is a row of the input that satisfies the mask. */
  lemma FilterMembers<T>(s: seq<T>, p: T -> bool, x: T)
    ensures x in Filter(s, p) <==> x in s && p(x)
  {
    FilterKeeps(s, p);
    var r, idx := Filter(s, p), KeptIndices(s, p);
    if x in r {
      var i :| 0 <= i < |r| && r[i] == x;
      assert s[idx[i]] == x;
    }
    if x in s && p(x) {
      var j :| 0 <= j < |s| && s[j] == x;
      var i :| 0 <= i < |idx| && idx[i] == j;
      assert r[i] == x;
    }
  }

  /** A mask that keeps every element keeps the sequence whole. */
  lemma {:induction false} FilterAll<T>(s: seq<T>, p: T -> bool)
    requires forall i :: 0 <= i < |s| ==> p(s[i])
    ensures Filter(s, p) == s
  {
    if s != [] {
      FilterAll(s[..|s| - 1], p);
    }
  }

  /** Two masks that agree everywhere keep the same elements. */
  lemma {:induction false} SameFilter<T>(s: seq<T>, p: T -> bool, q: T -> bool)
    requires forall x :: p(x) == q(x)
    ensures Filter(s, p) == Filter(s, q)
  {
    if s != [] {
      SameFilter(s[..|s| - 1], p, q);
    }
  }

  /** Two masks in a row keep the rows satisfying both. */
  lemma {:induction false} FilterFilter<T>(s: seq<T>, p: T -> bool, q: T -> bool, both: T -> bool)
    requires forall x :: both(x) == (p(x) && q(x))
    ensures Filter(Filter(s, p), q) == Filter(s, both)
  {
    if s != [] {
      var n := |s| - 1;
      FilterFilter(s[..n], p, q, both);
      var f := Filter(s[..n], p);
      if p(s[n]) {
        var g := f + [s[n]];
        assert Filter(s, p) == g;
        assert g[..|g| - 1] == f && g[|g| - 1] == s[n];
        assert Filter(g, q) == Filter(f, q) + (if q(s[n]) then [s[n]] else []);
      } else {
        assert Filter(s, p) == f;
      }
    }
  }

  /** The nested loop `for x in xs: for y in f(x): out.append(y)`. */
  function FlatMap<U, R>(xs: seq<U>, f: U -> seq<R>): seq<R>
  {
    if xs == [] then [] else FlatMap(xs[..|xs| - 1], f) + f(xs[|xs| - 1])
  }

  lemma FlatMapSnoc<U, R>(xs: seq<U>, f: U -> seq<R>, i: nat)
    requires i < |xs|
    ensures FlatMap(xs[..i + 1], f) == FlatMap(xs[..i], f) + f(xs[i])
  {
    assert xs[..i + 1][..i] == xs[..i];
  }

  /** The rows produced for `xs[u]` follow those of `xs[..u]`, in their own order. */
  lemma {:induction false} FlatMapAt<U, R>(xs: seq<U>, f: U -> seq<R>, u: nat, j: nat)
    requires u < |xs| && j < |f(xs[u])|
    ensures |FlatMap(xs[..u], f)| + j < |FlatMap(xs, f)|
    ensures FlatMap(xs, f)[|FlatMap(xs[..u], f)| + j] == f(xs[u])[j]
    decreases |xs|
  {
    var n := |xs| - 1;
    if u == n {
      assert xs[..n] == xs[..u];
    } else {
      assert xs[..n][..u] == xs[..u] && xs[..n][u] == xs[u];
      FlatMapAt(xs[..n], f, u, j);
    }
  }

  function Sum(s: seq<real>): real
  {
    if s == [] then 0.0 else Sum(s[..|s| - 1]) + s[|s| - 1]
  }

  lemma {:induction false} SumBounds(s: seq<real>, lo: real, hi: real)
    requires forall i :: 0 <= i < |s| ==> lo <= s[i] <= hi
    ensures |s| as real * lo <= Sum(s) <= |s| as real * hi
  {
    if s != [] {
      SumBounds(s[..|s| - 1], lo, hi);
    }
  }

  /** Arithmetic mean of a non-empty sequence of reals. */
  function Mean(s: seq<real>): real
    requires s != []
  {
    Sum(s) / |s| as real
  }

  lemma MeanBounds(s: seq<real>, lo: real, hi: real)
    requires s != []
    requires forall i :: 0 <= i < |s| ==> lo <= s[i] <= hi
    ensures lo <= Mean(s) <= hi
  {
    SumBounds(s, lo, hi);
    var n := |s| as real;
    assert n * lo <= Sum(s) <= n * hi;
    assert Mean(s) * n == Sum(s);
  }

  /** Distinct elements in order of first appearance (an insertion-ordered key list). */
  function Distinct(s: seq<string>): (r: seq<string>)
    ensures forall x :: x in r <==> x in s
    ensures forall i, j :: 0 <= i < j < |r| ==> r[i] != r[j]
  {
    if s == [] then []
    else
      var prev := Distinct(s[..|s| - 1]);
      assert forall x :: x in s <==> x in s[..|s| - 1] || x == s[|s| - 1];
      if s[|s| - 1] in prev then prev else prev + [s[|s| - 1]]
  }
}

/** Text helpers: ASCII case folding, substring search, Python's `str.strip()`. */
module Strings {

  function LowerChar(c: char): char
  {
    if 'A' <= c <= 'Z' then (c as int + 32) as char else c
  }

  function Lower(s: string): (r: string)
    ensures |r| == |s|
  {
    seq(|s|, i requires 0 <= i < |s| => LowerChar(s[i]))
  }

  /** Python's `needle in hay`. */
  predicate Contains(hay: string, needle: string)
    decreases |hay|
  {
    needle <= hay || (hay != [] && Contains(hay[1..], needle))
  }

  /** pandas' `str.contains(needle, case=False)` for a pattern without regex metacharacters. */
  predicate ContainsIgnoreCase(hay: string, needle: string)
  {
    Contains(Lower(hay), Lower(needle))
  }

  /**
   * Python's `str.isspace()`, which `str.strip()` and the `\s` class of a text pattern both use:
   * tab to carriage return, the four separators U+001C to U+001F, space, and the Unicode spaces.
   */
  predicate IsSpace(c: char)
  {
    '\t' <= c <= '\r' || '\U{001C}' <= c <= ' ' || c == '\U{0085}' || c == '\U{00A0}' || c == '\U{1680}' ||
    '\U{2000}' <= c <= '\U{200A}' || c == '\U{2028}' || c == '\U{2029}' || c == '\U{202F}' || c == '\U{205F}' ||
    c == '\U{3000}'
  }

  /** Python's `s.strip()`. */
  function Strip(s: string): (r: string)
    ensures r == "" <==> forall i :: 0 <= i < |s| ==> IsSpace(s[i])
    ensures r != "" ==> !IsSpace(r[0]) && !IsSpace(r[|r| - 1])
    decreases |s|
  {
    if s == [] then s
    else if IsSpace(s[0]) then Strip(s[1..])
    else if IsSpace(s[|s| - 1]) then Strip(s[..|s| - 1])
    else s
  }
}
