/**
 * Cosine similarity between the rows of a 0/1 matrix (scikit-learn's `cosine_similarity`) and
 * the mean over its strictly upper triangle (`np.triu_indices(k=1)`). The square root is a
 * parameter: the lemmas that need its meaning require `IsSqrt`.
 */
module Similarity {

  /** `sqrt` is the non-negative square root on the non-negative reals. */
  ghost predicate IsSqrt(sqrt: real -> real)
  {
    forall x :: 0.0 <= x ==> 0.0 <= sqrt(x) && sqrt(x) * sqrt(x) == x
  }

  /** Every entry is 0 or 1, as in `rec_matrix`. */
  predicate Binary(x: seq<real>)
  {
    forall i :: 0 <= i < |x| ==> x[i] == 0.0 || x[i] == 1.0
  }

  function Dot(x: seq<real>, y: seq<real>): real
    requires |x| == |y|
  {
    if x == [] then 0.0 else Dot(x[..|x| - 1], y[..|y| - 1]) + x[|x| - 1] * y[|y| - 1]
  }

  /**
   * scikit-learn normalizes each row by its Euclidean norm (a zero row stays zero) and takes
   * dot products: x.y / (|x| |y|), and 0 when either row is all zeros.
   */
  function Cosine(x: seq<real>, y: seq<real>, sqrt: real -> real): real
    requires |x| == |y|
  {
    var d := sqrt(Dot(x, x)) * sqrt(Dot(y, y));
    if d == 0.0 then 0.0 else Dot(x, y) / d
  }

  /** For 0/1 rows the dot product counts common ones, so it is bounded by each row's count of ones. */
  lemma {:induction false} DotBinaryBounds(x: seq<real>, y: seq<real>)
    requires |x| == |y| && Binary(x) && Binary(y)
    ensures 0.0 <= Dot(x, y) <= Dot(x, x)
    ensures Dot(x, y) <= Dot(y, y)
  {
    if x != [] {
      DotBinaryBounds(x[..|x| - 1], y[..|y| - 1]);
    }
  }

  /** Rows with no common one have dot product 0. */
  lemma {:induction false} DotDisjoint(x: seq<real>, y: seq<real>)
    requires |x| == |y|
    requires forall i :: 0 <= i < |x| ==> x[i] == 0.0 || y[i] == 0.0
    ensures Dot(x, y) == 0.0
  {
    if x != [] {
      DotDisjoint(x[..|x| - 1], y[..|y| - 1]);
    }
  }

  /** The cosine similarity of two 0/1 rows lies in [0, 1]. */
  lemma CosineBounds(x: seq<real>, y: seq<real>, sqrt: real -> real)
    requires IsSqrt(sqrt)
    requires |x| == |y| && Binary(x) && Binary(y)
    ensures 0.0 <= Cosine(x, y, sqrt) <= 1.0
  {
    DotBinaryBounds(x, y);
    var a, b := Dot(x, x), Dot(y, y);
    if sqrt(a) * sqrt(b) != 0.0 {
      var c, sa, sb := Dot(x, y), sqrt(a), sqrt(b);
      RatioOfRootsBounds(c, a, b, sa, sb);
      var q := c / (sa * sb);
      assert 0.0 <= q <= 1.0;
      assert Cosine(x, y, sqrt) == q;
    } else {
      assert Cosine(x, y, sqrt) == 0.0;
    }
  }

  /** 0 <= c <= a, c <= b and sa, sb the roots of a, b: c / (sa sb) lies in [0, 1] (Cauchy-Schwarz for 0/1 rows). */
  lemma RatioOfRootsBounds(c: real, a: real, b: real, sa: real, sb: real)
    requires 0.0 <= c <= a && c <= b
    requires 0.0 <= sa && 0.0 <= sb && sa * sa == a && sb * sb == b
    requires sa * sb != 0.0
    ensures 0.0 <= c / (sa * sb) <= 1.0
  {
    var d := sa * sb;
    RootsProduct(sa, sb, a, b);
    ProductBelow(c, a, b);
    MulNonNeg(sa, sb);
    SquareMonotone(c, d);
    RatioBounds(c, d);
  }

  /** The product of the square roots squares to the product. */
  lemma RootsProduct(sa: real, sb: real, a: real, b: real)
    requires sa * sa == a && sb * sb == b
    ensures (sa * sb) * (sa * sb) == a * b
  {
    calc {
      (sa * sb) * (sa * sb);
      (sa * sa) * (sb * sb);
      { MulLeft(sa * sa, a, sb * sb); }
      a * (sb * sb);
      { MulRight(a, sb * sb, b); }
      a * b;
    }
  }

  lemma MulLeft(p: real, q: real, r: real)
    requires p == q
    ensures p * r == q * r
  {
  }

  lemma MulRight(r: real, p: real, q: real)
    requires p == q
    ensures r * p == r * q
  {
  }

  lemma MulNonNeg(p: real, q: real)
    requires 0.0 <= p && 0.0 <= q
    ensures 0.0 <= p * q
  {
  }

  lemma MulPos(p: real, q: real)
    requires 0.0 < p && 0.0 < q
    ensures 0.0 < p * q
  {
  }

  /** 0 <= c <= a and c <= b give c * c <= a * b. */
  lemma ProductBelow(c: real, a: real, b: real)
    requires 0.0 <= c <= a && c <= b
    ensures c * c <= a * b
  {
    MulNonNeg(a - c, c);
    assert (a - c) * c == a * c - c * c;
    MulNonNeg(a, b - c);
    assert a * (b - c) == a * b - a * c;
  }

  /** 0 <= c <= d with d > 0 puts c / d in [0, 1]. */
  lemma RatioBounds(c: real, d: real)
    requires 0.0 <= c <= d && d != 0.0
    ensures 0.0 <= c / d <= 1.0
  {
    var q := c / d;
    assert q * d == c;
    if q > 1.0 {
      MulPos(q - 1.0, d);
    } else if q < 0.0 {
      MulPos(-q, d);
    }
  }

  lemma SquareMonotone(c: real, d: real)
    requires 0.0 <= c && 0.0 <= d && c * c <= d * d
    ensures c <= d
  {
    if c > d {
      MulPos(c - d, c + d);
    }
  }

  /** Users whose top-n lists share no item contribute 0. */
  lemma CosineDisjoint(x: seq<real>, y: seq<real>, sqrt: real -> real)
    requires |x| == |y|
    requires forall i :: 0 <= i < |x| ==> x[i] == 0.0 || y[i] == 0.0
    ensures Cosine(x, y, sqrt) == 0.0
  {
    DotDisjoint(x, y);
  }

  /** All rows have `width` columns. */
  predicate Rectangular(rows: seq<seq<real>>, width: nat)
  {
    forall i :: 0 <= i < |rows| ==> |rows[i]| == width
  }

  /** The similarities of `y` with every row of `rows`. */
  function CosineSumWith(rows: seq<seq<real>>, y: seq<real>, sqrt: real -> real): real
    requires Rectangular(rows, |y|)
  {
    if rows == [] then 0.0
    else CosineSumWith(rows[..|rows| - 1], y, sqrt) + Cosine(rows[|rows| - 1], y, sqrt)
  }

  /** The sum of `similarity[i, j]` over the pairs i < j. */
  function UpperSum(rows: seq<seq<real>>, width: nat, sqrt: real -> real): real
    requires Rectangular(rows, width)
  {
    if rows == [] then 0.0
    else UpperSum(rows[..|rows| - 1], width, sqrt) + CosineSumWith(rows[..|rows| - 1], rows[|rows| - 1], sqrt)
  }

  /** The number of pairs i < j among `u` rows, counted the way the upper triangle grows row by row. */
  function NumPairs(u: nat): nat
  {
    if u == 0 then 0 else NumPairs(u - 1) + (u - 1)
  }

  /** `len(np.triu_indices(u, k=1)[0])` is u(u-1)/2. */
  lemma {:induction false} NumPairsClosedForm(u: nat)
    ensures NumPairs(u) * 2 == u * (u - 1)
  {
    if u > 0 {
      NumPairsClosedForm(u - 1);
    }
  }

  lemma {:induction false} CosineSumWithBounds(rows: seq<seq<real>>, y: seq<real>, sqrt: real -> real)
    requires IsSqrt(sqrt)
    requires Rectangular(rows, |y|) && Binary(y)
    requires forall i :: 0 <= i < |rows| ==> Binary(rows[i])
    ensures 0.0 <= CosineSumWith(rows, y, sqrt) <= |rows| as real
  {
    if rows != [] {
      CosineSumWithBounds(rows[..|rows| - 1], y, sqrt);
      CosineBounds(rows[|rows| - 1], y, sqrt);
    }
  }

  /** Each pair contributes a value in [0, 1], so the upper-triangle sum lies in [0, number of pairs]. */
  lemma {:induction false} UpperSumBounds(rows: seq<seq<real>>, width: nat, sqrt: real -> real)
    requires IsSqrt(sqrt)
    requires Rectangular(rows, width)
    requires forall i :: 0 <= i < |rows| ==> Binary(rows[i])
    ensures 0.0 <= UpperSum(rows, width, sqrt) <= NumPairs(|rows|) as real
  {
    if rows != [] {
      var init := rows[..|rows| - 1];
      UpperSumBounds(init, width, sqrt);
      CosineSumWithBounds(init, rows[|rows| - 1], sqrt);
    }
  }

  /** Rows that pairwise share no one have upper-triangle sum 0. */
  lemma {:induction false} UpperSumDisjoint(rows: seq<seq<real>>, width: nat, sqrt: real -> real)
    requires Rectangular(rows, width)
    requires forall i, j, k :: 0 <= i < j < |rows| && 0 <= k < width ==> rows[i][k] == 0.0 || rows[j][k] == 0.0
    ensures UpperSum(rows, width, sqrt) == 0.0
  {
    if rows != [] {
      var init := rows[..|rows| - 1];
      UpperSumDisjoint(init, width, sqrt);
      CosineSumWithDisjoint(init, rows[|rows| - 1], sqrt);
    }
  }

  lemma {:induction false} CosineSumWithDisjoint(rows: seq<seq<real>>, y: seq<real>, sqrt: real -> real)
    requires Rectangular(rows, |y|)
    requires forall i, k :: 0 <= i < |rows| && 0 <= k < |y| ==> rows[i][k] == 0.0 || y[k] == 0.0
    ensures CosineSumWith(rows, y, sqrt) == 0.0
  {
    if rows != [] {
      CosineSumWithDisjoint(rows[..|rows| - 1], y, sqrt);
      CosineDisjoint(rows[|rows| - 1], y, sqrt);
    }
  }
}
