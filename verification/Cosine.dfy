/** The similarity kernels over exact reals: the reference loop, the faster batch, and ranking. */
module Cosine {

  type Vector = seq<real>

  function Min(a: nat, b: nat): nat {
    if a <= b then a else b
  }

  /** What the kernels assume of the square root. */
  ghost predicate IsSqrt(sqrt: real -> real) {
    forall x: real :: x >= 0.0 ==> sqrt(x) >= 0.0 && sqrt(x) * sqrt(x) == x
  }

  /** The dot product of the first `n` components. */
  function Dot(a: Vector, b: Vector, n: nat): real
    requires n <= |a| && n <= |b|
  {
    if n == 0 then 0.0 else Dot(a, b, n - 1) + a[n - 1] * b[n - 1]
  }

  lemma {:induction false} NormIsNonNegative(a: Vector, n: nat)
    requires n <= |a|
    ensures Dot(a, a, n) >= 0.0
  {
    if n > 0 {
      NormIsNonNegative(a, n - 1);
      SquareIsNonNegative(a[n - 1]);
    }
  }

  lemma SquareIsNonNegative(x: real)
    ensures x * x >= 0.0
  {
  }

  lemma PositiveProduct(x: real, y: real)
    requires x > 0.0 && y > 0.0
    ensures x * y > 0.0
  {
  }

  lemma OtherFactor(x: real, y: real)
    requires x > 0.0 && x * y <= 0.0
    ensures y <= 0.0
  {
    if y > 0.0 {
      PositiveProduct(x, y);
    }
  }

  lemma RootIsPositive(sqrt: real -> real, x: real)
    requires IsSqrt(sqrt) && x > 0.0
    ensures sqrt(x) > 0.0
  {
    assert sqrt(x) * sqrt(x) == x;
  }

  lemma RootOfZero(sqrt: real -> real)
    requires IsSqrt(sqrt)
    ensures sqrt(0.0) == 0.0
  {
    assert sqrt(0.0) * sqrt(0.0) == 0.0;
    if sqrt(0.0) > 0.0 {
      OtherFactor(sqrt(0.0), sqrt(0.0));
    }
  }

  /** A quotient over two roots, and zero when either norm is. */
  function Quotient(sqrt: real -> real, dot: real, na: real, nb: real): real
    requires IsSqrt(sqrt) && na >= 0.0 && nb >= 0.0
  {
    if na == 0.0 || nb == 0.0 then 0.0
    else
      RootIsPositive(sqrt, na);
      RootIsPositive(sqrt, nb);
      dot / (sqrt(na) * sqrt(nb))
  }

  /** What a score is: nothing when either norm is zero, and else the number that both roots take
      to the dot product. */
  ghost predicate IsScore(sqrt: real -> real, score: real, dot: real, na: real, nb: real) {
    if na == 0.0 || nb == 0.0 then score == 0.0 else score * (sqrt(na) * sqrt(nb)) == dot
  }

  /** The score of two vectors over their shorter length. */
  ghost predicate ScoresPair(sqrt: real -> real, a: Vector, b: Vector, score: real) {
    var n := Min(|a|, |b|); IsScore(sqrt, score, Dot(a, b, n), Dot(a, a, n), Dot(b, b, n))
  }

  /** The same, but with the query's norm over its full length. */
  ghost predicate ScoresRow(sqrt: real -> real, query: Vector, row: Vector, score: real) {
    var n := Min(|query|, |row|); IsScore(sqrt, score, Dot(query, row, n), Dot(query, query, |query|), Dot(row, row, n))
  }

  lemma QuotientIsScore(sqrt: real -> real, dot: real, na: real, nb: real)
    requires IsSqrt(sqrt) && na >= 0.0 && nb >= 0.0
    ensures IsScore(sqrt, Quotient(sqrt, dot, na, nb), dot, na, nb)
  {
    if na != 0.0 && nb != 0.0 {
      RootIsPositive(sqrt, na);
      RootIsPositive(sqrt, nb);
      PositiveProduct(sqrt(na), sqrt(nb));
      Divided(dot, sqrt(na) * sqrt(nb));
    }
  }

  lemma Divided(x: real, m: real)
    requires m != 0.0
    ensures (x / m) * m == x
  {
  }

  /** `cosine_baseline`: both norms over the shorter length. */
  function Baseline(sqrt: real -> real, a: Vector, b: Vector): real
    requires IsSqrt(sqrt)
  {
    var n := Min(|a|, |b|);
    NormIsNonNegative(a, n);
    NormIsNonNegative(b, n);
    Quotient(sqrt, Dot(a, b, n), Dot(a, a, n), Dot(b, b, n))
  }

  method CosineBaseline(sqrt: real -> real, a: Vector, b: Vector) returns (score: real)
    requires IsSqrt(sqrt)
    ensures score == Baseline(sqrt, a, b) && ScoresPair(sqrt, a, b, score)
  {
    var n := Min(|a|, |b|);
    var dot, na, nb := 0.0, 0.0, 0.0;
    for i := 0 to n
      invariant dot == Dot(a, b, i) && na == Dot(a, a, i) && nb == Dot(b, b, i)
    {
      dot := dot + a[i] * b[i];
      na := na + a[i] * a[i];
      nb := nb + b[i] * b[i];
    }
    NormIsNonNegative(a, n);
    NormIsNonNegative(b, n);
    if na == 0.0 || nb == 0.0 {
      score := 0.0;
    } else {
      RootIsPositive(sqrt, na);
      RootIsPositive(sqrt, nb);
      score := dot / (sqrt(na) * sqrt(nb));
    }
    QuotientIsScore(sqrt, dot, na, nb);
  }

  /** One row of `batch_cosine_optimized`: the query's norm over its full length. */
  function Optimized(sqrt: real -> real, query: Vector, row: Vector): real
    requires IsSqrt(sqrt)
  {
    var n := Min(|query|, |row|);
    NormIsNonNegative(query, |query|);
    NormIsNonNegative(row, n);
    Quotient(sqrt, Dot(query, row, n), Dot(query, query, |query|), Dot(row, row, n))
  }

  lemma OptimizedIsScore(sqrt: real -> real, query: Vector, row: Vector)
    requires IsSqrt(sqrt)
    ensures ScoresRow(sqrt, query, row, Optimized(sqrt, query, row))
  {
    hide Quotient;
    var n := Min(|query|, |row|);
    NormIsNonNegative(query, |query|);
    NormIsNonNegative(row, n);
    QuotientIsScore(sqrt, Dot(query, row, n), Dot(query, query, |query|), Dot(row, row, n));
  }

  /** The fast path: the query's norm once, then one pass per row. */
  method BatchOptimized(sqrt: real -> real, query: Vector, corpus: seq<Vector>) returns (scores: seq<real>)
    requires IsSqrt(sqrt)
    ensures scores == BatchFast(sqrt, query, corpus)
    ensures forall i | 0 <= i < |corpus| :: ScoresRow(sqrt, query, corpus[i], scores[i])
  {
    forall i | 0 <= i < |corpus| ensures ScoresRow(sqrt, query, corpus[i], Optimized(sqrt, query, corpus[i])) {
      OptimizedIsScore(sqrt, query, corpus[i]);
    }
    hide ScoresRow;
    var norm := 0.0;
    for i := 0 to |query|
      invariant norm == Dot(query, query, i)
    {
      norm := norm + query[i] * query[i];
    }
    NormIsNonNegative(query, |query|);
    var root := sqrt(norm);
    if root == 0.0 {
      assert root * root == norm;
      return seq(|corpus|, _ => 0.0);
    }
    assert root * root == norm;
    scores := [];
    for i := 0 to |corpus|
      invariant |scores| == i && forall k | 0 <= k < i :: scores[k] == Optimized(sqrt, query, corpus[k])
    {
      var score := ScoreRow(sqrt, query, corpus[i], norm, root);
      scores := scores + [score];
    }
  }

  method ScoreRow(sqrt: real -> real, query: Vector, row: Vector, norm: real, root: real) returns (score: real)
    requires IsSqrt(sqrt) && norm == Dot(query, query, |query|) && norm >= 0.0 && root == sqrt(norm) && root != 0.0
    ensures score == Optimized(sqrt, query, row)
  {
    var n := Min(|query|, |row|);
    var dot, rn := 0.0, 0.0;
    for i := 0 to n
      invariant dot == Dot(query, row, i) && rn == Dot(row, row, i)
    {
      dot := dot + query[i] * row[i];
      rn := rn + row[i] * row[i];
    }
    NormIsNonNegative(row, n);
    var rowRoot := sqrt(rn);
    if rn > 0.0 {
      RootIsPositive(sqrt, rn);
    }
    RootOfZero(sqrt);
    if rowRoot == 0.0 {
      score := 0.0;
    } else {
      score := dot / (root * rowRoot);
    }
  }

  // ---- what scores say ------------------------------------------------------------------------

  lemma Cancel(x: real, y: real, m: real)
    requires m != 0.0 && x * m == y * m
    ensures x == y
  {
    assert (x - y) * m == 0.0;
  }

  /** A score over positive norms has the sign of the dot product, and its square times the norms is
      the dot product squared. */
  lemma ScoresFollowTheDot(sqrt: real -> real, score: real, dot: real, na: real, nb: real)
    requires IsSqrt(sqrt) && IsScore(sqrt, score, dot, na, nb) && na > 0.0 && nb > 0.0
    ensures score > 0.0 <==> dot > 0.0
    ensures score < 0.0 <==> dot < 0.0
    ensures (score * score) * (na * nb) == dot * dot
  {
    RootIsPositive(sqrt, na);
    RootIsPositive(sqrt, nb);
    var m := sqrt(na) * sqrt(nb);
    PositiveProduct(sqrt(na), sqrt(nb));
    SignOfProduct(score, m);
    SquareOfProduct(sqrt(na), sqrt(nb));
    SquareOfProduct(score, m);
    assert m * m == na * nb;
  }

  lemma SignOfProduct(x: real, m: real)
    requires m > 0.0
    ensures x * m > 0.0 <==> x > 0.0
    ensures x * m < 0.0 <==> x < 0.0
  {
    if x > 0.0 {
      PositiveProduct(x, m);
    } else if x < 0.0 {
      PositiveProduct(-x, m);
      assert (-x) * m == -(x * m);
    } else {
      assert x == 0.0;
      ZeroTimes(m);
    }
  }

  lemma ZeroTimes(m: real)
    ensures 0.0 * m == 0.0
  {
  }

  function Scaled(a: Vector, c: real): (r: Vector)
    ensures |r| == |a| && forall i | 0 <= i < |a| :: r[i] == c * a[i]
  {
    seq(|a|, i requires 0 <= i < |a| => c * a[i])
  }

  lemma {:induction false} DotScales(a: Vector, b: Vector, n: nat, c: real, d: real)
    requires n <= |a| && n <= |b|
    ensures Dot(Scaled(a, c), Scaled(b, d), n) == (c * d) * Dot(a, b, n)
  {
    hide Dot, Scaled;
    var sa, sb := Scaled(a, c), Scaled(b, d);
    if n == 0 {
      EmptyDot(a, b);
      EmptyDot(sa, sb);
      TimesZero(c * d);
    } else {
      DotScales(a, b, n - 1, c, d);
      DotGrows(a, b, n);
      DotGrows(sa, sb, n);
      ScaledStep(c, d, a[n - 1], b[n - 1], Dot(a, b, n - 1), sa[n - 1], sb[n - 1], Dot(sa, sb, n - 1));
    }
  }

  lemma EmptyDot(a: Vector, b: Vector)
    ensures Dot(a, b, 0) == 0.0
  {
  }

  lemma DotGrows(a: Vector, b: Vector, n: nat)
    requires 0 < n <= |a| && n <= |b|
    ensures Dot(a, b, n) == Dot(a, b, n - 1) + a[n - 1] * b[n - 1]
  {
  }

  lemma ScaledStep(c: real, d: real, x: real, y: real, p: real, sx: real, sy: real, sp: real)
    requires sx == c * x && sy == d * y && sp == (c * d) * p
    ensures sp + sx * sy == (c * d) * (p + x * y)
  {
    Distribute(c, d, x, y, p);
  }

  lemma TimesZero(x: real)
    ensures x * 0.0 == 0.0
  {
  }

  lemma Distribute(c: real, d: real, x: real, y: real, p: real)
    ensures (c * d) * p + (c * x) * (d * y) == (c * d) * (p + x * y)
  {
    Regroup(c, x, d, y);
  }

  lemma Regroup(c: real, x: real, d: real, y: real)
    ensures (c * x) * (d * y) == (c * d) * (x * y)
  {
    assert (c * x) * (d * y) == c * (x * (d * y));
    assert x * (d * y) == d * (x * y);
    assert c * (d * (x * y)) == (c * d) * (x * y);
  }

  lemma RootsAreUnique(x: real, y: real)
    requires x >= 0.0 && y >= 0.0 && x * x == y * y
    ensures x == y
  {
    assert (x - y) * (x + y) == 0.0;
    if x != y {
      Cancel(x + y, 0.0, x - y);
    }
  }

  lemma RootScales(sqrt: real -> real, c: real, x: real)
    requires IsSqrt(sqrt) && c >= 0.0 && x >= 0.0
    ensures (c * c) * x >= 0.0 && sqrt((c * c) * x) == c * sqrt(x)
  {
    SquareIsNonNegative(c);
    ProductGrows(0.0, c * c, x);
    ZeroTimes(x);
    ProductGrows(0.0, c, sqrt(x));
    ZeroTimes(sqrt(x));
    Regroup(c, sqrt(x), c, sqrt(x));
    assert (c * sqrt(x)) * (c * sqrt(x)) == (c * c) * x;
    assert sqrt((c * c) * x) * sqrt((c * c) * x) == (c * c) * x;
    RootsAreUnique(sqrt((c * c) * x), c * sqrt(x));
  }

  /** A norm scaled by c twice: its root is scaled by c, and it is zero only if the norm was. */
  lemma NormScales(sqrt: real -> real, c: real, x: real, y: real)
    requires IsSqrt(sqrt) && c > 0.0 && x >= 0.0 && y == (c * c) * x
    ensures y >= 0.0 && sqrt(y) == c * sqrt(x) && (y == 0.0 <==> x == 0.0)
  {
    RootScales(sqrt, c, x);
    if x == 0.0 {
      TimesZero(c * c);
    } else {
      RootIsPositive(sqrt, x);
      PositiveProduct(c, sqrt(x));
      RootOfZero(sqrt);
    }
  }

  lemma ScaledScores(
    sqrt: real -> real, score: real, dot: real, na: real, nb: real, k: real, kdot: real, x: real, y: real)
    requires k > 0.0 && kdot == k * dot && (x == 0.0 <==> na == 0.0) && (y == 0.0 <==> nb == 0.0)
    requires sqrt(x) * sqrt(y) == k * (sqrt(na) * sqrt(nb))
    ensures IsScore(sqrt, score, kdot, x, y) <==> IsScore(sqrt, score, dot, na, nb)
  {
    var m := sqrt(na) * sqrt(nb);
    TimesBoth(score, m, k);
    if score * (k * m) == k * dot {
      Cancel(score * m, dot, k);
    }
  }

  lemma TimesBoth(score: real, m: real, k: real)
    ensures score * (k * m) == (score * m) * k
  {
  }

  lemma ScaledVectorsScore(
    sqrt: real -> real, score: real, dot: real, na: real, nb: real, c: real, d: real, kdot: real, x: real, y: real)
    requires IsSqrt(sqrt) && c > 0.0 && d > 0.0 && na >= 0.0 && nb >= 0.0
    requires kdot == (c * d) * dot && x == (c * c) * na && y == (d * d) * nb
    ensures IsScore(sqrt, score, kdot, x, y) <==> IsScore(sqrt, score, dot, na, nb)
  {
    hide IsScore;
    NormScales(sqrt, c, na, x);
    NormScales(sqrt, d, nb, y);
    Regroup(c, sqrt(na), d, sqrt(nb));
    PositiveProduct(c, d);
    ScaledScores(sqrt, score, dot, na, nb, c * d, kdot, x, y);
  }

  /** Scaling either vector by a positive factor does not change its scores, in either kernel. */
  lemma ScalingKeepsScores(sqrt: real -> real, a: Vector, b: Vector, c: real, d: real, score: real)
    requires IsSqrt(sqrt) && c > 0.0 && d > 0.0
    ensures ScoresPair(sqrt, Scaled(a, c), Scaled(b, d), score) <==> ScoresPair(sqrt, a, b, score)
    ensures ScoresRow(sqrt, Scaled(a, c), Scaled(b, d), score) <==> ScoresRow(sqrt, a, b, score)
  {
    hide Dot, IsScore, Scaled;
    var n, sa, sb := Min(|a|, |b|), Scaled(a, c), Scaled(b, d);
    DotScales(a, b, n, c, d);
    DotScales(a, a, n, c, c);
    DotScales(b, b, n, d, d);
    DotScales(a, a, |a|, c, c);
    NormIsNonNegative(a, n);
    NormIsNonNegative(b, n);
    NormIsNonNegative(a, |a|);
    ScaledVectorsScore(sqrt, score, Dot(a, b, n), Dot(a, a, n), Dot(b, b, n), c, d,
                       Dot(sa, sb, n), Dot(sa, sa, n), Dot(sb, sb, n));
    ScaledVectorsScore(sqrt, score, Dot(a, b, n), Dot(a, a, |a|), Dot(b, b, n), c, d,
                       Dot(sa, sb, n), Dot(sa, sa, |a|), Dot(sb, sb, n));
  }

  lemma NonzeroHasNorm(a: Vector, i: nat)
    requires i < |a| && a[i] != 0.0
    ensures Dot(a, a, |a|) > 0.0
  {
    NormIsNonNegative(a, |a|);
    SameNormExactlyWhenZeroTail(a, 0, |a|);
  }

  lemma OppositeDots(a: Vector, n: nat)
    requires n <= |a|
    ensures Dot(a, Scaled(a, -1.0), n) == -Dot(a, a, n)
    ensures Dot(Scaled(a, -1.0), Scaled(a, -1.0), n) == Dot(a, a, n)
  {
    hide Dot;
    DotScales(a, a, n, -1.0, -1.0);
    DotScales(a, a, n, 1.0, -1.0);
    assert Scaled(a, 1.0) == a;
  }

  /** A vector that is not zero scores one with itself, and minus one with its opposite, in either
      kernel. */
  lemma SelfScoresOne(sqrt: real -> real, a: Vector, i: nat, self: real, opposite: real)
    requires IsSqrt(sqrt) && i < |a| && a[i] != 0.0
    requires ScoresPair(sqrt, a, a, self) || ScoresRow(sqrt, a, a, self)
    requires ScoresPair(sqrt, a, Scaled(a, -1.0), opposite) || ScoresRow(sqrt, a, Scaled(a, -1.0), opposite)
    ensures self == 1.0 && opposite == -1.0
  {
    hide Dot;
    NonzeroHasNorm(a, i);
    OppositeDots(a, |a|);
    var norm := Dot(a, a, |a|);
    assert sqrt(norm) * sqrt(norm) == norm;
    Cancel(self, 1.0, norm);
    Cancel(opposite, -1.0, norm);
  }

  // ---- Cauchy-Schwarz -----------------------------------------------------------------------

  /** The squared length of `s*a + t*b` is not negative. */
  lemma {:induction false} QuadraticForm(a: Vector, b: Vector, n: nat, s: real, t: real)
    requires n <= |a| && n <= |b|
    ensures Dot(a, a, n) * (s * s) + 2.0 * Dot(a, b, n) * (s * t) + Dot(b, b, n) * (t * t) >= 0.0
  {
    if n > 0 {
      QuadraticForm(a, b, n - 1, s, t);
      var x, y := a[n - 1], b[n - 1];
      SquareIsNonNegative(s * x + t * y);
      Binomial(s, x, t, y);
      Expand(Dot(a, a, n - 1), Dot(a, b, n - 1), Dot(b, b, n - 1), x, y, s, t);
    }
  }

  lemma Binomial(s: real, x: real, t: real, y: real)
    ensures (s * x + t * y) * (s * x + t * y) == (x * x) * (s * s) + 2.0 * (x * y) * (s * t) + (y * y) * (t * t)
  {
  }

  lemma Expand(p: real, q: real, r: real, x: real, y: real, s: real, t: real)
    ensures (p + x * x) * (s * s) + 2.0 * (q + x * y) * (s * t) + (r + y * y) * (t * t)
            == (p * (s * s) + 2.0 * q * (s * t) + r * (t * t))
               + ((x * x) * (s * s) + 2.0 * (x * y) * (s * t) + (y * y) * (t * t))
  {
  }

  /** The accumulated dot product squared is at most the product of the accumulated norms. */
  lemma CauchySchwarz(a: Vector, b: Vector, n: nat)
    requires n <= |a| && n <= |b|
    ensures Dot(a, b, n) * Dot(a, b, n) <= Dot(a, a, n) * Dot(b, b, n)
  {
    var p, q, r := Dot(a, a, n), Dot(a, b, n), Dot(b, b, n);
    NormIsNonNegative(b, n);
    if r == 0.0 {
      if q != 0.0 {
        SteepSlope(p, q);
        QuadraticForm(a, b, n, 1.0, -(p + 1.0) / (2.0 * q));
      }
    } else {
      QuadraticForm(a, b, n, r, -q);
      FormAtMinimum(p, q, r);
    }
  }

  lemma SteepSlope(p: real, q: real)
    requires q != 0.0
    ensures p + 2.0 * q * (-(p + 1.0) / (2.0 * q)) == -1.0
  {
  }

  lemma FormAtMinimum(p: real, q: real, r: real)
    requires r > 0.0 && p * (r * r) + 2.0 * q * (r * -q) + r * (-q * -q) >= 0.0
    ensures q * q <= p * r
  {
    assert p * (r * r) + 2.0 * q * (r * -q) + r * (-q * -q) == r * (p * r - q * q);
    if q * q - p * r > 0.0 {
      PositiveProduct(r, q * q - p * r);
    }
  }

  lemma RatioIsBounded(d: real, m: real)
    requires m > 0.0 && d * d <= m * m
    ensures -1.0 <= d / m <= 1.0
  {
    if d > m {
      PositiveProduct(d - m, d + m);
    }
    if d < -m {
      PositiveProduct(-d - m, -d + m);
    }
    assert d == (d / m) * m;
  }

  lemma QuotientIsBounded(sqrt: real -> real, dot: real, na: real, nb: real)
    requires IsSqrt(sqrt) && na >= 0.0 && nb >= 0.0 && dot * dot <= na * nb
    ensures -1.0 <= Quotient(sqrt, dot, na, nb) <= 1.0
  {
    if na != 0.0 && nb != 0.0 {
      RootIsPositive(sqrt, na);
      RootIsPositive(sqrt, nb);
      var m := sqrt(na) * sqrt(nb);
      SquareOfProduct(sqrt(na), sqrt(nb));
      assert m * m == na * nb;
      RatioIsBounded(dot, m);
    }
  }

  lemma SquareOfProduct(x: real, y: real)
    ensures (x * y) * (x * y) == (x * x) * (y * y)
  {
  }

  lemma {:induction false} NormGrows(a: Vector, n: nat, m: nat)
    requires n <= m <= |a|
    ensures Dot(a, a, n) <= Dot(a, a, m)
  {
    if n < m {
      NormGrows(a, n, m - 1);
      SquareIsNonNegative(a[m - 1]);
    }
  }

  lemma BaselineIsBounded(sqrt: real -> real, a: Vector, b: Vector)
    requires IsSqrt(sqrt)
    ensures -1.0 <= Baseline(sqrt, a, b) <= 1.0
  {
    var n := Min(|a|, |b|);
    CauchySchwarz(a, b, n);
    NormIsNonNegative(a, n);
    NormIsNonNegative(b, n);
    QuotientIsBounded(sqrt, Dot(a, b, n), Dot(a, a, n), Dot(b, b, n));
  }

  lemma WiderBound(a: Vector, b: Vector, n: nat)
    requires n <= |a| && n <= |b|
    ensures Dot(a, b, n) * Dot(a, b, n) <= Dot(a, a, |a|) * Dot(b, b, n)
  {
    hide Dot;
    CauchySchwarz(a, b, n);
    NormIsNonNegative(b, n);
    NormGrows(a, n, |a|);
    ProductGrows(Dot(a, a, n), Dot(a, a, |a|), Dot(b, b, n));
  }

  /** Both kernels score within [-1, 1], for all vectors of all lengths. */
  lemma ScoresAreBounded(sqrt: real -> real, a: Vector, b: Vector)
    requires IsSqrt(sqrt)
    ensures -1.0 <= Baseline(sqrt, a, b) <= 1.0
    ensures -1.0 <= Optimized(sqrt, a, b) <= 1.0
  {
    hide Quotient;
    var n := Min(|a|, |b|);
    BaselineIsBounded(sqrt, a, b);
    WiderBound(a, b, n);
    NormIsNonNegative(a, |a|);
    NormIsNonNegative(b, n);
    QuotientIsBounded(sqrt, Dot(a, b, n), Dot(a, a, |a|), Dot(b, b, n));
  }

  lemma ProductGrows(x: real, y: real, k: real)
    requires x <= y && k >= 0.0
    ensures x * k <= y * k
  {
  }

  // ---- the fast path against the reference ----------------------------------------------------

  predicate ZeroFrom(a: Vector, n: nat)
    requires n <= |a|
  {
    forall i | n <= i < |a| :: a[i] == 0.0
  }

  lemma ProductSign(x: real, y: real)
    requires x == y
    ensures x == 0.0 ==> x * y == 0.0
    ensures x != 0.0 ==> x * y > 0.0
  {
    if x > 0.0 {
      PositiveProduct(x, y);
    } else if x < 0.0 {
      PositiveProduct(-x, -y);
    }
  }

  lemma DotStep(a: Vector, b: Vector, m: nat)
    requires 0 < m <= |a| && m <= |b| && a[m - 1] == b[m - 1]
    ensures a[m - 1] == 0.0 ==> Dot(a, b, m) == Dot(a, b, m - 1)
    ensures a[m - 1] != 0.0 ==> Dot(a, b, m) > Dot(a, b, m - 1)
  {
    ProductSign(a[m - 1], b[m - 1]);
  }

  lemma {:induction false} SameNormExactlyWhenZeroTail(a: Vector, n: nat, m: nat)
    requires n <= m <= |a|
    ensures Dot(a, a, n) == Dot(a, a, m) <==> forall i | n <= i < m :: a[i] == 0.0
  {
    hide Dot;
    if n < m {
      SameNormExactlyWhenZeroTail(a, n, m - 1);
      NormGrows(a, n, m - 1);
      DotStep(a, a, m);
    }
  }

  lemma QuotientsDiffer(sqrt: real -> real, dot: real, n1: real, n2: real, nb: real)
    requires IsSqrt(sqrt) && n1 > 0.0 && n2 > 0.0 && nb > 0.0 && dot != 0.0
    ensures Quotient(sqrt, dot, n1, nb) == Quotient(sqrt, dot, n2, nb) <==> n1 == n2
  {
    RootIsPositive(sqrt, n1);
    RootIsPositive(sqrt, n2);
    RootIsPositive(sqrt, nb);
    var m1, m2 := sqrt(n1) * sqrt(nb), sqrt(n2) * sqrt(nb);
    assert m1 > 0.0 && m2 > 0.0;
    if dot / m1 == dot / m2 {
      var k := dot / m1;
      assert k * m1 == dot && k * m2 == dot;
      assert k * (m1 - m2) == 0.0;
      assert m1 == m2;
      assert (sqrt(n1) - sqrt(n2)) * sqrt(nb) == 0.0;
      assert sqrt(n1) == sqrt(n2);
      assert sqrt(n1) * sqrt(n1) == n1 && sqrt(n2) * sqrt(n2) == n2;
    }
  }

  lemma ZeroQuotient(sqrt: real -> real, na: real, nb: real)
    requires IsSqrt(sqrt) && na >= 0.0 && nb >= 0.0
    ensures Quotient(sqrt, 0.0, na, nb) == 0.0
  {
    if na != 0.0 && nb != 0.0 {
      RootIsPositive(sqrt, na);
      RootIsPositive(sqrt, nb);
    }
  }

  /** The fast path agrees with the reference on a row exactly when the query has only zeros
      beyond the row's length or the two are orthogonal over the shared length. */
  lemma RowAgreesExactly(sqrt: real -> real, query: Vector, row: Vector)
    requires IsSqrt(sqrt)
    ensures var n := Min(|query|, |row|);
            Optimized(sqrt, query, row) == Baseline(sqrt, query, row) <==>
              ZeroFrom(query, n) || Dot(query, row, n) == 0.0
  {
    var n := Min(|query|, |row|);
    var dot, part, full, nb := Dot(query, row, n), Dot(query, query, n), Dot(query, query, |query|), Dot(row, row, n);
    NormIsNonNegative(query, n);
    NormIsNonNegative(row, n);
    NormGrows(query, n, |query|);
    SameNormExactlyWhenZeroTail(query, n, |query|);
    CauchySchwarz(query, row, n);
    if dot == 0.0 {
      ZeroQuotient(sqrt, part, nb);
      ZeroQuotient(sqrt, full, nb);
    } else {
      PositiveFactors(dot, dot, part, nb);
      QuotientsDiffer(sqrt, dot, full, part, nb);
    }
  }

  lemma PositiveFactors(d: real, e: real, p: real, r: real)
    requires d == e && d != 0.0 && p >= 0.0 && r >= 0.0 && d * e <= p * r
    ensures p > 0.0 && r > 0.0
  {
    ProductSign(d, e);
    NoZeroFactor(d * e, p, r);
  }

  lemma NoZeroFactor(q: real, p: real, r: real)
    requires q > 0.0 && p >= 0.0 && r >= 0.0 && q <= p * r
    ensures p > 0.0 && r > 0.0
  {
  }

  /** `batch_cosine_baseline`. */
  function BatchBaseline(sqrt: real -> real, query: Vector, corpus: seq<Vector>): (scores: seq<real>)
    requires IsSqrt(sqrt)
    ensures |scores| == |corpus|
  {
    seq(|corpus|, i requires 0 <= i < |corpus| && IsSqrt(sqrt) => Baseline(sqrt, query, corpus[i]))
  }

  function BatchFast(sqrt: real -> real, query: Vector, corpus: seq<Vector>): (scores: seq<real>)
    requires IsSqrt(sqrt)
    ensures |scores| == |corpus|
  {
    seq(|corpus|, i requires 0 <= i < |corpus| && IsSqrt(sqrt) => Optimized(sqrt, query, corpus[i]))
  }

  /** When every row is at least as long as the query, the optimized batch is the baseline batch,
      element by element, zero vectors included. */
  lemma BatchesAgreeOnLongRows(sqrt: real -> real, query: Vector, corpus: seq<Vector>)
    requires IsSqrt(sqrt) && forall row | row in corpus :: |query| <= |row|
    ensures BatchFast(sqrt, query, corpus) == BatchBaseline(sqrt, query, corpus)
  {
  }

  // ---- ranking ------------------------------------------------------------------------------------

  datatype Hit = Hit(index: nat, score: real)

  /** Higher score first; ties by lower index. */
  predicate Before(a: Hit, b: Hit) {
    a.score > b.score || (a.score == b.score && a.index < b.index)
  }

  ghost predicate Ranked(hits: seq<Hit>) {
    forall i, j | 0 <= i < j < |hits| :: Before(hits[i], hits[j])
  }

  ghost predicate Lists(hits: seq<Hit>, index: nat) {
    exists i | 0 <= i < |hits| :: hits[i].index == index
  }

  /** The hits are true, in rank order, as many as asked for, and ahead of everything left out. */
  ghost predicate IsTopK(scores: seq<real>, k: nat, hits: seq<Hit>) {
    && |hits| == Min(k, |scores|)
    && Ranked(hits)
    && (forall i | 0 <= i < |hits| :: hits[i].index < |scores| && hits[i].score == scores[hits[i].index])
    && (forall m: nat | m < |scores| && !Lists(hits, m) ::
          forall i | 0 <= i < |hits| :: Before(hits[i], Hit(m, scores[m])))
  }

  /** One step of the sort: a hit goes in front of the first it precedes. */
  method Place(hits: seq<Hit>, h: Hit) returns (r: seq<Hit>)
    requires Ranked(hits) && forall i | 0 <= i < |hits| :: hits[i].index < h.index
    ensures Ranked(r) && |r| == |hits| + 1
    ensures forall x :: x in r <==> x in hits || x == h
  {
    var p := |hits|;
    while p > 0 && Before(h, hits[p - 1])
      invariant 0 <= p <= |hits|
      invariant forall i | p <= i < |hits| :: Before(h, hits[i])
    {
      p := p - 1;
    }
    forall i | 0 <= i < p ensures Before(hits[i], h) {
      assert i == p - 1 || Before(hits[i], hits[p - 1]);
    }
    hide Ranked;
    r := hits[..p] + [h] + hits[p..];
    RankedAround(hits, p, h);
    assert hits == hits[..p] + hits[p..];
  }

  lemma RankedAround(hits: seq<Hit>, p: nat, h: Hit)
    requires p <= |hits| && Ranked(hits)
    requires forall i | 0 <= i < p :: Before(hits[i], h)
    requires forall i | p <= i < |hits| :: Before(h, hits[i])
    ensures Ranked(hits[..p] + [h] + hits[p..])
  {
    hide Before;
    var r := hits[..p] + [h] + hits[p..];
    forall i, j | 0 <= i < j < |r| ensures Before(r[i], r[j]) {
      if i != p && j != p {
        var a, b := if i < p then i else i - 1, if j < p then j else j - 1;
        assert r[i] == hits[a] && r[j] == hits[b];
      }
    }
  }

  lemma TakenIsListed(ranked: seq<Hit>, n: nat, j: nat)
    requires j < n <= |ranked|
    ensures Lists(ranked[..n], ranked[j].index)
  {
    assert ranked[..n][j] == ranked[j];
  }

  method TopK(scores: seq<real>, k: nat) returns (hits: seq<Hit>)
    ensures IsTopK(scores, k, hits)
  {
    var ranked: seq<Hit> := [];
    for n := 0 to |scores|
      invariant Ranked(ranked) && |ranked| == n
      invariant forall x :: x in ranked <==> x.index < n && x.score == scores[x.index]
    {
      ranked := Place(ranked, Hit(n, scores[n]));
    }
    hits := ranked[..Min(k, |scores|)];
    forall m: nat, i | m < |scores| && !Lists(hits, m) && 0 <= i < |hits| ensures Before(hits[i], Hit(m, scores[m])) {
      assert Hit(m, scores[m]) in ranked;
      var j :| 0 <= j < |ranked| && ranked[j] == Hit(m, scores[m]);
      if j < |hits| {
        TakenIsListed(ranked, |hits|, j);
      }
    }
  }

  lemma {:induction false} PrefixesAgree(scores: seq<real>, k: nat, a: seq<Hit>, b: seq<Hit>, n: nat)
    requires IsTopK(scores, k, a) && IsTopK(scores, k, b) && n <= |a|
    ensures a[..n] == b[..n]
  {
    if n > 0 {
      PrefixesAgree(scores, k, a, b, n - 1);
      if Before(a[n - 1], b[n - 1]) {
        FirstDifference(scores, k, a, b, n - 1);
      } else if Before(b[n - 1], a[n - 1]) {
        FirstDifference(scores, k, b, a, n - 1);
      } else {
        assert a[n - 1] == b[n - 1];
      }
      assert a[..n] == a[..n - 1] + [a[n - 1]] && b[..n] == b[..n - 1] + [b[n - 1]];
    }
  }

  /** There is only one such list, so how the sort works does not matter. */
  lemma TopKIsUnique(scores: seq<real>, k: nat, a: seq<Hit>, b: seq<Hit>)
    requires IsTopK(scores, k, a) && IsTopK(scores, k, b)
    ensures a == b
  {
    PrefixesAgree(scores, k, a, b, |a|);
    assert a[..|a|] == a && b[..|a|] == b;
  }

  lemma FirstDifference(scores: seq<real>, k: nat, a: seq<Hit>, b: seq<Hit>, p: nat)
    requires IsTopK(scores, k, a) && IsTopK(scores, k, b) && p < |a| && a[..p] == b[..p]
    ensures !Before(a[p], b[p])
  {
  }
}
