/** The mathematics behind `RiverEditor::GetBezierPoint`: a Bezier curve of
    any number of control points in Bernstein form, the binomial coefficients
    its loop builds incrementally, and the facts that make it a Bezier curve
    (it starts at the first point, ends at the last one, and reproduces a
    constant control polygon). */
module CurveMath {
  import opened Vectors

  /** `pow(b, e)` for a whole exponent; `Pow(0.0, 0) == 1.0`, as `pow` has it. */
  function Pow(b: real, e: nat): real {
    if e == 0 then 1.0 else b * Pow(b, e - 1)
  }

  /** The binomial coefficient C(n, k), by Pascal's rule. */
  function Binomial(n: nat, k: nat): real {
    if k == 0 then 1.0
    else if n == 0 then 0.0
    else Binomial(n - 1, k - 1) + Binomial(n - 1, k)
  }

  lemma {:induction false} PowOne(e: nat)
    ensures Pow(1.0, e) == 1.0
  {
    if e > 0 {
      PowOne(e - 1);
    }
  }

  lemma {:induction false} BinomialAbove(n: nat, k: nat)
    requires n < k
    ensures Binomial(n, k) == 0.0
  {
    if n > 0 {
      BinomialAbove(n - 1, k - 1);
      BinomialAbove(n - 1, k);
    }
  }

  lemma {:induction false} BinomialDiagonal(n: nat)
    ensures Binomial(n, n) == 1.0
  {
    if n > 0 {
      BinomialDiagonal(n - 1);
      BinomialAbove(n - 1, n);
    }
  }

  lemma {:induction false} BinomialOne(n: nat)
    ensures Binomial(n, 1) == n as real
  {
    if n > 0 {
      BinomialOne(n - 1);
    }
  }

  /** The arithmetic of one step of `BinomialStep`: with lhs == c + d and
      rhs == e + c, both i * lhs and (m - i + 1) * rhs equal m * c. */
  lemma BinomialStepAlgebra(ir: real, mr: real, q: real, c: real, d: real, e: real, lhs: real, rhs: real)
    requires lhs == c + d && rhs == e + c && q == mr - ir + 1.0
    requires ir * d == (mr - ir) * c
    requires (ir - 1.0) * c == (mr - ir + 1.0) * e
    ensures ir * lhs == q * rhs
  {
    calc {
      ir * lhs;
      ir * c + ir * d;
      ir * c + (mr - ir) * c;
      mr * c;
      (ir - 1.0) * c + (mr - ir + 1.0) * c;
      q * e + q * c;
      q * rhs;
    }
  }

  /** The ratio of neighbouring coefficients in a row of Pascal's triangle:
      i * C(m, i) == (m - i + 1) * C(m, i - 1). */
  lemma {:induction false} BinomialStep(m: nat, i: nat)
    requires 1 <= i <= m
    ensures i as real * Binomial(m, i) == (m - i + 1) as real * Binomial(m, i - 1)
    decreases m, 1
  {
    if i == 1 {
      BinomialOne(m);
    } else {
      BinomialStepBelow(m, i);
      BinomialStepPrevious(m, i);
      BinomialStepAlgebra(i as real, m as real, (m - i + 1) as real,
                          Binomial(m - 1, i - 1), Binomial(m - 1, i), Binomial(m - 1, i - 2),
                          Binomial(m, i), Binomial(m, i - 1));
    }
  }

  /** The step on the row above, at the same index: i * C(m-1, i) == (m - i) * C(m-1, i-1). */
  lemma {:induction false} BinomialStepBelow(m: nat, i: nat)
    requires 2 <= i <= m
    ensures i as real * Binomial(m - 1, i) == (m as real - i as real) * Binomial(m - 1, i - 1)
    decreases m, 0
  {
    var c := Binomial(m - 1, i - 1);
    if i < m {
      BinomialStep(m - 1, i);
      assert (m - 1 - i + 1) as real == m as real - i as real;
    } else {
      BinomialAbove(m - 1, i);
      assert m as real - i as real == 0.0;
    }
  }

  /** The step on the row above, one index back: (i-1) * C(m-1, i-1) == (m - i + 1) * C(m-1, i-2). */
  lemma {:induction false} BinomialStepPrevious(m: nat, i: nat)
    requires 2 <= i <= m
    ensures (i as real - 1.0) * Binomial(m - 1, i - 1) == (m as real - i as real + 1.0) * Binomial(m - 1, i - 2)
    decreases m, 0
  {
    var c, e := Binomial(m - 1, i - 1), Binomial(m - 1, i - 2);
    BinomialStep(m - 1, i - 1);
    var k1, k2 := (i - 1) as real, (m - 1 - (i - 1) + 1) as real;
    assert k1 * c == k2 * e;
    assert k1 == i as real - 1.0 && k2 == m as real - i as real + 1.0;
    calc {
      (i as real - 1.0) * c;
      k1 * c;
      k2 * e;
      (m as real - i as real + 1.0) * e;
    }
  }

  /** The update `c *= (n - i) / float(i)` of `GetBezierPoint`, with `m == n - 1`,
      turns C(m, i - 1) into C(m, i). */
  lemma BinomialStepReal(m: nat, i: nat)
    requires 1 <= i <= m
    ensures Binomial(m, i - 1) * ((m - i + 1) as real / i as real) == Binomial(m, i)
  {
    BinomialStep(m, i);
    var prev, next, ir := Binomial(m, i - 1), Binomial(m, i), i as real;
    var q := (m - i + 1) as real;
    assert ir * next == q * prev;
    calc {
      prev * (q / ir);
      (q * prev) / ir;
      (ir * next) / ir;
      next;
    }
  }

  /** The Bernstein weight C(m, i) * a^(m - i) * b^i; zero past the end of the row. */
  function Weight(m: nat, i: nat, a: real, b: real): real {
    if i <= m then Binomial(m, i) * Pow(a, m - i) * Pow(b, i) else 0.0
  }

  /** Pascal's rule lifted to the weights: row m is `a` times row m - 1 plus `b` times row m - 1 shifted by one. */
  lemma WeightPascal(m: nat, i: nat, a: real, b: real)
    requires 1 <= m && 1 <= i
    ensures Weight(m, i, a, b) == a * Weight(m - 1, i, a, b) + b * Weight(m - 1, i - 1, a, b)
  {
    var pb := Pow(b, i - 1);
    assert Pow(b, i) == b * pb;
    var c1 := Binomial(m - 1, i - 1);
    if i < m {
      var pa := Pow(a, m - 1 - i);
      var c2 := Binomial(m - 1, i);
      assert Pow(a, m - i) == a * pa;
      assert Binomial(m, i) == c1 + c2;
      assert Weight(m, i, a, b) == (c1 + c2) * (a * pa) * (b * pb);
      assert Weight(m - 1, i, a, b) == c2 * pa * (b * pb);
      assert Weight(m - 1, i - 1, a, b) == c1 * (a * pa) * pb;
      calc {
        (c1 + c2) * (a * pa) * (b * pb);
        a * (c2 * pa * (b * pb)) + b * (c1 * (a * pa) * pb);
      }
    } else if i == m {
      BinomialDiagonal(m);
      BinomialDiagonal(m - 1);
      assert Weight(m, i, a, b) == b * pb;
      assert Weight(m - 1, i, a, b) == 0.0;
      assert Weight(m - 1, i - 1, a, b) == pb;
    } else {
      assert Weight(m, i, a, b) == 0.0;
      assert Weight(m - 1, i, a, b) == 0.0;
      assert Weight(m - 1, i - 1, a, b) == 0.0;
    }
  }

  lemma WeightPascalFirst(m: nat, a: real, b: real)
    requires 1 <= m
    ensures Weight(m, 0, a, b) == a * Weight(m - 1, 0, a, b)
  {
    assert Weight(m, 0, a, b) == Pow(a, m);
    assert Weight(m - 1, 0, a, b) == Pow(a, m - 1);
  }

  /** Row `m` of weights, C(m, i) * a^(m - i) * b^i for i in 0..m. */
  function Row(m: nat, a: real, b: real): (r: seq<real>)
    ensures |r| == m + 1
  {
    seq(m + 1, i requires 0 <= i < m + 1 => Weight(m, i, a, b))
  }

  /** The sum of a sequence of reals, accumulated in index order. */
  function Sum(s: seq<real>): real {
    if |s| == 0 then 0.0 else Sum(s[..|s| - 1]) + s[|s| - 1]
  }

  lemma RegroupAlgebra(a: real, b: real, sum: real, sp: real, w: real, s1: real, s2: real,
                       w1: real, w2: real, t1: real, t2: real)
    requires sum == sp + w && sp == a * s1 + b * s2 && w == a * w1 + b * w2
    requires t1 == s1 + w1 && t2 == s2 + w2
    ensures sum == a * t1 + b * t2
  {
  }

  /** Summing is linear. */
  lemma {:induction false} SumCombination(x: seq<real>, y: seq<real>, z: seq<real>, a: real, b: real)
    requires |x| == |y| == |z|
    requires forall i :: 0 <= i < |x| ==> x[i] == a * y[i] + b * z[i]
    ensures Sum(x) == a * Sum(y) + b * Sum(z)
  {
    if |x| > 0 {
      var n := |x| - 1;
      SumCombination(x[..n], y[..n], z[..n], a, b);
      RegroupAlgebra(a, b, Sum(x), Sum(x[..n]), x[n], Sum(y[..n]), Sum(z[..n]), y[n], z[n], Sum(y), Sum(z));
    }
  }

  lemma SumAppendZero(s: seq<real>)
    ensures Sum(s + [0.0]) == Sum(s)
  {
    assert (s + [0.0])[..|s|] == s;
  }

  lemma {:induction false} SumPrependZero(s: seq<real>)
    ensures Sum([0.0] + s) == Sum(s)
  {
    if |s| > 0 {
      var n := |s| - 1;
      assert ([0.0] + s)[..|s|] == [0.0] + s[..n];
      SumPrependZero(s[..n]);
    }
  }

  /** The row after `r` by Pascal's rule: `a` times `r` padded at the end plus
      `b` times `r` shifted one place. */
  function PascalNext(r: seq<real>, a: real, b: real): (n: seq<real>)
    ensures |n| == |r| + 1
  {
    seq(|r| + 1, i requires 0 <= i < |r| + 1 => a * (r + [0.0])[i] + b * ([0.0] + r)[i])
  }

  /** Pascal's rule on whole rows of weights. */
  lemma RowPascal(m: nat, a: real, b: real)
    requires 1 <= m
    ensures Row(m, a, b) == PascalNext(Row(m - 1, a, b), a, b)
  {
    var r := Row(m - 1, a, b);
    var y, z, next := r + [0.0], [0.0] + r, PascalNext(r, a, b);
    forall i | 0 <= i < m + 1
      ensures Row(m, a, b)[i] == next[i]
    {
      assert next[i] == a * y[i] + b * z[i];
      if i == 0 {
        WeightPascalFirst(m, a, b);
      } else {
        WeightPascal(m, i, a, b);
        assert z[i] == Weight(m - 1, i - 1, a, b);
        assert y[i] == Weight(m - 1, i, a, b);
      }
    }
  }

  lemma BinomialTheoremBase(a: real, b: real)
    ensures Sum(Row(0, a, b)) == 1.0
  {
    assert Row(0, a, b) == [1.0];
    assert Sum([1.0]) == Sum([]) + 1.0;
  }

  lemma FactorAlgebra(total: real, a: real, b: real, y: real, z: real, sum: real)
    requires total == a * y + b * z && y == sum && z == sum
    ensures total == (a + b) * sum
  {
  }

  /** Summing a row built by Pascal's rule is summing its two parts. */
  lemma PascalNextLinear(r: seq<real>, a: real, b: real)
    ensures Sum(PascalNext(r, a, b)) == a * Sum(r + [0.0]) + b * Sum([0.0] + r)
  {
    SumCombination(PascalNext(r, a, b), r + [0.0], [0.0] + r, a, b);
  }

  /** Pascal's rule multiplies the sum of a row by a + b. */
  lemma PascalNextSum(r: seq<real>, a: real, b: real)
    ensures Sum(PascalNext(r, a, b)) == (a + b) * Sum(r)
  {
    var padded, shifted := Sum(r + [0.0]), Sum([0.0] + r);
    assert padded == Sum(r) by {
      SumAppendZero(r);
    }
    assert shifted == Sum(r) by {
      SumPrependZero(r);
    }
    PascalNextLinear(r, a, b);
    FactorAlgebra(Sum(PascalNext(r, a, b)), a, b, padded, shifted, Sum(r));
  }

  /** One row of the binomial theorem from the row before it. */
  lemma BinomialTheoremStep(m: nat, a: real, b: real)
    requires 1 <= m
    requires Sum(Row(m - 1, a, b)) == Pow(a + b, m - 1)
    ensures Sum(Row(m, a, b)) == Pow(a + b, m)
  {
    var prev := Row(m - 1, a, b);
    RowPascal(m, a, b);
    PascalNextSum(prev, a, b);
    assert Pow(a + b, m) == (a + b) * Sum(prev);
  }

  /** The binomial theorem: row `m` of weights sums to (a + b)^m. */
  lemma {:induction false} BinomialTheorem(m: nat, a: real, b: real)
    ensures Sum(Row(m, a, b)) == Pow(a + b, m)
  {
    if m == 0 {
      BinomialTheoremBase(a, b);
    } else {
      BinomialTheorem(m - 1, a, b);
      BinomialTheoremStep(m, a, b);
    }
  }

  /** The Bernstein polynomials of one degree form a partition of unity. */
  lemma PartitionOfUnity(m: nat, t: real)
    ensures Sum(Row(m, 1.0 - t, t)) == 1.0
  {
    BinomialTheorem(m, 1.0 - t, t);
    PowOne(m);
  }

  /** The first `k` terms of the Bernstein sum over all of `points`, accumulated in index order. */
  function BezierPrefix(points: seq<Vec3>, t: real, k: nat): Vec3
    requires k <= |points|
  {
    if k == 0 then Zero
    else Add(BezierPrefix(points, t, k - 1), Scale(Weight(|points| - 1, k - 1, 1.0 - t, t), points[k - 1]))
  }

  /** The point at parameter `t` of the Bezier curve with the given control points
      (the zero vector when there are none). */
  function Bezier(points: seq<Vec3>, t: real): Vec3 {
    BezierPrefix(points, t, |points|)
  }

  lemma {:induction false} BezierPrefixAtStart(points: seq<Vec3>, k: nat)
    requires 1 <= k <= |points|
    ensures BezierPrefix(points, 0.0, k) == points[0]
  {
    var m := |points| - 1;
    if k == 1 {
      PowOne(m);
      assert Weight(m, 0, 1.0, 0.0) == 1.0;
    } else {
      BezierPrefixAtStart(points, k - 1);
      assert Pow(0.0, k - 1) == 0.0;
      assert Weight(m, k - 1, 1.0, 0.0) == 0.0;
    }
  }

  lemma {:induction false} BezierPrefixAtEnd(points: seq<Vec3>, k: nat)
    requires k < |points|
    ensures BezierPrefix(points, 1.0, k) == Zero
  {
    var m := |points| - 1;
    if k > 0 {
      BezierPrefixAtEnd(points, k - 1);
      assert Pow(0.0, m - (k - 1)) == 0.0;
      assert Weight(m, k - 1, 0.0, 1.0) == 0.0;
    }
  }

  /** A Bezier curve starts at its first control point. */
  lemma BezierStartsAtFirstPoint(points: seq<Vec3>)
    requires |points| >= 1
    ensures Bezier(points, 0.0) == points[0]
  {
    BezierPrefixAtStart(points, |points|);
  }

  /** A Bezier curve ends at its last control point. */
  lemma BezierEndsAtLastPoint(points: seq<Vec3>)
    requires |points| >= 1
    ensures Bezier(points, 1.0) == points[|points| - 1]
  {
    var m := |points| - 1;
    BezierPrefixAtEnd(points, m);
    BinomialDiagonal(m);
    PowOne(m);
    assert Weight(m, m, 0.0, 1.0) == 1.0;
  }

  lemma {:induction false} BezierPrefixConstant(points: seq<Vec3>, p: Vec3, t: real, k: nat)
    requires 1 <= |points| && k <= |points|
    requires forall i :: 0 <= i < |points| ==> points[i] == p
    ensures BezierPrefix(points, t, k) == Scale(Sum(Row(|points| - 1, 1.0 - t, t)[..k]), p)
  {
    var row := Row(|points| - 1, 1.0 - t, t);
    if k == 0 {
      assert row[..0] == [];
    } else {
      BezierPrefixConstant(points, p, t, k - 1);
      assert row[..k][..k - 1] == row[..k - 1];
      assert points[k - 1] == p;
      ScaleAdd(Sum(row[..k - 1]), row[k - 1], p);
    }
  }

  /** When every control point is the same point, the whole curve is that point. */
  lemma BezierOfConstantPoints(points: seq<Vec3>, p: Vec3, t: real)
    requires |points| >= 1
    requires forall i :: 0 <= i < |points| ==> points[i] == p
    ensures Bezier(points, t) == p
  {
    var row := Row(|points| - 1, 1.0 - t, t);
    BezierPrefixConstant(points, p, t, |points|);
    assert row[..|points|] == row;
    PartitionOfUnity(|points| - 1, t);
  }

  /** The update `c *= (n - i) / i` turns the binomial coefficient C(n-1, i-1)
      into C(n-1, i). */
  lemma CoefficientStep(n: int, i: nat, c: real)
    requires 1 <= i < n && c == Binomial(n - 1, i - 1)
    ensures c * ((n - i) as real / i as real) == Binomial(n - 1, i)
  {
    BinomialStepReal(n - 1, i);
  }

  /** One pass of the `GetBezierPoint` loop: with `c` the binomial coefficient
      C(n-1, i), adding `c * (1 - t)^(n-1-i) * t^i` times point `i` to the sum
      of the first `i` Bernstein terms gives the sum of the first `i + 1`. */
  lemma BezierLoopStep(points: seq<Vec3>, n: int, t: real, i: nat, c: real, w: real, sum: Vec3)
    requires n == |points| && i < n && c == Binomial(n - 1, i)
    requires w == c * Pow(1.0 - t, n - 1 - i) * Pow(t, i)
    requires sum == BezierPrefix(points, t, i)
    ensures Add(sum, Scale(w, points[i])) == BezierPrefix(points, t, i + 1)
  {
    assert w == Weight(n - 1, i, 1.0 - t, t);
  }

  /** The three facts about a Bezier curve that do not depend on how it is computed:
      it starts at the first control point, ends at the last one, and is constant
      when all control points coincide. */
  lemma BezierFacts(points: seq<Vec3>, t: real)
    ensures 1 <= |points| && t == 0.0 ==> Bezier(points, t) == points[0]
    ensures 1 <= |points| && t == 1.0 ==> Bezier(points, t) == points[|points| - 1]
    ensures 1 <= |points| && (forall i :: 0 <= i < |points| ==> points[i] == points[0])
      ==> Bezier(points, t) == points[0]
  {
    if 1 <= |points| {
      if t == 0.0 {
        BezierStartsAtFirstPoint(points);
      }
      if t == 1.0 {
        BezierEndsAtLastPoint(points);
      }
      if forall i :: 0 <= i < |points| ==> points[i] == points[0] {
        BezierOfConstantPoints(points, points[0], t);
      }
    }
  }
}
