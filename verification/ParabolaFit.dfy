/** parab_fit of psdaq/drp/OpalTTFex.cc, the fit of a parabola to samples at
    0, 1, 2, ..., over the reals. */
module ParabolaFit {

  function Power(x: real, k: nat): real {
    if k == 0 then 1.0 else Power(x, k - 1) * x
  }

  /** The sum of the k-th powers of 0 to n - 1. */
  function PowerSum(k: nat, n: nat): real {
    if n == 0 then 0.0 else PowerSum(k, n - 1) + Power((n - 1) as real, k)
  }

  /** The sum of the samples times the k-th powers of their places. */
  function Moment(input: seq<real>, k: nat, n: nat): real
    requires n <= |input|
  {
    if n == 0 then 0.0 else Moment(input, k, n - 1) + input[n - 1] * Power((n - 1) as real, k)
  }

  /** Coefficients of 1, x and x squared. */
  datatype Parabola = Parabola(c0: real, c1: real, c2: real)

  function At(p: Parabola, x: real): real {
    p.c0 + p.c1 * x + p.c2 * x * x
  }

  lemma Powers(x: real)
    ensures Power(x, 0) == 1.0 && Power(x, 1) == x && Power(x, 2) == x * x
    ensures Power(x, 3) == x * x * x && Power(x, 4) == x * x * x * x
  {
    assert Power(x, 1) == Power(x, 0) * x && Power(x, 2) == Power(x, 1) * x;
    assert Power(x, 3) == Power(x, 2) * x && Power(x, 4) == Power(x, 3) * x;
  }

  // The sums of the first to fourth powers in closed form.
  function S1(n: real): real { n * (n - 1.0) / 2.0 }
  function S2(n: real): real { n * (n - 1.0) * (2.0 * n - 1.0) / 6.0 }
  function S3(n: real): real { n * n * (n - 1.0) * (n - 1.0) / 4.0 }
  function S4(n: real): real { n * (n - 1.0) * (2.0 * n - 1.0) * (3.0 * n * n - 3.0 * n - 1.0) / 30.0 }

  lemma NextSums(n: real)
    ensures S1(n + 1.0) == S1(n) + n && S2(n + 1.0) == S2(n) + n * n
    ensures S3(n + 1.0) == S3(n) + n * n * n && S4(n + 1.0) == S4(n) + n * n * n * n
  {
  }

  lemma {:induction false} SumsClosed(n: nat)
    ensures PowerSum(0, n) == n as real && PowerSum(1, n) == S1(n as real) && PowerSum(2, n) == S2(n as real)
    ensures PowerSum(3, n) == S3(n as real) && PowerSum(4, n) == S4(n as real)
  {
    if n > 0 {
      SumsClosed(n - 1);
      Powers((n - 1) as real);
      NextSums((n - 1) as real);
      assert (n - 1) as real + 1.0 == n as real;
    }
  }

  /** The determinant of the normal equations' matrix, whose entries are power sums. */
  function Det(s0: real, s1: real, s2: real, s3: real, s4: real): real {
    s0 * (s2 * s4 - s3 * s3) - s1 * (s1 * s4 - s3 * s2) + s2 * (s1 * s3 - s2 * s2)
  }

  function DetOf(n: nat): real {
    Det(PowerSum(0, n), PowerSum(1, n), PowerSum(2, n), PowerSum(3, n), PowerSum(4, n))
  }

  lemma DetPolynomial(n: real)
    ensures 2160.0 * Det(n, S1(n), S2(n), S3(n), S4(n)) == n * n * n * (n * n - 1.0) * (n * n - 1.0) * (n * n - 4.0)
  {
  }

  lemma DetClosed(n: nat)
    ensures var x := n as real; 2160.0 * DetOf(n) == x * x * x * (x * x - 1.0) * (x * x - 1.0) * (x * x - 4.0)
  {
    SumsClosed(n);
    DetPolynomial(n as real);
  }

  /** There is a fit exactly when there are three samples or more. */
  lemma DetNonzero(n: nat)
    ensures DetOf(n) != 0.0 <==> n >= 3
    ensures n >= 3 ==> DetOf(n) > 0.0
  {
    DetClosed(n);
    if n >= 3 {
      PolynomialPositive(n as real);
    } else if n == 0 {
      PolynomialRoots(0.0);
    } else if n == 1 {
      PolynomialRoots(1.0);
    } else {
      PolynomialRoots(2.0);
    }
  }

  lemma PolynomialRoots(x: real)
    requires x == 0.0 || x == 1.0 || x == 2.0
    ensures x * x * x * (x * x - 1.0) * (x * x - 1.0) * (x * x - 4.0) == 0.0
  {
  }

  lemma PolynomialPositive(x: real)
    requires x >= 3.0
    ensures x * x * x * (x * x - 1.0) * (x * x - 1.0) * (x * x - 4.0) > 0.0
  {
    var sq := x * x;
    AtLeastNine(x);
    Positive(x, sq, 1.0);
    Positive(sq - 1.0, sq - 1.0, 1.0);
    Positive(x * sq, (sq - 1.0) * (sq - 1.0), sq - 4.0);
    Regroup(x, sq - 1.0, sq - 4.0);
  }

  lemma AtLeastNine(x: real)
    requires x >= 3.0
    ensures x * x >= 9.0
  {
    assert (x - 3.0) * (x + 3.0) >= 0.0;
  }

  lemma Regroup(x: real, u: real, v: real)
    ensures x * x * x * u * u * v == (x * (x * x)) * (u * u) * v
  {
  }

  lemma Positive(a: real, b: real, c: real)
    requires a > 0.0 && b > 0.0 && c > 0.0
    ensures a * b * c > 0.0
  {
    assert a * b > 0.0;
  }

  /** The normal equations: the residual is orthogonal to 1, x and x squared. */
  ghost predicate Solves(p: Parabola, input: seq<real>) {
    var n := |input|;
    Residual(input, p, 0, n) == 0.0 && Residual(input, p, 1, n) == 0.0 && Residual(input, p, 2, n) == 0.0
  }

  /** One normal equation's residual. */
  function Residual(input: seq<real>, p: Parabola, k: nat, n: nat): real
    requires n <= |input|
  {
    Moment(input, k, n) - p.c0 * PowerSum(k, n) - p.c1 * PowerSum(k + 1, n) - p.c2 * PowerSum(k + 2, n)
  }

  function Residuals(input: seq<real>, p: Parabola, n: nat): (r: seq<real>)
    requires n <= |input|
    ensures |r| == n && forall i :: 0 <= i < n ==> r[i] == input[i] - At(p, i as real)
  {
    seq(n, i requires 0 <= i < n => input[i] - At(p, i as real))
  }

  function Values(p: Parabola, n: nat): (r: seq<real>)
    ensures |r| == n && forall i :: 0 <= i < n ==> r[i] == At(p, i as real)
  {
    seq(n, i requires 0 <= i < n => At(p, i as real))
  }

  function Dot(u: seq<real>, v: seq<real>): real
    requires |u| == |v|
  {
    if u == [] then 0.0 else Dot(u[..|u| - 1], v[..|v| - 1]) + u[|u| - 1] * v[|v| - 1]
  }

  /** How far the samples are from a parabola. */
  function SumOfSquares(input: seq<real>, p: Parabola): real {
    var r := Residuals(input, p, |input|);
    Dot(r, r)
  }

  /** What the code computes from the sums. */
  function Fit(s: seq<real>, t: seq<real>): Parabola
    requires |s| == 5 && |t| == 3
  {
    var det := Det(s[0], s[1], s[2], s[3], s[4]);
    var b11, b21, b31 := s[2] * s[4] - s[3] * s[3], s[1] * s[4] - s[3] * s[2], s[1] * s[3] - s[2] * s[2];
    var b22, b32, b33 := s[0] * s[4] - s[2] * s[2], s[0] * s[3] - s[1] * s[2], s[0] * s[2] - s[1] * s[1];
    if det == 0.0 then Parabola(0.0, 0.0, 0.0)
    else Parabola((b11 * t[0] - b21 * t[1] + b31 * t[2]) / det, (b22 * t[1] - b21 * t[0] - b32 * t[2]) / det,
                  (b31 * t[0] - b32 * t[1] + b33 * t[2]) / det)
  }

  /** Cramer's rule for the three equations. */
  lemma Cramer(s0: real, s1: real, s2: real, s3: real, s4: real, t0: real, t1: real, t2: real, p: Parabola)
    requires var det := Det(s0, s1, s2, s3, s4);
             && det * p.c0 == (s2 * s4 - s3 * s3) * t0 - (s1 * s4 - s3 * s2) * t1 + (s1 * s3 - s2 * s2) * t2
             && det * p.c1 == (s0 * s4 - s2 * s2) * t1 - (s1 * s4 - s3 * s2) * t0 - (s0 * s3 - s1 * s2) * t2
             && det * p.c2 == (s1 * s3 - s2 * s2) * t0 - (s0 * s3 - s1 * s2) * t1 + (s0 * s2 - s1 * s1) * t2
    ensures var det := Det(s0, s1, s2, s3, s4);
            && det * (p.c0 * s0 + p.c1 * s1 + p.c2 * s2 - t0) == 0.0
            && det * (p.c0 * s1 + p.c1 * s2 + p.c2 * s3 - t1) == 0.0
            && det * (p.c0 * s2 + p.c1 * s3 + p.c2 * s4 - t2) == 0.0
  {
    var det := Det(s0, s1, s2, s3, s4);
    assert det * (p.c0 * s0 + p.c1 * s1 + p.c2 * s2 - t0) ==
           (det * p.c0) * s0 + (det * p.c1) * s1 + (det * p.c2) * s2 - det * t0;
    assert det * (p.c0 * s1 + p.c1 * s2 + p.c2 * s3 - t1) ==
           (det * p.c0) * s1 + (det * p.c1) * s2 + (det * p.c2) * s3 - det * t1;
    assert det * (p.c0 * s2 + p.c1 * s3 + p.c2 * s4 - t2) ==
           (det * p.c0) * s2 + (det * p.c1) * s3 + (det * p.c2) * s4 - det * t2;
  }

  lemma Quotient(a: real, det: real)
    requires det != 0.0
    ensures det * (a / det) == a
  {
  }

  lemma Nonzero(det: real, e: real)
    requires det != 0.0 && det * e == 0.0
    ensures e == 0.0
  {
  }

  lemma FitSolves(s: seq<real>, t: seq<real>, p: Parabola)
    requires |s| == 5 && |t| == 3 && Det(s[0], s[1], s[2], s[3], s[4]) != 0.0 && p == Fit(s, t)
    ensures p.c0 * s[0] + p.c1 * s[1] + p.c2 * s[2] == t[0]
    ensures p.c0 * s[1] + p.c1 * s[2] + p.c2 * s[3] == t[1]
    ensures p.c0 * s[2] + p.c1 * s[3] + p.c2 * s[4] == t[2]
  {
    var det := Det(s[0], s[1], s[2], s[3], s[4]);
    var b11, b21, b31 := s[2] * s[4] - s[3] * s[3], s[1] * s[4] - s[3] * s[2], s[1] * s[3] - s[2] * s[2];
    var b22, b32, b33 := s[0] * s[4] - s[2] * s[2], s[0] * s[3] - s[1] * s[2], s[0] * s[2] - s[1] * s[1];
    Quotient(b11 * t[0] - b21 * t[1] + b31 * t[2], det);
    Quotient(b22 * t[1] - b21 * t[0] - b32 * t[2], det);
    Quotient(b31 * t[0] - b32 * t[1] + b33 * t[2], det);
    Cramer(s[0], s[1], s[2], s[3], s[4], t[0], t[1], t[2], p);
    Nonzero(det, p.c0 * s[0] + p.c1 * s[1] + p.c2 * s[2] - t[0]);
    Nonzero(det, p.c0 * s[1] + p.c1 * s[2] + p.c2 * s[3] - t[1]);
    Nonzero(det, p.c0 * s[2] + p.c1 * s[3] + p.c2 * s[4] - t[2]);
  }

  function Add(p: Parabola, d: Parabola): Parabola {
    Parabola(p.c0 + d.c0, p.c1 + d.c1, p.c2 + d.c2)
  }

  lemma AtAdd(p: Parabola, d: Parabola, x: real)
    ensures At(Add(p, d), x) == At(p, x) + At(d, x)
  {
  }

  function Minus(u: seq<real>, v: seq<real>): (r: seq<real>)
    requires |u| == |v|
    ensures |r| == |u| && forall i :: 0 <= i < |r| ==> r[i] == u[i] - v[i]
  {
    seq(|u|, i requires 0 <= i < |u| => u[i] - v[i])
  }

  lemma TermSplit(r: real, v: real)
    ensures (r - v) * (r - v) == r * r - 2.0 * (r * v) + v * v
  {
  }

  lemma {:induction false} SquaresSplit(u: seq<real>, v: seq<real>)
    requires |u| == |v|
    ensures Dot(Minus(u, v), Minus(u, v)) == Dot(u, u) - 2.0 * Dot(u, v) + Dot(v, v)
  {
    if u != [] {
      var n := |u| - 1;
      SquaresSplit(u[..n], v[..n]);
      TermSplit(u[n], v[n]);
      assert Minus(u, v)[..n] == Minus(u[..n], v[..n]);
    }
  }

  lemma ResidualsMinus(input: seq<real>, p: Parabola, d: Parabola)
    ensures Residuals(input, Add(p, d), |input|) == Minus(Residuals(input, p, |input|), Values(d, |input|))
  {
    forall i | 0 <= i < |input|
      ensures Residuals(input, Add(p, d), |input|)[i] == Minus(Residuals(input, p, |input|), Values(d, |input|))[i]
    {
      AtAdd(p, d, i as real);
    }
  }

  /** What a sample adds to the residual of equation k. */
  function Increment(y: real, p: Parabola, x: real, k: nat): real {
    y * Power(x, k) - p.c0 * Power(x, k) - p.c1 * Power(x, k + 1) - p.c2 * Power(x, k + 2)
  }

  lemma IncrementIs(y: real, p: Parabola, x: real, k: nat)
    ensures Increment(y, p, x, k) == (y - At(p, x)) * Power(x, k)
  {
    var w := Power(x, k);
    assert Power(x, k + 1) == w * x && Power(x, k + 2) == (w * x) * x;
    IncrementPolynomial(y, p, x, w);
  }

  lemma IncrementPolynomial(y: real, p: Parabola, x: real, w: real)
    ensures y * w - p.c0 * w - p.c1 * (w * x) - p.c2 * ((w * x) * x) == (y - At(p, x)) * w
  {
  }

  lemma ResidualStep(input: seq<real>, p: Parabola, k: nat, n: nat)
    requires 0 < n <= |input|
    ensures Residual(input, p, k, n) == Residual(input, p, k, n - 1) + Increment(input[n - 1], p, (n - 1) as real, k)
  {
  }

  function PowersAt(k: nat, n: nat): (r: seq<real>)
    ensures |r| == n && forall i :: 0 <= i < n ==> r[i] == Power(i as real, k)
  {
    seq(n, i requires 0 <= i < n => Power(i as real, k))
  }

  lemma {:induction false} ResidualIsDot(input: seq<real>, p: Parabola, k: nat, n: nat)
    requires n <= |input|
    ensures Dot(Residuals(input, p, n), PowersAt(k, n)) == Residual(input, p, k, n)
  {
    if n > 0 {
      ResidualIsDot(input, p, k, n - 1);
      assert Residuals(input, p, n)[..n - 1] == Residuals(input, p, n - 1) &&
             PowersAt(k, n)[..n - 1] == PowersAt(k, n - 1);
      ResidualStep(input, p, k, n);
      IncrementIs(input[n - 1], p, (n - 1) as real, k);
    }
  }

  lemma CombinedTerm(u: real, d: Parabola, v0: real, v1: real, v2: real)
    ensures u * (d.c0 * v0 + d.c1 * v1 + d.c2 * v2) == d.c0 * (u * v0) + d.c1 * (u * v1) + d.c2 * (u * v2)
  {
  }

  lemma Distribute(d: Parabola, r0: real, r1: real, r2: real, i0: real, i1: real, i2: real)
    ensures d.c0 * (r0 + i0) + d.c1 * (r1 + i1) + d.c2 * (r2 + i2)
         == (d.c0 * r0 + d.c1 * r1 + d.c2 * r2) + (d.c0 * i0 + d.c1 * i1 + d.c2 * i2)
  {
  }

  lemma {:induction false} DotCombined(u: seq<real>, v: seq<real>, d: Parabola, v0: seq<real>, v1: seq<real>,
                                       v2: seq<real>)
    requires |u| == |v| == |v0| == |v1| == |v2|
    requires forall i :: 0 <= i < |v| ==> v[i] == d.c0 * v0[i] + d.c1 * v1[i] + d.c2 * v2[i]
    ensures Dot(u, v) == d.c0 * Dot(u, v0) + d.c1 * Dot(u, v1) + d.c2 * Dot(u, v2)
  {
    if u != [] {
      var n := |u| - 1;
      DotCombined(u[..n], v[..n], d, v0[..n], v1[..n], v2[..n]);
      CombinedTerm(u[n], d, v0[n], v1[n], v2[n]);
      Distribute(d, Dot(u[..n], v0[..n]), Dot(u[..n], v1[..n]), Dot(u[..n], v2[..n]), u[n] * v0[n], u[n] * v1[n],
        u[n] * v2[n]);
    }
  }

  lemma {:induction false} SquaresNotNegative(v: seq<real>)
    ensures Dot(v, v) >= 0.0
  {
    if v != [] {
      SquaresNotNegative(v[..|v| - 1]);
      assert v[|v| - 1] * v[|v| - 1] >= 0.0;
    }
  }

  lemma AtPowers(d: Parabola, x: real)
    ensures At(d, x) == d.c0 * Power(x, 0) + d.c1 * Power(x, 1) + d.c2 * Power(x, 2)
  {
    Powers(x);
    assert d.c2 * x * x == d.c2 * (x * x);
  }

  lemma ValuesCombined(d: Parabola, n: nat)
    ensures forall i :: 0 <= i < n ==>
              Values(d, n)[i] == d.c0 * PowersAt(0, n)[i] + d.c1 * PowersAt(1, n)[i] + d.c2 * PowersAt(2, n)[i]
  {
    forall i | 0 <= i < n
      ensures Values(d, n)[i] == d.c0 * PowersAt(0, n)[i] + d.c1 * PowersAt(1, n)[i] + d.c2 * PowersAt(2, n)[i]
    {
      AtPowers(d, i as real);
    }
  }

  /** A solution of the normal equations is orthogonal to every parabola. */
  lemma SolutionIsOrthogonal(input: seq<real>, p: Parabola, d: Parabola)
    requires Solves(p, input)
    ensures Dot(Residuals(input, p, |input|), Values(d, |input|)) == 0.0
  {
    var n := |input|;
    ValuesCombined(d, n);
    DotCombined(Residuals(input, p, n), Values(d, n), d, PowersAt(0, n), PowersAt(1, n), PowersAt(2, n));
    ResidualIsDot(input, p, 0, n);
    ResidualIsDot(input, p, 1, n);
    ResidualIsDot(input, p, 2, n);
  }

  /** So it fits at least as well as any other parabola. */
  lemma SolutionIsBest(input: seq<real>, p: Parabola, q: Parabola)
    requires Solves(p, input)
    ensures SumOfSquares(input, p) <= SumOfSquares(input, q)
  {
    var d := Parabola(q.c0 - p.c0, q.c1 - p.c1, q.c2 - p.c2);
    assert Add(p, d) == q;
    ResidualsMinus(input, p, d);
    SquaresSplit(Residuals(input, p, |input|), Values(d, |input|));
    SolutionIsOrthogonal(input, p, d);
    SquaresNotNegative(Values(d, |input|));
  }

  /** The samples lie on a parabola. */
  ghost predicate OnParabola(input: seq<real>, p: Parabola) {
    forall i {:trigger input[i]} :: 0 <= i < |input| ==> input[i] == At(p, i as real)
  }

  lemma {:induction false} ExactResidual(input: seq<real>, p: Parabola, k: nat, n: nat)
    requires n <= |input| && OnParabola(input, p)
    ensures Residual(input, p, k, n) == 0.0
  {
    if n > 0 {
      ExactResidual(input, p, k, n - 1);
      ResidualStep(input, p, k, n);
      assert input[n - 1] == At(p, (n - 1) as real);
      IncrementIs(input[n - 1], p, (n - 1) as real, k);
    }
  }

  lemma ExactSolves(input: seq<real>, p: Parabola)
    requires OnParabola(input, p)
    ensures Solves(p, input)
  {
    ExactResidual(input, p, 0, |input|);
    ExactResidual(input, p, 1, |input|);
    ExactResidual(input, p, 2, |input|);
  }

  lemma Eliminate(s0: real, s1: real, s2: real, s3: real, s4: real, e0: real, e1: real, e2: real)
    ensures var det := Det(s0, s1, s2, s3, s4);
            var f0, f1, f2 := e0 * s0 + e1 * s1 + e2 * s2, e0 * s1 + e1 * s2 + e2 * s3, e0 * s2 + e1 * s3 + e2 * s4;
            && det * e0 == (s2 * s4 - s3 * s3) * f0 - (s1 * s4 - s3 * s2) * f1 + (s1 * s3 - s2 * s2) * f2
            && det * e1 == (s0 * s4 - s2 * s2) * f1 - (s1 * s4 - s3 * s2) * f0 - (s0 * s3 - s1 * s2) * f2
            && det * e2 == (s1 * s3 - s2 * s2) * f0 - (s0 * s3 - s1 * s2) * f1 + (s0 * s2 - s1 * s1) * f2
  {
  }

  function Left(e: Parabola, s0: real, s1: real, s2: real): real {
    e.c0 * s0 + e.c1 * s1 + e.c2 * s2
  }

  /** Three equations with a nonzero determinant have one solution. */
  lemma OneSolution(s0: real, s1: real, s2: real, s3: real, s4: real, e: Parabola)
    requires Left(e, s0, s1, s2) == 0.0 && Left(e, s1, s2, s3) == 0.0 && Left(e, s2, s3, s4) == 0.0
    requires Det(s0, s1, s2, s3, s4) != 0.0
    ensures e == Parabola(0.0, 0.0, 0.0)
  {
    var det := Det(s0, s1, s2, s3, s4);
    Eliminate(s0, s1, s2, s3, s4, e.c0, e.c1, e.c2);
    Nonzero(det, e.c0);
    Nonzero(det, e.c1);
    Nonzero(det, e.c2);
  }

  /** The left side of equation k for e. */
  function Row(e: Parabola, k: nat, n: nat): real {
    Left(e, PowerSum(k, n), PowerSum(k + 1, n), PowerSum(k + 2, n))
  }

  lemma RowDifference(input: seq<real>, p: Parabola, q: Parabola, e: Parabola, k: nat, n: nat)
    requires n <= |input| && Residual(input, p, k, n) == Residual(input, q, k, n) && p == Add(q, e)
    ensures Row(e, k, n) == 0.0
  {
  }

  lemma RowsZero(e: Parabola, n: nat)
    requires Row(e, 0, n) == Row(e, 1, n) == Row(e, 2, n) == 0.0 && DetOf(n) != 0.0
    ensures e == Parabola(0.0, 0.0, 0.0)
  {
    OneSolution(PowerSum(0, n), PowerSum(1, n), PowerSum(2, n), PowerSum(3, n), PowerSum(4, n), e);
  }

  lemma SolutionIsUnique(input: seq<real>, p: Parabola, q: Parabola)
    requires |input| >= 3 && Solves(p, input) && Solves(q, input)
    ensures p == q
  {
    var n, e := |input|, Parabola(p.c0 - q.c0, p.c1 - q.c1, p.c2 - q.c2);
    DetNonzero(n);
    RowDifference(input, p, q, e, 0, n);
    RowDifference(input, p, q, e, 1, n);
    RowDifference(input, p, q, e, 2, n);
    RowsZero(e, n);
  }

  /** The sums that the loop accumulates. */
  ghost predicate Summed(input: seq<real>, n: nat, xx: seq<real>, xy: seq<real>) {
    && n <= |input| && |xx| == 5 && |xy| == 3
    && (forall k {:trigger xx[k]} :: 0 <= k < 5 ==> xx[k] == PowerSum(k, n))
    && (forall k {:trigger xy[k]} :: 0 <= k < 3 ==> xy[k] == Moment(input, k, n))
  }

  lemma SumsNext(n: nat)
    ensures var x := n as real;
            && PowerSum(0, n + 1) == PowerSum(0, n) + 1.0 && PowerSum(1, n + 1) == PowerSum(1, n) + x
            && PowerSum(2, n + 1) == PowerSum(2, n) + x * x && PowerSum(3, n + 1) == PowerSum(3, n) + x * x * x
            && PowerSum(4, n + 1) == PowerSum(4, n) + x * x * x * x
  {
    Powers(n as real);
  }

  lemma MomentsNext(input: seq<real>, n: nat)
    requires n < |input|
    ensures var x, y := n as real, input[n];
            && Moment(input, 0, n + 1) == Moment(input, 0, n) + y &&
               Moment(input, 1, n + 1) == Moment(input, 1, n) + y * x
            && Moment(input, 2, n + 1) == Moment(input, 2, n) + y * x * x
  {
    var x, y := n as real, input[n];
    Powers(x);
    assert y * (x * x) == y * x * x;
  }

  /** What one sample adds to the sums. */
  ghost predicate Added(xx: seq<real>, xy: seq<real>, x: real, y: real, xx': seq<real>, xy': seq<real>) {
    && |xx| == |xx'| == 5 && |xy| == |xy'| == 3
    && xx'[0] == xx[0] + 1.0 && xx'[1] == xx[1] + x && xx'[2] == xx[2] + x * x
    && xx'[3] == xx[3] + x * x * x && xx'[4] == xx[4] + x * x * x * x
    && xy'[0] == xy[0] + y && xy'[1] == xy[1] + y * x && xy'[2] == xy[2] + y * x * x
  }

  lemma SummedNext(input: seq<real>, n: nat, xx: seq<real>, xy: seq<real>, xx': seq<real>, xy': seq<real>)
    requires n < |input| && Summed(input, n, xx, xy) && Added(xx, xy, n as real, input[n], xx', xy')
    ensures Summed(input, n + 1, xx', xy')
  {
    SumsNext(n);
    MomentsNext(input, n);
    forall k {:trigger xx'[k]} | 0 <= k < 5 ensures xx'[k] == PowerSum(k, n + 1) {
      assert k == 0 || k == 1 || k == 2 || k == 3 || k == 4;
    }
    forall k {:trigger xy'[k]} | 0 <= k < 3 ensures xy'[k] == Moment(input, k, n + 1) {
      assert k == 0 || k == 1 || k == 2;
    }
  }

  /** One sample added to the sums. */
  method Accumulate(xx: array<real>, xy: array<real>, x: real, y0: real)
    requires xx.Length == 5 && xy.Length == 3 && xx != xy
    modifies xx, xy
    ensures Added(old(xx[..]), old(xy[..]), x, y0, xx[..], xy[..])
  {
    var qx, y := x, y0;
    xx[0] := xx[0] + 1.0;
    xy[0] := xy[0] + y;
    xx[1] := xx[1] + x;
    y := y * x;
    xy[1] := xy[1] + y;
    qx := qx * x;
    xx[2] := xx[2] + qx;
    xy[2] := xy[2] + y * x;
    qx := qx * x;
    xx[3] := xx[3] + qx;
    xx[4] := xx[4] + qx * x;
  }

  method AddSample(xx: array<real>, xy: array<real>, input: seq<real>, ix: nat)
    requires xx.Length == 5 && xy.Length == 3 && xx != xy && ix < |input|
    requires Summed(input, ix, xx[..], xy[..])
    modifies xx, xy
    ensures Summed(input, ix + 1, xx[..], xy[..])
  {
    ghost var s, t := xx[..], xy[..];
    Accumulate(xx, xy, ix as real, input[ix]);
    SummedNext(input, ix, s, t, xx[..], xy[..]);
  }

  /** The coefficients solve the normal equations when there are three samples or more. */
  method ParabFit(input: seq<real>) returns (result: Parabola)
    ensures |input| < 3 ==> result == Parabola(0.0, 0.0, 0.0)
    ensures |input| >= 3 ==> Solves(result, input)
  {
    var xx := new real[5](_ => 0.0);
    var xy := new real[3](_ => 0.0);
    for ix := 0 to |input|
      invariant Summed(input, ix, xx[..], xy[..])
    {
      AddSample(xx, xy, input, ix);
    }
    result := Fit(xx[..], xy[..]);
    FitOfSums(input, xx[..], xy[..]);
  }

  lemma FitOfSums(input: seq<real>, xx: seq<real>, xy: seq<real>)
    requires Summed(input, |input|, xx, xy)
    ensures |input| < 3 ==> Fit(xx, xy) == Parabola(0.0, 0.0, 0.0)
    ensures |input| >= 3 ==> Solves(Fit(xx, xy), input)
  {
    DetNonzero(|input|);
    DetSummed(input, xx, xy);
    if |input| >= 3 {
      var p := Fit(xx, xy);
      FitSolves(xx, xy, p);
      SumsSolve(input, xx, xy, p);
    }
  }

  lemma DetSummed(input: seq<real>, xx: seq<real>, xy: seq<real>)
    requires Summed(input, |input|, xx, xy)
    ensures Det(xx[0], xx[1], xx[2], xx[3], xx[4]) == DetOf(|input|)
  {
  }

  lemma SumsSolve(input: seq<real>, xx: seq<real>, xy: seq<real>, p: Parabola)
    requires Summed(input, |input|, xx, xy)
    requires p.c0 * xx[0] + p.c1 * xx[1] + p.c2 * xx[2] == xy[0]
    requires p.c0 * xx[1] + p.c1 * xx[2] + p.c2 * xx[3] == xy[1]
    requires p.c0 * xx[2] + p.c1 * xx[3] + p.c2 * xx[4] == xy[2]
    ensures Solves(p, input)
  {
  }

  /** So the result is the best fit, and the parabola itself for samples on one. */
  lemma FitIsBest(input: seq<real>, result: Parabola, q: Parabola)
    requires |input| >= 3 && Solves(result, input)
    ensures SumOfSquares(input, result) <= SumOfSquares(input, q)
    ensures OnParabola(input, q) ==> result == q
  {
    SolutionIsBest(input, result, q);
    if OnParabola(input, q) {
      ExactSolves(input, q);
      SolutionIsUnique(input, result, q);
    }
  }
}
