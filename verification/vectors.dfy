/** Exact real scalars and dense vectors (numpy float arrays read as `seq<real>`). */
module Vectors {

  /** numpy's `sign`: 1, -1 or 0. */
  function Sign(r: real): (s: real)
    ensures s == 0.0 <==> r == 0.0
    ensures s == 1.0 || s == -1.0 || s == 0.0
    ensures s == 1.0 <==> r > 0.0
  {
    if r > 0.0 then 1.0 else if r < 0.0 then -1.0 else 0.0
  }

  /** `alpha * sign(r)`, by cases. */
  function ScaleBySign(alpha: real, r: real): (m: real)
    ensures r > 0.0 ==> m == alpha
    ensures r < 0.0 ==> m == -alpha
    ensures r == 0.0 ==> m == 0.0
  {
    if r > 0.0 then alpha else if r < 0.0 then -alpha else 0.0
  }

  lemma ScaleBySignIsProduct(alpha: real, r: real)
    ensures ScaleBySign(alpha, r) == alpha * Sign(r)
  {
  }

  function Abs(r: real): (a: real)
    ensures a >= 0.0 && (a == r || a == -r)
  {
    if r < 0.0 then -r else r
  }

  /** Python's built-in `min` on two numbers: the first argument wins a tie. */
  function Min(a: real, b: real): (m: real)
    ensures m <= a && m <= b && (m == a || m == b)
  {
    if b < a then b else a
  }

  function Pow2(k: nat): (p: real)
    ensures p >= 1.0
  {
    if k == 0 then 1.0 else 2.0 * Pow2(k - 1)
  }

  /** Inner product `u.dot(v)`. */
  function Dot(u: seq<real>, v: seq<real>): real
    requires |u| == |v|
  {
    if |u| == 0 then 0.0 else u[0] * v[0] + Dot(u[1..], v[1..])
  }

  /** The L1 norm. */
  function L1Norm(x: seq<real>): (r: real)
    ensures r >= 0.0
  {
    if |x| == 0 then 0.0 else Abs(x[0]) + L1Norm(x[1..])
  }

  function Zeros(n: nat): (z: seq<real>)
    ensures |z| == n && forall i :: 0 <= i < n ==> z[i] == 0.0
  {
    seq(n, i => 0.0)
  }

  /** `x + s * d`, elementwise. */
  function Axpy(x: seq<real>, s: real, d: seq<real>): (r: seq<real>)
    requires |x| == |d|
    ensures |r| == |x|
    ensures forall i :: 0 <= i < |x| ==> r[i] == x[i] + s * d[i]
  {
    seq(|x|, i requires 0 <= i < |x| => x[i] + s * d[i])
  }

  /** `u - v`, elementwise. */
  function Sub(u: seq<real>, v: seq<real>): (r: seq<real>)
    requires |u| == |v|
    ensures |r| == |u|
    ensures forall i :: 0 <= i < |u| ==> r[i] == u[i] - v[i]
  {
    seq(|u|, i requires 0 <= i < |u| => u[i] - v[i])
  }

  /** The vector with `c` at coordinate `j` and zero elsewhere. */
  function Scaled(n: nat, j: nat, c: real): (e: seq<real>)
    requires j < n
    ensures |e| == n && e[j] == c
    ensures forall i :: 0 <= i < n && i != j ==> e[i] == 0.0
  {
    seq(n, i => if i == j then c else 0.0)
  }

  /** `m * ||x||_1`, summed term by term. */
  function ScaledL1(m: real, x: seq<real>): real
  {
    if |x| == 0 then 0.0 else m * Abs(x[0]) + ScaledL1(m, x[1..])
  }

  lemma {:induction false} DotLinear(u: seq<real>, v: seq<real>, w: seq<real>)
    requires |u| == |v| == |w|
    ensures Dot(Sub(u, v), w) == Dot(u, w) - Dot(v, w)
  {
    if |u| > 0 {
      DotLinear(u[1..], v[1..], w[1..]);
      assert Sub(u, v)[1..] == Sub(u[1..], v[1..]);
      SubtractProducts(u[0], v[0], w[0]);
    }
  }

  lemma {:induction false} DotScaled(n: nat, j: nat, c: real, w: seq<real>)
    requires j < n == |w|
    ensures Dot(Scaled(n, j, c), w) == c * w[j]
  {
    if j == 0 {
      ZeroDot(Scaled(n, j, c)[1..], w[1..]);
    } else {
      assert Scaled(n, j, c)[1..] == Scaled(n - 1, j - 1, c);
      DotScaled(n - 1, j - 1, c, w[1..]);
    }
  }

  lemma {:induction false} ZeroDot(z: seq<real>, w: seq<real>)
    requires |z| == |w|
    requires forall i :: 0 <= i < |z| ==> z[i] == 0.0
    ensures Dot(z, w) == 0.0
  {
    if |z| > 0 {
      ZeroDot(z[1..], w[1..]);
    }
  }

  lemma {:induction false} ScaledL1Is(m: real, x: seq<real>)
    ensures ScaledL1(m, x) == m * L1Norm(x)
  {
    if |x| > 0 {
      ScaledL1Is(m, x[1..]);
      Distribute(m, Abs(x[0]), L1Norm(x[1..]), L1Norm(x));
    }
  }

  /** Hoelder's inequality for the L1 / L-infinity pair:
      a bound `m` on every |w_i| bounds `w . x` from below by `-m * ||x||_1`. */
  lemma DotLowerBound(w: seq<real>, x: seq<real>, m: real)
    requires |w| == |x|
    requires forall i :: 0 <= i < |w| ==> Abs(w[i]) <= m
    ensures -(m * L1Norm(x)) <= Dot(w, x)
  {
    DotLowerBoundTermwise(w, x, m);
    ScaledL1Is(m, x);
  }

  lemma {:induction false} DotLowerBoundTermwise(w: seq<real>, x: seq<real>, m: real)
    requires |w| == |x|
    requires forall i :: 0 <= i < |w| ==> Abs(w[i]) <= m
    ensures -ScaledL1(m, x) <= Dot(w, x)
  {
    if |w| > 0 {
      DotLowerBoundTermwise(w[1..], x[1..], m);
      ProductLowerBound(w[0], x[0], m);
    }
  }

  /** A vector with a nonzero inner product against anything has a positive squared norm. */
  lemma {:induction false} SelfDotPositive(d: seq<real>, w: seq<real>)
    requires |d| == |w|
    ensures Dot(d, d) >= 0.0
    ensures Dot(d, w) != 0.0 ==> Dot(d, d) > 0.0
  {
    if |d| > 0 {
      SelfDotPositive(d[1..], w[1..]);
      SquarePositive(d[0]);
      if d[0] == 0.0 {
        assert d[0] * w[0] == 0.0;
      }
    }
  }

  /** A point on the segment between two points of an L1 ball of radius `r` is in the ball:
      the L1 norm is convex. */
  lemma L1SegmentInBall(x: seq<real>, s: seq<real>, t: real, r: real)
    requires |x| == |s|
    requires 0.0 <= t <= 1.0
    requires L1Norm(x) <= r && L1Norm(s) <= r
    ensures L1Norm(Axpy(x, t, Sub(s, x))) <= r
  {
    L1ConvexTermwise(x, s, t);
    ScaledPairBound(x, s, 1.0 - t, t, r);
  }

  lemma ScaledPairBound(x: seq<real>, s: seq<real>, u: real, t: real, r: real)
    requires 0.0 <= t && 0.0 <= u && u + t == 1.0
    requires L1Norm(x) <= r && L1Norm(s) <= r
    ensures ScaledL1(u, x) + ScaledL1(t, s) <= r
  {
    ScaledL1Bound(u, x, r);
    ScaledL1Bound(t, s, r);
    SumUnderSplit(ScaledL1(u, x), ScaledL1(t, s), u, t, r);
  }

  lemma {:induction false} ScaledL1Bound(m: real, x: seq<real>, r: real)
    requires m >= 0.0 && L1Norm(x) <= r
    ensures ScaledL1(m, x) <= m * r
  {
    if |x| == 0 {
      MulNonneg(m, r);
    } else {
      ScaledL1Bound(m, x[1..], r - Abs(x[0]));
      Distribute(m, Abs(x[0]), r - Abs(x[0]), r);
    }
  }

  lemma {:induction false} L1ConvexTermwise(x: seq<real>, s: seq<real>, t: real)
    requires |x| == |s|
    requires 0.0 <= t <= 1.0
    ensures L1Norm(Axpy(x, t, Sub(s, x))) <= ScaledL1(1.0 - t, x) + ScaledL1(t, s)
  {
    if |x| > 0 {
      var d := Sub(s, x);
      var y := Axpy(x, t, d);
      var y' := Axpy(x[1..], t, Sub(s[1..], x[1..]));
      var a, b := (1.0 - t) * Abs(x[0]), t * Abs(s[0]);
      var a', b' := ScaledL1(1.0 - t, x[1..]), ScaledL1(t, s[1..]);
      assert L1Norm(y') <= a' + b' by { L1ConvexTermwise(x[1..], s[1..], t); }
      assert y[1..] == y' by { SubTail(s, x); AxpyTail(x, t, d); }
      assert Abs(y[0]) <= a + b by { AbsConvex(x[0], s[0], t); }
      assert L1Norm(y) == Abs(y[0]) + L1Norm(y');
      assert ScaledL1(1.0 - t, x) == a + a' && ScaledL1(t, s) == b + b';
      SumBound(Abs(y[0]), L1Norm(y'), a, b, a', b');
    }
  }

  lemma SubTail(u: seq<real>, v: seq<real>)
    requires |u| == |v| > 0
    ensures Sub(u, v)[1..] == Sub(u[1..], v[1..])
  {
  }

  lemma AxpyTail(x: seq<real>, t: real, d: seq<real>)
    requires |x| == |d| > 0
    ensures Axpy(x, t, d)[1..] == Axpy(x[1..], t, d[1..])
  {
    var a, b := Axpy(x, t, d)[1..], Axpy(x[1..], t, d[1..]);
    forall i | 0 <= i < |b| ensures a[i] == b[i] {
      assert a[i] == x[i + 1] + t * d[i + 1];
    }
  }

  lemma {:induction false} L1Scaled(n: nat, j: nat, c: real)
    requires j < n
    ensures L1Norm(Scaled(n, j, c)) == Abs(c)
  {
    if j == 0 {
      L1ZeroVector(Scaled(n, j, c)[1..]);
    } else {
      assert Scaled(n, j, c)[1..] == Scaled(n - 1, j - 1, c);
      L1Scaled(n - 1, j - 1, c);
    }
  }

  lemma {:induction false} L1ZeroVector(z: seq<real>)
    requires forall i :: 0 <= i < |z| ==> z[i] == 0.0
    ensures L1Norm(z) == 0.0
  {
    if |z| > 0 {
      L1ZeroVector(z[1..]);
    }
  }

  /** `y` is `c * x` on every coordinate except `k` (on every coordinate when `k < 0`). */
  predicate ScalesExcept(x: seq<real>, y: seq<real>, k: int, c: real)
    decreases |x|
  {
    |x| == |y| && (|x| > 0 ==> (k == 0 || y[0] == c * x[0]) && ScalesExcept(x[1..], y[1..], k - 1, c))
  }

  /** The coordinatewise description gives `ScalesExcept`. */
  lemma {:induction false} ScalesExceptPointwise(x: seq<real>, y: seq<real>, k: int, c: real)
    requires |x| == |y|
    requires forall i :: 0 <= i < |x| && i != k ==> y[i] == c * x[i]
    ensures ScalesExcept(x, y, k, c)
    decreases |x|
  {
    if |x| > 0 {
      var x', y' := x[1..], y[1..];
      forall i | 0 <= i < |x'| && i != k - 1
        ensures y'[i] == c * x'[i]
      {
        assert y'[i] == y[i + 1] && x'[i] == x[i + 1];
      }
      ScalesExceptPointwise(x', y', k - 1, c);
    }
  }

  /** Scaling every coordinate by `c >= 0` scales the L1 norm by `c`, term by term. */
  lemma {:induction false} L1ScaleAllTermwise(x: seq<real>, y: seq<real>, k: int, c: real)
    requires k < 0 && c >= 0.0 && ScalesExcept(x, y, k, c)
    ensures L1Norm(y) == ScaledL1(c, x)
    decreases |x|
  {
    if |x| > 0 {
      HeadFacts(x, y, k, c);
      L1ScaleAllTermwise(x[1..], y[1..], k - 1, c);
    }
  }

  lemma HeadFacts(x: seq<real>, y: seq<real>, k: int, c: real)
    requires |x| > 0 && k != 0 && c >= 0.0 && ScalesExcept(x, y, k, c)
    ensures Abs(y[0]) == c * Abs(x[0])
    ensures ScalesExcept(x[1..], y[1..], k - 1, c)
    ensures L1Norm(y) == Abs(y[0]) + L1Norm(y[1..]) && L1Norm(x) == Abs(x[0]) + L1Norm(x[1..])
  {
    AbsScale(c, x[0]);
  }

  /** The L1 norm without coordinate `k`. */
  function L1Without(x: seq<real>, k: nat): real
    requires k < |x|
  {
    L1Norm(x) - Abs(x[k])
  }

  lemma WithoutFacts(x: seq<real>, k: nat)
    requires k < |x|
    ensures k == 0 ==> L1Without(x, k) == L1Norm(x[1..])
    ensures k > 0 ==> L1Without(x, k) == Abs(x[0]) + L1Without(x[1..], k - 1)
  {
  }

  /** Scaling every coordinate but `k` by `c >= 0` scales the rest of the L1 norm by `c`,
      term by term. */
  lemma {:induction false} L1ScaleExceptTermwise(x: seq<real>, y: seq<real>, k: nat, c: real)
    requires k < |x| && c >= 0.0 && ScalesExcept(x, y, k, c)
    ensures L1Without(y, k) == ScaledL1(c, x) - c * Abs(x[k])
  {
    if k == 0 {
      assert L1Without(y, k) == L1Norm(y[1..]) by { WithoutFacts(y, k); }
      assert L1Norm(y[1..]) == ScaledL1(c, x[1..]) by { L1ScaleAllTermwise(x[1..], y[1..], -1, c); }
    } else {
      assert L1Without(y, k) == Abs(y[0]) + L1Without(y[1..], k - 1) by { WithoutFacts(y, k); }
      assert Abs(y[0]) == c * Abs(x[0]) && ScalesExcept(x[1..], y[1..], k - 1, c) by { HeadFacts(x, y, k, c); }
      assert x[1..][k - 1] == x[k];
      assert L1Without(y[1..], k - 1) == ScaledL1(c, x[1..]) - c * Abs(x[k]) by {
        L1ScaleExceptTermwise(x[1..], y[1..], k - 1, c);
      }
    }
  }

  /** No coordinate is larger in magnitude than the L1 norm. */
  lemma {:induction false} CoordinateBelowL1(x: seq<real>, k: nat)
    requires k < |x|
    ensures Abs(x[k]) <= L1Norm(x)
  {
    if k > 0 {
      CoordinateBelowL1(x[1..], k - 1);
    }
  }

  // Scalar facts. Each is stated over plain reals so that the solver never meets a
  // product inside a context full of sequence axioms.

  lemma Distribute(m: real, a: real, b: real, s: real)
    requires s == a + b
    ensures m * s == m * a + m * b
  {
  }

  lemma Associate(a: real, b: real, c: real)
    ensures a * (b * c) == (a * b) * c
  {
  }

  lemma DivisionCancels(a: real, b: real)
    requires b != 0.0
    ensures (a / b) * b == a
  {
  }

  lemma Dilate(a: real, s: real)
    ensures a + s * a == (1.0 + s) * a
  {
  }

  lemma SubtractProducts(a: real, b: real, c: real)
    ensures (a - b) * c == a * c - b * c
  {
  }

  lemma MulNonneg(a: real, b: real)
    requires a >= 0.0 && b >= 0.0
    ensures a * b >= 0.0
  {
  }

  lemma MulPositive(a: real, b: real)
    requires a > 0.0 && b > 0.0
    ensures a * b > 0.0
  {
  }

  lemma SquarePositive(a: real)
    ensures a * a >= 0.0
    ensures a != 0.0 ==> a * a > 0.0
  {
    if a < 0.0 {
      MulPositive(-a, -a);
    } else if a > 0.0 {
      MulPositive(a, a);
    }
  }

  /** `a * b >= -(m * |b|)` whenever `|a| <= m`. */
  lemma ProductLowerBound(a: real, b: real, m: real)
    requires Abs(a) <= m
    ensures -(m * Abs(b)) <= a * b
  {
    if b >= 0.0 {
      MulNonneg(a + m, b);
      assert (a + m) * b == a * b + m * b;
    } else {
      MulNonneg(m - a, -b);
      assert (m - a) * -b == -(m * b) + a * b;
    }
  }

  lemma AbsScale(c: real, a: real)
    requires c >= 0.0
    ensures Abs(c * a) == c * Abs(a)
  {
    if a < 0.0 {
      assert c * a == -(c * -a);
      MulNonneg(c, -a);
    } else {
      MulNonneg(c, a);
    }
  }

  lemma SumBound(a: real, b: real, p: real, q: real, p': real, q': real)
    requires a <= p + q && b <= p' + q'
    ensures a + b <= (p + p') + (q + q')
  {
  }

  lemma SumUnderSplit(p: real, q: real, u: real, t: real, r: real)
    requires u + t == 1.0
    requires p <= u * r && q <= t * r
    ensures p + q <= r
  {
    assert u * r + t * r == r;
  }

  lemma AbsConvex(a: real, b: real, t: real)
    requires 0.0 <= t <= 1.0
    ensures Abs(a + t * (b - a)) <= (1.0 - t) * Abs(a) + t * Abs(b)
  {
    assert a + t * (b - a) == (1.0 - t) * a + t * b;
    AbsScale(1.0 - t, a);
    AbsScale(t, b);
  }
}
