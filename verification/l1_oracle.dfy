/** The linear-minimisation oracle of the L1 ball of radius `alpha` and the signed-slot
    encoding the pairwise and away-step drivers use for its vertices: slot `j < n` is
    `+alpha * e_j`, slot `n + j` is `-alpha * e_j`, and slot `2n` is the origin. */
module L1Oracle {
  import opened Vectors

  /** `np.argmax(np.abs(grad))`: scanning from the left, a later coordinate replaces the
      current one only when its magnitude is strictly larger. */
  function ArgMaxAbs(g: seq<real>): (j: nat)
    requires |g| > 0
    ensures j < |g|
    decreases |g|
  {
    if |g| == 1 then 0
    else
      var k := ArgMaxAbs(g[..|g| - 1]);
      if Abs(g[|g| - 1]) > Abs(g[k]) then |g| - 1 else k
  }

  /** The index is the first one of largest magnitude. */
  lemma {:induction false} ArgMaxAbsIsFirstMax(g: seq<real>)
    requires |g| > 0
    ensures forall i :: 0 <= i < |g| ==> Abs(g[i]) <= Abs(g[ArgMaxAbs(g)])
    ensures forall i :: 0 <= i < ArgMaxAbs(g) ==> Abs(g[i]) < Abs(g[ArgMaxAbs(g)])
    decreases |g|
  {
    if |g| > 1 {
      var init := g[..|g| - 1];
      ArgMaxAbsIsFirstMax(init);
      assert forall i :: 0 <= i < |init| ==> init[i] == g[i];
    }
  }

  /** The oracle's slot (copt/frank_wolfe.py:385-387): the coordinate of largest |grad|,
      moved to the negative half when the gradient there is positive. */
  function OracleSlot(g: seq<real>): (slot: nat)
    requires |g| > 0
    ensures slot == ArgMaxAbs(g) || slot == ArgMaxAbs(g) + |g|
    ensures slot >= |g| <==> g[ArgMaxAbs(g)] > 0.0
    ensures slot < 2 * |g| && slot % |g| == ArgMaxAbs(g)
  {
    var j := ArgMaxAbs(g);
    ModOfShift(j, |g|);
    if g[j] > 0.0 then j + |g| else j
  }

  lemma ModOfShift(j: int, n: int)
    requires 0 <= j < n
    ensures (j + n) % n == j && j % n == j
  {
  }

  /** `mag_oracle = alpha * sign(-grad[j])`. */
  function OracleMagnitude(alpha: real, g: seq<real>): (m: real)
    requires |g| > 0
    ensures alpha >= 0.0 ==> Abs(m) <= alpha
    ensures g[ArgMaxAbs(g)] != 0.0 ==> Abs(m) == Abs(alpha)
    ensures alpha > 0.0 ==> (m > 0.0 <==> g[ArgMaxAbs(g)] < 0.0)
  {
    ScaleBySign(alpha, -g[ArgMaxAbs(g)])
  }

  /** The vertex `s_t` of the ball the oracle returns. */
  function OracleVertex(alpha: real, g: seq<real>): (s: seq<real>)
    requires |g| > 0
    ensures |s| == |g|
  {
    Scaled(|g|, ArgMaxAbs(g), OracleMagnitude(alpha, g))
  }

  /** The oracle's vertex lies in the ball. */
  lemma OracleInBall(alpha: real, g: seq<real>)
    requires |g| > 0 && alpha >= 0.0
    ensures L1Norm(OracleVertex(alpha, g)) <= alpha
  {
    L1Scaled(|g|, ArgMaxAbs(g), OracleMagnitude(alpha, g));
  }

  /** The oracle's vertex minimises `<grad, s>` over the ball: a vertex on a coordinate of
      largest |grad| is no worse than any point of it. */
  lemma OracleMinimises(alpha: real, g: seq<real>, s: seq<real>)
    requires |s| == |g| > 0
    requires L1Norm(s) <= alpha
    ensures Dot(g, OracleVertex(alpha, g)) <= Dot(g, s)
  {
    ArgMaxAbsIsFirstMax(g);
    VertexBeatsBall(alpha, g, s, ArgMaxAbs(g), OracleMagnitude(alpha, g));
  }

  /** The signed vertex `alpha * sign(-grad_j) * e_j` on a coordinate `j` of largest |grad|
      is no worse than any point of the ball. */
  lemma VertexBeatsBall(alpha: real, g: seq<real>, s: seq<real>, j: nat, m: real)
    requires |s| == |g| && j < |g| && L1Norm(s) <= alpha
    requires m == ScaleBySign(alpha, -g[j])
    requires forall i :: 0 <= i < |g| ==> Abs(g[i]) <= Abs(g[j])
    ensures Dot(g, Scaled(|g|, j, m)) <= Dot(g, s)
  {
    var low := -(alpha * Abs(g[j]));
    assert Dot(g, Scaled(|g|, j, m)) == low by { VertexValue(alpha, g, j, m); }
    assert low <= Dot(g, s) by { BallValue(alpha, g, s, Abs(g[j])); }
  }

  /** `<grad, m * e_j> = -alpha * |grad_j|` for `m = alpha * sign(-grad_j)`. */
  lemma VertexValue(alpha: real, g: seq<real>, j: nat, m: real)
    requires j < |g| && m == ScaleBySign(alpha, -g[j])
    ensures Dot(g, Scaled(|g|, j, m)) == -(alpha * Abs(g[j]))
  {
    assert Dot(g, Scaled(|g|, j, m)) == m * g[j] by { DotVertex(g, j, m); }
    assert m * g[j] == -(alpha * Abs(g[j])) by { SignProduct(alpha, g[j], m); }
  }

  lemma DotVertex(g: seq<real>, j: nat, m: real)
    requires j < |g|
    ensures Dot(g, Scaled(|g|, j, m)) == m * g[j]
  {
    var e := Scaled(|g|, j, m);
    assert Dot(g, e) == Dot(e, g) by { DotCommutes(g, e); }
    assert Dot(e, g) == m * g[j] by { DotScaled(|g|, j, m, g); }
  }

  /** A bound `a` on every |grad_i| gives `<grad, s> >= -alpha * a` on the ball. */
  lemma BallValue(alpha: real, g: seq<real>, s: seq<real>, a: real)
    requires |s| == |g| && L1Norm(s) <= alpha
    requires a >= 0.0 && forall i :: 0 <= i < |g| ==> Abs(g[i]) <= a
    ensures -(alpha * a) <= Dot(g, s)
  {
    assert -(a * L1Norm(s)) <= Dot(g, s) by { DotLowerBound(g, s, a); }
    OracleChain(Dot(g, s), a, L1Norm(s), alpha);
  }

  lemma {:induction false} DotCommutes(u: seq<real>, v: seq<real>)
    requires |u| == |v|
    ensures Dot(u, v) == Dot(v, u)
  {
    if |u| > 0 {
      DotCommutes(u[1..], v[1..]);
    }
  }

  lemma SignProduct(alpha: real, a: real, m: real)
    requires m == ScaleBySign(alpha, -a)
    ensures m * a == -(alpha * Abs(a))
  {
  }

  lemma OracleChain(ds: real, m: real, l: real, alpha: real)
    requires -(m * l) <= ds && m >= 0.0 && l <= alpha
    ensures -(alpha * m) <= ds
  {
    MulNonneg(m, alpha - l);
  }

  /** `-inf` or a number: the best value `max_active` has seen. */
  datatype ExtReal = NegInf | Fin(v: real)

  /** The gradient seen through slot `j`: `grad[j]` on the positive half, `-grad[j % n]` on
      the negative half. */
  function SignedGrad(g: seq<real>, j: nat): real
    requires j < 2 * |g|
  {
    if j < |g| then g[j] else -g[j % |g|]
  }

  predicate Exceeds(v: real, best: ExtReal)
  {
    best.NegInf? || v > best.v
  }

  /** What `max_active` returns, stated on the contents of the mask: among the active slots
      the one with the largest signed gradient, the first on ties; with `include_zero`, the
      origin slot instead when it is active and every active vertex has a negative signed
      gradient; `(-inf, -1)` when nothing it may choose is active. */
  predicate BestActive(grad: seq<real>, mask: seq<bool>, includeZero: bool, best: ExtReal, idx: int)
    requires |mask| == 2 * |grad| + 1
  {
    var n := |grad|;
    && -1 <= idx <= 2 * n
    && (idx == -1 <==> best == NegInf)
    && (idx == -1 ==> (forall j :: 0 <= j < 2 * n ==> !mask[j]) && !(includeZero && mask[2 * n]))
    && (0 <= idx < 2 * n ==>
         && mask[idx]
         && best == Fin(SignedGrad(grad, idx))
         && (forall j :: 0 <= j < 2 * n && mask[j] ==> SignedGrad(grad, j) <= SignedGrad(grad, idx))
         && (forall j :: 0 <= j < idx && mask[j] ==> SignedGrad(grad, j) < SignedGrad(grad, idx))
         && (includeZero && mask[2 * n] ==> SignedGrad(grad, idx) >= 0.0))
    && (idx == 2 * n ==>
         && includeZero && mask[2 * n] && best == Fin(0.0)
         && (forall j :: 0 <= j < 2 * n && mask[j] ==> SignedGrad(grad, j) < 0.0))
  }

  /** The description pins the answer down: no two answers fit the same mask. */
  lemma BestActiveUnique(grad: seq<real>, mask: seq<bool>, includeZero: bool,
                         b1: ExtReal, i1: int, b2: ExtReal, i2: int)
    requires |mask| == 2 * |grad| + 1
    requires BestActive(grad, mask, includeZero, b1, i1)
    requires BestActive(grad, mask, includeZero, b2, i2)
    ensures b1 == b2 && i1 == i2
  {
  }

  /** The state of the scan after slots `0 .. j - 1`: `best` is the largest signed gradient
      among the active ones and `idx` the first slot holding it, or `(-inf, -1)` when none
      of them is active. */
  predicate Scanned(grad: seq<real>, mask: seq<bool>, j: nat, best: ExtReal, idx: int)
    requires j <= 2 * |grad| && |mask| == 2 * |grad| + 1
  {
    && (idx == -1 <==> best == NegInf)
    && (idx == -1 ==> forall i :: 0 <= i < j ==> !mask[i])
    && (idx != -1 ==> 0 <= idx < j && mask[idx] && best == Fin(SignedGrad(grad, idx)))
    && (idx != -1 ==> forall i :: 0 <= i < j && mask[i] ==> SignedGrad(grad, i) <= SignedGrad(grad, idx))
    && (idx != -1 ==> forall i :: 0 <= i < idx && mask[i] ==> SignedGrad(grad, i) < SignedGrad(grad, idx))
  }

  /** `max_active` (copt/frank_wolfe.py:342-361), scanning the positive half, then the
      negative half, then considering the origin. */
  method MaxActive(grad: seq<real>, active: array<bool>, n: nat, includeZero: bool)
    returns (best: ExtReal, idx: int)
    requires |grad| == n && active.Length == 2 * n + 1
    ensures BestActive(grad, active[..], includeZero, best, idx)
  {
    best := NegInf;
    idx := -1;
    var j := 0;
    while j < n
      invariant 0 <= j <= n
      invariant Scanned(grad, active[..], j, best, idx)
    {
      if active[j] {
        if Exceeds(grad[j], best) {
          best := Fin(grad[j]);
          idx := j;
        }
      }
      j := j + 1;
    }
    j := n;
    while j < 2 * n
      invariant n <= j <= 2 * n
      invariant Scanned(grad, active[..], j, best, idx)
    {
      ModOfShift(j - n, n);
      if active[j] {
        if Exceeds(-grad[j % n], best) {
          best := Fin(-grad[j % n]);
          idx := j;
        }
      }
      j := j + 1;
    }
    if includeZero {
      if (best.NegInf? || best.v < 0.0) && active[2 * n] {
        best := Fin(0.0);
        idx := 2 * n;
      }
    }
  }
}
