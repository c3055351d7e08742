/** `minimize_AFW_L1` (copt/frank_wolfe.py:492-615): Frank-Wolfe with away steps over the L1
    ball. It keeps the same mask of `2n + 1` slots as the pairwise driver. Each iteration
    compares the Frank-Wolfe gap with the away gap of the active slot whose signed gradient
    is largest and either moves towards the oracle's vertex (a step in `[0, 1]`) or away
    from the away slot's vertex (a step capped so that the vertex's weight stays
    nonnegative). */
module AwayL1 {
  import opened Vectors
  import opened Outcomes
  import opened L1Oracle
  import opened StepSize
  import opened FwL1
  import opened PairwiseL1

  /** `gt_fw = -mag_oracle * grad[idx_oracle % n] + <grad, x>` (copt/frank_wolfe.py:530-531). */
  function FwCandidate(alpha: real, x: seq<real>, g: seq<real>): real
    requires |x| == |g| > 0
  {
    VertexCandidate(x, g, OracleSlot(g), OracleMagnitude(alpha, g))
  }

  /** `-mag * grad[slot % n] + <grad, x>` for the vertex `mag * e_{slot % n}`. */
  function VertexCandidate(x: seq<real>, g: seq<real>, slot: nat, mag: real): real
    requires |x| == |g| > 0
  {
    -mag * g[slot % |g|] + Dot(g, x)
  }

  /** The formula for `gt_fw` is the Frank-Wolfe gap `-<s - x, grad>`. */
  lemma FwCandidateIsGap(alpha: real, x: seq<real>, g: seq<real>)
    requires |x| == |g| > 0
    ensures FwCandidate(alpha, x, g) == Gap(alpha, x, g)
  {
    VertexCandidateIsSlope(x, g, OracleSlot(g), ArgMaxAbs(g), OracleMagnitude(alpha, g));
  }

  /** The formula is the decrease `-<s - x, grad>` the linearisation promises towards the
      vertex `s = m * e_j`. */
  lemma VertexCandidateIsSlope(x: seq<real>, g: seq<real>, slot: nat, j: nat, m: real)
    requires j < |x| == |g| && slot % |g| == j
    ensures VertexCandidate(x, g, slot, m) == -Dot(Sub(Scaled(|g|, j, m), x), g)
  {
    var v := Scaled(|g|, j, m);
    assert Dot(Sub(v, x), g) == Dot(v, g) - Dot(x, g) by { DotLinear(v, x, g); }
    assert Dot(v, g) == m * g[j] by { DotScaled(|g|, j, m, g); }
    assert Dot(g, x) == Dot(x, g) by { DotCommutes(g, x); }
  }

  /** Inside the ball `assert gt_fw >= 0` holds. */
  lemma FwCandidateNonnegative(alpha: real, x: seq<real>, g: seq<real>)
    requires |x| == |g| > 0 && L1Norm(x) <= alpha
    ensures FwCandidate(alpha, x, g) >= 0.0
  {
    FwCandidateIsGap(alpha, x, g);
    GapNonnegative(alpha, x, g);
  }

  /** The away direction `x - mag_away * e_{idx % n}` (copt/frank_wolfe.py:544-545). */
  function AwayDirection(x: seq<real>, idx: int, magA: real): (d: seq<real>)
    requires |x| > 0
    ensures |d| == |x|
    ensures forall i :: 0 <= i < |x| && i != idx % |x| ==> d[i] == x[i]
    ensures d[idx % |x|] == x[idx % |x|] - magA
  {
    Sub(x, Scaled(|x|, idx % |x|, magA))
  }

  /** `gt_a = -<grad, x> + mag_away * grad[idx % n]` (copt/frank_wolfe.py:530, 532). */
  function AwayCandidate(x: seq<real>, g: seq<real>, idx: int, magA: real): real
    requires |x| == |g| > 0
  {
    -Dot(g, x) + magA * g[idx % |g|]
  }

  /** The source's formula for `gt_a` is the decrease `-<d, grad>` the linearisation promises
      along the away direction. */
  lemma AwayCandidateIsSlope(x: seq<real>, g: seq<real>, idx: int, magA: real)
    requires |x| == |g| > 0
    ensures AwayCandidate(x, g, idx, magA) == -Dot(AwayDirection(x, idx, magA), g)
  {
    var k := idx % |x|;
    var e := Scaled(|x|, k, magA);
    assert Dot(Sub(x, e), g) == Dot(x, g) - Dot(e, g) by { DotLinear(x, e, g); }
    assert Dot(e, g) == magA * g[k] by { DotScaled(|x|, k, magA, g); }
    assert Dot(g, x) == Dot(x, g) by { DotCommutes(g, x); }
  }

  /** The away step's `gamma_max = alpha_v / (1 - alpha_v)` with
      `alpha_v = |x[idx % n]| / alpha` (copt/frank_wolfe.py:546-547); when `alpha_v = 1` numpy
      divides by zero and the cap is infinite. */
  function AwayStepCap(x: seq<real>, alpha: real, idx: int): (cap: Cap)
    requires |x| > 0 && alpha > 0.0
    ensures cap.Infinite? <==> Abs(x[idx % |x|]) == alpha
    ensures Abs(x[idx % |x|]) < alpha ==> cap.Finite? && cap.bound >= 0.0
    ensures cap.Finite? ==> ReachesZero(cap.bound, alpha, Abs(x[idx % |x|]))
  {
    var v := Abs(x[idx % |x|]) / alpha;
    if v == 1.0 then Infinite
    else
      CapTimesGap(Abs(x[idx % |x|]), alpha);
      Finite(v / (1.0 - v))
  }

  /** A step of `bound` away from a vertex of magnitude `alpha` takes a coordinate of
      magnitude `a` (of the vertex's sign) to zero: `a + bound * (a - alpha) = 0`. */
  predicate ReachesZero(bound: real, alpha: real, a: real)
  {
    bound * (alpha - a) == a
  }

  /** A step of `step` away from the vertex leaves a coordinate of magnitude `a` (of the
      vertex's sign) on its side of zero. */
  predicate StopsShort(step: real, alpha: real, a: real)
  {
    step * (alpha - a) <= a
  }

  /** Below the cap, the away coordinate does not cross zero. */
  lemma CapStopsShort(step: real, bound: real, alpha: real, a: real)
    requires step <= bound && a < alpha && ReachesZero(bound, alpha, a)
    ensures StopsShort(step, alpha, a)
  {
    ScaleBound(step, bound, alpha - a);
  }

  /** The cap is the step at which the away coordinate reaches zero:
      `alpha_v / (1 - alpha_v) * (alpha - a) = a` for `alpha_v = a / alpha`. */
  lemma CapTimesGap(a: real, alpha: real)
    requires alpha > 0.0 && a / alpha != 1.0
    ensures ((a / alpha) / (1.0 - a / alpha)) * (alpha - a) == a
  {
    var v := a / alpha;
    var u := 1.0 - v;
    var q := v / u;
    assert v * alpha == a by { DivisionCancels(a, alpha); }
    assert q * u == v by { DivisionCancels(v, u); }
    assert u * alpha == alpha - a by { SubtractProducts(1.0, v, alpha); }
    assert q * (u * alpha) == (q * u) * alpha by { Associate(q, u, alpha); }
  }

  lemma ScaleBound(s: real, t: real, u: real)
    requires s <= t && u > 0.0
    ensures s * u <= t * u
  {
    MulNonneg(t - s, u);
    SubtractProducts(t, s, u);
  }

  /** The away coordinate after the step: it keeps its sign, and its magnitude shrinks from
      `(1 + step) * |x_k|` by `step * alpha`. */
  lemma AwayCoordinate(xk: real, dk: real, yk: real, m: real, step: real, alpha: real)
    requires (m == alpha && xk > 0.0) || (m == -alpha && xk < 0.0)
    requires step >= 0.0 && StopsShort(step, alpha, Abs(xk))
    requires yk == xk + step * dk && dk == xk - m
    ensures Shrinks(Abs(yk), Abs(xk), 1.0 + step, step, alpha)
  {
    if m == alpha {
      assert yk == (1.0 + step) * xk - step * alpha;
    } else {
      assert yk == -((1.0 + step) * -xk - step * alpha);
    }
  }

  /** An away step from a point of the ball, away from the vertex `m * e_k` with `|m| = alpha`,
      stays in the ball when the vertex's sign agrees with the point's coordinate `k` and
      the step does not carry that coordinate past zero (which `CapStopsShort` shows the cap
      ensures). */
  lemma AwayStepStaysInBall(alpha: real, x: seq<real>, k: nat, m: real, step: real)
    requires k < |x| && alpha > 0.0 && L1Norm(x) <= alpha
    requires (m == alpha && x[k] > 0.0) || (m == -alpha && x[k] < 0.0)
    requires Abs(x[k]) < alpha && step >= 0.0
    requires StopsShort(step, alpha, Abs(x[k]))
    ensures L1Norm(Axpy(x, step, Sub(x, Scaled(|x|, k, m)))) <= alpha
  {
    var d := Sub(x, Scaled(|x|, k, m));
    var y := Axpy(x, step, d);
    AwayPointShape(x, k, m, step, d, y);
    AwayPointCoordinate(alpha, x, k, m, step, d, y);
    AwayNorm(alpha, x, y, k, step, 1.0 + step);
  }

  /** The norm after an away step, from the shape of the new point: off coordinate `k` it is
      the old point scaled by `1 + step`, and on it the magnitude shrinks by `step * alpha`. */
  lemma AwayNorm(alpha: real, x: seq<real>, y: seq<real>, k: nat, step: real, c: real)
    requires k < |x| && L1Norm(x) <= alpha && step >= 0.0 && c == 1.0 + step
    requires ScalesExcept(x, y, k, c)
    requires Shrinks(Abs(y[k]), Abs(x[k]), c, step, alpha)
    ensures L1Norm(y) <= alpha
  {
    assert SplitsAt(L1Norm(y), Abs(y[k]), ScaledL1(c, x), c, Abs(x[k])) by { ScaledExceptNorm(x, y, k, c); }
    assert ScaledL1(c, x) <= c * alpha by { ScaledL1Bound(c, x, alpha); }
    AwayArith(L1Norm(y), Abs(y[k]), ScaledL1(c, x), Abs(x[k]), c, step, alpha);
  }

  /** A magnitude `yk` that is `c * xk` less `step * alpha`. */
  predicate Shrinks(yk: real, xk: real, c: real, step: real, alpha: real)
  {
    yk == c * xk - step * alpha
  }

  /** The norm `norm` of a point less its coordinate `yk` equals the scaled norm `scaled`
      of another less its coordinate `xk` scaled by `c`. */
  predicate SplitsAt(norm: real, yk: real, scaled: real, c: real, xk: real)
  {
    norm - yk == scaled - c * xk
  }

  lemma ScaledExceptNorm(x: seq<real>, y: seq<real>, k: nat, c: real)
    requires k < |x| && c >= 0.0 && ScalesExcept(x, y, k, c)
    ensures SplitsAt(L1Norm(y), Abs(y[k]), ScaledL1(c, x), c, Abs(x[k]))
  {
    L1ScaleExceptTermwise(x, y, k, c);
  }

  lemma AwayArith(norm: real, yk: real, scaled: real, xk: real, c: real, step: real, alpha: real)
    requires SplitsAt(norm, yk, scaled, c, xk) && Shrinks(yk, xk, c, step, alpha)
    requires scaled <= c * alpha && c == 1.0 + step
    ensures norm <= alpha
  {
    assert c * alpha == alpha + step * alpha;
  }

  /** Off coordinate `k` the away step scales the point by `1 + step`. */
  lemma AwayPointShape(x: seq<real>, k: nat, m: real, step: real, d: seq<real>, y: seq<real>)
    requires k < |x| && d == Sub(x, Scaled(|x|, k, m)) && y == Axpy(x, step, d)
    ensures ScalesExcept(x, y, k, 1.0 + step)
  {
    var c := 1.0 + step;
    forall i | 0 <= i < |x| && i != k
      ensures y[i] == c * x[i]
    {
      assert y[i] == x[i] + step * x[i];
      Dilate(x[i], step);
    }
    ScalesExceptPointwise(x, y, k, c);
  }

  /** On coordinate `k` the magnitude shrinks by `step * alpha` from `(1 + step) * |x_k|`. */
  lemma AwayPointCoordinate(alpha: real, x: seq<real>, k: nat, m: real, step: real, d: seq<real>, y: seq<real>)
    requires k < |x| && d == Sub(x, Scaled(|x|, k, m)) && y == Axpy(x, step, d)
    requires (m == alpha && x[k] > 0.0) || (m == -alpha && x[k] < 0.0)
    requires step >= 0.0 && StopsShort(step, alpha, Abs(x[k]))
    ensures Shrinks(Abs(y[k]), Abs(x[k]), 1.0 + step, step, alpha)
  {
    assert y[k] == x[k] + step * d[k] && d[k] == x[k] - m;
    AwayCoordinate(x[k], d[k], y[k], m, step, alpha);
  }

  /** The away branch of an iteration keeps a point of the ball in the ball when the away
      vertex's sign agrees with the point's coordinate and the cap is finite. */
  lemma AwayBranchInBall(alpha: real, x: seq<real>, g: seq<real>, idx: int, step: real)
    requires |x| == |g| > 0 && alpha > 0.0 && L1Norm(x) <= alpha
    requires !ChooseMove(alpha, x, g, idx).toward
    requires AwayMagnitude(alpha, |x|, idx) * x[idx % |x|] > 0.0
    requires AwayStepCap(x, alpha, idx).Finite? && 0.0 <= step <= AwayStepCap(x, alpha, idx).bound
    ensures L1Norm(Axpy(x, step, ChooseMove(alpha, x, g, idx).d)) <= alpha
  {
    var k := idx % |x|;
    var magA := AwayMagnitude(alpha, |x|, idx);
    assert ChooseMove(alpha, x, g, idx).d == Sub(x, Scaled(|x|, k, magA));
    AwayCapStep(alpha, x, k, magA, step, AwayStepCap(x, alpha, idx).bound);
  }

  /** A step below the cap `bound`, the step at which coordinate `k` reaches zero, keeps a
      point of the ball in the ball. */
  lemma AwayCapStep(alpha: real, x: seq<real>, k: nat, m: real, step: real, bound: real)
    requires k < |x| && alpha > 0.0 && L1Norm(x) <= alpha
    requires (m == alpha || m == 0.0 || m == -alpha) && m * x[k] > 0.0
    requires Abs(x[k]) != alpha && ReachesZero(bound, alpha, Abs(x[k]))
    requires 0.0 <= step <= bound
    ensures L1Norm(Axpy(x, step, Sub(x, Scaled(|x|, k, m)))) <= alpha
  {
    var a := Abs(x[k]);
    assert a < alpha by { CoordinateBelowL1(x, k); }
    assert StopsShort(step, alpha, a) by { CapStopsShort(step, bound, alpha, a); }
    assert (m == alpha && x[k] > 0.0) || (m == -alpha && x[k] < 0.0) by { SignAgreement(m, x[k], alpha); }
    AwayStepStaysInBall(alpha, x, k, m, step);
  }

  /** A vertex magnitude of `alpha`, zero or `-alpha` whose product with `a` is positive
      has the sign of `a`. */
  lemma SignAgreement(m: real, a: real, alpha: real)
    requires alpha > 0.0 && (m == alpha || m == 0.0 || m == -alpha) && m * a > 0.0
    ensures (m == alpha && a > 0.0) || (m == -alpha && a < 0.0)
  {
  }

  /** Which step an iteration takes, along which direction, with which gap and cap. */
  datatype Move = Move(toward: bool, d: seq<real>, gap: real, cap: Cap)

  /** The choice of copt/frank_wolfe.py:536-548: the Frank-Wolfe step when its gap is at
      least the away gap, the away step otherwise. The gap of the chosen move is the larger of
      the two, and it is the decrease `-<d, grad>` the linearisation promises along `d`. */
  function ChooseMove(alpha: real, x: seq<real>, g: seq<real>, idx: int): (m: Move)
    requires |x| == |g| > 0 && alpha > 0.0
    ensures |m.d| == |x|
    ensures m.toward <==> FwCandidate(alpha, x, g) >= AwayCandidate(x, g, idx, AwayMagnitude(alpha, |x|, idx))
    ensures m.gap >= FwCandidate(alpha, x, g) && m.gap >= AwayCandidate(x, g, idx, AwayMagnitude(alpha, |x|, idx))
    ensures m.gap == -Dot(m.d, g)
    ensures m.toward ==> m.d == Direction(alpha, x, g) && m.cap == Finite(1.0)
    ensures !m.toward ==>
      var magA := AwayMagnitude(alpha, |x|, idx);
      m.d == AwayDirection(x, idx, magA) && m.cap == AwayStepCap(x, alpha, idx)
  {
    var magA := AwayMagnitude(alpha, |x|, idx);
    var gtFw := FwCandidate(alpha, x, g);
    var gtA := AwayCandidate(x, g, idx, magA);
    if gtFw >= gtA then
      FwCandidateIsGap(alpha, x, g);
      Move(true, Direction(alpha, x, g), gtFw, Finite(1.0))
    else
      AwayCandidateIsSlope(x, g, idx, magA);
      Move(false, AwayDirection(x, idx, magA), gtA, AwayStepCap(x, alpha, idx))
  }

  /** A zero direction promises no decrease, so a positive gap means `d2_t > 0`. */
  lemma PositiveGapMovesAway(alpha: real, x: seq<real>, g: seq<real>, idx: int)
    requires |x| == |g| > 0 && alpha > 0.0
    requires ChooseMove(alpha, x, g, idx).gap != 0.0
    ensures Dot(ChooseMove(alpha, x, g, idx).d, ChooseMove(alpha, x, g, idx).d) > 0.0
  {
    var m := ChooseMove(alpha, x, g, idx);
    SelfDotPositive(m.d, g);
  }

  /** The mask after an iteration (copt/frank_wolfe.py:595-598): the oracle slot, then the
      away slot, are set to whether their coordinate of the new iterate is nonzero, on every
      iteration. `-1` writes the origin slot, which is refreshed from coordinate `n - 1`,
      and the origin slot itself from coordinate `0`. */
  function AfwMaskAfter(mask: seq<bool>, x: seq<real>, o: nat, idx: int): (m: seq<bool>)
    requires |x| > 0 && |mask| == 2 * |x| + 1
    requires o < 2 * |x| && -1 <= idx <= 2 * |x|
    ensures |m| == |mask|
    ensures m[o] == (x[o % |x|] != 0.0)
    ensures m[MaskIndex(|x|, idx)] == (x[idx % |x|] != 0.0)
    ensures forall k :: 0 <= k < |mask| && k != o && k != MaskIndex(|x|, idx) ==> m[k] == mask[k]
  {
    var n := |x|;
    mask[o := x[o % n] != 0.0][MaskIndex(n, idx) := x[idx % n] != 0.0]
  }

  /** Writes `AfwMaskAfter` into the mask. */
  method RefreshAfwMask(active: array<bool>, x: seq<real>, o: nat, idx: int)
    requires |x| > 0 && active.Length == 2 * |x| + 1
    requires o < 2 * |x| && -1 <= idx <= 2 * |x|
    modifies active
    ensures active[..] == AfwMaskAfter(old(active[..]), x, o, idx)
  {
    var n := |x|;
    active[o] := x[o % n] != 0.0;
    active[MaskIndex(n, idx)] := x[idx % n] != 0.0;
  }

  /** Whichever direction an iteration takes, a point of the ball stays in it: a Frank-Wolfe
      step is at most 1, and an away step within its finite cap moves away from a vertex on
      the side of the point's coordinate. */
  lemma MoveStaysInBall(alpha: real, x: seq<real>, g: seq<real>, away: int, step: real)
    requires |x| == |g| > 0 && alpha > 0.0 && L1Norm(x) <= alpha
    requires ChooseMove(alpha, x, g, away).cap.Finite? && 0.0 <= step <= ChooseMove(alpha, x, g, away).cap.bound
    ensures ChooseMove(alpha, x, g, away).toward ==>
      L1Norm(Axpy(x, step, ChooseMove(alpha, x, g, away).d)) <= alpha
    ensures
      && !ChooseMove(alpha, x, g, away).toward
      && AwayMagnitude(alpha, |x|, away) * x[away % |x|] > 0.0
      ==> L1Norm(Axpy(x, step, ChooseMove(alpha, x, g, away).d)) <= alpha
  {
    var m := ChooseMove(alpha, x, g, away);
    if m.toward {
      StaysInBall(alpha, x, g, step);
    } else if AwayMagnitude(alpha, |x|, away) * x[away % |x|] > 0.0 {
      AwayBranchInBall(alpha, x, g, away, step);
    }
  }

  /** What an iteration that takes a step leaves after `it` with mask `mask`
      (copt/frank_wolfe.py:510-598): `gt_fw >= 0`, the gap of the chosen move exceeds `tol`,
      the move was taken with the step and `L_t` of the strategy, and the oracle and away
      slots of the mask were refreshed. */
  ghost predicate AfwAdvances(fgrad: Objective, alpha: real, tol: real, strategy: Strategy,
                              it: Iterate, mask: seq<bool>, t: SlotStep, next: Iterate, mask': seq<bool>)
    requires |it.x| == |it.eval.grad| > 0 && |mask| == 2 * |it.x| + 1
    requires alpha > 0.0 && it.lipschitz > 0.0
  {
    var g := it.eval.grad;
    var m := ChooseMove(alpha, it.x, g, t.away);
    var d2 := Dot(m.d, m.d);
    && BestActive(g, mask, true, t.best, t.away)
    && FwCandidate(alpha, it.x, g) >= 0.0 && m.gap > tol && d2 > 0.0
    && next.x == Axpy(it.x, t.step, m.d)
    && next.eval == fgrad(next.x)
    && 0.0 < next.lipschitz < L_LIMIT
    && mask' == AfwMaskAfter(mask, next.x, OracleSlot(g), t.away)
    && match strategy
       case Lipschitz =>
         && t.rejected == 0
         && t.step == CappedStep(m.gap, d2, it.lipschitz, m.cap)
         && next.lipschitz == it.lipschitz
       case Adaptive =>
         && t.rejected == RejectedTrials(it.eval.loss, Along(fgrad, it.x, m.d), m.gap, d2, it.lipschitz, m.cap, true)
         && t.step == AdaptiveStep(m.gap, d2, it.lipschitz, m.cap, t.rejected)
         && next.lipschitz == AdaptiveLipschitz(m.gap, d2, it.lipschitz, m.cap, INLINE_DECREASE, true, t.rejected)
       case ApproxLs => false
       case Other => false
  }

  /** Why an iteration from `it` with away slot `idx` raises `e` (copt/frank_wolfe.py:
      510-566): `gt_fw < 0` fails the assertion; otherwise the gap test fails and then no
      inline step rule exists for the strategy, the closed-form step is `0 / 0`, or `L_t`
      passes its limit. */
  predicate MoveFails(fgrad: Objective, alpha: real, tol: real, strategy: Strategy, it: Iterate,
                      idx: int, e: Error)
    requires |it.x| == |it.eval.grad| > 0 && alpha > 0.0 && it.lipschitz > 0.0
  {
    var g := it.eval.grad;
    var m := ChooseMove(alpha, it.x, g, idx);
    var d2 := Dot(m.d, m.d);
    if FwCandidate(alpha, it.x, g) < 0.0 then e == AssertionError
    else
      && m.gap > tol
      && match strategy
         case ApproxLs => e == ValueError
         case Other => e == ValueError
         case Lipschitz =>
           || (d2 == 0.0 && e == NotFinite)
           || (d2 > 0.0 && e == ValueError && it.lipschitz >= L_LIMIT)
         case Adaptive =>
           || (d2 == 0.0 && e == NotFinite)
           || (d2 > 0.0 && e == ValueError &&
                 var rejected := RejectedTrials(it.eval.loss, Along(fgrad, it.x, m.d), m.gap, d2,
                                                it.lipschitz, m.cap, true);
                 AdaptiveLipschitz(m.gap, d2, it.lipschitz, m.cap, INLINE_DECREASE, true, rejected) >= L_LIMIT)
  }

  /** Why an iteration from `it` with mask `mask` raises `e`: `MoveFails` for the away slot
      `max_active` finds in the mask. */
  ghost predicate AfwFails(fgrad: Objective, alpha: real, tol: real, strategy: Strategy, it: Iterate,
                           mask: seq<bool>, e: Error)
    requires |it.x| == |it.eval.grad| > 0 && |mask| == 2 * |it.x| + 1
    requires alpha > 0.0 && it.lipschitz > 0.0
  {
    exists best: ExtReal, idx: int ::
      && BestActive(it.eval.grad, mask, true, best, idx)
      && MoveFails(fgrad, alpha, tol, strategy, it, idx, e)
  }

  /** One pass of the loop body (copt/frank_wolfe.py:510-598). It fails the assertion
      exactly when `gt_fw < 0`, which cannot happen inside the ball; it stops when the chosen
      gap is at most `tol`. From a point of the ball a Frank-Wolfe step stays in the ball, and
      so does an away step with a finite cap from a vertex whose sign agrees with the point's
      coordinate. */
  method Iteration(fgrad: Objective, alpha: real, active: array<bool>, it: Iterate, tol: real,
                   strategy: Strategy)
    returns (r: Result<Iterate>, converged: bool, best: ExtReal, away: int, step: real, rejected: nat)
    requires |it.x| == |it.eval.grad| > 0 && active.Length == 2 * |it.x| + 1
    requires alpha > 0.0 && it.lipschitz > 0.0
    modifies active
    ensures BestActive(it.eval.grad, old(active[..]), true, best, away)
    ensures L1Norm(it.x) <= alpha ==> r != Failure(AssertionError)
    ensures
      var g := it.eval.grad;
      var gtFw := FwCandidate(alpha, it.x, g);
      var m := ChooseMove(alpha, it.x, g, away);
      && (r == Failure(AssertionError) <==> gtFw < 0.0)
      && (converged <==> gtFw >= 0.0 && m.gap <= tol)
      && (converged ==> r == Success(it))
      && (gtFw >= 0.0 && m.gap > tol && (strategy == ApproxLs || strategy == Other) ==> r == Failure(ValueError))
      && (gtFw >= 0.0 && m.gap > tol && Dot(m.d, m.d) == 0.0 && strategy in {Adaptive, Lipschitz} ==> r == Failure(NotFinite))
      && (gtFw >= 0.0 && m.gap > tol && Dot(m.d, m.d) > 0.0 && strategy == Lipschitz ==>
            (r.Failure? <==> it.lipschitz >= L_LIMIT))
      && (gtFw >= 0.0 && m.gap > tol && Dot(m.d, m.d) > 0.0 && strategy == Adaptive ==>
            var probe := Along(fgrad, it.x, m.d);
            var d2 := Dot(m.d, m.d);
            && rejected <= MAX_TRIALS
            && (forall j :: 0 <= j < rejected ==>
                  Rejects(it.eval.loss, probe, m.gap, d2, Inflated(it.lipschitz, j), m.cap, true))
            && (r.Failure? <==>
                  AdaptiveLipschitz(m.gap, d2, it.lipschitz, m.cap, INLINE_DECREASE, true, rejected) >= L_LIMIT))
      && (r.Success? && !converged ==>
            && (m.cap.Finite? ==> step <= m.cap.bound)
            && (m.gap > 0.0 && (m.cap.Finite? ==> m.cap.bound > 0.0) ==> step > 0.0))
    ensures r.Success? && !converged ==>
      AfwAdvances(fgrad, alpha, tol, strategy, it, old(active[..]), SlotStep(best, away, step, rejected),
                  r.value, active[..])
    ensures !(r.Success? && !converged) ==> active[..] == old(active[..])
    ensures r.Failure? ==> MoveFails(fgrad, alpha, tol, strategy, it, away, r.error)
  {
    var n := |it.x|;
    var g := it.eval.grad;
    var o := OracleSlot(g);
    best, away := MaxActive(g, active, n, true);
    var gtFw := FwCandidate(alpha, it.x, g);
    step := 0.0;
    converged := false;
    rejected := 0;
    if L1Norm(it.x) <= alpha {
      FwCandidateNonnegative(alpha, it.x, g);
    }
    if gtFw < 0.0 {
      return Failure(AssertionError), converged, best, away, step, rejected;
    }
    var m := ChooseMove(alpha, it.x, g, away);
    if m.gap <= tol {
      converged := true;
      return Success(it), converged, best, away, step, rejected;
    }
    var d2 := Dot(m.d, m.d);
    if strategy == ApproxLs || strategy == Other {
      return Failure(ValueError), converged, best, away, step, rejected;
    }
    if d2 == 0.0 {
      return Failure(NotFinite), converged, best, away, step, rejected;
    }
    SelfDotPositive(m.d, m.d);
    var x := it.x;
    var d := m.d;
    var probe := Along(fgrad, x, d);
    var ls;
    ls, rejected := InlineLineSearch(it.eval.loss, probe, m.gap, d2, it.lipschitz, m.cap, strategy);
    if ls.Failure? {
      return Failure(ls.error), converged, best, away, step, rejected;
    }
    step := ls.value.step;
    var x' := Axpy(x, step, d);
    RefreshAfwMask(active, x', o, away);
    r := Success(Iterate(x', ls.value.next, ls.value.lipschitz));
  }

  /** An iteration that takes a step from a point of the ball stays in the ball when it is a
      Frank-Wolfe step, whose step lies in `[0, 1]`, and when it is an away step with a
      finite cap from a vertex whose sign agrees with the point's coordinate. */
  lemma AfwAdvancesInBall(fgrad: Objective, alpha: real, tol: real, strategy: Strategy, it: Iterate,
                          mask: seq<bool>, t: SlotStep, next: Iterate, mask': seq<bool>)
    requires |it.x| == |it.eval.grad| > 0 && |mask| == 2 * |it.x| + 1
    requires alpha > 0.0 && it.lipschitz > 0.0 && L1Norm(it.x) <= alpha
    requires AfwAdvances(fgrad, alpha, tol, strategy, it, mask, t, next, mask')
    ensures ChooseMove(alpha, it.x, it.eval.grad, t.away).toward ==>
      0.0 <= t.step <= 1.0 && L1Norm(next.x) <= alpha
    ensures
      && !ChooseMove(alpha, it.x, it.eval.grad, t.away).toward
      && ChooseMove(alpha, it.x, it.eval.grad, t.away).cap.Finite?
      && AwayMagnitude(alpha, |it.x|, t.away) * it.x[t.away % |it.x|] > 0.0
      ==> L1Norm(next.x) <= alpha
  {
    var x, g := it.x, it.eval.grad;
    var m := ChooseMove(alpha, x, g, t.away);
    var d2 := Dot(m.d, m.d);
    FwCandidateNonnegative(alpha, x, g);
    CoordinateBelowL1(x, t.away % |x|);
    var L := if strategy == Adaptive then Inflated(it.lipschitz, LastTrial(t.rejected)) else it.lipschitz;
    assert t.step == CappedStep(m.gap, d2, L, m.cap);
    if m.cap.Finite? {
      assert 0.0 <= t.step <= m.cap.bound;
      MoveStaysInBall(alpha, x, g, t.away, t.step);
    }
  }

  /** The iteration stops on the gap test: `gt_fw >= 0` and the gap of the move the mask's
      away slot gives is at most `tol`. */
  ghost predicate AfwConverged(x: seq<real>, g: seq<real>, mask: seq<bool>, alpha: real, tol: real)
    requires |x| == |g| > 0 && |mask| == 2 * |x| + 1 && alpha > 0.0
  {
    exists best: ExtReal, idx: int ::
      && BestActive(g, mask, true, best, idx)
      && FwCandidate(alpha, x, g) >= 0.0
      && ChooseMove(alpha, x, g, idx).gap <= tol
  }

  /** Step `i` of a run: state `i` is followed by state `i + 1` through an iteration of the
      loop. */
  ghost predicate AfwLink(fgrad: Objective, alpha: real, tol: real, strategy: Strategy,
                          trace: seq<Iterate>, masks: seq<seq<bool>>, steps: seq<SlotStep>, i: nat)
    requires alpha > 0.0
  {
    && i < |steps| && i + 1 < |trace| && i + 1 < |masks|
    && |trace[i].x| == |trace[i].eval.grad| > 0 && trace[i].lipschitz > 0.0
    && |masks[i]| == 2 * |trace[i].x| + 1
    && AfwAdvances(fgrad, alpha, tol, strategy, trace[i], masks[i], steps[i], trace[i + 1], masks[i + 1])
  }

  /** `trace`, `masks` and `steps` describe `|steps|` iterations that took a step, from the
      origin with `L0` and only the origin slot active. */
  ghost predicate AfwRun(fgrad: Objective, n: nat, alpha: real, L0: real, tol: real,
                         strategy: Strategy, trace: seq<Iterate>, masks: seq<seq<bool>>,
                         steps: seq<SlotStep>)
    requires alpha > 0.0
  {
    && |trace| == |masks| == |steps| + 1
    && trace[0] == Iterate(Zeros(n), fgrad(Zeros(n)), L0)
    && masks[0] == InitialMask(n)
    && (forall i :: 0 <= i < |trace| ==>
          && |trace[i].x| == |trace[i].eval.grad| == n && trace[i].lipschitz > 0.0
          && |masks[i]| == 2 * n + 1)
    && (forall i :: 0 <= i < |steps| ==> AfwLink(fgrad, alpha, tol, strategy, trace, masks, steps, i))
  }

  /** A run extends by an iteration from its last state. */
  lemma AfwRunExtends(fgrad: Objective, n: nat, alpha: real, L0: real, tol: real,
                      strategy: Strategy, trace: seq<Iterate>, masks: seq<seq<bool>>,
                      steps: seq<SlotStep>, t: SlotStep, it: Iterate, mask: seq<bool>)
    requires alpha > 0.0 && n > 0
    requires AfwRun(fgrad, n, alpha, L0, tol, strategy, trace, masks, steps)
    requires |it.x| == |it.eval.grad| == n && it.lipschitz > 0.0 && |mask| == 2 * n + 1
    requires AfwAdvances(fgrad, alpha, tol, strategy, trace[|steps|], masks[|steps|], t, it, mask)
    ensures AfwRun(fgrad, n, alpha, L0, tol, strategy, trace + [it], masks + [mask], steps + [t])
  {
    var tr, ms, ss := trace + [it], masks + [mask], steps + [t];
    forall i | 0 <= i < |ss|
      ensures AfwLink(fgrad, alpha, tol, strategy, tr, ms, ss, i)
    {
      if i < |steps| {
        AfwLinkKept(fgrad, alpha, tol, strategy, trace, masks, steps, t, it, mask, i);
      } else {
        assert tr[i] == trace[i] && ms[i] == masks[i];
        assert ss[i] == t && tr[i + 1] == it && ms[i + 1] == mask;
      }
    }
  }

  /** Appending a state keeps the links already in a run. */
  lemma AfwLinkKept(fgrad: Objective, alpha: real, tol: real, strategy: Strategy,
                    trace: seq<Iterate>, masks: seq<seq<bool>>, steps: seq<SlotStep>,
                    t: SlotStep, it: Iterate, mask: seq<bool>, i: nat)
    requires alpha > 0.0
    requires AfwLink(fgrad, alpha, tol, strategy, trace, masks, steps, i)
    ensures AfwLink(fgrad, alpha, tol, strategy, trace + [it], masks + [mask], steps + [t], i)
  {
    var tr, ms, ss := trace + [it], masks + [mask], steps + [t];
    assert tr[i] == trace[i] && ms[i] == masks[i] && ss[i] == steps[i];
    assert tr[i + 1] == trace[i + 1] && ms[i + 1] == masks[i + 1];
  }

  /** One pass of the driver's loop from the last state of a run: an `Iteration` that either
      stops on the gap test, fails, or takes a step that extends the run. */
  method Advance(fgrad: Objective, n: nat, alpha: real, L0: real, tol: real, strategy: Strategy,
                 active: array<bool>, it: Iterate,
                 ghost trace: seq<Iterate>, ghost masks: seq<seq<bool>>, ghost steps: seq<SlotStep>)
    returns (r: Result<Iterate>, converged: bool,
             ghost trace': seq<Iterate>, ghost masks': seq<seq<bool>>, ghost steps': seq<SlotStep>)
    requires Shaped(fgrad, n) && n > 0 && alpha > 0.0 && active.Length == 2 * n + 1
    requires AfwRun(fgrad, n, alpha, L0, tol, strategy, trace, masks, steps)
    requires trace[|steps|] == it && masks[|steps|] == active[..] && it.eval == fgrad(it.x)
    modifies active
    ensures !(r.Success? && !converged) ==>
      active[..] == old(active[..]) && trace' == trace && masks' == masks && steps' == steps
    ensures L1Norm(it.x) <= alpha ==> r != Failure(AssertionError)
    ensures converged ==> r == Success(it) && AfwConverged(it.x, it.eval.grad, active[..], alpha, tol)
    ensures strategy == ApproxLs || strategy == Other ==> !(r.Success? && !converged)
    ensures r.Failure? ==> AfwFails(fgrad, alpha, tol, strategy, it, masks[|steps|], r.error)
    ensures r.Success? && !converged ==>
      && |steps'| == |steps| + 1
      && AfwRun(fgrad, n, alpha, L0, tol, strategy, trace', masks', steps')
      && trace'[|steps'|] == r.value && masks'[|steps'|] == active[..] && r.value.eval == fgrad(r.value.x)
  {
    trace', masks', steps' := trace, masks, steps;
    var best, away, step, rejected;
    r, converged, best, away, step, rejected := Iteration(fgrad, alpha, active, it, tol, strategy);
    if r.Failure? {
      assert BestActive(it.eval.grad, masks[|steps|], true, best, away);
      return;
    }
    if converged {
      return;
    }
    var t := SlotStep(best, away, step, rejected);
    AfwRunExtends(fgrad, n, alpha, L0, tol, strategy, trace, masks, steps, t, r.value, active[..]);
    trace', masks', steps' := trace + [r.value], masks + [active[..]], steps + [t];
    assert trace'[|steps'|] == r.value && masks'[|steps'|] == active[..];
  }

  /** `minimize_AFW_L1`. Like the pairwise driver it starts at the origin whatever `x0` holds,
      with only the origin slot active. The ghost `trace`, `masks` and `steps` are the run
      that led to the result and the final mask. The assertion cannot fail on the first
      iteration, since the origin is in the ball. A run that stops before `max_iter` steps
      stopped on the gap test. */
  method MinimizeAfwL1(fgrad: Objective, n: nat, alpha: real, L0: real, maxIter: nat, tol: real,
                       strategy: Strategy)
    returns (r: Result<seq<real>>, iters: nat, active: array<bool>,
             ghost trace: seq<Iterate>, ghost masks: seq<seq<bool>>, ghost steps: seq<SlotStep>)
    requires Shaped(fgrad, n) && alpha > 0.0 && L0 > 0.0
    ensures fresh(active) && active.Length == 2 * n + 1
    ensures iters <= maxIter
    ensures |steps| == iters && AfwRun(fgrad, n, alpha, L0, tol, strategy, trace, masks, steps)
    ensures active[..] == masks[iters]
    ensures r.Success? ==> r.value == trace[iters].x
    ensures maxIter == 0 ==> r == Success(Zeros(n))
    ensures n == 0 && maxIter > 0 ==> r == Failure(ValueError)
    ensures r.Failure? ==> iters < maxIter
    ensures r.Failure? && n > 0 ==> AfwFails(fgrad, alpha, tol, strategy, trace[iters], masks[iters], r.error)
    ensures r.Success? ==> |r.value| == n
    ensures r.Success? && iters < maxIter ==> n > 0 && AfwConverged(r.value, fgrad(r.value).grad, active[..], alpha, tol)
    ensures r == Failure(AssertionError) ==> iters > 0
    ensures (strategy == ApproxLs || strategy == Other) && r.Success? ==> iters == 0 && r.value == Zeros(n)
  {
    var x := Zeros(n);
    active := new bool[2 * n + 1](i => i == 2 * n);
    var it := Iterate(x, fgrad(x), L0);
    iters := 0;
    L1ZeroVector(x);
    trace, masks, steps := [it], [active[..]], [];
    assert active[..] == InitialMask(n);
    while iters < maxIter
      invariant iters <= maxIter
      invariant |steps| == iters && AfwRun(fgrad, n, alpha, L0, tol, strategy, trace, masks, steps)
      invariant trace[iters] == it && masks[iters] == active[..]
      invariant it.eval == fgrad(it.x)
      invariant iters == 0 ==> it.x == Zeros(n)
      invariant n == 0 || strategy == ApproxLs || strategy == Other ==> iters == 0
    {
      if n == 0 {
        return Failure(ValueError), iters, active, trace, masks, steps;
      }
      var res, converged;
      res, converged, trace, masks, steps :=
        Advance(fgrad, n, alpha, L0, tol, strategy, active, it, trace, masks, steps);
      if res.Failure? {
        return Failure(res.error), iters, active, trace, masks, steps;
      }
      if converged {
        return Success(it.x), iters, active, trace, masks, steps;
      }
      it := res.value;
      iters := iters + 1;
    }
    return Success(it.x), iters, active, trace, masks, steps;
  }

  /** A run of the source on `f(x) = -x_0` with `n = 1`, `alpha = 1` and `L_t = 1` that leaves
      the ball. The first iteration is a Frank-Wolfe step from the origin to `+e_0`; the
      refresh of the away slot, the origin slot `2n`, reads coordinate 0 and keeps it
      active. The second iteration then moves away from the origin slot as if it were the
      vertex `-e_0` (`AwayMagnitude` of slot `2n` is `-alpha`), with an infinite cap
      because `|x_0| = alpha`: every positive step leaves the ball, the `Lipschitz` step is
      `1/2` and lands on `2 e_0`, where `gt_fw < 0` fails the assertion. */
  lemma OriginAwayStepLeavesBall()
    ensures FwCandidate(1.0, [0.0], [-1.0]) == 1.0 && ChooseMove(1.0, [0.0], [-1.0], 2).toward
    ensures Axpy([0.0], 1.0, Direction(1.0, [0.0], [-1.0])) == [1.0]
    ensures AfwMaskAfter(InitialMask(1), [1.0], 0, 2) == [true, false, true]
    ensures BestActive([-1.0], [true, false, true], true, Fin(0.0), 2)
    ensures ChooseMove(1.0, [1.0], [-1.0], 2) == Move(false, [2.0], 2.0, Infinite)
    ensures CappedStep(2.0, 4.0, 1.0, Infinite) == 0.5 && Axpy([1.0], 0.5, [2.0]) == [2.0]
    ensures forall s :: s > 0.0 ==> L1Norm(Axpy([1.0], s, [2.0])) > 1.0
    ensures FwCandidate(1.0, [2.0], [-1.0]) < 0.0
  {
    assert ArgMaxAbs([-1.0]) == 0;
    assert AwayMagnitude(1.0, 1, 2) == -1.0;
    assert Dot([-1.0], [1.0]) == -1.0;
    assert Dot([-1.0], [2.0]) == -2.0;
    forall s | s > 0.0
      ensures L1Norm(Axpy([1.0], s, [2.0])) > 1.0
    {
      assert Axpy([1.0], s, [2.0]) == [1.0 + s * 2.0];
      assert L1Norm([1.0 + s * 2.0]) == 1.0 + s * 2.0;
    }
  }

  /** The objective of `StaleSlotAwayStepLeavesBall`: gradient `[0, -1]` at the origin and
      `[0, 1]` elsewhere. */
  function StaleObjective(x: seq<real>): Eval
  {
    Eval(0.0, if x == [0.0, 0.0] then [0.0, -1.0] else [0.0, 1.0])
  }

  lemma StaleObjectiveShaped()
    ensures Shaped(StaleObjective, 2)
  {
  }

  /** Its first iteration: a Frank-Wolfe step of 1 from the origin to `+e_1`. */
  lemma StaleFirstIteration()
    ensures AfwAdvances(StaleObjective, 1.0, 0.0, Lipschitz,
                        Iterate([0.0, 0.0], StaleObjective([0.0, 0.0]), 2.0 / 3.0), InitialMask(2),
                        SlotStep(Fin(0.0), 4, 1.0, 0),
                        Iterate([0.0, 1.0], StaleObjective([0.0, 1.0]), 2.0 / 3.0),
                        [false, true, false, false, false])
  {
    var g := [0.0, -1.0];
    assert StaleObjective([0.0, 0.0]).grad == g;
    assert StaleObjective([0.0, 1.0]).grad == [0.0, 1.0];
    assert ArgMaxAbs(g) == 1;
    assert OracleSlot(g) == 1;
    assert BestActive(g, InitialMask(2), true, Fin(0.0), 4);
    assert FwCandidate(1.0, [0.0, 0.0], g) == 1.0;
    assert Direction(1.0, [0.0, 0.0], g) == [0.0, 1.0];
    assert ChooseMove(1.0, [0.0, 0.0], g, 4).toward;
    assert Axpy([0.0, 0.0], 1.0, [0.0, 1.0]) == [0.0, 1.0];
    assert AfwMaskAfter(InitialMask(2), [0.0, 1.0], 1, 4) == [false, true, false, false, false];
  }

  /** Its second iteration: a Frank-Wolfe step of 3/4 from `+e_1` to `[0, -1/2]`; the away
      slot 1 is refreshed from the nonzero coordinate and stays active. */
  lemma StaleSecondIteration()
    ensures AfwAdvances(StaleObjective, 1.0, 0.0, Lipschitz,
                        Iterate([0.0, 1.0], StaleObjective([0.0, 1.0]), 2.0 / 3.0),
                        [false, true, false, false, false],
                        SlotStep(Fin(1.0), 1, 0.75, 0),
                        Iterate([0.0, -0.5], StaleObjective([0.0, -0.5]), 2.0 / 3.0),
                        [false, true, false, true, false])
  {
    var g := [0.0, 1.0];
    assert StaleObjective([0.0, 1.0]).grad == g;
    assert StaleObjective([0.0, -0.5]).grad == g;
    assert ArgMaxAbs(g) == 1;
    assert OracleSlot(g) == 3;
    assert BestActive(g, [false, true, false, false, false], true, Fin(1.0), 1);
    assert FwCandidate(1.0, [0.0, 1.0], g) == 2.0;
    assert AwayCandidate([0.0, 1.0], g, 1, 1.0) == 0.0;
    assert Direction(1.0, [0.0, 1.0], g) == [0.0, -2.0];
    assert Dot([0.0, -2.0], [0.0, -2.0]) == 4.0;
    assert CappedStep(2.0, 4.0, 2.0 / 3.0, Finite(1.0)) == 0.75;
    assert Axpy([0.0, 1.0], 0.75, [0.0, -2.0]) == [0.0, -0.5];
    assert AfwMaskAfter([false, true, false, false, false], [0.0, -0.5], 3, 1) ==
           [false, true, false, true, false];
  }

  /** Its third iteration: an away step of 1 from the stale slot 1, with cap 1, to `[0, -2]`. */
  lemma StaleThirdIteration()
    ensures AfwAdvances(StaleObjective, 1.0, 0.0, Lipschitz,
                        Iterate([0.0, -0.5], StaleObjective([0.0, -0.5]), 2.0 / 3.0),
                        [false, true, false, true, false],
                        SlotStep(Fin(1.0), 1, 1.0, 0),
                        Iterate([0.0, -2.0], StaleObjective([0.0, -2.0]), 2.0 / 3.0),
                        AfwMaskAfter([false, true, false, true, false], [0.0, -2.0], 3, 1))
  {
    var g := [0.0, 1.0];
    assert StaleObjective([0.0, -0.5]).grad == g;
    assert StaleObjective([0.0, -2.0]).grad == g;
    assert ArgMaxAbs(g) == 1;
    assert OracleSlot(g) == 3;
    assert BestActive(g, [false, true, false, true, false], true, Fin(1.0), 1);
    assert FwCandidate(1.0, [0.0, -0.5], g) == 0.5;
    assert AwayCandidate([0.0, -0.5], g, 1, 1.0) == 1.5;
    assert AwayDirection([0.0, -0.5], 1, 1.0) == [0.0, -1.5];
    assert AwayStepCap([0.0, -0.5], 1.0, 1) == Finite(1.0);
    assert Dot([0.0, -1.5], [0.0, -1.5]) == 2.25;
    assert CappedStep(1.5, 2.25, 2.0 / 3.0, Finite(1.0)) == 1.0;
    assert Axpy([0.0, -0.5], 1.0, [0.0, -1.5]) == [0.0, -2.0];
  }

  /** The three iterations of `StaleSlotAwayStepLeavesBall` as links of a run. */
  lemma StaleLinks(trace: seq<Iterate>, masks: seq<seq<bool>>, steps: seq<SlotStep>)
    requires trace == [Iterate([0.0, 0.0], StaleObjective([0.0, 0.0]), 2.0 / 3.0),
                       Iterate([0.0, 1.0], StaleObjective([0.0, 1.0]), 2.0 / 3.0),
                       Iterate([0.0, -0.5], StaleObjective([0.0, -0.5]), 2.0 / 3.0),
                       Iterate([0.0, -2.0], StaleObjective([0.0, -2.0]), 2.0 / 3.0)]
    requires masks == [InitialMask(2), [false, true, false, false, false], [false, true, false, true, false],
                       AfwMaskAfter([false, true, false, true, false], [0.0, -2.0], 3, 1)]
    requires steps == [SlotStep(Fin(0.0), 4, 1.0, 0), SlotStep(Fin(1.0), 1, 0.75, 0),
                       SlotStep(Fin(1.0), 1, 1.0, 0)]
    ensures forall i :: 0 <= i < |steps| ==> AfwLink(StaleObjective, 1.0, 0.0, Lipschitz, trace, masks, steps, i)
  {
    forall i | 0 <= i < |steps|
      ensures AfwLink(StaleObjective, 1.0, 0.0, Lipschitz, trace, masks, steps, i)
    {
      if i == 0 {
        StaleFirstIteration();
      } else if i == 1 {
        StaleSecondIteration();
      } else {
        StaleThirdIteration();
      }
    }
  }

  /** A run of the model with `n = 2`, `alpha = 1`, `L_t = 2/3`, the `Lipschitz` rule and
      `StaleObjective`, from the origin to `[0, -2]` outside the ball. After the second
      iteration the away slot 1, the vertex `+e_1`, is still active although the
      coordinate it stands for is negative, and the third iteration takes an away step from
      it with a finite cap. */
  lemma StaleSlotAwayStepLeavesBall()
    returns (trace: seq<Iterate>, masks: seq<seq<bool>>, steps: seq<SlotStep>)
    ensures Shaped(StaleObjective, 2)
    ensures AfwRun(StaleObjective, 2, 1.0, 2.0 / 3.0, 0.0, Lipschitz, trace, masks, steps)
    ensures |steps| == 3 && L1Norm(trace[0].x) <= 1.0 && L1Norm(trace[3].x) > 1.0
    ensures masks[2][1] && trace[2].x[1] < 0.0 && steps[2].away == 1
  {
    var L := 2.0 / 3.0;
    var x0, x1, x2, x3 := [0.0, 0.0], [0.0, 1.0], [0.0, -0.5], [0.0, -2.0];
    var m2 := [false, true, false, true, false];
    trace := [Iterate(x0, StaleObjective(x0), L), Iterate(x1, StaleObjective(x1), L),
              Iterate(x2, StaleObjective(x2), L), Iterate(x3, StaleObjective(x3), L)];
    masks := [InitialMask(2), [false, true, false, false, false], m2, AfwMaskAfter(m2, x3, 3, 1)];
    steps := [SlotStep(Fin(0.0), 4, 1.0, 0), SlotStep(Fin(1.0), 1, 0.75, 0), SlotStep(Fin(1.0), 1, 1.0, 0)];
    StaleLinks(trace, masks, steps);
    assert Zeros(2) == x0;
    forall i | 0 <= i < |trace|
      ensures |trace[i].x| == |trace[i].eval.grad| == 2 && trace[i].lipschitz > 0.0 && |masks[i]| == 5
    {
      assert |StaleObjective(trace[i].x).grad| == 2;
    }
    assert L1Norm(x0) == 0.0 && L1Norm(x3) == 2.0 by {
      assert L1Norm(x0) == Abs(0.0) + L1Norm([0.0]);
      assert L1Norm(x3) == Abs(0.0) + L1Norm([-2.0]);
    }
    StaleObjectiveShaped();
  }
}
