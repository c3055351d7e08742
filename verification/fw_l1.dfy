/** `minimize_FW_L1` (copt/frank_wolfe.py:112-148): the plain Frank-Wolfe method over the
    L1 ball of radius `alpha`. Each iteration moves from `x_t` towards the oracle's vertex
    `s_t` by a step in `[0, 1]`, so an iterate that starts in the ball stays in it. */
module FwL1 {
  import opened Vectors
  import opened Outcomes
  import opened L1Oracle
  import opened StepSize
  import opened Bisection

  /** `d_t = s_t - x_t`, built in the source as `-x_t` with the oracle magnitude added at the
      oracle coordinate. */
  function Direction(alpha: real, x: seq<real>, g: seq<real>): (d: seq<real>)
    requires |x| == |g| > 0
    ensures |d| == |x|
    ensures forall i :: 0 <= i < |x| && i != ArgMaxAbs(g) ==> d[i] == -x[i]
    ensures d[ArgMaxAbs(g)] == OracleMagnitude(alpha, g) - x[ArgMaxAbs(g)]
  {
    Sub(OracleVertex(alpha, g), x)
  }

  /** The Frank-Wolfe gap `g_t = -<d_t, grad>`. */
  function Gap(alpha: real, x: seq<real>, g: seq<real>): real
    requires |x| == |g| > 0
  {
    -Dot(Direction(alpha, x, g), g)
  }

  /** The gap bounds `<grad, x - s>` for every point `s` of the ball: it is the largest
      decrease the linearisation at `x` promises inside the ball. */
  lemma GapBoundsBall(alpha: real, x: seq<real>, g: seq<real>, s: seq<real>)
    requires |x| == |g| == |s| > 0 && alpha >= 0.0
    requires L1Norm(s) <= alpha
    ensures Dot(Sub(x, s), g) <= Gap(alpha, x, g)
  {
    var v := OracleVertex(alpha, g);
    assert Dot(g, v) <= Dot(g, s) by { OracleMinimises(alpha, g, s); }
    assert Dot(Sub(v, x), g) == Dot(v, g) - Dot(x, g) by { DotLinear(v, x, g); }
    assert Dot(Sub(x, s), g) == Dot(x, g) - Dot(s, g) by { DotLinear(x, s, g); }
    assert Dot(g, v) == Dot(v, g) by { DotCommutes(g, v); }
    assert Dot(g, s) == Dot(s, g) by { DotCommutes(g, s); }
  }

  /** Inside the ball the gap is never negative. */
  lemma GapNonnegative(alpha: real, x: seq<real>, g: seq<real>)
    requires |x| == |g| > 0
    requires L1Norm(x) <= alpha
    ensures Gap(alpha, x, g) >= 0.0
  {
    assert Dot(Sub(x, x), g) == 0.0 by { ZeroDot(Sub(x, x), g); }
    GapBoundsBall(alpha, x, g, x);
  }

  /** A positive gap means the direction is not zero, so `d2_t > 0`. */
  lemma PositiveGapMoves(alpha: real, x: seq<real>, g: seq<real>)
    requires |x| == |g| > 0
    requires Gap(alpha, x, g) > 0.0
    ensures Dot(Direction(alpha, x, g), Direction(alpha, x, g)) > 0.0
  {
    SelfDotPositive(Direction(alpha, x, g), g);
  }

  /** The state the loop carries: `x_t`, `f_grad(x_t)` and `L_t`. */
  datatype Iterate = Iterate(x: seq<real>, eval: Eval, lipschitz: real)

  /** `approx_ls_armijo` as `minimize_FW_L1` calls it: along `d` from `x_t`, on `[0, 1]`,
      with its default of 100 rounds. */
  function ArmijoSearch(fgrad: Objective, it: Iterate, d: seq<real>): Result<real>
    requires |it.x| == |d|
  {
    ApproxLsArmijoValue(Line(fgrad, it.x, d), it.eval.loss, 1.0, MAX_TRIALS)
  }

  /** What a pass of the loop body that does not fail leaves after `it` (copt/frank_wolfe.py:
      127-143): `x_t + step * d_t`, its evaluation, and the step and `L_t` of the strategy.
      The adaptive branch takes the closed-form step and then scales `L_t` by whether it
      gave sufficient decrease; an unknown strategy never gets this far. */
  predicate FwAdvances(fgrad: Objective, alpha: real, strategy: Strategy, it: Iterate, step: real,
                       next: Iterate)
    requires |it.x| == |it.eval.grad| > 0 && it.lipschitz > 0.0
  {
    var d := Direction(alpha, it.x, it.eval.grad);
    var g := Gap(alpha, it.x, it.eval.grad);
    && next.x == Axpy(it.x, step, d)
    && next.eval == fgrad(next.x)
    && next.lipschitz > 0.0
    && match strategy
       case Adaptive =>
         && Dot(d, d) > 0.0
         && step == ClosedFormStep(g, Dot(d, d), it.lipschitz, 1.0)
         && next.lipschitz ==
              if SufficientDecrease(it.eval.loss, next.eval.loss, step, g, it.lipschitz, Dot(d, d))
              then it.lipschitz * BACKTRACK_DECREASE else it.lipschitz * BACKTRACK_INCREASE
       case Lipschitz =>
         && Dot(d, d) > 0.0
         && step == ClosedFormStep(g, Dot(d, d), it.lipschitz, 1.0)
         && next.lipschitz == it.lipschitz
       case ApproxLs =>
         ArmijoSearch(fgrad, it, d) == Success(step) && next.lipschitz == it.lipschitz
       case Other => false
  }

  /** Why a pass of the loop body from `it` raises `e` (copt/frank_wolfe.py:121-143): an
      unknown strategy leaves `step_size` unbound, a closed-form step with `d2_t = 0` is
      `0 / 0`, and the Armijo search can fail. */
  predicate StepFails(fgrad: Objective, alpha: real, strategy: Strategy, it: Iterate, e: Error)
    requires |it.x| == |it.eval.grad| > 0
  {
    var d := Direction(alpha, it.x, it.eval.grad);
    match strategy
    case Adaptive => Dot(d, d) == 0.0 && e == NotFinite
    case Lipschitz => Dot(d, d) == 0.0 && e == NotFinite
    case ApproxLs => ArmijoSearch(fgrad, it, d) == Failure(e)
    case Other => e == UnboundLocalError
  }

  /** One pass of the loop body after the gap test (copt/frank_wolfe.py:121-143). With an
      unknown strategy no branch binds `step_size`, and with `d2_t = 0` the closed-form step
      is `0 / 0`. */
  method Step(fgrad: Objective, alpha: real, it: Iterate, strategy: Strategy)
    returns (r: Result<Iterate>, step: real)
    requires |it.x| == |it.eval.grad| > 0 && it.lipschitz > 0.0
    ensures strategy == Other ==> r == Failure(UnboundLocalError)
    ensures strategy == Adaptive || strategy == Lipschitz ==>
      var d := Direction(alpha, it.x, it.eval.grad);
      r.Success? <==> Dot(d, d) > 0.0
    ensures strategy == ApproxLs ==>
      var s := ArmijoSearch(fgrad, it, Direction(alpha, it.x, it.eval.grad));
      && (r.Success? <==> s.Success?)
      && (r.Failure? ==> r.error == s.error)
    ensures r.Success? ==> FwAdvances(fgrad, alpha, strategy, it, step, r.value)
    ensures r.Failure? ==> StepFails(fgrad, alpha, strategy, it, r.error)
  {
    var d := Direction(alpha, it.x, it.eval.grad);
    var g := Gap(alpha, it.x, it.eval.grad);
    var L := it.lipschitz;
    step := 0.0;
    match strategy {
      case Adaptive =>
        if Dot(d, d) == 0.0 {
          return Failure(NotFinite), step;
        }
        SelfDotPositive(d, d);
        var b := Backtrack(it.eval.loss, fgrad, it.x, d, g, L, 1.0, BACKTRACK_INCREASE, BACKTRACK_DECREASE, MAX_TRIALS);
        step := b.value.step;
        MulPositive(L, BACKTRACK_DECREASE);
        MulPositive(L, BACKTRACK_INCREASE);
        r := Success(Iterate(Axpy(it.x, step, d), b.value.next, b.value.lipschitz));
      case Lipschitz =>
        if Dot(d, d) == 0.0 {
          return Failure(NotFinite), step;
        }
        SelfDotPositive(d, d);
        step := ClosedFormStep(g, Dot(d, d), L, 1.0);
        var x' := Axpy(it.x, step, d);
        r := Success(Iterate(x', fgrad(x'), L));
      case ApproxLs =>
        var s := ApproxLsArmijo(Line(fgrad, it.x, d), it.eval.loss, 1.0, MAX_TRIALS);
        if s.Failure? {
          return Failure(s.error), step;
        }
        step := s.value;
        var x' := Axpy(it.x, step, d);
        r := Success(Iterate(x', fgrad(x'), L));
      case Other =>
        return Failure(UnboundLocalError), step;
    }
  }

  /** A pass of the loop body from a point of the ball takes a step in `[0, 1]` and ends in
      the ball, whatever the strategy. */
  lemma FwAdvancesInBall(fgrad: Objective, alpha: real, strategy: Strategy, it: Iterate, step: real,
                         next: Iterate)
    requires |it.x| == |it.eval.grad| > 0 && it.lipschitz > 0.0 && L1Norm(it.x) <= alpha
    requires FwAdvances(fgrad, alpha, strategy, it, step, next)
    ensures 0.0 <= step <= 1.0 && L1Norm(next.x) <= alpha
  {
    GapNonnegative(alpha, it.x, it.eval.grad);
    if strategy == ApproxLs {
      SearchValuesInRange(Line(fgrad, it.x, Direction(alpha, it.x, it.eval.grad)), it.eval.loss, 1.0, MAX_TRIALS);
    }
    StaysInBall(alpha, it.x, it.eval.grad, step);
  }

  /** A step in `[0, 1]` from a point of the ball ends in the ball. */
  lemma StaysInBall(alpha: real, x: seq<real>, g: seq<real>, step: real)
    requires |x| == |g| > 0 && L1Norm(x) <= alpha
    requires 0.0 <= step <= 1.0
    ensures L1Norm(Axpy(x, step, Direction(alpha, x, g))) <= alpha
  {
    var v := OracleVertex(alpha, g);
    assert L1Norm(v) <= alpha by { OracleInBall(alpha, g); }
    L1SegmentInBall(x, v, step, alpha);
  }

  /** Step `i` of a run: state `i` had a gap above `tol` and was followed by state `i + 1`
      through a pass of the loop body that took step `i`. */
  predicate FwLink(fgrad: Objective, alpha: real, tol: real, strategy: Strategy,
                   trace: seq<Iterate>, steps: seq<real>, i: nat)
  {
    && i < |steps| && i + 1 < |trace|
    && |trace[i].x| == |trace[i].eval.grad| > 0 && trace[i].lipschitz > 0.0
    && Gap(alpha, trace[i].x, trace[i].eval.grad) > tol
    && FwAdvances(fgrad, alpha, strategy, trace[i], steps[i], trace[i + 1])
  }

  /** `trace` and `steps` describe `|steps|` passes of the loop from `(x0, f_grad(x0), L0)`. */
  ghost predicate FwRun(fgrad: Objective, x0: seq<real>, alpha: real, L0: real, tol: real,
                        strategy: Strategy, trace: seq<Iterate>, steps: seq<real>)
  {
    && |trace| == |steps| + 1
    && trace[0] == Iterate(x0, fgrad(x0), L0)
    && (forall i :: 0 <= i < |trace| ==>
          |trace[i].x| == |trace[i].eval.grad| == |x0| && trace[i].lipschitz > 0.0)
    && (forall i :: 0 <= i < |steps| ==> FwLink(fgrad, alpha, tol, strategy, trace, steps, i))
  }

  /** A run extends by a pass from its last state. */
  lemma FwRunExtends(fgrad: Objective, x0: seq<real>, alpha: real, L0: real, tol: real,
                     strategy: Strategy, trace: seq<Iterate>, steps: seq<real>, step: real,
                     next: Iterate)
    requires FwRun(fgrad, x0, alpha, L0, tol, strategy, trace, steps)
    requires |x0| > 0 && |next.x| == |next.eval.grad| == |x0| && next.lipschitz > 0.0
    requires Gap(alpha, trace[|steps|].x, trace[|steps|].eval.grad) > tol
    requires FwAdvances(fgrad, alpha, strategy, trace[|steps|], step, next)
    ensures FwRun(fgrad, x0, alpha, L0, tol, strategy, trace + [next], steps + [step])
  {
    var t, s := trace + [next], steps + [step];
    forall i | 0 <= i < |s|
      ensures FwLink(fgrad, alpha, tol, strategy, t, s, i)
    {
      if i < |steps| {
        FwLinkKept(fgrad, alpha, tol, strategy, trace, steps, step, next, i);
      } else {
        assert t[i] == trace[i];
        assert s[i] == step && t[i + 1] == next;
      }
    }
  }

  /** Appending a state keeps the links already in a run. */
  lemma FwLinkKept(fgrad: Objective, alpha: real, tol: real, strategy: Strategy,
                   trace: seq<Iterate>, steps: seq<real>, step: real, next: Iterate, i: nat)
    requires FwLink(fgrad, alpha, tol, strategy, trace, steps, i)
    ensures FwLink(fgrad, alpha, tol, strategy, trace + [next], steps + [step], i)
  {
    var t, s := trace + [next], steps + [step];
    assert t[i] == trace[i] && s[i] == steps[i] && t[i + 1] == trace[i + 1];
  }

  /** `minimize_FW_L1`. `iters` counts the steps taken; the ghost `trace` and `steps` are
      the run that led to the result. The loop ends early only on the gap test, so a run
      that stops before `max_iter` steps ends at a point whose gap is at most `tol`;
      `np.argmax` of an empty gradient raises ValueError. */
  method MinimizeFwL1(fgrad: Objective, x0: seq<real>, alpha: real, L0: real, maxIter: nat,
                      tol: real, strategy: Strategy)
    returns (r: Result<seq<real>>, iters: nat, ghost trace: seq<Iterate>, ghost steps: seq<real>)
    requires Shaped(fgrad, |x0|) && L0 > 0.0
    ensures iters <= maxIter
    ensures |steps| == iters && FwRun(fgrad, x0, alpha, L0, tol, strategy, trace, steps)
    ensures r.Success? ==> r.value == trace[iters].x
    ensures r.Failure? ==> iters < maxIter
    ensures r.Failure? && |x0| == 0 ==> r.error == ValueError
    ensures r.Failure? && |x0| > 0 ==>
      && Gap(alpha, trace[iters].x, trace[iters].eval.grad) > tol
      && StepFails(fgrad, alpha, strategy, trace[iters], r.error)
    ensures maxIter == 0 ==> r == Success(x0)
    ensures |x0| == 0 && maxIter > 0 ==> r == Failure(ValueError)
    ensures r.Success? ==> |r.value| == |x0|
    ensures r.Success? && iters < maxIter ==> |x0| > 0 && Gap(alpha, r.value, fgrad(r.value).grad) <= tol
    ensures r.Success? && L1Norm(x0) <= alpha ==> L1Norm(r.value) <= alpha
    ensures tol >= 0.0 && |x0| > 0 && (strategy == Adaptive || strategy == Lipschitz) ==> r.Success?
    ensures strategy == Other && r.Success? ==> r.value == x0 && iters == 0
    ensures strategy == Other && |x0| > 0 && maxIter > 0 ==>
      (r.Success? <==> Gap(alpha, x0, fgrad(x0).grad) <= tol)
  {
    var it := Iterate(x0, fgrad(x0), L0);
    iters := 0;
    trace, steps := [it], [];
    while iters < maxIter
      invariant iters <= maxIter
      invariant |steps| == iters && FwRun(fgrad, x0, alpha, L0, tol, strategy, trace, steps)
      invariant trace[iters] == it && it.eval == fgrad(it.x)
      invariant L1Norm(x0) <= alpha ==> L1Norm(it.x) <= alpha
      invariant strategy == Other || |x0| == 0 ==> iters == 0
    {
      if |x0| == 0 {
        return Failure(ValueError), iters, trace, steps;
      }
      var g := Gap(alpha, it.x, it.eval.grad);
      if g <= tol {
        return Success(it.x), iters, trace, steps;
      }
      if tol >= 0.0 {
        PositiveGapMoves(alpha, it.x, it.eval.grad);
      }
      var next, step := Step(fgrad, alpha, it, strategy);
      if next.Failure? {
        return Failure(next.error), iters, trace, steps;
      }
      if L1Norm(x0) <= alpha {
        FwAdvancesInBall(fgrad, alpha, strategy, it, step, next.value);
      }
      FwRunExtends(fgrad, x0, alpha, L0, tol, strategy, trace, steps, step, next.value);
      it := next.value;
      trace, steps := trace + [it], steps + [step];
      iters := iters + 1;
    }
    return Success(it.x), iters, trace, steps;
  }
}
