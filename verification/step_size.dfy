/** Step-size rules that need no bracket: the closed-form step of a quadratic upper model,
    `backtrack` (copt/frank_wolfe.py:8-23) and the sufficient-decrease loops that the
    drivers write inline. */
module StepSize {
  import opened Vectors
  import opened Outcomes

  /** The change of the quadratic upper model `-step * g + step^2 * L * d2 / 2` that every
      rule compares the loss against. */
  function QuadModel(step: real, g: real, L: real, d2: real): real
  {
    -step * g + 0.5 * (step * step) * L * d2
  }

  /** `min(g / (d2 * L), gamma_max)`. */
  function ClosedFormStep(g: real, d2: real, L: real, gmax: real): (step: real)
    requires d2 > 0.0 && L > 0.0
    ensures step <= gmax
    ensures step == gmax <==> gmax * (d2 * L) <= g
    ensures gmax > 0.0 ==> (step > 0.0 <==> g > 0.0)
    ensures gmax >= 0.0 && g >= 0.0 ==> step >= 0.0
  {
    QuotientFacts(g, d2 * L, gmax);
    Min(g / (d2 * L), gmax)
  }

  /** The closed-form step minimises the quadratic model over `[0, gamma_max]`. */
  lemma ClosedFormMinimisesModel(g: real, d2: real, L: real, gmax: real, gamma: real)
    requires d2 > 0.0 && L > 0.0
    requires 0.0 <= gamma <= gmax
    ensures QuadModel(ClosedFormStep(g, d2, L, gmax), g, L, d2) <= QuadModel(gamma, g, L, d2)
  {
    var k := d2 * L;
    var q := g / k;
    var s := ClosedFormStep(g, d2, L, gmax);
    QuotientFacts(g, k, gmax);
    MulPositive(d2, L);
    ModelAsSquares(gamma, g, L, d2, q, k);
    ModelAsSquares(s, g, L, d2, q, k);
    SquareDifferenceNonneg(gamma, s, q, k);
  }

  lemma QuotientFacts(g: real, k: real, m: real)
    requires k > 0.0
    ensures g / k * k == g
    ensures g / k > 0.0 <==> g > 0.0
    ensures g / k >= 0.0 <==> g >= 0.0
    ensures m * k <= g <==> m <= g / k
  {
    if m <= g / k {
      MulNonneg(g / k - m, k);
    } else {
      MulPositive(m - g / k, k);
    }
  }

  lemma ModelAsSquares(s: real, g: real, L: real, d2: real, q: real, k: real)
    requires k == d2 * L && q * k == g
    ensures QuadModel(s, g, L, d2) == 0.5 * k * ((s - q) * (s - q) - q * q)
  {
    assert QuadModel(s, g, L, d2) == -s * (q * k) + 0.5 * (s * s) * k;
  }

  /** With `s` the unconstrained minimiser `q`, or `gamma <= s < q`, the model at `gamma`
      is at least the model at `s`. */
  lemma SquareDifferenceNonneg(gamma: real, s: real, q: real, k: real)
    requires k > 0.0
    requires s == q || gamma <= s < q
    ensures 0.5 * k * ((s - q) * (s - q) - q * q) <= 0.5 * k * ((gamma - q) * (gamma - q) - q * q)
  {
    var p := (gamma - s) * (gamma + s - 2.0 * q);
    assert (gamma - q) * (gamma - q) - (s - q) * (s - q) == p;
    if s == q {
      SquarePositive(gamma - q);
    } else {
      MulNonneg(s - gamma, 2.0 * q - gamma - s);
    }
    MulNonneg(0.5 * k, p);
  }

  /** The test of `backtrack`: the loss at the trial point is below the quadratic model. */
  predicate SufficientDecrease(ft: real, fnext: real, step: real, g: real, L: real, d2: real)
  {
    fnext <= ft + QuadModel(step, g, L, d2)
  }

  datatype LineStep = LineStep(step: real, lipschitz: real, next: Eval)

  /** The defaults of `backtrack`'s `ratio_increase` and `ratio_decrease`. */
  const BACKTRACK_INCREASE: real := 2.0
  const BACKTRACK_DECREASE: real := 0.999

  /** The factor the inline loops of the L1 pairwise and away-step drivers shrink `L_t` by
      when their first trial passes. */
  const INLINE_DECREASE: real := 0.999

  /** `backtrack`. Every trial uses the same step because `L_t` is only changed after the
      loop, so either the first trial is accepted (and `L_t` shrinks by `ratio_decrease`)
      or all are rejected (and the `for`-`else` grows `L_t` once by `ratio_increase`).
      With no trial at all `step_size` is never bound. */
  method Backtrack(ft: real, fgrad: Objective, x: seq<real>, d: seq<real>, g: real, L: real,
                   gmax: real, inc: real, dec: real, maxIter: nat)
    returns (r: Result<LineStep>)
    requires |x| == |d| && Dot(d, d) > 0.0 && L > 0.0
    ensures maxIter == 0 ==> r == Failure(UnboundLocalError)
    ensures maxIter > 0 ==> r.Success?
    ensures r.Success? ==>
      var step := ClosedFormStep(g, Dot(d, d), L, gmax);
      var next := fgrad(Axpy(x, step, d));
      && r.value.step == step
      && r.value.next == next
      && (SufficientDecrease(ft, next.loss, step, g, L, Dot(d, d)) ==> r.value.lipschitz == L * dec)
      && (!SufficientDecrease(ft, next.loss, step, g, L, Dot(d, d)) ==> r.value.lipschitz == L * inc)
  {
    var d2 := Dot(d, d);
    ghost var s0 := ClosedFormStep(g, d2, L, gmax);
    var lip := L;
    var step := 0.0;
    var next := Eval(0.0, []);
    var broke := false;
    var i := 0;
    while i < maxIter
      invariant 0 <= i <= maxIter
      invariant lip == L
      invariant i > 0 ==> step == s0 && next == fgrad(Axpy(x, s0, d))
      invariant i > 0 ==> !SufficientDecrease(ft, next.loss, s0, g, L, d2)
    {
      step := ClosedFormStep(g, d2, lip, gmax);
      var rhs := ft - step * g + 0.5 * (step * step) * lip * d2;
      next := fgrad(Axpy(x, step, d));
      if next.loss <= rhs {
        if i == 0 {
          lip := lip * dec;
        }
        broke := true;
        break;
      }
      i := i + 1;
    }
    if !broke {
      lip := lip * inc;
    }
    if maxIter == 0 {
      return Failure(UnboundLocalError);
    }
    return Success(LineStep(step, lip, next));
  }

  /** `gamma_max` of the inline loops: a number, or the IEEE infinity that `alpha_v / (1 -
      alpha_v)` gives when `alpha_v == 1` in the away-step driver. */
  datatype Cap = Finite(bound: real) | Infinite

  /** `min(g / (d2 * L), gamma_max)`, where an infinite `gamma_max` never wins. */
  function CappedStep(g: real, d2: real, L: real, cap: Cap): (step: real)
    requires d2 > 0.0 && L > 0.0
    ensures cap.Finite? ==> step == ClosedFormStep(g, d2, L, cap.bound)
    ensures cap.Infinite? ==> step * (d2 * L) == g
    ensures cap.Infinite? ==> (step > 0.0 <==> g > 0.0)
  {
    match cap
    case Finite(m) => ClosedFormStep(g, d2, L, m)
    case Infinite => QuotientFacts(g, d2 * L, 0.0); g / (d2 * L)
  }

  /** The capped step minimises the quadratic model over the steps the cap allows. */
  lemma CappedStepMinimisesModel(g: real, d2: real, L: real, cap: Cap, gamma: real)
    requires d2 > 0.0 && L > 0.0
    requires 0.0 <= gamma && (cap.Finite? ==> gamma <= cap.bound)
    ensures QuadModel(CappedStep(g, d2, L, cap), g, L, d2) <= QuadModel(gamma, g, L, d2)
  {
    match cap
    case Finite(m) =>
      ClosedFormMinimisesModel(g, d2, L, m, gamma);
    case Infinite =>
      var k := d2 * L;
      var q := g / k;
      QuotientFacts(g, k, 0.0);
      ModelAsSquares(gamma, g, L, d2, q, k);
      ModelAsSquares(q, g, L, d2, q, k);
      MulPositive(d2, L);
      SquareDifferenceNonneg(gamma, q, q, k);
  }

  /** The test of the inline loops. For a nonzero step it is the source's comparison as
      written; at step zero IEEE arithmetic turns both sides into infinities or NaN and the
      test holds exactly when the loss changed. */
  predicate PassesDecreaseTest(ft: real, fnext: real, step: real, g: real, L: real, d2: real)
  {
    if step != 0.0 then
      (fnext - ft) / step <= -(g - 0.5 * step * L * d2) + LS_EPS / step
    else
      fnext != ft
  }

  /** Trial `L` of an inline loop neither stops on a small step nor passes the test. */
  predicate Rejects(ft: real, probe: real -> Eval, g: real, d2: real, L: real, gmax: Cap,
                    guardSmall: bool)
    requires d2 > 0.0 && L > 0.0
  {
    var step := CappedStep(g, d2, L, gmax);
    !(guardSmall && step < SMALL_STEP) && !PassesDecreaseTest(ft, probe(step).loss, step, g, L, d2)
  }

  /** `L_t` after `k` doublings. */
  function Inflated(L: real, k: nat): (r: real)
    requires L > 0.0
    ensures r > 0.0
  {
    MulPositive(L, Pow2(k));
    L * Pow2(k)
  }

  lemma InflatedDoubles(L: real, k: nat)
    requires L > 0.0
    ensures Inflated(L, k + 1) == Inflated(L, k) * 2.0
  {
    assert Pow2(k + 1) == 2.0 * Pow2(k);
  }

  /** The number of trials from trial `k` on that an inline loop rejects before it accepts
      one or runs out of its 100 trials. */
  function RejectedFrom(ft: real, probe: real -> Eval, g: real, d2: real, L: real, gmax: Cap,
                        guardSmall: bool, k: nat): (r: nat)
    requires d2 > 0.0 && L > 0.0 && k <= MAX_TRIALS
    ensures k <= r <= MAX_TRIALS
    decreases MAX_TRIALS - k
  {
    if k == MAX_TRIALS || !Rejects(ft, probe, g, d2, Inflated(L, k), gmax, guardSmall) then k
    else RejectedFrom(ft, probe, g, d2, L, gmax, guardSmall, k + 1)
  }

  /** The number of trials an inline loop rejects, as a function of its inputs. */
  function RejectedTrials(ft: real, probe: real -> Eval, g: real, d2: real, L: real, gmax: Cap,
                          guardSmall: bool): nat
    requires d2 > 0.0 && L > 0.0
  {
    RejectedFrom(ft, probe, g, d2, L, gmax, guardSmall, 0)
  }

  /** A count whose trials below it were all rejected and whose own trial (if any remains)
      was not is the count `RejectedTrials` gives. */
  lemma {:induction false} RejectedFromIs(ft: real, probe: real -> Eval, g: real, d2: real, L: real,
                                          gmax: Cap, guardSmall: bool, rejected: nat, k: nat)
    requires d2 > 0.0 && L > 0.0 && k <= rejected <= MAX_TRIALS
    requires forall j :: k <= j < rejected ==> Rejects(ft, probe, g, d2, Inflated(L, j), gmax, guardSmall)
    requires rejected < MAX_TRIALS ==> !Rejects(ft, probe, g, d2, Inflated(L, rejected), gmax, guardSmall)
    ensures RejectedFrom(ft, probe, g, d2, L, gmax, guardSmall, k) == rejected
    decreases rejected - k
  {
    if k < rejected {
      RejectedFromIs(ft, probe, g, d2, L, gmax, guardSmall, rejected, k + 1);
    }
  }

  /** The trial whose step an inline loop ends with after `rejected` rejections: the
      last one when all 100 trials were rejected. */
  function LastTrial(rejected: nat): nat
  {
    if rejected < MAX_TRIALS then rejected else MAX_TRIALS - 1
  }

  /** The step an inline loop returns after `rejected` rejections. */
  function AdaptiveStep(g: real, d2: real, L: real, cap: Cap, rejected: nat): real
    requires d2 > 0.0 && L > 0.0
  {
    CappedStep(g, d2, Inflated(L, LastTrial(rejected)), cap)
  }

  /** `L_t` after an inline loop with `rejected` rejections: doubled once per rejection, and
      shrunk by `dec` only when the first trial passed the test itself rather than the
      small-step guard. */
  function AdaptiveLipschitz(g: real, d2: real, L: real, cap: Cap, dec: real, guardSmall: bool,
                             rejected: nat): real
    requires d2 > 0.0 && L > 0.0
  {
    if rejected == 0 && !(guardSmall && AdaptiveStep(g, d2, L, cap, 0) < SMALL_STEP) then L * dec
    else Inflated(L, rejected)
  }

  /** What `AdaptiveSearch` promises about its step and `L_t` is what `AdaptiveStep` and
      `AdaptiveLipschitz` compute. */
  lemma AdaptiveOutcome(g: real, d2: real, L: real, cap: Cap, dec: real, guardSmall: bool,
                        rejected: nat, step: real, lip: real)
    requires d2 > 0.0 && L > 0.0 && rejected <= MAX_TRIALS
    requires rejected < MAX_TRIALS ==>
      && step == CappedStep(g, d2, Inflated(L, rejected), cap)
      && lip == (if (guardSmall && step < SMALL_STEP) || rejected > 0 then Inflated(L, rejected) else L * dec)
    requires rejected == MAX_TRIALS ==>
      step == CappedStep(g, d2, Inflated(L, MAX_TRIALS - 1), cap) && lip == Inflated(L, MAX_TRIALS)
    ensures step == AdaptiveStep(g, d2, L, cap, rejected)
    ensures lip == AdaptiveLipschitz(g, d2, L, cap, dec, guardSmall, rejected)
  {
    if rejected == 0 {
      assert Inflated(L, 0) == L;
    }
  }

  /** Moving from `x` along `d`: the objective at `x + s * d`, as the loops probe it. */
  function Along(fgrad: Objective, x: seq<real>, d: seq<real>): real -> Eval
    requires |x| == |d|
  {
    s => fgrad(Axpy(x, s, d))
  }

  /** The sufficient-decrease loop the drivers write inline (copt/frank_wolfe.py:184-195,
      291-301, 412-429, 555-575): up to 100 trials, doubling `L_t` after each rejected one,
      shrinking it by `dec` when the first trial is accepted. With `guardSmall` a step
      below `SMALL_STEP` ends the loop before the test. `probe(step)` evaluates the
      objective at the point the driver builds from the step. `rejected` is the number
      of trials that were rejected. */
  method AdaptiveSearch(ft: real, probe: real -> Eval, g: real, d2: real, L: real, gmax: Cap,
                        dec: real, guardSmall: bool)
    returns (step: real, lip: real, next: Eval, rejected: nat)
    requires d2 > 0.0 && L > 0.0
    ensures rejected <= MAX_TRIALS
    ensures forall j :: 0 <= j < rejected ==> Rejects(ft, probe, g, d2, Inflated(L, j), gmax, guardSmall)
    ensures rejected < MAX_TRIALS ==>
      && step == CappedStep(g, d2, Inflated(L, rejected), gmax)
      && !Rejects(ft, probe, g, d2, Inflated(L, rejected), gmax, guardSmall)
      && lip == (if (guardSmall && step < SMALL_STEP) || rejected > 0 then Inflated(L, rejected) else L * dec)
    ensures rejected == MAX_TRIALS ==>
      step == CappedStep(g, d2, Inflated(L, MAX_TRIALS - 1), gmax) && lip == Inflated(L, MAX_TRIALS)
    ensures next == probe(step)
  {
    lip := L;
    step := 0.0;
    next := probe(step);
    rejected := 0;
    while rejected < MAX_TRIALS
      invariant rejected <= MAX_TRIALS
      invariant lip == Inflated(L, rejected)
      invariant forall j :: 0 <= j < rejected ==> Rejects(ft, probe, g, d2, Inflated(L, j), gmax, guardSmall)
      invariant rejected > 0 ==> step == CappedStep(g, d2, Inflated(L, rejected - 1), gmax)
      invariant next == probe(step)
    {
      step := CappedStep(g, d2, lip, gmax);
      next := probe(step);
      if guardSmall && step < SMALL_STEP {
        return;
      } else if PassesDecreaseTest(ft, next.loss, step, g, lip, d2) {
        if rejected == 0 {
          lip := lip * dec;
        }
        return;
      } else {
        assert Rejects(ft, probe, g, d2, Inflated(L, rejected), gmax, guardSmall);
        InflatedDoubles(L, rejected);
        lip := lip * 2.0;
        rejected := rejected + 1;
      }
    }
  }

  /** The step-size part of an iteration of the L1 pairwise and away-step drivers
      (copt/frank_wolfe.py:410-452, 555-591): the inline loop with its small-step guard, or
      the closed-form step; any other strategy raises ValueError, and so does an estimate
      `L_t` that has reached `1e10`. `probe(step)` evaluates `f_grad` at the point the
      driver builds from the step; `rejected` counts rejected trials. */
  method InlineLineSearch(ft: real, probe: real -> Eval, g: real, d2: real, L: real, cap: Cap,
                          strategy: Strategy)
    returns (r: Result<LineStep>, rejected: nat)
    requires d2 > 0.0 && L > 0.0
    ensures strategy == ApproxLs || strategy == Other ==> r == Failure(ValueError)
    ensures r.Failure? ==> r.error == ValueError
    ensures r.Success? ==> r.value.next == probe(r.value.step) && 0.0 < r.value.lipschitz < L_LIMIT
    ensures r.Success? && cap.Finite? ==> r.value.step <= cap.bound
    ensures r.Success? && g > 0.0 && (cap.Finite? ==> cap.bound > 0.0) ==> r.value.step > 0.0
    ensures r.Success? && g >= 0.0 && cap.Finite? && cap.bound >= 0.0 ==> r.value.step >= 0.0
    ensures strategy == Lipschitz ==>
      var step := CappedStep(g, d2, L, cap);
      r == (if L >= L_LIMIT then Failure(ValueError) else Success(LineStep(step, L, probe(step))))
    ensures strategy == Lipschitz ==> rejected == 0
    ensures strategy == Adaptive ==>
      && rejected <= MAX_TRIALS
      && (forall j :: 0 <= j < rejected ==> Rejects(ft, probe, g, d2, Inflated(L, j), cap, true))
      && (rejected < MAX_TRIALS ==> !Rejects(ft, probe, g, d2, Inflated(L, rejected), cap, true))
      && rejected == RejectedTrials(ft, probe, g, d2, L, cap, true)
      && (r.Failure? <==> AdaptiveLipschitz(g, d2, L, cap, INLINE_DECREASE, true, rejected) >= L_LIMIT)
      && (r.Success? ==>
            && r.value.step == AdaptiveStep(g, d2, L, cap, rejected)
            && r.value.lipschitz == AdaptiveLipschitz(g, d2, L, cap, INLINE_DECREASE, true, rejected))
  {
    rejected := 0;
    match strategy {
      case Adaptive =>
        var step, lip, next;
        step, lip, next, rejected := AdaptiveSearch(ft, probe, g, d2, L, cap, INLINE_DECREASE, true);
        AdaptiveOutcome(g, d2, L, cap, INLINE_DECREASE, true, rejected, step, lip);
        RejectedFromIs(ft, probe, g, d2, L, cap, true, rejected, 0);
        if lip >= L_LIMIT {
          return Failure(ValueError), rejected;
        }
        MulPositive(L, INLINE_DECREASE);
        r := Success(LineStep(step, lip, next));
      case Lipschitz =>
        var step := CappedStep(g, d2, L, cap);
        if L >= L_LIMIT {
          return Failure(ValueError), rejected;
        }
        r := Success(LineStep(step, L, probe(step)));
      case ApproxLs =>
        return Failure(ValueError), rejected;
      case Other =>
        return Failure(ValueError), rejected;
    }
  }
}
