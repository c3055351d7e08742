/** `minimize_PFW_L1` (copt/frank_wolfe.py:364-489): pairwise Frank-Wolfe over the L1 ball.
    The active vertices are kept as a boolean mask of `2n + 1` slots (slot `j < n` is
    `+alpha * e_j`, slot `n + j` is `-alpha * e_j`, slot `2n` the origin) together with the
    weight of the origin, `weight_zero`. Each iteration moves mass from the active slot with
    the largest signed gradient (the away slot) to the oracle's slot, which changes at most
    two coordinates of the iterate. */
module PairwiseL1 {
  import opened Vectors
  import opened Outcomes
  import opened L1Oracle
  import opened StepSize

  /** The vertex a slot stands for. */
  function SlotVertex(alpha: real, n: nat, slot: nat): (v: seq<real>)
    requires slot <= 2 * n
    ensures |v| == n
  {
    if slot < n then Scaled(n, slot, alpha)
    else if slot < 2 * n then Scaled(n, slot - n, -alpha)
    else Zeros(n)
  }

  /** The oracle's slot stands for the oracle's vertex whenever the gradient is not zero (at
      a zero gradient the magnitude is `alpha * sign(0) = 0`). */
  lemma OracleSlotVertex(alpha: real, g: seq<real>)
    requires |g| > 0 && g[ArgMaxAbs(g)] != 0.0
    ensures SlotVertex(alpha, |g|, OracleSlot(g)) == OracleVertex(alpha, g)
  {
    var j := ArgMaxAbs(g);
    ModOfShift(j, |g|);
    if g[j] > 0.0 {
      assert OracleSlot(g) - |g| == j;
    }
  }

  /** `mag_away = alpha * sign(n - idx)`: `alpha` on the positive half (and for `-1`), `0`
      for slot `n`, `-alpha` above it. */
  function AwayMagnitude(alpha: real, n: nat, idx: int): (m: real)
    ensures idx < n ==> m == alpha
    ensures idx == n ==> m == 0.0
    ensures idx > n ==> m == -alpha
  {
    ScaleBySign(alpha, (n - idx) as real)
  }

  /** Away slots below `2n` other than slot `n` move along their own vertex; slot `n` gets
      magnitude zero although it stands for `-alpha * e_0`. */
  lemma AwayMagnitudeMatchesSlot(alpha: real, n: nat, idx: nat)
    requires idx < 2 * n
    ensures idx != n ==> Scaled(n, idx % n, AwayMagnitude(alpha, n, idx)) == SlotVertex(alpha, n, idx)
    ensures idx == n ==> AwayMagnitude(alpha, n, idx) == 0.0
  {
    if idx < n {
      ModOfShift(idx, n);
    } else {
      ModOfShift(idx - n, n);
      assert idx % n == idx - n;
    }
  }

  /** Where an index of the mask lands in Python: `-1` is the last slot. */
  function MaskIndex(n: nat, idx: int): (k: nat)
    requires -1 <= idx <= 2 * n
    ensures k <= 2 * n
    ensures idx >= 0 ==> k == idx
    ensures idx == -1 ==> k == 2 * n
  {
    if idx < 0 then 2 * n else idx
  }

  /** `gamma_max`: the origin's weight when the away slot is the origin, else the away
      coordinate's share `|x[idx % n]| / alpha` of the radius. */
  function AwayCap(x: seq<real>, alpha: real, weightZero: real, idx: int): real
    requires |x| > 0 && alpha > 0.0
  {
    if idx == 2 * |x| then weightZero else Abs(x[idx % |x|]) / alpha
  }

  /** `g_t = grad[idx % n] * mag_away - grad[o % n] * mag_oracle`, as written: for the origin
      slot `2n` the first term is `grad[0] * (-alpha)`. */
  function PairwiseGap(g: seq<real>, o: nat, idx: int, magO: real, magA: real): real
    requires |g| > 0
  {
    g[idx % |g|] * magA - g[o % |g|] * magO
  }

  /** `x_next`: the oracle coordinate gains `step * mag_oracle`; unless the away slot is the
      origin, the away coordinate is then set to its old value minus `step * mag_away`,
      which overwrites the first write when both slots share a coordinate. Only those two
      coordinates change. */
  function PairwiseNext(x: seq<real>, o: nat, idx: int, step: real, magO: real, magA: real,
                        awayZero: bool): (x': seq<real>)
    requires |x| > 0
    ensures |x'| == |x|
    ensures forall i :: 0 <= i < |x| && i != o % |x| && (awayZero || i != idx % |x|) ==> x'[i] == x[i]
    ensures !awayZero ==> x'[idx % |x|] == x[idx % |x|] - step * magA
    ensures awayZero || o % |x| != idx % |x| ==> x'[o % |x|] == x[o % |x|] + step * magO
  {
    var n := |x|;
    var x1 := x[o % n := x[o % n] + step * magO];
    if awayZero then x1 else x1[idx % n := x[idx % n] - step * magA]
  }

  /** With distinct coordinates and a vertex away slot, the update is the pairwise step
      `x + step * (mag_oracle * e_o - mag_away * e_a)`. */
  lemma PairwiseNextIsPairwiseStep(x: seq<real>, o: nat, idx: int, step: real, magO: real,
                                   magA: real)
    requires |x| > 0 && o % |x| != idx % |x|
    ensures PairwiseNext(x, o, idx, step, magO, magA, false)
         == Axpy(x, step, Sub(Scaled(|x|, o % |x|, magO), Scaled(|x|, idx % |x|, magA)))
  {
    var n := |x|;
    var lhs := PairwiseNext(x, o, idx, step, magO, magA, false);
    var rhs := Axpy(x, step, Sub(Scaled(n, o % n, magO), Scaled(n, idx % n, magA)));
    forall i | 0 <= i < n
      ensures lhs[i] == rhs[i]
    {
      if i == o % n {
      } else if i == idx % n {
      } else {
      }
    }
  }

  /** The mask after an iteration (copt/frank_wolfe.py:454-467): the oracle slot is active
      exactly when its coordinate is nonzero; from the second iteration on, the away slot is
      refreshed the same way, except that the origin slot goes inactive only once its
      weight is exactly zero. `-1` writes the origin slot. `weightZero` is the updated weight. */
  function MaskAfter(mask: seq<bool>, x: seq<real>, o: nat, idx: int, first: bool,
                     weightZero: real): (m: seq<bool>)
    requires |x| > 0 && |mask| == 2 * |x| + 1
    requires o < 2 * |x| && -1 <= idx <= 2 * |x| && idx != o
    ensures |m| == |mask|
    ensures m[o] == (x[o % |x|] != 0.0)
    ensures forall k :: 0 <= k < |mask| && k != o && (first || k != MaskIndex(|x|, idx)) ==> m[k] == mask[k]
    ensures !first && idx == 2 * |x| ==> m[2 * |x|] == (mask[2 * |x|] && weightZero != 0.0)
    ensures !first && idx != 2 * |x| ==> m[MaskIndex(|x|, idx)] == (x[idx % |x|] != 0.0)
  {
    var n := |x|;
    var m1 := mask[o := x[o % n] != 0.0];
    if first then m1
    else if idx == 2 * n then (if weightZero == 0.0 then m1[2 * n := false] else m1)
    else m1[MaskIndex(n, idx) := x[idx % n] != 0.0]
  }

  /** Writes `MaskAfter` into the mask. */
  method RefreshMask(active: array<bool>, x: seq<real>, o: nat, idx: int, first: bool,
                     weightZero: real)
    requires |x| > 0 && active.Length == 2 * |x| + 1
    requires o < 2 * |x| && -1 <= idx <= 2 * |x| && idx != o
    modifies active
    ensures active[..] == MaskAfter(old(active[..]), x, o, idx, first, weightZero)
  {
    var n := |x|;
    active[o] := x[o % n] != 0.0;
    if !first {
      if idx == 2 * n {
        if weightZero == 0.0 {
          active[2 * n] := false;
        }
      } else {
        active[MaskIndex(n, idx)] := x[idx % n] != 0.0;
      }
    }
  }

  /** What the loop carries besides the mask: `x_t`, `f_grad(x_t)`, `L_t`, `weight_zero`. */
  datatype PairwiseState = PairwiseState(x: seq<real>, eval: Eval, lipschitz: real, weightZero: real)

  /** `d2_t = 2 * alpha^2`, the squared length of a move between two vertices. */
  function PairwiseD2(alpha: real): real
  {
    2.0 * (alpha * alpha)
  }

  lemma PairwiseD2Positive(alpha: real)
    requires alpha > 0.0
    ensures PairwiseD2(alpha) > 0.0
  {
    calc {
      PairwiseD2(alpha);
    ==
      2.0 * (alpha * alpha);
    > { MulPositive(alpha, alpha); }
      0.0;
    }
  }

  /** The objective along the pairwise move, as the inline loop probes it. */
  function PairwiseProbe(fgrad: Objective, x: seq<real>, o: nat, idx: int, magO: real, magA: real,
                         awayZero: bool): real -> Eval
    requires |x| > 0
  {
    s => fgrad(PairwiseNext(x, o, idx, s, magO, magA, awayZero))
  }

  /** The iteration stops on the gap test: the away slot the mask gives has a positive cap
      and the pairwise gap is at most `tol`. */
  ghost predicate Converged(x: seq<real>, g: seq<real>, weightZero: real, mask: seq<bool>,
                            alpha: real, tol: real)
    requires |x| == |g| > 0 && |mask| == 2 * |x| + 1 && alpha > 0.0
  {
    exists best: ExtReal, idx: int ::
      && BestActive(g, mask, true, best, idx)
      && AwayCap(x, alpha, weightZero, idx) > 0.0
      && PairwiseGap(g, OracleSlot(g), idx, OracleMagnitude(alpha, g), AwayMagnitude(alpha, |g|, idx)) <= tol
  }

  /** What an iteration that takes a step used: the away slot the mask gave (with the value
      `max_active` found for it), the step, and the number of rejected trials of the inline
      loop. */
  datatype SlotStep = SlotStep(best: ExtReal, away: int, step: real, rejected: nat)

  /** What an iteration that takes a step leaves after `st` with mask `mask`
      (copt/frank_wolfe.py:384-470): the gap test failed, the pairwise move to the oracle's
      slot was taken with the step and `L_t` of the strategy, and `weight_zero` and the
      mask were updated. `first` is `it == 0`, when the away-slot bookkeeping is skipped. */
  ghost predicate PairwiseAdvances(fgrad: Objective, alpha: real, tol: real, strategy: Strategy,
                                   first: bool, st: PairwiseState, mask: seq<bool>, t: SlotStep,
                                   st': PairwiseState, mask': seq<bool>)
    requires |st.x| == |st.eval.grad| > 0 && |mask| == 2 * |st.x| + 1
    requires alpha > 0.0 && st.lipschitz > 0.0
  {
    var n := |st.x|;
    var g := st.eval.grad;
    var o := OracleSlot(g);
    var magO := OracleMagnitude(alpha, g);
    var magA := AwayMagnitude(alpha, n, t.away);
    var cap := AwayCap(st.x, alpha, st.weightZero, t.away);
    var gap := PairwiseGap(g, o, t.away, magO, magA);
    var d2 := PairwiseD2(alpha);
    && BestActive(g, mask, true, t.best, t.away)
    && cap > 0.0 && gap > tol && o != t.away
    && st'.x == PairwiseNext(st.x, o, t.away, t.step, magO, magA, t.away == 2 * n)
    && st'.eval == fgrad(st'.x)
    && 0.0 < st'.lipschitz < L_LIMIT
    && st'.weightZero == (if !first && t.away == 2 * n then st.weightZero - t.step else st.weightZero)
    && mask' == MaskAfter(mask, st'.x, o, t.away, first, st'.weightZero)
    && d2 > 0.0
    && match strategy
       case Lipschitz =>
         && t.rejected == 0
         && t.step == ClosedFormStep(gap, d2, st.lipschitz, cap)
         && st'.lipschitz == st.lipschitz
       case Adaptive =>
         var probe := PairwiseProbe(fgrad, st.x, o, t.away, magO, magA, t.away == 2 * n);
         && t.rejected == RejectedTrials(st.eval.loss, probe, gap, d2, st.lipschitz, Finite(cap), true)
         && t.step == AdaptiveStep(gap, d2, st.lipschitz, Finite(cap), t.rejected)
         && st'.lipschitz == AdaptiveLipschitz(gap, d2, st.lipschitz, Finite(cap), INLINE_DECREASE, true, t.rejected)
       case ApproxLs => false
       case Other => false
  }

  /** Why an iteration from `st` with away slot `idx` raises `e` (copt/frank_wolfe.py:
      384-430): the away slot has no weight to move (the assertion on `max_step_size`), or
      the gap test fails and then the oracle and away slots coincide (`d2_t` is taken as
      zero), no inline step rule exists for the strategy, or `L_t` passes its limit. */
  predicate SlotFails(fgrad: Objective, alpha: real, tol: real, strategy: Strategy,
                      st: PairwiseState, idx: int, e: Error)
    requires |st.x| == |st.eval.grad| > 0 && alpha > 0.0 && st.lipschitz > 0.0
  {
    var n := |st.x|;
    var g := st.eval.grad;
    var o := OracleSlot(g);
    var magO := OracleMagnitude(alpha, g);
    var magA := AwayMagnitude(alpha, n, idx);
    var cap := AwayCap(st.x, alpha, st.weightZero, idx);
    var gap := PairwiseGap(g, o, idx, magO, magA);
    var d2 := PairwiseD2(alpha);
    if cap <= 0.0 then e == AssertionError
    else
      && gap > tol && e == ValueError
      && (|| o == idx
          || strategy == ApproxLs || strategy == Other
          || (strategy == Lipschitz && st.lipschitz >= L_LIMIT)
          || (strategy == Adaptive && d2 > 0.0 &&
                var probe := PairwiseProbe(fgrad, st.x, o, idx, magO, magA, idx == 2 * n);
                var rejected := RejectedTrials(st.eval.loss, probe, gap, d2, st.lipschitz, Finite(cap), true);
                AdaptiveLipschitz(gap, d2, st.lipschitz, Finite(cap), INLINE_DECREASE, true, rejected) >= L_LIMIT))
  }

  /** Why an iteration from `st` with mask `mask` raises `e`: `SlotFails` for the away slot
      `max_active` finds in the mask. */
  ghost predicate PfwFails(fgrad: Objective, alpha: real, tol: real, strategy: Strategy,
                           st: PairwiseState, mask: seq<bool>, e: Error)
    requires |st.x| == |st.eval.grad| > 0 && |mask| == 2 * |st.x| + 1
    requires alpha > 0.0 && st.lipschitz > 0.0
  {
    exists best: ExtReal, idx: int ::
      && BestActive(st.eval.grad, mask, true, best, idx)
      && SlotFails(fgrad, alpha, tol, strategy, st, idx, e)
  }

  /** One pass of the loop body (copt/frank_wolfe.py:384-470). `first` is `it == 0`. */
  method Iteration(fgrad: Objective, alpha: real, active: array<bool>, st: PairwiseState,
                   first: bool, tol: real, strategy: Strategy)
    returns (r: Result<PairwiseState>, converged: bool, best: ExtReal, away: int, step: real,
             rejected: nat)
    requires |st.x| == |st.eval.grad| > 0 && active.Length == 2 * |st.x| + 1
    requires alpha > 0.0 && st.lipschitz > 0.0
    modifies active
    ensures BestActive(st.eval.grad, old(active[..]), true, best, away)
    ensures
      var n := |st.x|;
      var g := st.eval.grad;
      var o := OracleSlot(g);
      var magO := OracleMagnitude(alpha, g);
      var magA := AwayMagnitude(alpha, n, away);
      var cap := AwayCap(st.x, alpha, st.weightZero, away);
      var gap := PairwiseGap(g, o, away, magO, magA);
      && (cap <= 0.0 ==> r == Failure(AssertionError))
      && (converged <==> r.Success? && cap > 0.0 && gap <= tol)
      && (converged ==> r.value == st)
      && (cap > 0.0 && gap > tol && o == away ==> r == Failure(ValueError))
      && (cap > 0.0 && gap > tol && (strategy == ApproxLs || strategy == Other) ==> r == Failure(ValueError))
      && (cap > 0.0 && gap > tol && o != away && strategy == Lipschitz ==>
            (r.Failure? <==> st.lipschitz >= L_LIMIT))
      && (cap > 0.0 && gap > tol && o != away && strategy == Adaptive ==>
            var probe := PairwiseProbe(fgrad, st.x, o, away, magO, magA, away == 2 * n);
            var d2 := PairwiseD2(alpha);
            && d2 > 0.0
            && rejected <= MAX_TRIALS
            && (forall j :: 0 <= j < rejected ==>
                  Rejects(st.eval.loss, probe, gap, d2, Inflated(st.lipschitz, j), Finite(cap), true))
            && (r.Failure? <==>
                  AdaptiveLipschitz(gap, d2, st.lipschitz, Finite(cap), INLINE_DECREASE, true, rejected) >= L_LIMIT))
      && (r.Success? && !converged ==> step <= cap && (gap > 0.0 ==> step > 0.0))
    ensures r.Success? && !converged ==>
      PairwiseAdvances(fgrad, alpha, tol, strategy, first, st, old(active[..]),
                       SlotStep(best, away, step, rejected), r.value, active[..])
    ensures !(r.Success? && !converged) ==> active[..] == old(active[..])
    ensures r.Failure? ==> SlotFails(fgrad, alpha, tol, strategy, st, away, r.error)
  {
    var n := |st.x|;
    var g := st.eval.grad;
    var o := OracleSlot(g);
    var magO := OracleMagnitude(alpha, g);
    best, away := MaxActive(g, active, n, true);
    var magA := AwayMagnitude(alpha, n, away);
    var awayZero := away == 2 * n;
    var cap := AwayCap(st.x, alpha, st.weightZero, away);
    step := 0.0;
    converged := false;
    rejected := 0;
    if cap <= 0.0 {
      return Failure(AssertionError), converged, best, away, step, rejected;
    }
    var gap := PairwiseGap(g, o, away, magO, magA);
    if gap <= tol {
      converged := true;
      return Success(st), converged, best, away, step, rejected;
    }
    if o == away {
      return Failure(ValueError), converged, best, away, step, rejected;
    }
    var x := st.x;
    var probe := PairwiseProbe(fgrad, x, o, away, magO, magA, awayZero);
    PairwiseD2Positive(alpha);
    var ls;
    ls, rejected := InlineLineSearch(st.eval.loss, probe, gap, PairwiseD2(alpha), st.lipschitz, Finite(cap), strategy);
    if ls.Failure? {
      return Failure(ls.error), converged, best, away, step, rejected;
    }
    step := ls.value.step;
    var x' := PairwiseNext(x, o, away, step, magO, magA, awayZero);
    var wz := if !first && awayZero then st.weightZero - step else st.weightZero;
    RefreshMask(active, x', o, away, first, wz);
    r := Success(PairwiseState(x', ls.value.next, ls.value.lipschitz, wz));
  }

  /** The mask the driver starts from: only the origin slot is active. */
  function InitialMask(n: nat): (m: seq<bool>)
    ensures |m| == 2 * n + 1
    ensures forall k :: 0 <= k < |m| ==> (m[k] <==> k == 2 * n)
  {
    seq(2 * n + 1, k => k == 2 * n)
  }

  /** Step `i` of a run: state `i` is followed by state `i + 1` through an iteration of the
      loop, which skips the away-slot bookkeeping when it is the first one of the source's
      driver (`corrected == false`). */
  ghost predicate PfwLink(fgrad: Objective, alpha: real, tol: real, strategy: Strategy,
                          corrected: bool, trace: seq<PairwiseState>, masks: seq<seq<bool>>,
                          steps: seq<SlotStep>, i: nat)
    requires alpha > 0.0
  {
    && i < |steps| && i + 1 < |trace| && i + 1 < |masks|
    && |trace[i].x| == |trace[i].eval.grad| > 0 && trace[i].lipschitz > 0.0
    && |masks[i]| == 2 * |trace[i].x| + 1
    && PairwiseAdvances(fgrad, alpha, tol, strategy, !corrected && i == 0, trace[i], masks[i],
                        steps[i], trace[i + 1], masks[i + 1])
  }

  /** `trace`, `masks` and `steps` describe `|steps|` iterations that took a step, from the
      origin with `L0`, `weight_zero = 1` and only the origin slot active: each state is
      followed by the next through an iteration of the loop. */
  ghost predicate PfwRun(fgrad: Objective, n: nat, alpha: real, L0: real, tol: real,
                         strategy: Strategy, corrected: bool, trace: seq<PairwiseState>,
                         masks: seq<seq<bool>>, steps: seq<SlotStep>)
    requires alpha > 0.0
  {
    && |trace| == |masks| == |steps| + 1
    && trace[0] == PairwiseState(Zeros(n), fgrad(Zeros(n)), L0, 1.0)
    && masks[0] == InitialMask(n)
    && (forall i :: 0 <= i < |trace| ==>
          && |trace[i].x| == |trace[i].eval.grad| == n && trace[i].lipschitz > 0.0
          && |masks[i]| == 2 * n + 1)
    && (forall i :: 0 <= i < |steps| ==> PfwLink(fgrad, alpha, tol, strategy, corrected, trace, masks, steps, i))
  }

  /** A run extends by an iteration from its last state. */
  lemma PfwRunExtends(fgrad: Objective, n: nat, alpha: real, L0: real, tol: real,
                      strategy: Strategy, corrected: bool, trace: seq<PairwiseState>,
                      masks: seq<seq<bool>>, steps: seq<SlotStep>, t: SlotStep,
                      st: PairwiseState, mask: seq<bool>)
    requires alpha > 0.0 && n > 0
    requires PfwRun(fgrad, n, alpha, L0, tol, strategy, corrected, trace, masks, steps)
    requires |st.x| == |st.eval.grad| == n && st.lipschitz > 0.0 && |mask| == 2 * n + 1
    requires PairwiseAdvances(fgrad, alpha, tol, strategy, !corrected && |steps| == 0,
                              trace[|steps|], masks[|steps|], t, st, mask)
    ensures PfwRun(fgrad, n, alpha, L0, tol, strategy, corrected, trace + [st], masks + [mask], steps + [t])
  {
    var tr, ms, ss := trace + [st], masks + [mask], steps + [t];
    forall i | 0 <= i < |ss|
      ensures PfwLink(fgrad, alpha, tol, strategy, corrected, tr, ms, ss, i)
    {
      if i < |steps| {
        PfwLinkKept(fgrad, alpha, tol, strategy, corrected, trace, masks, steps, t, st, mask, i);
      } else {
        assert tr[i] == trace[i] && ms[i] == masks[i];
        assert ss[i] == t && tr[i + 1] == st && ms[i + 1] == mask;
      }
    }
  }

  /** Appending a state keeps the links already in a run. */
  lemma PfwLinkKept(fgrad: Objective, alpha: real, tol: real, strategy: Strategy, corrected: bool,
                    trace: seq<PairwiseState>, masks: seq<seq<bool>>, steps: seq<SlotStep>,
                    t: SlotStep, st: PairwiseState, mask: seq<bool>, i: nat)
    requires alpha > 0.0
    requires PfwLink(fgrad, alpha, tol, strategy, corrected, trace, masks, steps, i)
    ensures PfwLink(fgrad, alpha, tol, strategy, corrected, trace + [st], masks + [mask], steps + [t], i)
  {
    var tr, ms, ss := trace + [st], masks + [mask], steps + [t];
    assert tr[i] == trace[i] && ms[i] == masks[i] && ss[i] == steps[i];
    assert tr[i + 1] == trace[i + 1] && ms[i + 1] == masks[i + 1];
  }

  /** The total step taken from the origin slot `2n` over `steps`. */
  function Drawn(steps: seq<SlotStep>, n: nat): real
  {
    if |steps| == 0 then 0.0
    else
      var t := steps[|steps| - 1];
      Drawn(steps[..|steps| - 1], n) + (if t.away == 2 * n then t.step else 0.0)
  }

  lemma DrawnAppend(steps: seq<SlotStep>, t: SlotStep, n: nat)
    ensures Drawn(steps + [t], n) == Drawn(steps, n) + (if t.away == 2 * n then t.step else 0.0)
  {
    assert (steps + [t])[..|steps|] == steps;
  }

  /** One pass of the driver's loop from the last state of a run: an `Iteration` that either
      stops on the gap test, fails, or takes a step that extends the run. `first` is the
      source's `it == 0`, and always false when `corrected`. */
  method Advance(fgrad: Objective, n: nat, alpha: real, L0: real, tol: real, strategy: Strategy,
                 corrected: bool, first: bool, active: array<bool>, st: PairwiseState,
                 ghost trace: seq<PairwiseState>, ghost masks: seq<seq<bool>>, ghost steps: seq<SlotStep>)
    returns (r: Result<PairwiseState>, converged: bool,
             ghost trace': seq<PairwiseState>, ghost masks': seq<seq<bool>>, ghost steps': seq<SlotStep>)
    requires Shaped(fgrad, n) && n > 0 && alpha > 0.0 && active.Length == 2 * n + 1
    requires first == (!corrected && |steps| == 0)
    requires PfwRun(fgrad, n, alpha, L0, tol, strategy, corrected, trace, masks, steps)
    requires trace[|steps|] == st && masks[|steps|] == active[..] && st.eval == fgrad(st.x)
    requires tol >= 0.0 ==> 0.0 <= st.weightZero <= 1.0
    requires corrected ==> st.weightZero == 1.0 - Drawn(steps, n)
    modifies active
    ensures !(r.Success? && !converged) ==>
      active[..] == old(active[..]) && trace' == trace && masks' == masks && steps' == steps
    ensures converged ==> r == Success(st) && Converged(st.x, st.eval.grad, st.weightZero, active[..], alpha, tol)
    ensures strategy == ApproxLs || strategy == Other ==> !(r.Success? && !converged)
    ensures r.Failure? ==> PfwFails(fgrad, alpha, tol, strategy, st, masks[|steps|], r.error)
    ensures r.Success? && !converged ==>
      && |steps'| == |steps| + 1
      && PfwRun(fgrad, n, alpha, L0, tol, strategy, corrected, trace', masks', steps')
      && trace'[|steps'|] == r.value && masks'[|steps'|] == active[..] && r.value.eval == fgrad(r.value.x)
      && (tol >= 0.0 ==> 0.0 <= r.value.weightZero <= 1.0)
      && (corrected ==> r.value.weightZero == 1.0 - Drawn(steps', n))
  {
    trace', masks', steps' := trace, masks, steps;
    var best, away, step, rejected;
    r, converged, best, away, step, rejected :=
      Iteration(fgrad, alpha, active, st, first, tol, strategy);
    if r.Failure? {
      assert BestActive(st.eval.grad, masks[|steps|], true, best, away);
      return;
    }
    if converged {
      return;
    }
    var t := SlotStep(best, away, step, rejected);
    PfwRunExtends(fgrad, n, alpha, L0, tol, strategy, corrected, trace, masks, steps, t, r.value, active[..]);
    DrawnAppend(steps, t, n);
    assert corrected ==> r.value.weightZero == st.weightZero - (if away == 2 * n then step else 0.0);
    trace', masks', steps' := trace + [r.value], masks + [active[..]], steps + [t];
    assert trace'[|steps'|] == r.value && masks'[|steps'|] == active[..];
  }

  /** `minimize_PFW_L1`. The iterate starts at the origin whatever `x0` holds (only its size
      `n` is used), with only the origin slot active and `weight_zero = 1`. Besides the
      result, the final mask and `weight_zero` are returned so that the contract can speak
      of them, and the ghost `trace`, `masks` and `steps` are the run that led to them. A
      run that stops before `max_iter` steps stopped on the gap test. The source's driver
      is `corrected == false`: it skips the away-slot bookkeeping in the first iteration,
      so the step the first iteration draws from the origin is never taken off
      `weight_zero` (`AsWrittenPfwLeavesBall`). With `corrected`, every iteration does the
      bookkeeping and `weight_zero` is exactly one minus what was drawn from the origin. */
  method MinimizePfwL1(fgrad: Objective, n: nat, alpha: real, L0: real, maxIter: nat, tol: real,
                       strategy: Strategy, corrected: bool)
    returns (r: Result<seq<real>>, iters: nat, active: array<bool>, weightZero: real,
             ghost trace: seq<PairwiseState>, ghost masks: seq<seq<bool>>, ghost steps: seq<SlotStep>)
    requires Shaped(fgrad, n) && alpha > 0.0 && L0 > 0.0
    ensures fresh(active) && active.Length == 2 * n + 1
    ensures iters <= maxIter
    ensures |steps| == iters && PfwRun(fgrad, n, alpha, L0, tol, strategy, corrected, trace, masks, steps)
    ensures active[..] == masks[iters] && weightZero == trace[iters].weightZero
    ensures r.Success? ==> r.value == trace[iters].x
    ensures maxIter == 0 ==> r == Success(Zeros(n)) && weightZero == 1.0
    ensures n == 0 && maxIter > 0 ==> r == Failure(ValueError)
    ensures r.Failure? ==> iters < maxIter
    ensures r.Failure? && n > 0 ==> PfwFails(fgrad, alpha, tol, strategy, trace[iters], masks[iters], r.error)
    ensures r.Success? && iters < maxIter ==>
      n > 0 && Converged(r.value, fgrad(r.value).grad, weightZero, active[..], alpha, tol)
    ensures (strategy == ApproxLs || strategy == Other) && r.Success? ==> iters == 0 && r.value == Zeros(n)
    ensures tol >= 0.0 ==> 0.0 <= weightZero <= 1.0
    ensures corrected ==> weightZero == 1.0 - Drawn(steps, n)
  {
    var x := Zeros(n);
    active := new bool[2 * n + 1](i => i == 2 * n);
    weightZero := 1.0;
    var st := PairwiseState(x, fgrad(x), L0, weightZero);
    iters := 0;
    trace, masks, steps := [st], [active[..]], [];
    assert active[..] == InitialMask(n);
    while iters < maxIter
      invariant iters <= maxIter
      invariant |steps| == iters && PfwRun(fgrad, n, alpha, L0, tol, strategy, corrected, trace, masks, steps)
      invariant trace[iters] == st && masks[iters] == active[..]
      invariant st.eval == fgrad(st.x) && st.weightZero == weightZero
      invariant n == 0 || strategy == ApproxLs || strategy == Other ==> iters == 0
      invariant tol >= 0.0 ==> 0.0 <= weightZero <= 1.0
      invariant corrected ==> weightZero == 1.0 - Drawn(steps, n)
    {
      if n == 0 {
        return Failure(ValueError), iters, active, weightZero, trace, masks, steps;
      }
      var res, converged;
      res, converged, trace, masks, steps :=
        Advance(fgrad, n, alpha, L0, tol, strategy, corrected, !corrected && iters == 0, active, st,
                trace, masks, steps);
      if res.Failure? {
        return Failure(res.error), iters, active, weightZero, trace, masks, steps;
      }
      if converged {
        return Success(st.x), iters, active, weightZero, trace, masks, steps;
      }
      st := res.value;
      weightZero := st.weightZero;
      iters := iters + 1;
    }
    return Success(st.x), iters, active, weightZero, trace, masks, steps;
  }

  /** On `f(x) = -x_0` with `n = 1` and `alpha = 1` the oracle picks `+e_0`; a move from the
      origin slot to it has gap 2. */
  lemma NegativeUnitGradient()
    ensures ArgMaxAbs([-1.0]) == 0
    ensures OracleSlot([-1.0]) == 0 && OracleMagnitude(1.0, [-1.0]) == 1.0
    ensures AwayMagnitude(1.0, 1, 2) == -1.0
    ensures PairwiseGap([-1.0], 0, 2, 1.0, -1.0) == 2.0
  {
  }

  /** With `L_t = 1` and cap 1, the `Lipschitz` step for that gap is the full step 1. */
  lemma UnitPairwiseStep()
    ensures ClosedFormStep(2.0, PairwiseD2(1.0), 1.0, 1.0) == 1.0
  {
    assert PairwiseD2(1.0) == 2.0;
  }

  /** The source's first iteration on that objective (copt/frank_wolfe.py:458): the away slot
      is the origin and the step is 1, but with `it == 0` the bookkeeping is skipped, so
      `weight_zero` stays 1 and the origin stays active next to `+e_0`. */
  lemma AsWrittenFirstIteration()
    ensures BestActive([-1.0], [false, false, true], true, Fin(0.0), 2)
    ensures AwayCap([0.0], 1.0, 1.0, 2) == 1.0
    ensures PairwiseNext([0.0], 0, 2, 1.0, 1.0, -1.0, true) == [1.0]
    ensures MaskAfter([false, false, true], [1.0], 0, 2, true, 1.0) == [true, false, true]
  {
  }

  /** The source's second iteration: `+e_0` has a negative signed gradient, so the origin
      is the away slot again with cap `weight_zero = 1`; any positive step (the gap is 2, so
      every strategy takes one; `Lipschitz` takes 1 and reaches `[2]`) leaves the ball. */
  lemma AsWrittenPfwLeavesBall()
    ensures BestActive([-1.0], [true, false, true], true, Fin(0.0), 2)
    ensures AwayCap([1.0], 1.0, 1.0, 2) == 1.0
    ensures PairwiseNext([1.0], 0, 2, 1.0, 1.0, -1.0, true) == [2.0] && L1Norm([2.0]) > 1.0
    ensures forall s: real :: s > 0.0 ==> L1Norm(PairwiseNext([1.0], 0, 2, s, 1.0, -1.0, true)) > 1.0
  {
    forall s: real | s > 0.0
      ensures L1Norm(PairwiseNext([1.0], 0, 2, s, 1.0, -1.0, true)) > 1.0
    {
      assert PairwiseNext([1.0], 0, 2, s, 1.0, -1.0, true) == [1.0 + s];
      assert L1Norm([1.0 + s]) == 1.0 + s;
    }
    assert PairwiseNext([1.0], 0, 2, 1.0, 1.0, -1.0, true) == [2.0];
    assert L1Norm([2.0]) == 2.0;
  }

  /** With the bookkeeping done from the first iteration on, the same run takes the origin's
      weight to zero and drops the origin from the mask; the second iteration then draws
      from `+e_0` itself, its gap is 0, and the driver stops at `[1]`, inside the ball. */
  lemma CorrectedPfwStopsInBall(tol: real)
    requires tol >= 0.0
    ensures var g := [-1.0];
      && MaskAfter([false, false, true], [1.0], 0, 2, false, 1.0 - 1.0) == [true, false, false]
      && BestActive(g, [true, false, false], true, Fin(-1.0), 0)
      && AwayMagnitude(1.0, 1, 0) == 1.0
      && AwayCap([1.0], 1.0, 0.0, 0) == 1.0
      && PairwiseGap(g, 0, 0, 1.0, 1.0) == 0.0
      && Converged([1.0], g, 0.0, [true, false, false], 1.0, tol)
      && L1Norm([1.0]) <= 1.0
  {
    NegativeUnitGradient();
    var g := [-1.0];
    assert BestActive(g, [true, false, false], true, Fin(-1.0), 0);
    assert AwayCap([1.0], 1.0, 0.0, 0) == 1.0;
  }
}
