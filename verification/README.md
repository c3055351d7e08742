# Frank-Wolfe over the L1 and trace-norm balls, modelled in Dafny

This project models the core of `copt/frank_wolfe.py`, a Frank-Wolfe (conditional
gradient) optimiser, and proves properties of that model. Reals are exact Dafny `real`
values. The objective `f_grad` is a pure function parameter returning the loss and the
gradient.

The modules follow the parts of the source:

- `Vectors` holds dense vectors as `seq<real>`: inner product, L1 norm, `x + s * d`, and
  the convexity facts the drivers rely on.
- `Outcomes` holds the Python exceptions as a `Result` datatype, the `ls_strategy`
  names and the numeric constants of the code.
- `L1Oracle` holds the linear-minimisation oracle of the L1 ball and the signed-slot
  encoding of its vertices. Slot `j < n` is `+alpha * e_j`, slot `n + j` is
  `-alpha * e_j`, and slot `2n` is the origin. It also holds `max_active`, a method
  scanning a boolean `array` mask.
- `StepSize` holds the closed-form step, `backtrack`, and the sufficient-decrease loops
  the drivers write inline.
- `Bisection` holds the bracketing searches `approx_ls`, `approx_ls_trace` and
  `approx_ls_armijo`.
- `FwL1` holds `minimize_FW_L1`.
- `PairwiseL1` holds `minimize_PFW_L1`: the mask of `2n + 1` slots, `weight_zero`, and
  the update that changes at most two coordinates.
- `AwayL1` holds `minimize_AFW_L1`: the choice between a Frank-Wolfe step and an away
  step, and its step cap.
- `PfwTrace` holds the active-set lists of `minimize_PFW_trace`. They are a `class`
  whose `atoms` and `coefs` fields the update reassigns in place. Matrices are flattened
  to their entries.

Loops in the source are `while`/`for` loops here, proved against functions or
predicates that state what they compute:

- the bisection loop against `Bisect`;
- `max_active` against `BestActive`;
- the adaptive loops against `Rejects`, `AdaptiveStep` and `AdaptiveLipschitz`;
- the two scans of the trace driver against `IsNearest` and `IsAway`.

Each driver also returns, as ghost out-parameters, the run that led to its result: the
sequence of states from the start, and what each iteration chose. Consecutive states
are related by the predicate that the driver's `Step` or `Iteration` ensures
(`FwAdvances`, `PairwiseAdvances`, `AfwAdvances`, `TraceAdvances`), and the result is
the last state. A driver stops early only on the gap test, and it fails only in the
iteration that follows the last state of the run, for a reason the source raises there.
The predicates `StepFails`, `PfwFails`, `AfwFails` and `TraceFails` collect those
reasons: an assertion, a configuration error, a step that is `0 / 0`, `L_t` passing its
limit, or a failed search.

The model follows the code where it departs from the textbook form of these methods or
from what a reader might expect:

- **Away atom of `minimize_PFW_trace`.** The scan keeps the active atom minimising
  `<grad, x_t - atom>`, that is maximising `<grad, atom>`, which is the away atom of the
  pairwise method. On ties it keeps the last one (`<=`, copt/frank_wolfe.py:267). The
  model does the same.
- **Weight total.** In the textbook method the active-set weights are the coefficients
  of a convex combination, so they sum to 1. The code keeps that total except when the
  new atom is merged into the away atom itself and the whole weight moves
  (`WeightsSum`).
- **Empty active list in the trace driver.** It raises IndexError at
  `active_set[0]`, not a configuration error. The `vt_idx < 0` ValueError after the scan
  cannot be reached.
- **Gap test of the trace driver.** Its branch is `pass`, so the driver never stops
  early.
- **Unknown `ls_strategy` in `minimize_FW_L1`.** No branch raises; `step_size` is then
  unbound, which is UnboundLocalError.
- **Away-step cap of `minimize_AFW_L1`.** It is computed from the coordinate
  (`|x_k| / alpha`), not from an atom weight.

Three places where the code defeats its own intent are listed under Findings. For each,
the model keeps the code as written and adds the corrected variant behind a flag. The
flag is `corrected` for the bisection update and for the `weight_zero` bookkeeping of
`minimize_PFW_L1`, and `capped` for the search interval of `minimize_PFW_trace`. The
searches and drivers with the flag off are the source's; the properties the code was
evidently meant to have are proved for the variant with the flag on.

## Model

| member | source | states |
|---|---|---|
| Vectors.Sign | copt/frank_wolfe.py:122 | numpy's `sign` is 1, -1 or 0, with 1 exactly for positive and 0 exactly for zero input |
| Vectors.Min | copt/frank_wolfe.py:14 | Python's `min` of two numbers is below both and equal to one of them |
| Vectors.L1SegmentInBall | copt/frank_wolfe.py:139 | a step `x + t * (s - x)` with `t` in `[0, 1]` between two points of the L1 ball ends in the ball |
| L1Oracle.ArgMaxAbs | copt/frank_wolfe.py:121 | `np.argmax(np.abs(grad))` is an index of the gradient |
| L1Oracle.ArgMaxAbsIsFirstMax | copt/frank_wolfe.py:121 | the index has the largest magnitude, and every earlier index has a strictly smaller one (first maximum wins) |
| L1Oracle.OracleSlot | copt/frank_wolfe.py:385-387 | the slot is `j` or `j + n` for the first maximiser `j`, is `>= n` exactly when `grad[j] > 0`, and `slot % n == j` |
| L1Oracle.OracleMagnitude | copt/frank_wolfe.py:122 | `alpha * sign(-grad[j])` has magnitude at most `alpha`, exactly `alpha` at a nonzero gradient, and is positive exactly when `grad[j] < 0` |
| L1Oracle.OracleInBall | copt/frank_wolfe.py:121-124 | the oracle's vertex lies in the L1 ball |
| L1Oracle.OracleMinimises | copt/frank_wolfe.py:121-124 | the oracle's vertex minimises `<grad, s>` over every `s` in the ball |
| L1Oracle.VertexBeatsBall | copt/frank_wolfe.py:122-124 | the signed vertex on any coordinate of largest magnitude is no worse than any point of the ball |
| L1Oracle.BestActiveUnique | copt/frank_wolfe.py:342-361 | the description of `max_active`'s answer admits one value and one index for each mask |
| L1Oracle.MaxActive | copt/frank_wolfe.py:342-361 | it returns the active slot with the largest signed gradient (`grad[j]`, or `-grad[j - n]` on the negative half), the first on ties. With `include_zero` it returns the origin slot when that slot is active and every active value is negative. It returns `(-inf, -1)` exactly when nothing it may choose is active |
| StepSize.ClosedFormStep | copt/frank_wolfe.py:14 | `min(g / (d2 * L), gamma_max)` is at most `gamma_max` and equals it exactly when `gamma_max * d2 * L <= g`. It is positive exactly when `g > 0` (for positive `gamma_max`) and nonnegative when `g` and `gamma_max` are |
| StepSize.ClosedFormMinimisesModel | copt/frank_wolfe.py:14-15 | the closed-form step minimises the quadratic upper model `-step * g + step^2 * L * d2 / 2` over `[0, gamma_max]` |
| StepSize.Backtrack | copt/frank_wolfe.py:8-23 | every trial uses the same step `min(g / (d2 * L), gamma_max)`. `L_t` shrinks by `ratio_decrease` exactly when that step passes the test, and otherwise grows once by `ratio_increase`. With `max_iter = 0` the step is unbound |
| StepSize.CappedStep | copt/frank_wolfe.py:557 | with a finite `gamma_max` it is the closed-form step; with an infinite one it is `g / (d2 * L)`, positive exactly when `g` is |
| StepSize.CappedStepMinimisesModel | copt/frank_wolfe.py:557 | the capped step minimises the quadratic model over the steps the cap allows |
| StepSize.Inflated | copt/frank_wolfe.py:429 | `L_t` after `k` doublings stays positive |
| StepSize.InflatedDoubles | copt/frank_wolfe.py:429 | each rejected trial doubles `L_t` |
| StepSize.AdaptiveSearch | copt/frank_wolfe.py:291-301 | every trial before the last was rejected at `L * 2^j`. The last trial uses the capped step at `L * 2^rejected` and passes (or hits the small-step guard). `L_t` shrinks by the decay factor only when the first trial passes the test. After 100 rejections `L_t` has doubled 100 times |
| StepSize.AdaptiveOutcome | copt/frank_wolfe.py:412-429 | what the loop promises about its last step and `L_t` is `AdaptiveStep` (the capped step at `L * 2^rejected`, or at `L * 2^99` after 100 rejections) and `AdaptiveLipschitz` (`L * 0.999` when the first trial passes the test itself, `L * 2^rejected` otherwise) |
| StepSize.RejectedFromIs | copt/frank_wolfe.py:291-301 | a count whose earlier trials were all rejected and whose own trial, if one remains of the 100, was accepted is the count `RejectedTrials` defines from the inputs, so the loop's count is determined by the loss, the probe, the gap and `L_t` |
| StepSize.InlineLineSearch | copt/frank_wolfe.py:410-452 | adaptive and Lipschitz steps of the L1 pairwise and away drivers. The Lipschitz step is the closed form at `L_t`. The adaptive loop rejects every trial before the last and returns `AdaptiveStep` with the new `L_t` `AdaptiveLipschitz`. The call fails with ValueError exactly when that `L_t` is at least `1e10`. The step is at most the cap, and positive for a positive gap and cap. `approx_ls` and unknown strategies raise ValueError |
| Bisection.NextBracket | copt/frank_wolfe.py:43-48 | the corrected update: it agrees with the source's whenever the left derivative is nonzero, moves exactly one end to the midpoint, and always keeps the sign change |
| Bisection.NextBracketAsWritten | copt/frank_wolfe.py:43-48 | the source's update moves exactly one end to the midpoint and keeps the sign change when the left derivative is nonzero |
| Bisection.Update | copt/frank_wolfe.py:43-48 | one round uses the source's update, or the corrected one when `corrected` holds |
| Bisection.BisectBounds | copt/frank_wolfe.py:39-48 | under either update the final bracket lies inside the initial one, its width is the initial width halved once per round, and the last midpoint lies in the initial bracket |
| Bisection.BisectKeepsSignChange | copt/frank_wolfe.py:39-48 | with the corrected update, a search starting from a sign change never fails the assertion |
| Bisection.BisectSearch | copt/frank_wolfe.py:35-50 | the loop, with the source's update, computes exactly the recursive description `Bisect` started on `[0, gamma_max]` |
| Bisection.SearchValuesInRange | copt/frank_wolfe.py:35-110 | every value the three searches return lies in `[0, gamma_max]` |
| Bisection.CorrectedSearchSucceeds | copt/frank_wolfe.py:35-50 | with the corrected update, a sign change at the ends of `[0, gamma_max]` rules out the assertion failure for every `sigma`, and the bracket's midpoint lies in `[0, gamma_max]` |
| Bisection.ApproxLs | copt/frank_wolfe.py:27-52 | `approx_ls`, with the source's update, returns the midpoint of the final bracket, in `[0, gamma_max]`, or the AssertionError of the loop |
| Bisection.ApproxLsTrace | copt/frank_wolfe.py:54-81 | `approx_ls_trace` returns the last midpoint when it passes the weak Armijo test, else the bracket's midpoint, in `[0, gamma_max]`; with no round it is unbound |
| Bisection.ApproxLsArmijo | copt/frank_wolfe.py:85-110 | `approx_ls_armijo` returns the last midpoint, in `[0, gamma_max]`; with no round it is unbound |
| Bisection.AsWrittenUpdateBreaksSignChange | copt/frank_wolfe.py:43-45 | the source's update turns a bracket with a sign change into one without |
| Bisection.CorrectedUpdateKeepsSignChange | copt/frank_wolfe.py:43-48 | the corrected update keeps the sign change on the same input |
| Bisection.AsWrittenSearchFails | copt/frank_wolfe.py:27-110 | on `f(y) = y^2` from 0 along 1 with `gamma_max = 1` and two rounds, all three searches raise AssertionError |
| Bisection.CorrectedSearchSucceedsOnSquare | copt/frank_wolfe.py:39-50 | on the same input the corrected search succeeds, with midpoint 1/8 |
| FwL1.Direction | copt/frank_wolfe.py:123-124 | `d_t` is `-x_t` off the oracle coordinate and `mag_oracle - x_t` on it |
| FwL1.GapBoundsBall | copt/frank_wolfe.py:125 | the gap bounds `<grad, x - s>` for every point `s` of the ball |
| FwL1.GapNonnegative | copt/frank_wolfe.py:125-126 | inside the ball the gap is nonnegative |
| FwL1.PositiveGapMoves | copt/frank_wolfe.py:132 | a positive gap gives `d2_t > 0` |
| FwL1.StaysInBall | copt/frank_wolfe.py:139 | a step in `[0, 1]` from a point of the ball stays in the ball |
| FwL1.Step | copt/frank_wolfe.py:121-143 | the new iterate is `x_t + step * d_t` with `f_grad` evaluated there. The backtracking step is the closed form capped at 1 and the new `L_t` shrinks by 0.999 exactly when the decrease test passes, else grows by 2. The Lipschitz step is the closed form with `L_t` kept; the `approx_ls` step is `approx_ls_armijo`'s, whose failure the step shares. The closed-form steps fail exactly when `d_t = 0`. An unknown strategy leaves `step_size` unbound. Every failure is one of these (`StepFails`) |
| FwL1.FwAdvancesInBall | copt/frank_wolfe.py:121-139 | from a point of the ball, every step `Step` can take lies in `[0, 1]` and the new iterate stays in the ball |
| FwL1.FwRunExtends | copt/frank_wolfe.py:120-145 | a run of the loop followed by one more step from its last iterate, taken because the gap exceeded `tol`, is again a run |
| FwL1.MinimizeFwL1 | copt/frank_wolfe.py:112-148 | the ghost trace is a run from `x0`: every step was taken from the previous iterate after a gap above `tol`, as `Step` takes it, and the result is the last iterate. A run that stops early stops at a point whose gap is at most `tol`. An iterate starting in the ball stays in it. Adaptive and Lipschitz runs with `tol >= 0` never fail. An unknown strategy fails unless the start already passes the gap test. An empty gradient raises ValueError. Any other failure happens before `max_iter` iterations, at the last iterate of the run, after a gap above `tol`, for a reason `StepFails` gives |
| PairwiseL1.OracleSlotVertex | copt/frank_wolfe.py:385-388 | at a nonzero gradient the oracle's slot stands for the oracle's vertex |
| PairwiseL1.AwayMagnitude | copt/frank_wolfe.py:393 | `alpha * sign(n - idx)` is `alpha` below slot `n` (and for `-1`), 0 at slot `n`, `-alpha` above |
| PairwiseL1.AwayMagnitudeMatchesSlot | copt/frank_wolfe.py:393 | below `2n` every away slot except `n` moves along its own vertex; slot `n` gets magnitude 0 |
| PairwiseL1.MaskIndex | copt/frank_wolfe.py:467 | Python's index `-1` writes the last slot `2n` |
| PairwiseL1.PairwiseNext | copt/frank_wolfe.py:418-420 | `x_next` differs from `x_t` only at the oracle coordinate and, unless the away slot is the origin, at the away coordinate, with the two writes as the source orders them |
| PairwiseL1.PairwiseNextIsPairwiseStep | copt/frank_wolfe.py:418-420 | with distinct coordinates the update is `x + step * (mag_oracle * e_o - mag_away * e_a)` |
| PairwiseL1.MaskAfter | copt/frank_wolfe.py:454-467 | the oracle slot becomes `x[o % n] != 0`. From the second iteration the away slot is refreshed the same way, except that the origin slot goes off only when `weight_zero` reaches 0. Nothing else changes |
| PairwiseL1.InitialMask | copt/frank_wolfe.py:372-373 | the driver's first mask has `2n + 1` slots, with only the origin slot `2n` active |
| PairwiseL1.RefreshMask | copt/frank_wolfe.py:456-467 | the array after the writes is `MaskAfter` of the old array |
| PairwiseL1.PairwiseD2Positive | copt/frank_wolfe.py:410 | `d2_t = 2 * alpha^2` is positive |
| PairwiseL1.Iteration | copt/frank_wolfe.py:385-469 | The away slot is `max_active`'s. A nonpositive `gamma_max` fails the assertion; a gap at most `tol` stops, leaving the state as it was. Equal slots, `approx_ls` and unknown strategies raise ValueError. Otherwise the iterate is `PairwiseNext`, evaluated by `f_grad`, with a step at most `gamma_max` and positive for a positive gap. The Lipschitz step is the closed form at `L_t`, failing exactly when `L_t >= 1e10`. The adaptive step and new `L_t` are `AdaptiveStep` and `AdaptiveLipschitz` after the rejected trials, failing exactly when that `L_t` is at least `1e10`. `weight_zero` loses the step only when `first` is false and the origin is the away slot. The mask is `MaskAfter`, and it is untouched on every other path. Every failure is one of these (`SlotFails`) |
| PairwiseL1.PfwRunExtends | copt/frank_wolfe.py:384-470 | a run of the loop followed by one more step from its last state and mask, as `Iteration` takes it, is again a run |
| PairwiseL1.DrawnAppend | copt/frank_wolfe.py:458-459 | the total drawn from the origin grows by the step exactly when the origin slot was the away slot |
| PairwiseL1.Advance | copt/frank_wolfe.py:383-470 | one pass of the loop from the last state of a run stops on the gap test with the state unchanged, fails with the mask unchanged for a reason `PfwFails` gives, or extends the run by one step; `weight_zero` stays in `[0, 1]` when `tol >= 0`, and with `corrected` it stays one minus the total drawn |
| PairwiseL1.MinimizePfwL1 | copt/frank_wolfe.py:364-489 | the ghost trace is a run from the origin (whatever `x0` is) with only the origin slot active: every state follows the previous one through a step of `Iteration`, and the result, the mask and `weight_zero` are the last state's. A run that stops early stopped on the gap test. `approx_ls` and unknown strategies never take a step. With `tol >= 0`, `weight_zero` stays in `[0, 1]`. With `corrected`, `weight_zero` is one minus the total step drawn from the origin. A failure happens before `max_iter` iterations, at the last state and mask of the run, for a reason `PfwFails` gives, or is the ValueError of an empty `x0` |
| PairwiseL1.NegativeUnitGradient | copt/frank_wolfe.py:385-409 | for the gradient `[-1]` with `alpha = 1`, the oracle slot is 0 with magnitude 1, the origin slot has magnitude -1, and the gap between them is 2 |
| PairwiseL1.UnitPairwiseStep | copt/frank_wolfe.py:442-443 | with `L_t = 1` and cap 1, the Lipschitz step for gap 2 is 1 |
| PairwiseL1.AsWrittenFirstIteration | copt/frank_wolfe.py:384-467 | on that input the first iteration draws from the origin with cap 1 and reaches `[1]`, and the skipped bookkeeping leaves the origin active beside `+e_0` |
| PairwiseL1.AsWrittenPfwLeavesBall | copt/frank_wolfe.py:384-467 | in the second iteration the origin is again the away slot with cap 1, and every positive step leaves the ball (the Lipschitz step reaches `[2]`) |
| PairwiseL1.CorrectedPfwStopsInBall | copt/frank_wolfe.py:384-467 | with the bookkeeping in the first iteration, the origin's weight is 0, it leaves the mask, the second gap is 0, and the run stops at `[1]` in the ball |
| AwayL1.FwCandidateIsGap | copt/frank_wolfe.py:530-531 | the source's `gt_fw` is the Frank-Wolfe gap `-<s - x, grad>` |
| AwayL1.FwCandidateNonnegative | copt/frank_wolfe.py:534 | inside the ball `assert gt_fw >= 0` holds |
| AwayL1.AwayDirection | copt/frank_wolfe.py:544-545 | `d_t` is `x_t` except at the away coordinate, where it is `x_k - mag_away` |
| AwayL1.AwayCandidateIsSlope | copt/frank_wolfe.py:532 | the source's `gt_a` is `-<d_t, grad>` along the away direction |
| AwayL1.AwayStepCap | copt/frank_wolfe.py:546-547 | `alpha_v / (1 - alpha_v)` is infinite exactly when `|x_k| = alpha`, finite and nonnegative below, and a step of that size takes the away coordinate exactly to zero |
| AwayL1.CapStopsShort | copt/frank_wolfe.py:546-547 | a step up to the cap leaves the away coordinate on its side of zero |
| AwayL1.AwayStepStaysInBall | copt/frank_wolfe.py:544-547 | an away step from a vertex whose sign agrees with the coordinate, short of zero, keeps a point of the ball in the ball |
| AwayL1.AwayCapStep | copt/frank_wolfe.py:546-547 | the same for any step up to the finite cap |
| AwayL1.AwayBranchInBall | copt/frank_wolfe.py:542-548 | the away branch keeps a point of the ball in the ball when the cap is finite and the vertex's sign agrees with the coordinate |
| AwayL1.ChooseMove | copt/frank_wolfe.py:536-548 | it takes the Frank-Wolfe step exactly when `gt_fw >= gt_a`, with direction `d_t`, cap 1 and gap `gt_fw`; otherwise the away direction, the away cap and gap `gt_a`. The chosen gap is the larger of the two and equals `-<d, grad>` |
| AwayL1.PositiveGapMovesAway | copt/frank_wolfe.py:553 | a nonzero gap gives `d2_t > 0` |
| AwayL1.AfwMaskAfter | copt/frank_wolfe.py:596-598 | the oracle slot, then the away slot, become whether their coordinate is nonzero; nothing else changes |
| AwayL1.RefreshAfwMask | copt/frank_wolfe.py:596-598 | the array after the writes is `AfwMaskAfter` of the old array |
| AwayL1.MoveStaysInBall | copt/frank_wolfe.py:536-561 | a Frank-Wolfe step, or an away step within its finite cap from a vertex of the coordinate's sign, keeps a point of the ball in the ball |
| AwayL1.Iteration | copt/frank_wolfe.py:510-598 | The away slot is `max_active`'s, and the assertion fails exactly when `gt_fw < 0`, which it cannot inside the ball. The iteration stops exactly when the chosen gap is at most `tol`, leaving the state as it was. Otherwise the iterate is `x_t + step * d_t` for the chosen move, evaluated by `f_grad`, and the mask is `AfwMaskAfter`. The step is at most the cap, and positive for a positive gap and cap. The Lipschitz step is the capped closed form, failing exactly when `L_t >= 1e10`; the adaptive step and new `L_t` are `AdaptiveStep` and `AdaptiveLipschitz` after the rejected trials, failing exactly when that `L_t` is at least `1e10`. A zero direction is not finite; `approx_ls` and unknown strategies raise ValueError. Every failure is one of these (`MoveFails`) |
| AwayL1.AfwAdvancesInBall | copt/frank_wolfe.py:536-598 | from a point of the ball, a Frank-Wolfe step lies in `[0, 1]` and keeps the ball, as does an away step with a finite cap from a vertex of the coordinate's sign |
| AwayL1.OriginAwayStepLeavesBall | copt/frank_wolfe.py:517-598 | on `f(x) = -x_0` with `n = 1`, `alpha = 1` and `L_t = 1`, the first iteration is a Frank-Wolfe step to `[1]` that leaves the origin slot active; the second takes an away step from the origin slot with magnitude `-alpha` and an infinite cap, its step 1/2 reaches `[2]` (every positive step leaves the ball), and there `gt_fw < 0` |
| AwayL1.StaleSlotAwayStepLeavesBall | copt/frank_wolfe.py:517-598 | a run of the model with `n = 2`, `alpha = 1`, `L_t = 2/3`, the Lipschitz rule and gradients `[0, -1]` at the origin and `[0, 1]` elsewhere goes from the origin through `[0, 1]` and `[0, -1/2]` to `[0, -2]`: slot 1 (`+e_1`) stays active after its coordinate turned negative, and the third iteration is an away step from it with cap 1 that leaves the ball |
| AwayL1.AfwRunExtends | copt/frank_wolfe.py:510-600 | a run of the loop followed by one more step from its last iterate and mask, as `Iteration` takes it, is again a run |
| AwayL1.Advance | copt/frank_wolfe.py:510-600 | one pass of the loop from the last state of a run stops on the gap test, fails with the mask unchanged for a reason `AfwFails` gives, or extends the run by one step; inside the ball it never fails the assertion |
| AwayL1.MinimizeAfwL1 | copt/frank_wolfe.py:492-615 | the ghost trace is a run from the origin with only the origin slot active: every iterate and mask follow the previous ones through a step of `Iteration`, and the result and the mask are the last ones. A run that stops early stopped on the gap test. The assertion cannot fail on the first iteration. `approx_ls` and unknown strategies never take a step. A failure happens before `max_iter` iterations, at the last iterate and mask of the run, for a reason `AfwFails` gives, or is the ValueError of an empty `x0` |
| PfwTrace.MaxSquare | copt/frank_wolfe.py:252 | `(t * t).max()` is nonnegative and bounds every squared entry |
| PfwTrace.MaxSquareAttained | copt/frank_wolfe.py:252 | the maximum is the square of some entry |
| PfwTrace.MaxSquareZero | copt/frank_wolfe.py:252 | it is zero exactly when every entry is zero |
| PfwTrace.DistanceZero | copt/frank_wolfe.py:251-252 | two atoms are at distance zero exactly when they are equal |
| PfwTrace.IsNearestUnique | copt/frank_wolfe.py:250-255 | the nearest-atom description admits one index |
| PfwTrace.ActiveAtomMerges | copt/frank_wolfe.py:250-258 | an oracle atom that is already active is merged into its first copy |
| PfwTrace.NearestAtom | copt/frank_wolfe.py:247-255 | the scan returns the first atom at the smallest distance, and -1 exactly for an empty list |
| PfwTrace.IsAwayUnique | copt/frank_wolfe.py:263-270 | the away-atom description admits one index |
| PfwTrace.AwayAtom | copt/frank_wolfe.py:260-280 | an empty list raises IndexError; otherwise the scan returns the last atom minimising `<grad, x_t - atom>` |
| PfwTrace.RemoveAt | copt/frank_wolfe.py:323-324 | `pop(i)` keeps the entries before `i` and shifts the ones after it down by one |
| PfwTrace.SumAppend | copt/frank_wolfe.py:319-320 | appending a weight adds it to the total |
| PfwTrace.SumGive | copt/frank_wolfe.py:317 | adding to one weight adds to the total |
| PfwTrace.SumTake | copt/frank_wolfe.py:326 | subtracting from one weight subtracts from the total |
| PfwTrace.SumRemoveAt | copt/frank_wolfe.py:323-324 | popping a weight removes it from the total |
| PfwTrace.AddedFacts | copt/frank_wolfe.py:316-320 | the new atom's weight is added to the merged atom or appended last, and the total grows by the step |
| PfwTrace.WeightsSum | copt/frank_wolfe.py:316-326 | with `gamma_max` the away weight, the total is kept, except when the merged atom is the away atom and the whole weight moves |
| PfwTrace.WeightsStayNonnegative | copt/frank_wolfe.py:316-326 | a step in `[0, gamma_max]` keeps every weight nonnegative |
| PfwTrace.WeightsShape | copt/frank_wolfe.py:316-326 | the list shrinks by one exactly when `step == gamma_max`; otherwise the away weight loses the step (or keeps its weight when it was the merged atom); a new atom comes last with weight `step` |
| PfwTrace.ActiveSet.constructor | copt/frank_wolfe.py:230-231 | the lists start as the zero atom with weight 1 |
| PfwTrace.ActiveSet.Update | copt/frank_wolfe.py:316-326 | the lists after the update are `AtomsAfter` and `WeightsAfter` of the old lists |
| PfwTrace.AsWrittenStepOverdrawsAwayAtom | copt/frank_wolfe.py:306-308 | the search as written returns 3/4 on an input where the away weight is 1/2, leaving weight -1/4 |
| PfwTrace.CorrectedStepKeepsWeights | copt/frank_wolfe.py:306-308 | searching `[0, gamma_max]` gives a step in range and nonnegative weights |
| PfwTrace.Select | copt/frank_wolfe.py:247-280 | an empty list raises IndexError; otherwise the nearest atom, the merge test and the away atom are as described |
| PfwTrace.AdaptiveTraceStep | copt/frank_wolfe.py:291-301 | the adaptive step from `x_t` along a nonzero `d_t`: every counted trial was rejected and, below 100 trials, the last one is not; the step is `AdaptiveStep` at most `gamma_max` and the new `L_t` is `AdaptiveLipschitz` with decay 0.99 and no small-step guard, positive |
| PfwTrace.TraceStep | copt/frank_wolfe.py:282-311 | the new iterate is `x_t + step * d_t`, evaluated by `f_grad`. The adaptive step and new `L_t` are `AdaptiveStep` and `AdaptiveLipschitz` (decay 0.99, no small-step guard) after the rejected trials, which are all rejected while the last is not; the Lipschitz step is the closed form capped at `gamma_max` with `L_t` kept; both fail exactly when `d_t = 0`. The `approx_ls` step is the search's on `[0, 1]` as the source calls it (`[0, gamma_max]` with `capped`), whose failure the step shares. Unknown strategies raise ValueError. Every failure is one of these (`LineFails`) |
| PfwTrace.Iteration | copt/frank_wolfe.py:245-326 | the nearest atom, the merge test and the away atom are the scans' answers; the iterate moves along `s_t - v_t` by `TraceStep`'s step with `gamma_max` the away weight, and the lists become `AtomsAfter`/`WeightsAfter`. A failure leaves them unchanged. The adaptive and Lipschitz steps are at most the away weight. The source's `approx_ls` step lies in `[0, 1]`; with `capped` it keeps nonnegative weights nonnegative. A failure is the IndexError of an empty list or a failed step from the atoms the scans find (`TraceFails`) |
| PfwTrace.CombinationAppend | copt/frank_wolfe.py:319-320 | appending an atom with weight `c` moves the weighted sum of the atoms by `c` times that atom |
| PfwTrace.CombinationUpdate | copt/frank_wolfe.py:317 | changing one weight moves the weighted sum by the change times that atom |
| PfwTrace.CombinationRemoveAt | copt/frank_wolfe.py:323-324 | popping an atom and its weight takes that weight times the atom off the weighted sum |
| PfwTrace.CombinationShift | copt/frank_wolfe.py:313-326 | the list update moves the weighted sum of the atoms by `step * (s_t - v_t)`, the move of the iterate, unless the oracle's atom was merged into the away atom and all of its weight moved |
| PfwTrace.ClosedFormStepsNoSelfMerge | copt/frank_wolfe.py:291-305 | the adaptive and Lipschitz steps are never such a self-merge, because they need `d_t != 0` |
| PfwTrace.AdvanceKeepsTotal | copt/frank_wolfe.py:313-326 | an iteration that is not a self-merge keeps the total of the weights |
| PfwTrace.AdvanceKeepsCombination | copt/frank_wolfe.py:245-326 | an iteration that is not a self-merge keeps the iterate equal to `x0` plus the weighted sum of the atoms |
| PfwTrace.TraceRunExtends | copt/frank_wolfe.py:242-334 | a run of the loop followed by one more iteration from its last state is again a run |
| PfwTrace.TraceRunAdvances | copt/frank_wolfe.py:242-334 | one more iteration keeps a run free of self-merges under the closed-form steps, and keeps the iterate at `x0` plus the weighted sum, and the weight total at 1, while no self-merge happened |
| PfwTrace.Advance | copt/frank_wolfe.py:242-334 | one pass of the loop from the last state of a run fails with the lists unchanged, for a reason `TraceFails` gives, or extends the run, keeping the facts the driver states |
| PfwTrace.MinimizePfwTrace | copt/frank_wolfe.py:220-336 | the ghost states are a run from `x0` with the zero atom of weight 1: every state follows the previous one through `Iteration`, the result is the last iterate and the lists are the last state's. A run that raises nothing takes all `max_iter` steps. Adaptive and Lipschitz runs never self-merge, and while no iteration did, the result is `x0` plus the weighted sum of the atoms and the weights total 1. With `capped` and `approx_ls` the weights stay nonnegative and total at most 1. A failure happens before `max_iter` iterations, at the last state of the run, for a reason `TraceFails` gives, or is the ValueError of an empty `x0` |

## Left out

- Floating point: reals are exact. Two IEEE effects are kept because control flow depends
  on them:
  - numpy's division by zero gives an infinite away cap when `alpha_v = 1`;
  - the adaptive test at step 0 in the unguarded loops is true exactly when the loss
    changed.
  A step that IEEE arithmetic would make NaN (`0 / 0` from a zero direction) ends the
  model's iteration with `NotFinite` instead of carrying NaN into the iterate.
- `LS_EPS` is the exact value 2^-52.
- Progress bars, `set_postfix` statistics (`L_average`, `all_Lt`, `hmean`,
  `num_bad_steps`, `L_t_mean`) and the `callback` hook are monitoring only. The
  `numba.njit` decorator is left out as well.
- `minimize_FW_trace` (copt/frank_wolfe.py:151-214) is left out as a driver. Its inline
  adaptive loop is `AdaptiveSearch`, and `approx_ls_trace` is modelled.
- `splinalg.svds` is a foreign iterative SVD. The trace oracle is the function parameter
  `lmo` of `PfwTrace.Iteration`.
- The sparse quadratic `f_grad` built from `A` and `P` is replaced by the `f_grad`
  parameter. `MinimizePfwTrace` reads an empty matrix as an empty `x0`, for which `svds`
  raises ValueError.
- `x0` is not used by `minimize_PFW_L1` and `minimize_AFW_L1` beyond its size; the model
  takes `n`. In `minimize_PFW_trace` the lists start with the zero atom whatever `x0`
  is, so they represent `x_t - x0`, not the iterate itself.
- `tol` in `minimize_PFW_trace` only feeds a `pass`, so `MinimizePfwTrace` has no such
  parameter.
- `d_t.T.dot(grad)` in the bisection searches is read as the inner product `<d_t, grad>`.
  A gradient of the wrong length gets slope 0; a `Shaped` objective never returns one.
  For the vector drivers this is what numpy computes. In `minimize_PFW_trace`, `d_t` is
  a dense matrix and the gradient a scipy sparse matrix, and `svds(k=1)` already needs
  both dimensions to be at least 2. There the product is a matrix, not a number, so the
  assertion at copt/frank_wolfe.py:39 most likely raises before the search runs. The
  model's `approx_ls` branch of that driver runs a search where the code most likely
  fails.
  `approx_ls_trace`, the variant written for matrices, is modelled but no driver
  calls it.
- The drivers are modelled for a positive `L_t`, as a Lipschitz estimate is, and the
  model requires it. With `L_t = 0` every closed-form step divides by zero, and with
  `L_t < 0` the step has the wrong sign.
- PairwiseL1.MinimizePfwL1: requires a positive radius `alpha`, without which the ball
  is a single point. With `alpha = 0` the code returns the origin at the first gap test
  whenever `tol >= 0`, and the model does not cover that case.
- AwayL1.MinimizeAfwL1: requires a positive radius `alpha` for the same reason. With
  `alpha = 0` the code returns the origin at the first gap test whenever `tol >= 0`.
- AwayL1.AfwAdvancesInBall: the ball is proved kept for Frank-Wolfe steps, and for away
  steps with a finite cap whose vertex has the coordinate's sign. The other away steps
  come from three kinds of slot:
  - The origin slot `2n` has away magnitude `-alpha` and, at `|x_0| = alpha`, an
    infinite cap. It stays active after a Frank-Wolfe step, because its refresh reads
    `x[0]`. `OriginAwayStepLeavesBall` gives a run where such a step leaves the ball.
  - Slot `n` has magnitude 0.
  - A vertex slot is refreshed only when it is the oracle's or the away slot, and the
    refresh tests only that the coordinate is nonzero. So a vertex slot stays active
    after its coordinate changed sign. `StaleSlotAwayStepLeavesBall` gives a run where an
    away step from such a stale slot, with a finite cap, leaves the ball.
  `MinimizeAfwL1` therefore carries no ball invariant.
- PfwTrace.WeightsSum: the total is not kept when the merged atom is the away atom and
  `step == gamma_max`. The source then drops that atom together with the weight it just
  received.
- PfwTrace.TraceStep: the `approx_ls` step is bounded by the searched interval only
  when the interval's end is nonnegative. A search on a reversed bracket gives no
  bound.
- PfwTrace.Iteration: with `capped`, the `approx_ls` step keeps the weights nonnegative
  only when they were nonnegative before.
- PairwiseL1.MinimizePfwL1: no invariant keeps the iterate in the L1 ball, not even with
  `corrected`.
  - A vertex slot is refreshed only when it is the oracle's or the away slot, so a slot
    can stay active after its coordinate changed sign.
  - Slot `n` gets away magnitude 0 (`AwayMagnitudeMatchesSlot`), so drawing from it
    moves no mass off its coordinate.
  - What is proved is the `weight_zero` accounting under `corrected`, and the concrete
    run of the Findings, where the source leaves the ball and the corrected driver stops
    inside it.
- PfwTrace.MinimizePfwTrace: the weight total is shown equal to 1 only while no
  iteration was a self-merge, which the adaptive and Lipschitz steps never are. Under
  `approx_ls` a self-merge drops the merged atom with its weight (`WeightsSum`), so
  with `capped` only a total of at most 1 is kept.
- PfwTrace.MinimizePfwTrace: `x_t = x0 + sum_i w_i * atom_i` is proved only while no
  iteration was a self-merge (the oracle's atom merged into the away atom, with the whole
  weight moved). The adaptive and Lipschitz steps never are. An `approx_ls` step can be
  one, and the atom is then dropped with the weight it just received, so the identity
  breaks.

## Findings

| source | as written | input that shows it | evidently intended | confidence | as-written member | corrected member |
|---|---|---|---|---|---|---|
| copt/frank_wolfe.py:43-48 | the midpoint replaces the left end whenever `grad_c * grad_lbracket >= 0`, which always holds when `grad_lbracket == 0`. The same loop is in `approx_ls`, `approx_ls_trace` and `approx_ls_armijo` | `f(y) = y^2` from `x = 0` along `d = 1` with `gamma_max = 1`: derivatives 0, 1, 2 at 0, 1/2, 1. The bracket becomes `[1/2, 1]` with both derivatives positive, so the second round raises AssertionError in all three searches | keep the end that preserves the sign change, so the asserted condition is a loop invariant | not executed | Bisection.AsWrittenUpdateBreaksSignChange, Bisection.AsWrittenSearchFails | Bisection.NextBracket, Bisection.CorrectedUpdateKeepsSignChange, Bisection.BisectKeepsSignChange, Bisection.CorrectedSearchSucceeds, Bisection.CorrectedSearchSucceedsOnSquare |
| copt/frank_wolfe.py:306-308 | the `approx_ls` branch of `minimize_PFW_trace` calls `approx_ls` without `gamma_max`, so it searches `[0, 1]`. This holds under the model's inner-product reading of `d_t.T.dot(grad)`. With numpy's matrix product the branch most likely fails earlier, at the assertion on line 39 (see Left out) | atoms `0` and `1` with weights 1/2 each. `x_t = 0.5`, `f(y) = (y - 1.4)^2`, the oracle atom `1` is merged, and the away atom `0` has `gamma_max = 1/2`. The search returns 3/4, and the away weight becomes -1/4 | pass `gamma_max`, so the step stays in `[0, gamma_max]` and weights stay nonnegative | not executed | PfwTrace.AsWrittenStepOverdrawsAwayAtom | PfwTrace.CorrectedStepKeepsWeights, PfwTrace.Iteration, PfwTrace.MinimizePfwTrace |
| copt/frank_wolfe.py:458-467 | `weight_zero` loses the step, and the away slot is refreshed, only when `it > 0`. The step the first iteration draws from the origin is never taken off `weight_zero` | `f(x) = -x_0` with `n = 1`, `alpha = 1`, `L_t = 1`. The first iteration moves from the origin to `[1]`, with `weight_zero` still 1 and the origin still active. The second draws from the origin again with cap 1, and any positive step leaves the ball. The Lipschitz step reaches `[2]` | do the bookkeeping from the first iteration on, so `weight_zero` is the origin's remaining weight | not executed | PairwiseL1.AsWrittenFirstIteration, PairwiseL1.AsWrittenPfwLeavesBall | PairwiseL1.CorrectedPfwStopsInBall, PairwiseL1.MinimizePfwL1 |
