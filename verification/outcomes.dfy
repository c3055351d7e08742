/** What every solver routine shares: the objective callback, the Python exceptions it can
    end with, the line-search strategy names and the numeric constants of the code. */
module Outcomes {

  /** The Python exceptions the routines raise. `NotFinite` stands for a step that IEEE
      arithmetic would make NaN (a direction of zero length), which the model stops at
      instead of carrying NaN into the iterate. */
  datatype Error = ValueError | AssertionError | UnboundLocalError | IndexError | NotFinite

  datatype Result<T> = Success(value: T) | Failure(error: Error)

  /** What `f_grad(x)` returns: the loss and the gradient. */
  datatype Eval = Eval(loss: real, grad: seq<real>)

  /** `f_grad`: a pure callback from a point to its loss and gradient. */
  type Objective = seq<real> -> Eval

  /** The gradient has the shape of the point, for every point of dimension `n`. */
  ghost predicate Shaped(f: Objective, n: nat)
  {
    forall x: seq<real> :: |x| == n ==> |f(x).grad| == n
  }

  /** The `ls_strategy` argument. `Other` is any string the drivers do not recognise. */
  datatype Strategy = Adaptive | Lipschitz | ApproxLs | Other

  /** `np.finfo(float).eps`, 2^-52. */
  const LS_EPS: real := 1.0 / 4503599627370496.0

  /** Number of trials of every sufficient-decrease loop written inline in the drivers. */
  const MAX_TRIALS: nat := 100

  /** Steps below this end the adaptive loops of the L1 pairwise and away-step drivers. */
  const SMALL_STEP: real := 0.0000001

  /** The L1 drivers give up once the Lipschitz estimate reaches this. */
  const L_LIMIT: real := 10000000000.0

  /** A new trace-norm atom closer than this (squared Chebyshev distance) to an active
      atom is merged into it. */
  const MERGE_TOLERANCE: real := 0.0001
}
