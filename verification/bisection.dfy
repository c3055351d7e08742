/** The bracketing line searches `approx_ls`, `approx_ls_trace` and `approx_ls_armijo`
    (copt/frank_wolfe.py:27-110). All three bisect `[0, gamma_max]` on the sign of the
    directional derivative, assert before every round that the bracket still has a sign
    change, and stop early once the loss at the midpoint is low enough. */
module Bisection {
  import opened Vectors
  import opened Outcomes

  /** What the inner `obj(gamma)` returns: the loss at `x + gamma * d` and the derivative
      `d . grad` there. */
  datatype LinePoint = LinePoint(loss: real, slope: real)

  /** `obj` of `approx_ls` and `approx_ls_armijo`, with `d_t.T.dot(grad)` read as the inner
      product of vectors. `grad.multiply(d).sum()` of `approx_ls_trace` is the same inner
      product on the flattened matrices. When `approx_ls` is handed matrices, as the trace
      driver does, numpy's product is a matrix instead, which this reading does not cover.
      A gradient of the wrong shape (which a `Shaped` objective never returns) gets slope
      zero. */
  function Line(fgrad: Objective, x: seq<real>, d: seq<real>): real -> LinePoint
    requires |x| == |d|
  {
    gamma =>
      var e := fgrad(Axpy(x, gamma, d));
      LinePoint(e.loss, if |e.grad| == |d| then Dot(d, e.grad) else 0.0)
  }

  /** `lbracket`, `grad_lbracket`, `rbracket`, `grad_rbracket`. */
  datatype Bracket = Bracket(lo: real, gLo: real, hi: real, gHi: real)

  /** The last midpoint `c` and the loss and derivative there (`fc`, `grad_c`). */
  datatype Midpoint = Midpoint(c: real, fc: real, gc: real)

  /** The state after the loop; `rounds` counts the bisections done. */
  datatype Search = Search(bracket: Bracket, last: Midpoint, rounds: nat)

  /** The asserted condition `grad_lbracket * grad_rbracket <= 0`. */
  predicate SignChange(b: Bracket)
  {
    b.gLo * b.gHi <= 0.0
  }

  function InitialBracket(phi: real -> LinePoint, gmax: real): Bracket
  {
    Bracket(0.0, phi(0.0).slope, gmax, phi(gmax).slope)
  }

  /** The bracket update as the source writes it: the midpoint replaces the left end when
      its derivative times the left derivative is nonnegative. */
  function NextBracketAsWritten(b: Bracket, m: Midpoint): (b': Bracket)
    ensures b.gLo != 0.0 && SignChange(b) ==> SignChange(b')
    ensures (b'.lo == m.c && b'.gLo == m.gc && b'.hi == b.hi && b'.gHi == b.gHi)
         || (b'.lo == b.lo && b'.gLo == b.gLo && b'.hi == m.c && b'.gHi == m.gc)
  {
    SignChangeKept(b.gLo, b.gHi, m.gc);
    if m.gc * b.gLo >= 0.0 then Bracket(m.c, m.gc, b.hi, b.gHi) else Bracket(b.lo, b.gLo, m.c, m.gc)
  }

  /** The corrected bracket update. It agrees with the source whenever the left derivative
      is nonzero; with a zero left derivative it keeps the end that preserves the sign
      change, so the asserted condition is an invariant. */
  function NextBracket(b: Bracket, m: Midpoint): (b': Bracket)
    ensures b.gLo != 0.0 ==> b' == NextBracketAsWritten(b, m)
    ensures SignChange(b) ==> SignChange(b')
    ensures (b'.lo == m.c && b'.gLo == m.gc && b'.hi == b.hi && b'.gHi == b.gHi)
         || (b'.lo == b.lo && b'.gLo == b.gLo && b'.hi == m.c && b'.gHi == m.gc)
  {
    var moveLo := if b.gLo == 0.0 then m.gc * b.gHi <= 0.0 else m.gc * b.gLo >= 0.0;
    SignChangeKept(b.gLo, b.gHi, m.gc);
    if moveLo then Bracket(m.c, m.gc, b.hi, b.gHi) else Bracket(b.lo, b.gLo, m.c, m.gc)
  }

  lemma SignChangeKept(gl: real, gr: real, gc: real)
    ensures gl * gr <= 0.0 && gl == 0.0 && !(gc * gr <= 0.0) ==> gl * gc <= 0.0
    ensures gl * gr <= 0.0 && gl != 0.0 && gc * gl >= 0.0 ==> gc * gr <= 0.0
    ensures gl * gr <= 0.0 && gl != 0.0 && !(gc * gl >= 0.0) ==> gl * gc <= 0.0
  {
    if gl * gr <= 0.0 && gl != 0.0 && gc * gl >= 0.0 {
      if gl > 0.0 {
        if gr > 0.0 { MulPositive(gl, gr); }
        if gc < 0.0 { MulPositive(-gc, gl); }
        MulNonneg(gc, -gr);
      } else {
        if gr < 0.0 { MulPositive(-gl, -gr); }
        if gc > 0.0 { MulPositive(gc, -gl); }
        MulNonneg(-gc, gr);
      }
    }
  }

  /** The update of one round: the source's when `corrected` is false, the corrected one
      otherwise. */
  function Update(b: Bracket, m: Midpoint, corrected: bool): Bracket
  {
    if corrected then NextBracket(b, m) else NextBracketAsWritten(b, m)
  }

  /** The early exit: `fc < f_t + sigma * c * grad_c`. */
  predicate Stops(ft: real, sigma: real, m: Midpoint)
  {
    m.fc < ft + sigma * m.c * m.gc
  }

  /** The bisection loop, one round per unit of `fuel`: assert the sign change, evaluate
      the midpoint, move one end there, and stop once the midpoint loss is below
      `ft + sigma * c * grad_c` (`sigma` is 0 for `approx_ls` and `approx_ls_trace`,
      0.1 for `approx_ls_armijo`). The source's searches are `corrected == false`. */
  function Bisect(phi: real -> LinePoint, ft: real, sigma: real, corrected: bool, b: Bracket,
                  last: Midpoint, rounds: nat, fuel: nat): Result<Search>
    decreases fuel
  {
    if fuel == 0 then Success(Search(b, last, rounds))
    else if !SignChange(b) then Failure(AssertionError)
    else
      var c := (b.lo + b.hi) / 2.0;
      var p := phi(c);
      var m := Midpoint(c, p.loss, p.slope);
      var b' := Update(b, m, corrected);
      if Stops(ft, sigma, m) then Success(Search(b', m, rounds + 1))
      else Bisect(phi, ft, sigma, corrected, b', m, rounds + 1, fuel - 1)
  }

  /** Under either update the bracket only shrinks, halving each round, and every midpoint
      lies in it. */
  lemma {:induction false} BisectBounds(phi: real -> LinePoint, ft: real, sigma: real, corrected: bool,
                                         b: Bracket, last: Midpoint, rounds: nat, fuel: nat)
    requires b.lo <= b.hi
    decreases fuel
    ensures Bisect(phi, ft, sigma, corrected, b, last, rounds, fuel).Success? ==>
      var s := Bisect(phi, ft, sigma, corrected, b, last, rounds, fuel).value;
      && b.lo <= s.bracket.lo <= s.bracket.hi <= b.hi
      && rounds <= s.rounds <= rounds + fuel
      && s.bracket.hi - s.bracket.lo == Halved(b.hi - b.lo, s.rounds - rounds)
      && (s.rounds > rounds ==> b.lo <= s.last.c <= b.hi)
      && (s.rounds == rounds ==> s.last == last)
  {
    if fuel > 0 && SignChange(b) {
      var c := (b.lo + b.hi) / 2.0;
      var p := phi(c);
      var m := Midpoint(c, p.loss, p.slope);
      var b' := Update(b, m, corrected);
      BisectBounds(phi, ft, sigma, corrected, b', m, rounds + 1, fuel - 1);
      var r := Bisect(phi, ft, sigma, corrected, b, last, rounds, fuel);
      if r.Success? {
        var s := r.value;
        if Stops(ft, sigma, m) {
          assert s.bracket == b';
        } else {
          assert r == Bisect(phi, ft, sigma, corrected, b', m, rounds + 1, fuel - 1);
          HalvedShift(b.hi - b.lo, s.rounds - (rounds + 1));
        }
      }
    }
  }

  /** `w` halved `k` times. */
  function Halved(w: real, k: nat): real
  {
    if k == 0 then w else Halved(w, k - 1) / 2.0
  }

  lemma {:induction false} HalvedShift(w: real, k: nat)
    ensures Halved(w / 2.0, k) == Halved(w, k + 1)
  {
    if k > 0 {
      HalvedShift(w, k - 1);
    }
  }

  /** With the corrected update, a search starting from a sign change never fails the
      assertion (the source's update can: see `AsWrittenSearchFails`). */
  lemma {:induction false} BisectKeepsSignChange(phi: real -> LinePoint, ft: real, sigma: real,
                                                 b: Bracket, last: Midpoint, rounds: nat, fuel: nat)
    requires SignChange(b)
    ensures Bisect(phi, ft, sigma, true, b, last, rounds, fuel).Success?
    decreases fuel
  {
    if fuel > 0 {
      var c := (b.lo + b.hi) / 2.0;
      var p := phi(c);
      var m := Midpoint(c, p.loss, p.slope);
      BisectKeepsSignChange(phi, ft, sigma, Update(b, m, true), m, rounds + 1, fuel - 1);
    }
  }

  /** The loop shared by the three searches, started on `[0, gamma_max]` with no midpoint
      yet, with the source's update. */
  method BisectSearch(phi: real -> LinePoint, ft: real, sigma: real, gmax: real, maxIter: nat)
    returns (r: Result<Search>)
    ensures r == Bisect(phi, ft, sigma, false, InitialBracket(phi, gmax), Midpoint(0.0, 0.0, 0.0), 0, maxIter)
  {
    var lo := 0.0;
    var gLo := phi(lo).slope;
    var hi := gmax;
    var gHi := phi(hi).slope;
    var last := Midpoint(0.0, 0.0, 0.0);
    var i := 0;
    while i < maxIter
      invariant 0 <= i <= maxIter
      invariant Bisect(phi, ft, sigma, false, InitialBracket(phi, gmax), Midpoint(0.0, 0.0, 0.0), 0, maxIter)
             == Bisect(phi, ft, sigma, false, Bracket(lo, gLo, hi, gHi), last, i, maxIter - i)
    {
      if !SignChange(Bracket(lo, gLo, hi, gHi)) {
        return Failure(AssertionError);
      }
      var c := (lo + hi) / 2.0;
      var p := phi(c);
      last := Midpoint(c, p.loss, p.slope);
      var b := NextBracketAsWritten(Bracket(lo, gLo, hi, gHi), last);
      lo, gLo, hi, gHi := b.lo, b.gLo, b.hi, b.gHi;
      if Stops(ft, sigma, last) {
        return Success(Search(b, last, i + 1));
      }
      i := i + 1;
    }
    return Success(Search(Bracket(lo, gLo, hi, gHi), last, i));
  }

  function Mid(b: Bracket): real
  {
    (b.lo + b.hi) / 2.0
  }

  /** What `approx_ls` returns: the midpoint of the final bracket. */
  function ApproxLsValue(phi: real -> LinePoint, ft: real, gmax: real, maxIter: nat): Result<real>
  {
    match Bisect(phi, ft, 0.0, false, InitialBracket(phi, gmax), Midpoint(0.0, 0.0, 0.0), 0, maxIter)
    case Failure(e) => Failure(e)
    case Success(s) => Success(Mid(s.bracket))
  }

  /** What `approx_ls_trace` returns: the last midpoint when it passes a weak Armijo test,
      else the midpoint of the final bracket; with no round `fc` is never bound. */
  function ApproxLsTraceValue(phi: real -> LinePoint, ft: real, gmax: real, maxIter: nat): Result<real>
  {
    if maxIter == 0 then Failure(UnboundLocalError)
    else
      match Bisect(phi, ft, 0.0, false, InitialBracket(phi, gmax), Midpoint(0.0, 0.0, 0.0), 0, maxIter)
      case Failure(e) => Failure(e)
      case Success(s) =>
        if Stops(ft, 0.01, s.last) then Success(s.last.c) else Success(Mid(s.bracket))
  }

  /** What `approx_ls_armijo` returns: the last midpoint; with no round `c` is never bound. */
  function ApproxLsArmijoValue(phi: real -> LinePoint, ft: real, gmax: real, maxIter: nat): Result<real>
  {
    if maxIter == 0 then Failure(UnboundLocalError)
    else
      match Bisect(phi, ft, 0.1, false, InitialBracket(phi, gmax), Midpoint(0.0, 0.0, 0.0), 0, maxIter)
      case Failure(e) => Failure(e)
      case Success(s) => Success(s.last.c)
  }

  /** Every value the three searches return lies in `[0, gamma_max]`. */
  lemma SearchValuesInRange(phi: real -> LinePoint, ft: real, gmax: real, maxIter: nat)
    requires gmax >= 0.0
    ensures ApproxLsValue(phi, ft, gmax, maxIter).Success? ==>
      0.0 <= ApproxLsValue(phi, ft, gmax, maxIter).value <= gmax
    ensures ApproxLsTraceValue(phi, ft, gmax, maxIter).Success? ==>
      0.0 <= ApproxLsTraceValue(phi, ft, gmax, maxIter).value <= gmax
    ensures ApproxLsArmijoValue(phi, ft, gmax, maxIter).Success? ==>
      0.0 <= ApproxLsArmijoValue(phi, ft, gmax, maxIter).value <= gmax
  {
    var b0, m0 := InitialBracket(phi, gmax), Midpoint(0.0, 0.0, 0.0);
    BisectBounds(phi, ft, 0.0, false, b0, m0, 0, maxIter);
    BisectBounds(phi, ft, 0.1, false, b0, m0, 0, maxIter);
  }

  /** With the corrected update, a sign change at the ends of `[0, gamma_max]` rules out the
      assertion failure for every `sigma`, and the result stays in `[0, gamma_max]`. */
  lemma CorrectedSearchSucceeds(phi: real -> LinePoint, ft: real, sigma: real, gmax: real, maxIter: nat)
    requires gmax >= 0.0 && SignChange(InitialBracket(phi, gmax))
    ensures var r := Bisect(phi, ft, sigma, true, InitialBracket(phi, gmax), Midpoint(0.0, 0.0, 0.0), 0, maxIter);
      r.Success? && 0.0 <= Mid(r.value.bracket) <= gmax
  {
    var b0, m0 := InitialBracket(phi, gmax), Midpoint(0.0, 0.0, 0.0);
    BisectKeepsSignChange(phi, ft, sigma, b0, m0, 0, maxIter);
    BisectBounds(phi, ft, sigma, true, b0, m0, 0, maxIter);
  }

  /** `approx_ls`. */
  method ApproxLs(phi: real -> LinePoint, ft: real, gmax: real, maxIter: nat) returns (r: Result<real>)
    ensures r == ApproxLsValue(phi, ft, gmax, maxIter)
    ensures gmax >= 0.0 && r.Success? ==> 0.0 <= r.value <= gmax
  {
    var s := BisectSearch(phi, ft, 0.0, gmax, maxIter);
    if s.Failure? {
      return Failure(s.error);
    }
    r := Success(Mid(s.value.bracket));
    if gmax >= 0.0 {
      SearchValuesInRange(phi, ft, gmax, maxIter);
    }
  }

  /** `approx_ls_trace`. */
  method ApproxLsTrace(phi: real -> LinePoint, ft: real, gmax: real, maxIter: nat) returns (r: Result<real>)
    ensures r == ApproxLsTraceValue(phi, ft, gmax, maxIter)
    ensures gmax >= 0.0 && r.Success? ==> 0.0 <= r.value <= gmax
  {
    var s := BisectSearch(phi, ft, 0.0, gmax, maxIter);
    if maxIter == 0 {
      return Failure(UnboundLocalError);
    }
    if s.Failure? {
      return Failure(s.error);
    }
    var m := s.value.last;
    if Stops(ft, 0.01, m) {
      r := Success(m.c);
    } else {
      r := Success(Mid(s.value.bracket));
    }
    if gmax >= 0.0 {
      SearchValuesInRange(phi, ft, gmax, maxIter);
    }
  }

  /** `approx_ls_armijo`. */
  method ApproxLsArmijo(phi: real -> LinePoint, ft: real, gmax: real, maxIter: nat) returns (r: Result<real>)
    ensures r == ApproxLsArmijoValue(phi, ft, gmax, maxIter)
    ensures gmax >= 0.0 && r.Success? ==> 0.0 <= r.value <= gmax
  {
    var s := BisectSearch(phi, ft, 0.1, gmax, maxIter);
    if maxIter == 0 {
      return Failure(UnboundLocalError);
    }
    if s.Failure? {
      return Failure(s.error);
    }
    r := Success(s.value.last.c);
    if gmax >= 0.0 {
      SearchValuesInRange(phi, ft, gmax, maxIter);
    }
  }

  /** The source's update breaks the asserted condition: with a zero derivative at the left
      end, a midpoint whose derivative has the sign of the right end becomes the new left
      end, and both ends then have positive derivatives. This happens for `f(y) = y^2`
      searched from `x = 0` along `d = 1` (derivatives 0, 1 and 2 at 0, 1/2 and 1, no early
      stop since the loss only grows), so the second round raises AssertionError. */
  lemma AsWrittenUpdateBreaksSignChange()
    ensures var b := Bracket(0.0, 0.0, 1.0, 2.0);
            var b' := NextBracketAsWritten(b, Midpoint(0.5, 0.25, 1.0));
            SignChange(b) && !SignChange(b')
  {
  }

  /** The same search under the model's update keeps the sign change. */
  lemma CorrectedUpdateKeepsSignChange()
    ensures var b := Bracket(0.0, 0.0, 1.0, 2.0);
            var b' := NextBracket(b, Midpoint(0.5, 0.25, 1.0));
            SignChange(b') && b' == Bracket(0.0, 0.0, 0.5, 1.0)
  {
  }

  /** `f(y) = y^2` on one entry, the objective of the two lemmas below. */
  function Square(y: seq<real>): Eval
  {
    if |y| == 1 then Eval(y[0] * y[0], [2.0 * y[0]]) else Eval(0.0, [])
  }

  /** Along `d = 1` from `x = 0` the loss is `gamma^2` and the derivative `2 * gamma`. */
  lemma SquareLine(gamma: real)
    ensures Line(Square, [0.0], [1.0])(gamma) == LinePoint(gamma * gamma, 2.0 * gamma)
  {
    var y := Axpy([0.0], gamma, [1.0]);
    assert y == [gamma];
    var e := Square(y);
    assert e == Eval(gamma * gamma, [2.0 * gamma]);
    var u, v := [1.0], [2.0 * gamma];
    assert u[1..] == [] && v[1..] == [];
    assert Dot(u, v) == 2.0 * gamma;
    assert Line(Square, [0.0], [1.0])(gamma) == LinePoint(e.loss, Dot(u, e.grad));
  }

  /** The whole search as written fails: on `f(y) = y^2` from `x = 0` along `d = 1` with
      `gamma_max = 1` and two rounds, `approx_ls`, `approx_ls_trace` and `approx_ls_armijo`
      all raise AssertionError in the second round. */
  lemma AsWrittenSearchFails()
    ensures ApproxLsValue(Line(Square, [0.0], [1.0]), 0.0, 1.0, 2) == Failure(AssertionError)
    ensures ApproxLsTraceValue(Line(Square, [0.0], [1.0]), 0.0, 1.0, 2) == Failure(AssertionError)
    ensures ApproxLsArmijoValue(Line(Square, [0.0], [1.0]), 0.0, 1.0, 2) == Failure(AssertionError)
  {
    var phi := Line(Square, [0.0], [1.0]);
    SquareLine(0.0);
    SquareLine(1.0);
    SquareLine(0.5);
    var b0 := InitialBracket(phi, 1.0);
    assert b0 == Bracket(0.0, 0.0, 1.0, 2.0);
    var m := Midpoint(0.5, 0.25, 1.0);
    assert Update(b0, m, false) == Bracket(0.5, 1.0, 1.0, 2.0);
    assert Bisect(phi, 0.0, 0.0, false, Bracket(0.5, 1.0, 1.0, 2.0), m, 1, 1) == Failure(AssertionError);
    assert Bisect(phi, 0.0, 0.1, false, Bracket(0.5, 1.0, 1.0, 2.0), m, 1, 1) == Failure(AssertionError);
  }

  /** The corrected search on the same input keeps the sign change in both rounds and returns
      `1/8`, the midpoint of `[0, 1/4]`. */
  lemma CorrectedSearchSucceedsOnSquare()
    ensures var r := Bisect(Line(Square, [0.0], [1.0]), 0.0, 0.0, true, Bracket(0.0, 0.0, 1.0, 2.0),
                            Midpoint(0.0, 0.0, 0.0), 0, 2);
      r.Success? && Mid(r.value.bracket) == 0.125
  {
    var phi := Line(Square, [0.0], [1.0]);
    SquareLine(0.5);
    SquareLine(0.25);
    var m := Midpoint(0.5, 0.25, 1.0);
    var m' := Midpoint(0.25, 0.0625, 0.5);
    assert Update(Bracket(0.0, 0.0, 1.0, 2.0), m, true) == Bracket(0.0, 0.0, 0.5, 1.0);
    assert Update(Bracket(0.0, 0.0, 0.5, 1.0), m', true) == Bracket(0.0, 0.0, 0.25, 0.5);
    assert Bisect(phi, 0.0, 0.0, true, Bracket(0.0, 0.0, 0.5, 1.0), m, 1, 1)
        == Success(Search(Bracket(0.0, 0.0, 0.25, 0.5), m', 2));
  }
}
