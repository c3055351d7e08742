/** The active-set bookkeeping of `minimize_PFW_trace` (copt/frank_wolfe.py:220-336). The
    iterate is meant to be the combination, with weights `coefs_active_set`, of the atoms in
    `active_set`. Each iteration picks a new atom (merged into an active atom when it is close
    to one) and an away atom, moves weight from the away atom to the new one, and drops the
    away atom once all of its weight has moved. Matrices are flattened to the sequences of
    their entries. */
module PfwTrace {
  import opened Vectors
  import opened Outcomes
  import opened StepSize
  import opened Bisection

  /** Every atom has `n` entries. */
  predicate Uniform(atoms: seq<seq<real>>, n: nat)
  {
    forall j :: 0 <= j < |atoms| ==> |atoms[j]| == n
  }

  /** The square of one entry. */
  function Sq(a: real): real
  {
    a * a
  }

  /** `(t * t).max()`: the largest squared entry. */
  function MaxSquare(t: seq<real>): (r: real)
    requires |t| > 0
    ensures r >= 0.0
    ensures forall i :: 0 <= i < |t| ==> Sq(t[i]) <= r
    decreases |t|
  {
    SquarePositive(t[0]);
    if |t| == 1 then Sq(t[0])
    else
      var rest := MaxSquare(t[1..]);
      assert forall i :: 1 <= i < |t| ==> t[i] == t[1..][i - 1];
      if rest > Sq(t[0]) then rest else Sq(t[0])
  }

  /** The largest square is the square of some entry. */
  lemma {:induction false} MaxSquareAttained(t: seq<real>)
    requires |t| > 0
    ensures exists i :: 0 <= i < |t| && MaxSquare(t) == Sq(t[i])
    decreases |t|
  {
    if |t| > 1 && MaxSquare(t) != Sq(t[0]) {
      MaxSquareAttained(t[1..]);
      var k :| 0 <= k < |t[1..]| && MaxSquare(t[1..]) == Sq(t[1..][k]);
      assert t[k + 1] == t[1..][k];
      assert MaxSquare(t) == Sq(t[k + 1]);
    } else {
      assert MaxSquare(t) == Sq(t[0]);
    }
  }

  /** The largest square is zero exactly when every entry is zero. */
  lemma {:induction false} MaxSquareZero(t: seq<real>)
    requires |t| > 0
    ensures MaxSquare(t) == 0.0 <==> forall i :: 0 <= i < |t| ==> t[i] == 0.0
    decreases |t|
  {
    if MaxSquare(t) == 0.0 {
      forall i | 0 <= i < |t|
        ensures t[i] == 0.0
      {
        assert t[i] * t[i] <= 0.0;
        SquareZero(t[i]);
      }
    }
    if forall i :: 0 <= i < |t| ==> t[i] == 0.0 {
      if |t| > 1 {
        MaxSquareZero(t[1..]);
      }
    }
  }

  lemma SquareZero(a: real)
    requires a * a <= 0.0
    ensures a == 0.0
  {
    if a > 0.0 {
      calc {
        0.0;
      <  { MulPositive(a, a); }
        a * a;
      <=
        0.0;
      }
    } else if a < 0.0 {
      calc {
        0.0;
      <  { MulPositive(-a, -a); }
        (-a) * (-a);
      ==
        a * a;
      <=
        0.0;
      }
    }
  }

  /** `tmp = s_t - active_set[i]; (tmp * tmp).max()`: the squared Chebyshev distance. */
  function Distance(u: seq<real>, v: seq<real>): real
    requires |u| == |v| > 0
  {
    MaxSquare(Sub(u, v))
  }

  /** Two atoms are at distance zero exactly when they are equal. */
  lemma DistanceZero(u: seq<real>, v: seq<real>)
    requires |u| == |v| > 0
    ensures Distance(u, v) == 0.0 <==> u == v
  {
    var t := Sub(u, v);
    MaxSquareZero(t);
    if forall i :: 0 <= i < |t| ==> t[i] == 0.0 {
      assert forall i :: 0 <= i < |u| ==> u[i] == v[i] by {
        forall i | 0 <= i < |u|
          ensures u[i] == v[i]
        {
          assert t[i] == u[i] - v[i];
        }
      }
    }
  }

  /** What the first loop of an iteration finds: the first active atom at the smallest
      distance from `s`, or -1 when the list is empty. */
  predicate IsNearest(atoms: seq<seq<real>>, s: seq<real>, idx: int)
    requires |s| > 0 && Uniform(atoms, |s|)
  {
    && -1 <= idx < |atoms|
    && (idx == -1 <==> |atoms| == 0)
    && (idx >= 0 ==>
         && (forall j :: 0 <= j < |atoms| ==> Distance(s, atoms[idx]) <= Distance(s, atoms[j]))
         && (forall j :: 0 <= j < idx ==> Distance(s, atoms[idx]) < Distance(s, atoms[j])))
  }

  /** The description pins the index down. */
  lemma IsNearestUnique(atoms: seq<seq<real>>, s: seq<real>, i1: int, i2: int)
    requires |s| > 0 && Uniform(atoms, |s|)
    requires IsNearest(atoms, s, i1) && IsNearest(atoms, s, i2)
    ensures i1 == i2
  {
    if i1 >= 0 && i2 >= 0 {
      assert Distance(s, atoms[i1]) <= Distance(s, atoms[i2]);
      assert Distance(s, atoms[i2]) <= Distance(s, atoms[i1]);
    }
  }

  /** The test `min_vt_st < 1e-4`, false while `min_vt_st` is still infinite. */
  predicate Merges(atoms: seq<seq<real>>, s: seq<real>, idx: int)
    requires |s| > 0 && Uniform(atoms, |s|) && idx < |atoms|
  {
    idx >= 0 && Distance(s, atoms[idx]) < MERGE_TOLERANCE
  }

  /** An oracle atom that is already active is merged into its first copy. */
  lemma ActiveAtomMerges(atoms: seq<seq<real>>, s: seq<real>, idx: int, k: nat)
    requires |s| > 0 && Uniform(atoms, |s|) && IsNearest(atoms, s, idx)
    requires k < |atoms| && atoms[k] == s
    ensures Merges(atoms, s, idx) && atoms[idx] == s
    ensures forall j :: 0 <= j < idx ==> atoms[j] != s
  {
    DistanceZero(s, atoms[k]);
    assert 0.0 <= Distance(s, atoms[idx]) <= Distance(s, atoms[k]) == 0.0;
    DistanceZero(s, atoms[idx]);
    forall j | 0 <= j < idx
      ensures atoms[j] != s
    {
      DistanceZero(s, atoms[j]);
    }
  }

  /** The first loop (copt/frank_wolfe.py:247-255): a strict comparison against
      `min_vt_st`, which starts at infinity. `dist` is meaningful when `idx >= 0`. */
  method NearestAtom(atoms: seq<seq<real>>, s: seq<real>) returns (idx: int, dist: real)
    requires |s| > 0 && Uniform(atoms, |s|)
    ensures IsNearest(atoms, s, idx)
    ensures idx >= 0 ==> dist == Distance(s, atoms[idx])
  {
    idx := -1;
    dist := 0.0;
    for i := 0 to |atoms|
      invariant -1 <= idx < i || (idx == -1 && i == 0)
      invariant idx == -1 <==> i == 0
      invariant idx >= 0 ==> dist == Distance(s, atoms[idx])
      invariant idx >= 0 ==> forall j :: 0 <= j < i ==> dist <= Distance(s, atoms[j])
      invariant idx >= 0 ==> forall j :: 0 <= j < idx ==> dist < Distance(s, atoms[j])
    {
      var t := Distance(s, atoms[i]);
      if idx == -1 || t < dist {
        dist := t;
        idx := i;
      }
    }
  }

  /** `grad.multiply(x_t - v).sum()`: how much the linearisation at `x_t` drops when moving
      from `v` to `x_t`. */
  function AwayLoss(grad: seq<real>, x: seq<real>, v: seq<real>): real
    requires |grad| == |x| == |v|
  {
    Dot(grad, Sub(x, v))
  }

  /** What the second loop finds: the active atom with the smallest loss, the last one on
      ties. */
  predicate IsAway(grad: seq<real>, x: seq<real>, atoms: seq<seq<real>>, idx: int)
    requires |grad| == |x| && Uniform(atoms, |x|)
  {
    && 0 <= idx < |atoms|
    && (forall j :: 0 <= j < |atoms| ==> AwayLoss(grad, x, atoms[idx]) <= AwayLoss(grad, x, atoms[j]))
    && (forall j :: idx < j < |atoms| ==> AwayLoss(grad, x, atoms[idx]) < AwayLoss(grad, x, atoms[j]))
  }

  lemma IsAwayUnique(grad: seq<real>, x: seq<real>, atoms: seq<seq<real>>, i1: int, i2: int)
    requires |grad| == |x| && Uniform(atoms, |x|)
    requires IsAway(grad, x, atoms, i1) && IsAway(grad, x, atoms, i2)
    ensures i1 == i2
  {
    assert AwayLoss(grad, x, atoms[i1]) <= AwayLoss(grad, x, atoms[i2]);
    assert AwayLoss(grad, x, atoms[i2]) <= AwayLoss(grad, x, atoms[i1]);
  }

  /** The second loop (copt/frank_wolfe.py:260-280). `v_t = active_set[0]` comes first, so
      an empty list raises IndexError; otherwise the comparison `<=` against `vt_loss`,
      which starts at infinity, always picks an atom and the later ValueError cannot be
      reached. */
  method AwayAtom(grad: seq<real>, x: seq<real>, atoms: seq<seq<real>>) returns (r: Result<nat>)
    requires |grad| == |x| && Uniform(atoms, |x|)
    ensures r.Failure? <==> |atoms| == 0
    ensures r.Failure? ==> r.error == IndexError
    ensures r.Success? ==> IsAway(grad, x, atoms, r.value)
  {
    if |atoms| == 0 {
      return Failure(IndexError);
    }
    var idx := -1;
    var best := 0.0;
    for i := 0 to |atoms|
      invariant idx == -1 <==> i == 0
      invariant -1 <= idx < i || (idx == -1 && i == 0)
      invariant idx >= 0 ==> best == AwayLoss(grad, x, atoms[idx])
      invariant idx >= 0 ==> forall j :: 0 <= j < i ==> best <= AwayLoss(grad, x, atoms[j])
      invariant idx >= 0 ==> forall j :: idx < j < i ==> best < AwayLoss(grad, x, atoms[j])
    {
      var loss := AwayLoss(grad, x, atoms[i]);
      if idx == -1 || loss <= best {
        best := loss;
        idx := i;
      }
    }
    return Success(idx);
  }

  /** `list.pop(i)`. */
  function RemoveAt<T>(s: seq<T>, i: nat): (r: seq<T>)
    requires i < |s|
    ensures |r| == |s| - 1
    ensures forall j :: 0 <= j < i ==> r[j] == s[j]
    ensures forall j :: i <= j < |r| ==> r[j] == s[j + 1]
  {
    s[..i] + s[i + 1..]
  }

  /** The total of the first `k` weights. */
  function SumTo(w: seq<real>, k: nat): real
    requires k <= |w|
  {
    if k == 0 then 0.0 else SumTo(w, k - 1) + w[k - 1]
  }

  /** `sum(coefs_active_set)`. */
  function Sum(w: seq<real>): real
  {
    SumTo(w, |w|)
  }

  /** Prefix totals only see the prefix. */
  lemma {:induction false} SumToPrefix(w: seq<real>, v: seq<real>, k: nat)
    requires k <= |w| && k <= |v|
    requires forall j :: 0 <= j < k ==> w[j] == v[j]
    ensures SumTo(w, k) == SumTo(v, k)
  {
    if k > 0 {
      SumToPrefix(w, v, k - 1);
    }
  }

  /** Appending a weight adds it to the sum. */
  lemma SumAppend(w: seq<real>, c: real)
    ensures Sum(w + [c]) == Sum(w) + c
  {
    SumToPrefix(w + [c], w, |w|);
  }

  /** Replacing one weight replaces it in the sum. */
  lemma {:induction false} SumToUpdate(w: seq<real>, i: nat, v: real, k: nat)
    requires i < |w| && k <= |w|
    ensures SumTo(w[i := v], k) == SumTo(w, k) + (if i < k then v - w[i] else 0.0)
  {
    if k > 0 {
      SumToUpdate(w, i, v, k - 1);
    }
  }

  /** Taking `c` from one weight takes it from the sum. */
  lemma SumTake(w: seq<real>, i: nat, c: real)
    requires i < |w|
    ensures Sum(w[i := w[i] - c]) == Sum(w) - c
  {
    SumToUpdate(w, i, w[i] - c, |w|);
  }

  /** Giving `c` to one weight adds it to the sum. */
  lemma SumGive(w: seq<real>, i: nat, c: real)
    requires i < |w|
    ensures Sum(w[i := w[i] + c]) == Sum(w) + c
  {
    SumToUpdate(w, i, w[i] + c, |w|);
  }

  /** Dropping entry `i` removes it from every prefix total that reaches past it. */
  lemma {:induction false} SumToRemoveAt(w: seq<real>, i: nat, k: nat)
    requires i < |w| && k < |w|
    ensures SumTo(RemoveAt(w, i), k) == if k <= i then SumTo(w, k) else SumTo(w, k + 1) - w[i]
  {
    if k > 0 {
      SumToRemoveAt(w, i, k - 1);
    }
  }

  /** Popping a weight removes it from the sum. */
  lemma SumRemoveAt(w: seq<real>, i: nat)
    requires i < |w|
    ensures Sum(RemoveAt(w, i)) == Sum(w) - w[i]
  {
    SumToRemoveAt(w, i, |w| - 1);
  }

  predicate Nonnegative(w: seq<real>)
  {
    forall i :: 0 <= i < |w| ==> w[i] >= 0.0
  }

  /** The weights after `step` went to the new atom: added to the merged atom's weight, or
      appended for an atom that was not active. */
  function Added(w: seq<real>, merged: bool, nearest: int, step: real): seq<real>
    requires merged ==> 0 <= nearest < |w|
  {
    if merged then w[nearest := w[nearest] + step] else w + [step]
  }

  lemma AddedFacts(w: seq<real>, merged: bool, nearest: int, step: real)
    requires merged ==> 0 <= nearest < |w|
    ensures Sum(Added(w, merged, nearest, step)) == Sum(w) + step
    ensures |Added(w, merged, nearest, step)| == |w| + (if merged then 0 else 1)
    ensures forall i :: 0 <= i < |w| ==>
      Added(w, merged, nearest, step)[i] == w[i] + (if merged && i == nearest then step else 0.0)
    ensures !merged ==> Added(w, merged, nearest, step)[|w|] == step
  {
    if merged {
      SumGive(w, nearest, step);
    } else {
      SumAppend(w, step);
    }
  }

  /** The weights after copt/frank_wolfe.py:316-326: `step` is added to the merged atom or
      appended for a new one; then the away atom `vt` is dropped when `step == gamma_max`
      and otherwise loses `step`. */
  function WeightsAfter(w: seq<real>, merged: bool, nearest: int, vt: nat, step: real,
                        gammaMax: real): seq<real>
    requires vt < |w| && (merged ==> 0 <= nearest < |w|)
  {
    var added := Added(w, merged, nearest, step);
    if step == gammaMax then RemoveAt(added, vt) else added[vt := added[vt] - step]
  }

  /** The atoms after the same lines: the new atom appended unless it was merged, then the
      away atom dropped when its weight is gone. */
  function AtomsAfter(atoms: seq<seq<real>>, s: seq<real>, merged: bool, vt: nat,
                      dropped: bool): seq<seq<real>>
    requires vt < |atoms|
  {
    var added := if merged then atoms else atoms + [s];
    if dropped then RemoveAt(added, vt) else added
  }

  /** With `gamma_max` the away atom's weight, the total weight is kept, except when the
      new atom was merged into the away atom itself and the whole weight moved: that atom
      is then dropped with the weight it just received. */
  lemma WeightsSum(w: seq<real>, merged: bool, nearest: int, vt: nat, step: real)
    requires vt < |w| && (merged ==> 0 <= nearest < |w|)
    ensures Sum(WeightsAfter(w, merged, nearest, vt, step, w[vt])) ==
            Sum(w) - (if merged && nearest == vt && step == w[vt] then w[vt] else 0.0)
  {
    var a := Added(w, merged, nearest, step);
    AddedFacts(w, merged, nearest, step);
    if step == w[vt] {
      SumRemoveAt(a, vt);
    } else {
      SumTake(a, vt, step);
    }
  }

  /** A step in `[0, gamma_max]` keeps every weight nonnegative. */
  lemma WeightsStayNonnegative(w: seq<real>, merged: bool, nearest: int, vt: nat, step: real)
    requires vt < |w| && (merged ==> 0 <= nearest < |w|)
    requires Nonnegative(w) && 0.0 <= step <= w[vt]
    ensures Nonnegative(WeightsAfter(w, merged, nearest, vt, step, w[vt]))
  {
    AddedFacts(w, merged, nearest, step);
  }

  /** The away atom is dropped exactly when `step == gamma_max`; otherwise it stays where it
      was and has lost `step` (or kept its weight, when the new atom was merged into it). A
      new atom comes last with weight `step` unless the away atom's removal shifted it. */
  lemma WeightsShape(w: seq<real>, merged: bool, nearest: int, vt: nat, step: real)
    requires vt < |w| && (merged ==> 0 <= nearest < |w|)
    ensures var w' := WeightsAfter(w, merged, nearest, vt, step, w[vt]);
      && |w'| == |w| + (if merged then 0 else 1) - (if step == w[vt] then 1 else 0)
      && (step != w[vt] ==> w'[vt] == (if merged && nearest == vt then w[vt] else w[vt] - step))
      && (!merged ==> w'[|w'| - 1] == step)
  {
    AddedFacts(w, merged, nearest, step);
  }

  /** `sum_i coefs_active_set[i] * active_set[i]`: the combination of the atoms with their
      weights, added up from the first atom on. */
  function Combination(atoms: seq<seq<real>>, w: seq<real>, n: nat): (c: seq<real>)
    requires |atoms| == |w| && Uniform(atoms, n)
    ensures |c| == n
    decreases |w|
  {
    if |w| == 0 then Zeros(n)
    else
      var m := |w| - 1;
      Axpy(Combination(atoms[..m], w[..m], n), w[m], atoms[m])
  }

  /** Two moves along the same vector add up. */
  lemma AxpyTwice(x: seq<real>, a: real, b: real, v: seq<real>)
    requires |x| == |v|
    ensures Axpy(Axpy(x, a, v), b, v) == Axpy(x, a + b, v)
  {
    forall k | 0 <= k < |x|
      ensures Axpy(Axpy(x, a, v), b, v)[k] == Axpy(x, a + b, v)[k]
    {
      Distribute(v[k], a, b, a + b);
    }
  }

  /** Two moves along different vectors commute. */
  lemma AxpyCommute(x: seq<real>, a: real, u: seq<real>, b: real, v: seq<real>)
    requires |x| == |u| == |v|
    ensures Axpy(Axpy(x, a, u), b, v) == Axpy(Axpy(x, b, v), a, u)
  {
    assert Axpy(Axpy(x, a, u), b, v) == Axpy(Axpy(x, b, v), a, u);
  }

  /** A move towards `s` followed by the same move back from `v` is a move along `s - v`. */
  lemma AxpyThereAndBack(x: seq<real>, t: real, s: seq<real>, v: seq<real>)
    requires |x| == |s| == |v|
    ensures Axpy(Axpy(x, t, s), -t, v) == Axpy(x, t, Sub(s, v))
  {
    forall k | 0 <= k < |x|
      ensures Axpy(Axpy(x, t, s), -t, v)[k] == Axpy(x, t, Sub(s, v))[k]
    {
      SubtractProducts(s[k], v[k], t);
    }
  }

  /** Measured from `x0`, a move along `d` is the same move. */
  lemma SubAxpy(x: seq<real>, x0: seq<real>, t: real, d: seq<real>)
    requires |x| == |x0| == |d|
    ensures Sub(Axpy(x, t, d), x0) == Axpy(Sub(x, x0), t, d)
  {
    assert Sub(Axpy(x, t, d), x0) == Axpy(Sub(x, x0), t, d);
  }

  /** An appended atom with weight `c` moves the combination by `c` times the atom. */
  lemma CombinationAppend(atoms: seq<seq<real>>, w: seq<real>, s: seq<real>, c: real, n: nat)
    requires |atoms| == |w| && Uniform(atoms, n) && |s| == n
    ensures Uniform(atoms + [s], n)
    ensures Combination(atoms + [s], w + [c], n) == Axpy(Combination(atoms, w, n), c, s)
  {
    assert (atoms + [s])[..|w|] == atoms && (w + [c])[..|w|] == w;
  }

  /** Changing weight `i` to `c` moves the combination by `c - w[i]` times atom `i`. */
  lemma {:induction false} CombinationUpdate(atoms: seq<seq<real>>, w: seq<real>, i: nat, c: real, n: nat)
    requires |atoms| == |w| && Uniform(atoms, n) && i < |w|
    ensures Combination(atoms, w[i := c], n) == Axpy(Combination(atoms, w, n), c - w[i], atoms[i])
    decreases |w|
  {
    var m := |w| - 1;
    var p := Combination(atoms[..m], w[..m], n);
    assert w[i := c][..m] == if i == m then w[..m] else w[..m][i := c];
    if i == m {
      AxpyTwice(p, w[m], c - w[m], atoms[m]);
    } else {
      CombinationUpdate(atoms[..m], w[..m], i, c, n);
      AxpyCommute(p, c - w[i], atoms[i], w[m], atoms[m]);
    }
  }

  /** Dropping atom `i` with its weight takes `w[i]` times the atom off the combination. */
  lemma {:induction false} CombinationRemoveAt(atoms: seq<seq<real>>, w: seq<real>, i: nat, n: nat)
    requires |atoms| == |w| && Uniform(atoms, n) && i < |w|
    ensures Uniform(RemoveAt(atoms, i), n)
    ensures Combination(RemoveAt(atoms, i), RemoveAt(w, i), n) == Axpy(Combination(atoms, w, n), -w[i], atoms[i])
    decreases |w|
  {
    var m := |w| - 1;
    var p := Combination(atoms[..m], w[..m], n);
    if i == m {
      assert RemoveAt(atoms, i) == atoms[..m] && RemoveAt(w, i) == w[..m];
      AxpyTwice(p, w[m], -w[m], atoms[m]);
      assert Axpy(p, 0.0, atoms[m]) == p;
    } else {
      var ra, rw := RemoveAt(atoms, i), RemoveAt(w, i);
      assert ra[..m - 1] == RemoveAt(atoms[..m], i) && rw[..m - 1] == RemoveAt(w[..m], i);
      assert ra[m - 1] == atoms[m] && rw[m - 1] == w[m];
      CombinationRemoveAt(atoms[..m], w[..m], i, n);
      AxpyCommute(p, -w[i], atoms[i], w[m], atoms[m]);
    }
  }

  /** The first half of a move: `step` added to the weight of the merged atom, or `s`
      appended with weight `step`, moves the combination by `step * s`. */
  lemma CombinationAdded(atoms: seq<seq<real>>, w: seq<real>, s: seq<real>, merged: bool,
                         nearest: int, step: real)
    requires |atoms| == |w| && Uniform(atoms, |s|)
    requires merged ==> 0 <= nearest < |w| && s == atoms[nearest]
    ensures var a := if merged then atoms else atoms + [s];
      var wa := Added(w, merged, nearest, step);
      && |a| == |wa| && Uniform(a, |s|)
      && Combination(a, wa, |s|) == Axpy(Combination(atoms, w, |s|), step, s)
  {
    AddedFacts(w, merged, nearest, step);
    if merged {
      CombinationUpdate(atoms, w, nearest, w[nearest] + step, |s|);
    } else {
      CombinationAppend(atoms, w, s, step, |s|);
    }
  }

  /** The second half: the away atom `vt` dropped with its weight `step`, or its weight
      lowered by `step`, moves the combination by `-step` times the atom. */
  lemma CombinationTaken(atoms: seq<seq<real>>, w: seq<real>, vt: nat, step: real, dropped: bool, n: nat)
    requires |atoms| == |w| && Uniform(atoms, n) && vt < |w|
    requires dropped ==> w[vt] == step
    ensures var atoms' := if dropped then RemoveAt(atoms, vt) else atoms;
      var w' := if dropped then RemoveAt(w, vt) else w[vt := w[vt] - step];
      && |atoms'| == |w'| && Uniform(atoms', n)
      && Combination(atoms', w', n) == Axpy(Combination(atoms, w, n), -step, atoms[vt])
  {
    if dropped {
      CombinationRemoveAt(atoms, w, vt, n);
    } else {
      CombinationUpdate(atoms, w, vt, w[vt] - step, n);
    }
  }

  /** A move of weight `step` from the away atom `vt` to `s` (merged into the active atom
      `nearest` when `merged`) moves the combination by `step * (s - atoms[vt])`, except
      when `s` was merged into the away atom itself and all of its weight moved: that atom
      is then dropped with the weight it just received. */
  lemma CombinationShift(atoms: seq<seq<real>>, w: seq<real>, s: seq<real>, merged: bool,
                         nearest: int, vt: nat, step: real)
    requires |atoms| == |w| && Uniform(atoms, |s|) && vt < |w|
    requires merged ==> 0 <= nearest < |w| && s == atoms[nearest]
    requires !(merged && nearest == vt && step == w[vt])
    ensures var atoms' := AtomsAfter(atoms, s, merged, vt, step == w[vt]);
      var w' := WeightsAfter(w, merged, nearest, vt, step, w[vt]);
      && |atoms'| == |w'| && Uniform(atoms', |s|)
      && Combination(atoms', w', |s|) == Axpy(Combination(atoms, w, |s|), step, Sub(s, atoms[vt]))
  {
    var a := if merged then atoms else atoms + [s];
    var wa := Added(w, merged, nearest, step);
    AddedFacts(w, merged, nearest, step);
    CombinationAdded(atoms, w, s, merged, nearest, step);
    assert a[vt] == atoms[vt];
    CombinationTaken(a, wa, vt, step, step == w[vt], |s|);
    AxpyThereAndBack(Combination(atoms, w, |s|), step, s, atoms[vt]);
  }

  /** The two parallel lists: `active_set` and `coefs_active_set`. */
  class ActiveSet {
    var atoms: seq<seq<real>>
    var coefs: seq<real>

    /** The lists have the same length and every atom has `n` entries. */
    predicate Valid(n: nat)
      reads this
    {
      |atoms| == |coefs| && Uniform(atoms, n)
    }

    /** `active_set = [np.zeros(A.shape)]`, `coefs_active_set = [1.]`. */
    constructor (n: nat)
      ensures atoms == [Zeros(n)] && coefs == [1.0]
      ensures Valid(n)
    {
      atoms := [Zeros(n)];
      coefs := [1.0];
    }

    /** copt/frank_wolfe.py:316-326, with `s` the atom after merging and `vt` the away
        atom. */
    method Update(s: seq<real>, merged: bool, nearest: int, vt: nat, step: real, gammaMax: real)
      requires Valid(|s|) && vt < |coefs| && (merged ==> 0 <= nearest < |coefs|)
      modifies this
      ensures atoms == AtomsAfter(old(atoms), s, merged, vt, step == gammaMax)
      ensures coefs == WeightsAfter(old(coefs), merged, nearest, vt, step, gammaMax)
      ensures Valid(|s|)
    {
      if merged {
        coefs := coefs[nearest := coefs[nearest] + step];
      } else {
        atoms := atoms + [s];
        coefs := coefs + [step];
      }
      if step == gammaMax {
        atoms := RemoveAt(atoms, vt);
        coefs := RemoveAt(coefs, vt);
      } else {
        coefs := coefs[vt := coefs[vt] - step];
      }
    }
  }

  /** The factor the trace driver's inline loop shrinks `L_t` by when its first trial
      passes. */
  const TRACE_DECREASE: real := 0.99

  /** The state the loop carries besides the lists: `x_t`, `f_grad(x_t)` and `L_t`. */
  datatype TraceIterate = TraceIterate(x: seq<real>, eval: Eval, lipschitz: real)

  /** The atoms an iteration used: the nearest active atom, whether the oracle's atom was
      merged into it, and the away atom. */
  datatype Choice = Choice(nearest: int, merged: bool, away: nat)

  /** The trace-norm oracle `alpha * u.dot(vt)` from `svds(-grad, k=1)`, as a function of
      the gradient. */
  type TraceOracle = seq<real> -> seq<real>

  ghost predicate OracleShaped(lmo: TraceOracle, n: nat)
  {
    forall g: seq<real> :: |g| == n ==> |lmo(g)| == n
  }

  /** The step of the `approx_ls` branch as written (copt/frank_wolfe.py:306-308): the
      search runs on `[0, 1]`, the default `gamma_max` of `approx_ls`, whatever the away
      atom's weight. */
  function ApproxLsStepAsWritten(fgrad: Objective, x: seq<real>, d: seq<real>, ft: real): Result<real>
    requires |x| == |d|
  {
    ApproxLsValue(Line(fgrad, x, d), ft, 1.0, MAX_TRIALS)
  }

  /** `f(y) = (y - 1.4)^2` on one entry. */
  function Parabola(y: seq<real>): Eval
  {
    if |y| == 1 then Eval((y[0] - 1.4) * (y[0] - 1.4), [2.0 * (y[0] - 1.4)]) else Eval(0.0, [])
  }

  /** The search as written overdraws the away atom. Atoms `0` and `1` with weights 1/2
      each give `x_t = 0.5`; for `f(y) = (y - 1.4)^2` the oracle atom of the unit ball is
      `1`, which is active and merged; the away atom is `0`, with weight `gamma_max = 1/2`,
      and `d_t = 1`. The first bisection round already stops (loss 0.16 below 0.81) and
      returns 3/4, so the away atom's weight becomes -1/4. */
  lemma AsWrittenStepOverdrawsAwayAtom()
    ensures ApproxLsStepAsWritten(Parabola, [0.5], [1.0], 0.81) == Success(0.75)
    ensures WeightsAfter([0.5, 0.5], true, 1, 0, 0.75, 0.5) == [-0.25, 1.25]
  {
    var phi := Line(Parabola, [0.5], [1.0]);
    assert Axpy([0.5], 0.0, [1.0]) == [0.5];
    assert Axpy([0.5], 1.0, [1.0]) == [1.5];
    assert Axpy([0.5], 0.5, [1.0]) == [1.0];
    assert phi(0.0) == LinePoint(0.81, -1.8) by {
      assert Dot([1.0], [2.0 * (0.5 - 1.4)]) == -1.8;
    }
    assert phi(1.0) == LinePoint(0.01, 0.2) by {
      assert Dot([1.0], [2.0 * (1.5 - 1.4)]) == 0.2;
    }
    assert phi(0.5) == LinePoint(0.16, -0.8) by {
      assert Dot([1.0], [2.0 * (1.0 - 1.4)]) == -0.8;
    }
    var b := InitialBracket(phi, 1.0);
    assert b == Bracket(0.0, -1.8, 1.0, 0.2);
    var m := Midpoint(0.5, 0.16, -0.8);
    assert NextBracketAsWritten(b, m) == Bracket(0.5, -0.8, 1.0, 0.2);
    assert Bisect(phi, 0.81, 0.0, false, b, Midpoint(0.0, 0.0, 0.0), 0, MAX_TRIALS)
        == Success(Search(Bracket(0.5, -0.8, 1.0, 0.2), m, 1));
  }

  /** With `gamma_max` passed to the search, the `approx_ls` step of an iteration lies in
      `[0, gamma_max]`, so the weights stay nonnegative. */
  lemma CorrectedStepKeepsWeights(fgrad: Objective, x: seq<real>, d: seq<real>, ft: real,
                                  w: seq<real>, merged: bool, nearest: int, vt: nat)
    requires |x| == |d| && vt < |w| && (merged ==> 0 <= nearest < |w|) && Nonnegative(w)
    requires ApproxLsValue(Line(fgrad, x, d), ft, w[vt], MAX_TRIALS).Success?
    ensures var step := ApproxLsValue(Line(fgrad, x, d), ft, w[vt], MAX_TRIALS).value;
      0.0 <= step <= w[vt] && Nonnegative(WeightsAfter(w, merged, nearest, vt, step, w[vt]))
  {
    SearchValuesInRange(Line(fgrad, x, d), ft, w[vt], MAX_TRIALS);
  }

  /** The two scans of an iteration (copt/frank_wolfe.py:247-280) for the oracle's atom
      `s`: an empty list fails on `active_set[0]`. */
  method Select(atoms: seq<seq<real>>, g: seq<real>, x: seq<real>, s: seq<real>)
    returns (r: Result<Choice>)
    requires |g| == |x| == |s| > 0 && Uniform(atoms, |x|)
    ensures r.Failure? <==> |atoms| == 0
    ensures r.Failure? ==> r.error == IndexError
    ensures r.Success? ==>
      && IsNearest(atoms, s, r.value.nearest)
      && r.value.merged == Merges(atoms, s, r.value.nearest)
      && IsAway(g, x, atoms, r.value.away)
  {
    var nearest, dist := NearestAtom(atoms, s);
    var merged := nearest >= 0 && dist < MERGE_TOLERANCE;
    var away := AwayAtom(g, x, atoms);
    if away.Failure? {
      return Failure(away.error);
    }
    r := Success(Choice(nearest, merged, away.value));
  }

  /** `s_t` after merging: the nearest active atom when the oracle's atom was merged. */
  function TraceAtom(atoms: seq<seq<real>>, s: seq<real>, c: Choice): seq<real>
    requires c.merged ==> 0 <= c.nearest < |atoms|
  {
    if c.merged then atoms[c.nearest] else s
  }

  /** The interval `[0, SearchCap(..)]` the `approx_ls` branch searches: `[0, 1]` as the
      source calls it (`capped == false`), `[0, gamma_max]` in the corrected driver. */
  function SearchCap(capped: bool, gammaMax: real): real
  {
    if capped then gammaMax else 1.0
  }

  /** What a step of `step` along `d` from `it` leaves (copt/frank_wolfe.py:282-311), with
      the `gamma_max` of the away atom: the adaptive step and `L_t` after the trials the
      inline loop rejects (without a small-step guard, and stepping after the 100th
      rejection too), the Lipschitz step with `L_t` unchanged, or the bisection's step on
      `[0, SearchCap(capped, gamma_max)]` with `L_t` unchanged. An unknown strategy never
      steps. */
  predicate Stepped(fgrad: Objective, it: TraceIterate, d: seq<real>, gammaMax: real,
                    strategy: Strategy, capped: bool, step: real, rejected: nat, next: TraceIterate)
    requires |it.x| == |it.eval.grad| == |d| && it.lipschitz > 0.0
  {
    var x, L := it.x, it.lipschitz;
    var gap := -Dot(it.eval.grad, d);
    var d2 := Dot(d, d);
    && next.x == Axpy(x, step, d)
    && next.eval == fgrad(next.x)
    && match strategy
       case Adaptive =>
         && d2 > 0.0
         && rejected == RejectedTrials(it.eval.loss, Along(fgrad, x, d), gap, d2, L, Finite(gammaMax), false)
         && step == AdaptiveStep(gap, d2, L, Finite(gammaMax), rejected)
         && next.lipschitz == AdaptiveLipschitz(gap, d2, L, Finite(gammaMax), TRACE_DECREASE, false, rejected)
       case Lipschitz =>
         && d2 > 0.0 && rejected == 0
         && step == ClosedFormStep(gap, d2, L, gammaMax)
         && next.lipschitz == L
       case ApproxLs =>
         && rejected == 0
         && ApproxLsValue(Line(fgrad, x, d), it.eval.loss, SearchCap(capped, gammaMax), MAX_TRIALS) == Success(step)
         && next.lipschitz == L
       case Other => false
  }

  /** The `adaptive` branch of the step (copt/frank_wolfe.py:291-301): the inline loop
      with decay 0.99 and no small-step guard. */
  method AdaptiveTraceStep(fgrad: Objective, it: TraceIterate, d: seq<real>, gammaMax: real, capped: bool)
    returns (next: TraceIterate, step: real, rejected: nat)
    requires |it.x| == |it.eval.grad| == |d| && it.lipschitz > 0.0 && Dot(d, d) > 0.0
    ensures
      var probe, gap, d2 := Along(fgrad, it.x, d), -Dot(it.eval.grad, d), Dot(d, d);
      && rejected <= MAX_TRIALS
      && (forall j :: 0 <= j < rejected ==>
            Rejects(it.eval.loss, probe, gap, d2, Inflated(it.lipschitz, j), Finite(gammaMax), false))
      && (rejected < MAX_TRIALS ==>
            !Rejects(it.eval.loss, probe, gap, d2, Inflated(it.lipschitz, rejected), Finite(gammaMax), false))
    ensures Stepped(fgrad, it, d, gammaMax, Adaptive, capped, step, rejected, next)
    ensures next.lipschitz > 0.0 && step <= gammaMax
  {
    var x, L := it.x, it.lipschitz;
    var gap := -Dot(it.eval.grad, d);
    var d2 := Dot(d, d);
    var lip, eval;
    var probe := Along(fgrad, x, d);
    step, lip, eval, rejected := AdaptiveSearch(it.eval.loss, probe, gap, d2, L,
                                                Finite(gammaMax), TRACE_DECREASE, false);
    AdaptiveOutcome(gap, d2, L, Finite(gammaMax), TRACE_DECREASE, false, rejected, step, lip);
    RejectedFromIs(it.eval.loss, probe, gap, d2, L, Finite(gammaMax), false, rejected, 0);
    MulPositive(L, TRACE_DECREASE);
    next := TraceIterate(Axpy(x, step, d), eval, lip);
  }

  /** The step of one iteration along `d_t` from `x_t` (copt/frank_wolfe.py:282-311). The
      adaptive and Lipschitz steps are capped at `gamma_max`; the `approx_ls` branch searches
      `[0, SearchCap(capped, gamma_max)]`, which is `[0, 1]` for the source (see
      `AsWrittenStepOverdrawsAwayAtom`). A direction of zero length makes the closed-form
      step `0 / 0`; an unknown strategy raises ValueError. `rejected` counts the trials the
      adaptive loop rejected. */
  method TraceStep(fgrad: Objective, it: TraceIterate, d: seq<real>, gammaMax: real,
                   strategy: Strategy, capped: bool)
    returns (r: Result<TraceIterate>, step: real, rejected: nat)
    requires |it.x| == |it.eval.grad| == |d| && it.lipschitz > 0.0
    ensures strategy == Other ==> r == Failure(ValueError)
    ensures (strategy == Adaptive || strategy == Lipschitz) ==> (r.Success? <==> Dot(d, d) > 0.0)
    ensures strategy == Adaptive && Dot(d, d) > 0.0 ==>
      var probe, gap, d2 := Along(fgrad, it.x, d), -Dot(it.eval.grad, d), Dot(d, d);
      && rejected <= MAX_TRIALS
      && (forall j :: 0 <= j < rejected ==>
            Rejects(it.eval.loss, probe, gap, d2, Inflated(it.lipschitz, j), Finite(gammaMax), false))
      && (rejected < MAX_TRIALS ==>
            !Rejects(it.eval.loss, probe, gap, d2, Inflated(it.lipschitz, rejected), Finite(gammaMax), false))
    ensures strategy == ApproxLs ==>
      var ls := ApproxLsValue(Line(fgrad, it.x, d), it.eval.loss, SearchCap(capped, gammaMax), MAX_TRIALS);
      && (r.Success? <==> ls.Success?)
      && (r.Failure? ==> r.error == ls.error)
    ensures r.Success? ==> Stepped(fgrad, it, d, gammaMax, strategy, capped, step, rejected, r.value)
    ensures r.Failure? ==> LineFails(fgrad, it, d, gammaMax, strategy, capped, r.error)
    ensures r.Success? ==> r.value.lipschitz > 0.0
    ensures r.Success? && strategy != ApproxLs ==> step <= gammaMax
    ensures r.Success? && strategy == ApproxLs && SearchCap(capped, gammaMax) >= 0.0 ==>
      0.0 <= step <= SearchCap(capped, gammaMax)
  {
    var x, L := it.x, it.lipschitz;
    var gap := -Dot(it.eval.grad, d);
    var d2 := Dot(d, d);
    SelfDotPositive(d, d);
    step := 0.0;
    rejected := 0;
    match strategy {
      case Adaptive =>
        if d2 == 0.0 {
          return Failure(NotFinite), step, rejected;
        }
        var next;
        next, step, rejected := AdaptiveTraceStep(fgrad, it, d, gammaMax, capped);
        r := Success(next);
      case Lipschitz =>
        if d2 == 0.0 {
          return Failure(NotFinite), step, rejected;
        }
        step := ClosedFormStep(gap, d2, L, gammaMax);
        var x' := Axpy(x, step, d);
        r := Success(TraceIterate(x', fgrad(x'), L));
      case ApproxLs =>
        var ls := Bisection.ApproxLs(Line(fgrad, x, d), it.eval.loss, SearchCap(capped, gammaMax), MAX_TRIALS);
        if ls.Failure? {
          return Failure(ls.error), step, rejected;
        }
        step := ls.value;
        var x' := Axpy(x, step, d);
        r := Success(TraceIterate(x', fgrad(x'), L));
      case Other =>
        return Failure(ValueError), step, rejected;
    }
  }

  /** What an iteration used: its choice of atoms, its step and the trials the adaptive
      loop rejected. */
  datatype TraceMove = TraceMove(choice: Choice, step: real, rejected: nat)

  /** What an iteration that takes a step leaves after `it` with lists `atoms` and `w`
      (copt/frank_wolfe.py:245-326): the nearest and away atoms the two scans find, the
      step along `d_t = s_t - v_t` with `gamma_max` the away atom's weight, and the lists
      after the weight moved. */
  ghost predicate TraceAdvances(fgrad: Objective, lmo: TraceOracle, strategy: Strategy, capped: bool,
                                it: TraceIterate, atoms: seq<seq<real>>, w: seq<real>, mv: TraceMove,
                                next: TraceIterate, atoms': seq<seq<real>>, w': seq<real>)
    requires |it.x| == |it.eval.grad| > 0 && |lmo(it.eval.grad)| == |it.x| && it.lipschitz > 0.0
    requires |atoms| == |w| && Uniform(atoms, |it.x|)
  {
    var s, c := lmo(it.eval.grad), mv.choice;
    && IsNearest(atoms, s, c.nearest)
    && c.merged == Merges(atoms, s, c.nearest)
    && IsAway(it.eval.grad, it.x, atoms, c.away)
    && var st := TraceAtom(atoms, s, c);
       var d := Sub(st, atoms[c.away]);
       && Stepped(fgrad, it, d, w[c.away], strategy, capped, mv.step, mv.rejected, next)
       && atoms' == AtomsAfter(atoms, st, c.merged, c.away, mv.step == w[c.away])
       && w' == WeightsAfter(w, c.merged, c.nearest, c.away, mv.step, w[c.away])
  }

  /** Why the step along `d` from `it` raises `e` (copt/frank_wolfe.py:282-311): the
      closed-form steps are `0 / 0` when `d_t = 0`, the bisection can fail, and an unknown
      strategy reaches the final `else`. */
  predicate LineFails(fgrad: Objective, it: TraceIterate, d: seq<real>, gammaMax: real,
                      strategy: Strategy, capped: bool, e: Error)
    requires |it.x| == |it.eval.grad| == |d| && it.lipschitz > 0.0
  {
    match strategy
    case Adaptive => Dot(d, d) == 0.0 && e == NotFinite
    case Lipschitz => Dot(d, d) == 0.0 && e == NotFinite
    case ApproxLs =>
      ApproxLsValue(Line(fgrad, it.x, d), it.eval.loss, SearchCap(capped, gammaMax), MAX_TRIALS) == Failure(e)
    case Other => e == ValueError
  }

  /** Why an iteration from `it` with lists `atoms` and `w` raises `e`: the list is empty
      (`active_set[0]`), or the step along `d_t = s_t - v_t` from the atoms the two scans
      find fails. */
  ghost predicate TraceFails(fgrad: Objective, lmo: TraceOracle, strategy: Strategy, capped: bool,
                             it: TraceIterate, atoms: seq<seq<real>>, w: seq<real>, e: Error)
    requires |it.x| == |it.eval.grad| > 0 && |lmo(it.eval.grad)| == |it.x| && it.lipschitz > 0.0
    requires |atoms| == |w| && Uniform(atoms, |it.x|)
  {
    var s := lmo(it.eval.grad);
    || (|atoms| == 0 && e == IndexError)
    || exists nearest: int, away: nat ::
         && IsNearest(atoms, s, nearest)
         && IsAway(it.eval.grad, it.x, atoms, away)
         && var st := TraceAtom(atoms, s, Choice(nearest, Merges(atoms, s, nearest), away));
            LineFails(fgrad, it, Sub(st, atoms[away]), w[away], strategy, capped, e)
  }

  /** One pass of the loop body (copt/frank_wolfe.py:245-326): select the atoms, step from
      `x_t` along `d_t = s_t - v_t`, and move the weight. A failure leaves the lists as they
      were. The source is `capped == false`; only the corrected search (`capped`) keeps
      the weights nonnegative under `approx_ls`. */
  method Iteration(fgrad: Objective, lmo: TraceOracle, active: ActiveSet, it: TraceIterate,
                   strategy: Strategy, capped: bool)
    returns (r: Result<TraceIterate>, choice: Choice, step: real, rejected: nat)
    requires |it.x| == |it.eval.grad| > 0 && |lmo(it.eval.grad)| == |it.x| && it.lipschitz > 0.0
    requires active.Valid(|it.x|)
    modifies active
    ensures active.Valid(|it.x|)
    ensures old(|active.atoms|) == 0 ==> r == Failure(IndexError)
    ensures strategy == Other && old(|active.atoms|) > 0 ==> r == Failure(ValueError)
    ensures r.Failure? ==> active.atoms == old(active.atoms) && active.coefs == old(active.coefs)
    ensures r.Failure? ==> TraceFails(fgrad, lmo, strategy, capped, it, old(active.atoms), old(active.coefs), r.error)
    ensures r.Success? ==>
      TraceAdvances(fgrad, lmo, strategy, capped, it, old(active.atoms), old(active.coefs),
                    TraceMove(choice, step, rejected), r.value, active.atoms, active.coefs)
    ensures r.Success? ==> r.value.lipschitz > 0.0
    ensures r.Success? && strategy != ApproxLs ==> step <= old(active.coefs)[choice.away]
    ensures r.Success? && strategy == ApproxLs && !capped ==> 0.0 <= step <= 1.0
    ensures r.Success? && strategy == ApproxLs && capped && Nonnegative(old(active.coefs)) ==>
      Nonnegative(active.coefs) && 0.0 <= step
  {
    var s := lmo(it.eval.grad);
    choice := Choice(-1, false, 0);
    step := 0.0;
    rejected := 0;
    var sel := Select(active.atoms, it.eval.grad, it.x, s);
    if sel.Failure? {
      return Failure(sel.error), choice, step, rejected;
    }
    choice := sel.value;
    var st := TraceAtom(active.atoms, s, choice);
    var gammaMax := active.coefs[choice.away];
    var d := Sub(st, active.atoms[choice.away]);
    r, step, rejected := TraceStep(fgrad, it, d, gammaMax, strategy, capped);
    if r.Failure? {
      assert IsNearest(active.atoms, s, choice.nearest) && IsAway(it.eval.grad, it.x, active.atoms, choice.away);
      return;
    }
    if strategy == ApproxLs && capped && Nonnegative(active.coefs) {
      WeightsStayNonnegative(active.coefs, choice.merged, choice.nearest, choice.away, step);
    }
    active.Update(st, choice.merged, choice.nearest, choice.away, step, gammaMax);
  }

  /** The lists and the iterate between two iterations. */
  datatype TraceState = TraceState(it: TraceIterate, atoms: seq<seq<real>>, coefs: seq<real>)

  /** The iterate and lists an iteration may start from: `n > 0` entries, the oracle's atom
      of the same size, `L_t > 0`, and parallel lists of atoms of size `n`. */
  ghost predicate TraceShaped(lmo: TraceOracle, n: nat, t: TraceState)
  {
    && |t.it.x| == |t.it.eval.grad| == n > 0 && |lmo(t.it.eval.grad)| == n && t.it.lipschitz > 0.0
    && |t.atoms| == |t.coefs| && Uniform(t.atoms, n)
  }

  /** Iteration `i` of a run: state `i` is followed by state `i + 1` through the loop body. */
  ghost predicate TraceLink(fgrad: Objective, lmo: TraceOracle, n: nat, strategy: Strategy, capped: bool,
                            states: seq<TraceState>, moves: seq<TraceMove>, i: nat)
  {
    && i < |moves| && i + 1 < |states|
    && TraceShaped(lmo, n, states[i])
    && TraceAdvances(fgrad, lmo, strategy, capped, states[i].it, states[i].atoms, states[i].coefs,
                     moves[i], states[i + 1].it, states[i + 1].atoms, states[i + 1].coefs)
  }

  /** `states` and `moves` describe `|moves|` iterations from `x0` with `L0`, the zero atom
      and weight 1. */
  ghost predicate TraceRun(fgrad: Objective, lmo: TraceOracle, x0: seq<real>, L0: real,
                           strategy: Strategy, capped: bool, states: seq<TraceState>, moves: seq<TraceMove>)
  {
    && |states| == |moves| + 1
    && states[0] == TraceState(TraceIterate(x0, fgrad(x0), L0), [Zeros(|x0|)], [1.0])
    && (forall i :: 0 <= i < |moves| ==> TraceLink(fgrad, lmo, |x0|, strategy, capped, states, moves, i))
  }

  /** The iteration appended to a run is its last link. */
  lemma TraceLinkAdded(fgrad: Objective, lmo: TraceOracle, n: nat, strategy: Strategy, capped: bool,
                       states: seq<TraceState>, moves: seq<TraceMove>, mv: TraceMove, t: TraceState)
    requires |states| == |moves| + 1 && TraceShaped(lmo, n, states[|moves|])
    requires TraceAdvances(fgrad, lmo, strategy, capped, states[|moves|].it, states[|moves|].atoms,
                           states[|moves|].coefs, mv, t.it, t.atoms, t.coefs)
    ensures TraceLink(fgrad, lmo, n, strategy, capped, states + [t], moves + [mv], |moves|)
  {
    var ss, ms := states + [t], moves + [mv];
    assert ss[|moves|] == states[|moves|] && ms[|moves|] == mv && ss[|moves| + 1] == t;
  }

  /** A run extends by an iteration from its last state. */
  lemma TraceRunExtends(fgrad: Objective, lmo: TraceOracle, x0: seq<real>, L0: real, strategy: Strategy,
                        capped: bool, states: seq<TraceState>, moves: seq<TraceMove>, mv: TraceMove,
                        t: TraceState)
    requires TraceRun(fgrad, lmo, x0, L0, strategy, capped, states, moves)
    requires TraceShaped(lmo, |x0|, states[|moves|])
    requires TraceAdvances(fgrad, lmo, strategy, capped, states[|moves|].it, states[|moves|].atoms,
                           states[|moves|].coefs, mv, t.it, t.atoms, t.coefs)
    ensures TraceRun(fgrad, lmo, x0, L0, strategy, capped, states + [t], moves + [mv])
  {
    var ss, ms := states + [t], moves + [mv];
    forall i | 0 <= i < |ms|
      ensures TraceLink(fgrad, lmo, |x0|, strategy, capped, ss, ms, i)
    {
      if i < |moves| {
        TraceLinkKept(fgrad, lmo, |x0|, strategy, capped, states, moves, mv, t, i);
      } else {
        TraceLinkAdded(fgrad, lmo, |x0|, strategy, capped, states, moves, mv, t);
      }
    }
  }

  /** Appending a state keeps the links already in a run. */
  lemma TraceLinkKept(fgrad: Objective, lmo: TraceOracle, n: nat, strategy: Strategy, capped: bool,
                      states: seq<TraceState>, moves: seq<TraceMove>, mv: TraceMove, t: TraceState, i: nat)
    requires TraceLink(fgrad, lmo, n, strategy, capped, states, moves, i)
    ensures TraceLink(fgrad, lmo, n, strategy, capped, states + [t], moves + [mv], i)
  {
    var ss, ms := states + [t], moves + [mv];
    assert ss[i] == states[i] && ms[i] == moves[i] && ss[i + 1] == states[i + 1];
  }

  /** The oracle's atom was merged into the away atom and all of its weight moved, so the
      atom is dropped with the weight it just received. */
  predicate SelfMerge(w: seq<real>, mv: TraceMove)
  {
    && mv.choice.merged && mv.choice.nearest == mv.choice.away && mv.choice.away < |w|
    && mv.step == w[mv.choice.away]
  }

  /** No iteration of the run was a self-merge. */
  ghost predicate NoSelfMerge(states: seq<TraceState>, moves: seq<TraceMove>)
    requires |states| == |moves| + 1
  {
    forall i :: 0 <= i < |moves| ==> !SelfMerge(states[i].coefs, moves[i])
  }

  /** The adaptive and Lipschitz steps need `d_t != 0`, which a self-merge would make zero. */
  lemma ClosedFormStepsNoSelfMerge(fgrad: Objective, lmo: TraceOracle, strategy: Strategy, capped: bool,
                                   it: TraceIterate, atoms: seq<seq<real>>, w: seq<real>, mv: TraceMove,
                                   next: TraceIterate, atoms': seq<seq<real>>, w': seq<real>)
    requires |it.x| == |it.eval.grad| > 0 && |lmo(it.eval.grad)| == |it.x| && it.lipschitz > 0.0
    requires |atoms| == |w| && Uniform(atoms, |it.x|)
    requires TraceAdvances(fgrad, lmo, strategy, capped, it, atoms, w, mv, next, atoms', w')
    requires strategy != ApproxLs
    ensures !SelfMerge(w, mv)
  {
    var c := mv.choice;
    if SelfMerge(w, mv) {
      var st := TraceAtom(atoms, lmo(it.eval.grad), c);
      var d := Sub(st, atoms[c.away]);
      ZeroDot(d, d);
      assert false;
    }
  }

  /** A run is free of self-merges exactly when its prefix is and its last move is not one. */
  lemma NoSelfMergeStep(states: seq<TraceState>, moves: seq<TraceMove>, mv: TraceMove, t: TraceState)
    requires |states| == |moves| + 1
    ensures NoSelfMerge(states + [t], moves + [mv]) <==>
      NoSelfMerge(states, moves) && !SelfMerge(states[|moves|].coefs, mv)
  {
    var ss, ms := states + [t], moves + [mv];
    assert ss[|moves|] == states[|moves|] && ms[|moves|] == mv;
    if NoSelfMerge(states, moves) && !SelfMerge(states[|moves|].coefs, mv) {
      forall i | 0 <= i < |ms|
        ensures !SelfMerge(ss[i].coefs, ms[i])
      {
        if i < |moves| {
          assert ss[i] == states[i] && ms[i] == moves[i];
        }
      }
    }
    if NoSelfMerge(ss, ms) {
      forall i | 0 <= i < |moves|
        ensures !SelfMerge(states[i].coefs, moves[i])
      {
        assert ss[i] == states[i] && ms[i] == moves[i];
        assert !SelfMerge(ss[i].coefs, ms[i]);
      }
    }
  }

  /** What an advance does to the iterate and the lists, read off `TraceAdvances`. */
  lemma AdvanceShape(fgrad: Objective, lmo: TraceOracle, strategy: Strategy, capped: bool,
                     it: TraceIterate, atoms: seq<seq<real>>, w: seq<real>,
                     mv: TraceMove, next: TraceIterate, atoms': seq<seq<real>>, w': seq<real>)
    requires |it.x| == |it.eval.grad| > 0 && |lmo(it.eval.grad)| == |it.x| && it.lipschitz > 0.0
    requires |atoms| == |w| && Uniform(atoms, |it.x|)
    requires TraceAdvances(fgrad, lmo, strategy, capped, it, atoms, w, mv, next, atoms', w')
    ensures var c := mv.choice;
      var s := lmo(it.eval.grad);
      && IsNearest(atoms, s, c.nearest) && c.merged == Merges(atoms, s, c.nearest)
      && 0 <= c.away < |atoms|
      && var st := TraceAtom(atoms, s, c);
         && |st| == |it.x|
         && (c.merged ==> 0 <= c.nearest < |w| && st == atoms[c.nearest])
         && next.x == Axpy(it.x, mv.step, Sub(st, atoms[c.away]))
         && atoms' == AtomsAfter(atoms, st, c.merged, c.away, mv.step == w[c.away])
         && w' == WeightsAfter(w, c.merged, c.nearest, c.away, mv.step, w[c.away])
  {
    var c := mv.choice;
    var st := TraceAtom(atoms, lmo(it.eval.grad), c);
    var d := Sub(st, atoms[c.away]);
    assert Stepped(fgrad, it, d, w[c.away], strategy, capped, mv.step, mv.rejected, next);
  }

  /** An iteration that is not a self-merge keeps the total weight: the weight the away
      atom gives up goes to the oracle's atom. */
  lemma AdvanceKeepsTotal(fgrad: Objective, lmo: TraceOracle, strategy: Strategy, capped: bool,
                          it: TraceIterate, atoms: seq<seq<real>>, w: seq<real>,
                          mv: TraceMove, next: TraceIterate, atoms': seq<seq<real>>, w': seq<real>)
    requires |it.x| == |it.eval.grad| > 0 && |lmo(it.eval.grad)| == |it.x| && it.lipschitz > 0.0
    requires |atoms| == |w| && Uniform(atoms, |it.x|)
    requires TraceAdvances(fgrad, lmo, strategy, capped, it, atoms, w, mv, next, atoms', w')
    requires !SelfMerge(w, mv)
    ensures Sum(w') == Sum(w)
  {
    AdvanceShape(fgrad, lmo, strategy, capped, it, atoms, w, mv, next, atoms', w');
    var c := mv.choice;
    WeightsSum(w, c.merged, c.nearest, c.away, mv.step);
  }

  /** An iteration moves the iterate by `step * d_t` and, unless it was a self-merge, the
      combination of the atoms by the same amount. */
  lemma AdvanceKeepsCombination(fgrad: Objective, lmo: TraceOracle, strategy: Strategy, capped: bool,
                                x0: seq<real>, it: TraceIterate, atoms: seq<seq<real>>, w: seq<real>,
                                mv: TraceMove, next: TraceIterate, atoms': seq<seq<real>>, w': seq<real>)
    requires |it.x| == |it.eval.grad| == |x0| > 0 && |lmo(it.eval.grad)| == |it.x| && it.lipschitz > 0.0
    requires |atoms| == |w| && Uniform(atoms, |it.x|)
    requires TraceAdvances(fgrad, lmo, strategy, capped, it, atoms, w, mv, next, atoms', w')
    requires !SelfMerge(w, mv)
    requires Sub(it.x, x0) == Combination(atoms, w, |x0|)
    ensures |atoms'| == |w'| && Uniform(atoms', |x0|)
    ensures Sub(next.x, x0) == Combination(atoms', w', |x0|)
  {
    AdvanceShape(fgrad, lmo, strategy, capped, it, atoms, w, mv, next, atoms', w');
    var c := mv.choice;
    var st := TraceAtom(atoms, lmo(it.eval.grad), c);
    CombinationShift(atoms, w, st, c.merged, c.nearest, c.away, mv.step);
    SubAxpy(it.x, x0, mv.step, Sub(st, atoms[c.away]));
  }

  /** One more iteration keeps a run a run, free of self-merges under the closed-form steps,
      and with the iterate at `x0` plus the combination while no self-merge happened. */
  lemma TraceRunAdvances(fgrad: Objective, lmo: TraceOracle, x0: seq<real>, L0: real, strategy: Strategy,
                         capped: bool, states: seq<TraceState>, moves: seq<TraceMove>, mv: TraceMove,
                         t: TraceState)
    requires TraceRun(fgrad, lmo, x0, L0, strategy, capped, states, moves)
    requires |x0| > 0 && TraceShaped(lmo, |x0|, states[|moves|])
    requires TraceAdvances(fgrad, lmo, strategy, capped, states[|moves|].it, states[|moves|].atoms,
                           states[|moves|].coefs, mv, t.it, t.atoms, t.coefs)
    requires |t.it.x| == |x0| && |t.atoms| == |t.coefs| && Uniform(t.atoms, |x0|)
    requires strategy != ApproxLs ==> NoSelfMerge(states, moves)
    requires NoSelfMerge(states, moves) ==>
      Sub(states[|moves|].it.x, x0) == Combination(states[|moves|].atoms, states[|moves|].coefs, |x0|)
    requires NoSelfMerge(states, moves) ==> Sum(states[|moves|].coefs) == 1.0
    ensures TraceRun(fgrad, lmo, x0, L0, strategy, capped, states + [t], moves + [mv])
    ensures strategy != ApproxLs ==> NoSelfMerge(states + [t], moves + [mv])
    ensures NoSelfMerge(states + [t], moves + [mv]) ==> Sub(t.it.x, x0) == Combination(t.atoms, t.coefs, |x0|)
    ensures NoSelfMerge(states + [t], moves + [mv]) ==> Sum(t.coefs) == 1.0
  {
    var s := states[|moves|];
    TraceRunExtends(fgrad, lmo, x0, L0, strategy, capped, states, moves, mv, t);
    NoSelfMergeStep(states, moves, mv, t);
    if strategy != ApproxLs {
      ClosedFormStepsNoSelfMerge(fgrad, lmo, strategy, capped, s.it, s.atoms, s.coefs, mv, t.it, t.atoms, t.coefs);
    }
    if NoSelfMerge(states + [t], moves + [mv]) {
      AdvanceKeepsCombination(fgrad, lmo, strategy, capped, x0, s.it, s.atoms, s.coefs, mv,
                              t.it, t.atoms, t.coefs);
      AdvanceKeepsTotal(fgrad, lmo, strategy, capped, s.it, s.atoms, s.coefs, mv, t.it, t.atoms, t.coefs);
    }
  }

  /** One pass of the driver's loop: an `Iteration` from the last state of the run, which
      then extends the run by that iteration, and the facts the driver keeps about the run. */
  method Advance(fgrad: Objective, lmo: TraceOracle, x0: seq<real>, L0: real, strategy: Strategy,
                 capped: bool, active: ActiveSet, it: TraceIterate,
                 ghost states: seq<TraceState>, ghost moves: seq<TraceMove>)
    returns (r: Result<TraceIterate>, ghost states': seq<TraceState>, ghost moves': seq<TraceMove>)
    requires Shaped(fgrad, |x0|) && OracleShaped(lmo, |x0|) && |x0| > 0
    requires active.Valid(|x0|) && |it.x| == |x0| && it.eval == fgrad(it.x) && it.lipschitz > 0.0
    requires TraceRun(fgrad, lmo, x0, L0, strategy, capped, states, moves)
    requires states[|moves|] == TraceState(it, active.atoms, active.coefs)
    requires strategy != ApproxLs ==> NoSelfMerge(states, moves)
    requires NoSelfMerge(states, moves) ==> Sub(it.x, x0) == Combination(active.atoms, active.coefs, |x0|)
    requires NoSelfMerge(states, moves) ==> Sum(active.coefs) == 1.0
    requires strategy == ApproxLs && capped ==> Nonnegative(active.coefs) && Sum(active.coefs) <= 1.0
    modifies active
    ensures active.Valid(|x0|)
    ensures strategy == Other && old(|active.atoms|) > 0 ==> r == Failure(ValueError)
    ensures r.Failure? ==>
      && states' == states && moves' == moves
      && active.atoms == old(active.atoms) && active.coefs == old(active.coefs)
    ensures r.Failure? ==> TraceFails(fgrad, lmo, strategy, capped, it, states[|moves|].atoms, states[|moves|].coefs, r.error)
    ensures r.Success? ==>
      && |r.value.x| == |x0| && r.value.eval == fgrad(r.value.x) && r.value.lipschitz > 0.0
      && |moves'| == |moves| + 1 && TraceRun(fgrad, lmo, x0, L0, strategy, capped, states', moves')
      && states'[|moves'|] == TraceState(r.value, active.atoms, active.coefs)
      && (strategy != ApproxLs ==> NoSelfMerge(states', moves'))
      && (NoSelfMerge(states', moves') ==> Sub(r.value.x, x0) == Combination(active.atoms, active.coefs, |x0|))
      && (NoSelfMerge(states', moves') ==> Sum(active.coefs) == 1.0)
      && (strategy == ApproxLs && capped ==> Nonnegative(active.coefs) && Sum(active.coefs) <= 1.0)
  {
    ghost var before := states[|moves|];
    var next, choice, step, rejected := Iteration(fgrad, lmo, active, it, strategy, capped);
    if next.Failure? {
      return next, states, moves;
    }
    var mv := TraceMove(choice, step, rejected);
    ghost var after := TraceState(next.value, active.atoms, active.coefs);
    assert TraceShaped(lmo, |x0|, before);
    TraceRunAdvances(fgrad, lmo, x0, L0, strategy, capped, states, moves, mv, after);
    if strategy == ApproxLs && capped {
      WeightsSum(before.coefs, choice.merged, choice.nearest, choice.away, step);
    }
    states', moves' := states + [after], moves + [mv];
    assert states'[|moves'|] == after;
    return next, states', moves';
  }

  /** `minimize_PFW_trace`. `tol` only feeds a test whose branch is `pass`, so the model has
      no such parameter: a run that raises nothing takes all `max_iter` steps. The lists
      start as the zero atom with weight 1 whatever `x0` is, and the ghost `states` and
      `moves` are the run that led to the result. The iterate stays `x0` plus the
      combination of the atoms with their weights, and the weights total 1, for as long as
      no iteration is a self-merge, which the adaptive and Lipschitz steps never are. A matrix with no
      entries makes `svds` raise ValueError. The source is `capped == false`. In the
      corrected driver (`capped`), whose `approx_ls` branch searches `[0, gamma_max]`, the
      weights stay nonnegative under that strategy and their total never exceeds 1. */
  method MinimizePfwTrace(fgrad: Objective, lmo: TraceOracle, x0: seq<real>, L0: real,
                          maxIter: nat, strategy: Strategy, capped: bool)
    returns (r: Result<seq<real>>, iters: nat, active: ActiveSet,
             ghost states: seq<TraceState>, ghost moves: seq<TraceMove>)
    requires Shaped(fgrad, |x0|) && OracleShaped(lmo, |x0|) && L0 > 0.0
    ensures active.Valid(|x0|)
    ensures iters <= maxIter
    ensures |moves| == iters && TraceRun(fgrad, lmo, x0, L0, strategy, capped, states, moves)
    ensures active.atoms == states[iters].atoms && active.coefs == states[iters].coefs
    ensures r.Success? ==> iters == maxIter && r.value == states[iters].it.x && |r.value| == |x0|
    ensures maxIter == 0 ==> r == Success(x0) && active.atoms == [Zeros(|x0|)] && active.coefs == [1.0]
    ensures |x0| == 0 && maxIter > 0 ==> r == Failure(ValueError)
    ensures strategy == Other && maxIter > 0 ==> r == Failure(ValueError)
    ensures r.Failure? ==> iters < maxIter
    ensures r.Failure? && |x0| > 0 ==>
      && TraceShaped(lmo, |x0|, states[iters])
      && TraceFails(fgrad, lmo, strategy, capped, states[iters].it, states[iters].atoms, states[iters].coefs, r.error)
    ensures strategy != ApproxLs ==> NoSelfMerge(states, moves)
    ensures r.Success? && NoSelfMerge(states, moves) ==>
      Sub(r.value, x0) == Combination(active.atoms, active.coefs, |x0|)
    ensures NoSelfMerge(states, moves) ==> Sum(active.coefs) == 1.0
    ensures strategy == ApproxLs && capped ==> Nonnegative(active.coefs) && Sum(active.coefs) <= 1.0
  {
    var n := |x0|;
    active := new ActiveSet(n);
    var it := TraceIterate(x0, fgrad(x0), L0);
    iters := 0;
    states, moves := [TraceState(it, active.atoms, active.coefs)], [];
    assert Sum([1.0]) == SumTo([1.0], 0) + 1.0 == 1.0;
    assert Combination([Zeros(n)], [1.0], n) == Sub(x0, x0) by {
      assert [Zeros(n)][..0] == [] && [1.0][..0] == [];
      assert Combination([Zeros(n)], [1.0], n) == Axpy(Zeros(n), 1.0, Zeros(n));
    }
    while iters < maxIter
      invariant iters <= maxIter
      invariant active.Valid(n)
      invariant |moves| == iters && TraceRun(fgrad, lmo, x0, L0, strategy, capped, states, moves)
      invariant states[iters] == TraceState(it, active.atoms, active.coefs)
      invariant |it.x| == n && it.eval == fgrad(it.x) && it.lipschitz > 0.0
      invariant iters == 0 ==> it.x == x0 && active.atoms == [Zeros(n)] && active.coefs == [1.0]
      invariant strategy != ApproxLs ==> NoSelfMerge(states, moves)
      invariant NoSelfMerge(states, moves) ==> Sub(it.x, x0) == Combination(active.atoms, active.coefs, n)
      invariant NoSelfMerge(states, moves) ==> Sum(active.coefs) == 1.0
      invariant strategy == ApproxLs && capped ==> Nonnegative(active.coefs) && Sum(active.coefs) <= 1.0
      invariant strategy == Other || n == 0 ==> iters == 0
    {
      if n == 0 {
        return Failure(ValueError), iters, active, states, moves;
      }
      var next;
      next, states, moves := Advance(fgrad, lmo, x0, L0, strategy, capped, active, it, states, moves);
      if next.Failure? {
        return Failure(next.error), iters, active, states, moves;
      }
      it := next.value;
      iters := iters + 1;
    }
    return Success(it.x), iters, active, states, moves;
  }
}
