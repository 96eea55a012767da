/** Properties of the step specification in `Solver`. */
module SolverLemmas {
  import opened Vectors
  import opened Solver
  import Boundary

  /** Velocity reconciliation undoes the prediction: ((x + dt*v) - x) / dt == v. */
  lemma VelocityRecoversPrediction(x: seq<Vec3>, v: seq<Vec3>, dt: real)
    requires |x| == |v| && dt != 0.0
    ensures Velocity(Predict(x, v, dt), x, dt) == v
  {
    var w := Velocity(Predict(x, v, dt), x, dt);
    forall p | 0 <= p < |x|
      ensures w[p] == v[p]
    {
      var a, b := x[p], v[p];
      assert Sub(Add(a, Scale(dt, b)), a) == Scale(dt, b);
      assert Div(Scale(dt, b), dt) == b;
    }
  }

  /** With no Jacobi pass the step commits the predicted positions and the
      reconciled velocity is the velocity after gravity. */
  lemma StepWithoutPasses(P: Params, nb: seq<seq<int>>, x: seq<Vec3>, fr: Frame, dv: real, dt: real)
    requires NeighbourLists(nb, |nb|) && Shaped(fr, |nb|) && |x| == |nb| && dt != 0.0
    ensures var r := StepFrame(P, nb, 0, x, fr, dv, dt);
            r.xNew == Predict(x, Gravity(fr.v, dv), dt) && r.v == Gravity(fr.v, dv)
  {
    VelocityRecoversPrediction(x, Gravity(fr.v, dv), dt);
  }

  /** The reconciled velocity reproduces the committed positions: moving the
      start positions `x` by dt times the velocity (xn - x) / dt lands on `xn`. */
  lemma PredictRecoversPositions(x: seq<Vec3>, xn: seq<Vec3>, dt: real)
    requires |x| == |xn| && dt != 0.0
    ensures Predict(x, Velocity(xn, x, dt), dt) == xn
  {
    var w := Predict(x, Velocity(xn, x, dt), dt);
    forall p | 0 <= p < |x|
      ensures w[p] == xn[p]
    {
      var a, b := x[p], xn[p];
      assert Scale(dt, Div(Sub(b, a), dt)) == Sub(b, a);
      assert Add(a, Sub(b, a)) == b;
    }
  }

  /** After at least one pass every committed coordinate lies in the box. */
  lemma StepInBox(P: Params, nb: seq<seq<int>>, k: nat, x: seq<Vec3>, fr: Frame, dv: real, dt: real)
    requires ValidParams(P) && NeighbourLists(nb, |nb|) && Shaped(fr, |nb|) && |x| == |nb| && 0 < k <= |nb|
    requires dt != 0.0 && P.lower <= P.upper
    ensures InBox(StepFrame(P, nb, k, x, fr, dv, dt).xNew, P.lower, P.upper)
  {
    JacobiInBox(P, nb, k, ApplyForces(x, fr, dv, dt));
  }

  lemma {:induction false} GradNormPrefixMonotone(P: Params, x: seq<Vec3>, nb: seq<seq<int>>, i: nat, m: nat, n: nat)
    requires ValidParams(P) && NeighbourLists(nb, |x|) && i < |x| && m <= n <= |x|
    ensures GradNormPrefix(P, x, nb, i, m) <= GradNormPrefix(P, x, nb, i, n)
    decreases n
  {
    if m < n {
      GradNormPrefixMonotone(P, x, nb, i, m, n - 1);
    }
  }

  /** The relations the constraint stage establishes for every particle:
      c = density / rho - 1, lambda = -c / divisor with a divisor of at least
      the CFM epsilon, and the accumulator is non-negative. Only slot `i` of
      the accumulator is ever non-zero; particle `i` divides by the part of
      it summed up to particle `i`, which is at most its final value. */
  lemma ConstraintStageRelations(P: Params, nb: seq<seq<int>>, i: nat, fr: Frame, p: nat)
    requires ValidParams(P) && NeighbourLists(nb, |nb|) && Shaped(fr, |nb|) && i < |nb| && p < |nb|
    ensures var r := ConstraintStage(P, nb, i, fr);
            var d := LambdaDivisor(P, fr.xNew, nb, i, p);
            r.c[p] == r.density[p] / P.rho - 1.0
            && r.cGradNorm[p] >= 0.0
            && d >= P.cfmEpsilon > 0.0
            && r.lambda[p] == -r.c[p] / d
            && (p != i ==> r.cGradNorm[p] == 0.0 && d == r.cGradNorm[p] + P.cfmEpsilon)
            && (p == i ==> d <= r.cGradNorm[p] + P.cfmEpsilon)
  {
    var x := fr.xNew;
    var r := ConstraintStage(P, nb, i, fr);
    var d := LambdaDivisor(P, x, nb, i, p);
    if p == i {
      GradNormPrefixMonotone(P, x, nb, i, p + 1, |nb|);
    }
    assert d > 0.0;
  }

  lemma {:induction false} GradNormPrefixOfEmptyList(P: Params, x: seq<Vec3>, nb: seq<seq<int>>, i: nat, n: nat)
    requires ValidParams(P) && NeighbourLists(nb, |x|) && i < |x| && n <= |x| && nb[i] == []
    ensures GradNormPrefix(P, x, nb, i, n) == 0.0
    decreases n
  {
    if n > 0 {
      GradNormPrefixOfEmptyList(P, x, nb, i, n - 1);
    }
  }

  /** A pass whose neighbour list is empty: every density is 0, every
      constraint -1, every multiplier 1 / cfm_epsilon and every correction 0. */
  lemma EmptyListPass(P: Params, nb: seq<seq<int>>, i: nat, fr: Frame)
    requires ValidParams(P) && NeighbourLists(nb, |nb|) && Shaped(fr, |nb|) && i < |nb| && nb[i] == []
    ensures var r := CorrectionStage(P, nb, i, ConstraintStage(P, nb, i, fr));
            forall p :: 0 <= p < |nb| ==>
              r.density[p] == 0.0 && r.c[p] == -1.0 && r.cGradNorm[p] == 0.0 &&
              r.lambda[p] == 1.0 / P.cfmEpsilon && r.dP[p] == Zero
  {
    var x := fr.xNew;
    forall n | 0 <= n <= |nb|
      ensures GradNormPrefix(P, x, nb, i, n) == 0.0
    {
      GradNormPrefixOfEmptyList(P, x, nb, i, n);
    }
  }

  /** After the collision stage every coordinate lies in the box, and every
      velocity component kept its magnitude. */
  lemma CollisionStageBounds(P: Params, fr: Frame)
    requires Shaped(fr, |fr.xNew|)
    ensures var r := CollisionStage(P, fr);
            (P.lower <= P.upper ==> InBox(r.xNew, P.lower, P.upper))
            && forall p, a :: 0 <= p < |fr.xNew| && 0 <= a < 3 ==>
                 Boundary.Abs(r.v[p].At(a)) == Boundary.Abs(fr.v[p].At(a))
  {
    var r := CollisionStage(P, fr);
    forall p, a | 0 <= p < |fr.xNew| && 0 <= a < 3
      ensures P.lower <= P.upper ==> P.lower <= r.xNew[p].At(a) <= P.upper
      ensures Boundary.Abs(r.v[p].At(a)) == Boundary.Abs(fr.v[p].At(a))
    {
      CollidePrefixAt(P, fr, |fr.xNew|, p);
      Boundary.CollideAxisWise(P.lower, P.upper, Add(fr.xNew[p], Scale(StepScale, fr.dP[p])), fr.v[p]);
    }
  }

  /** After at least one pass the candidate positions lie in the box. */
  lemma JacobiInBox(P: Params, nb: seq<seq<int>>, k: nat, fr: Frame)
    requires ValidParams(P) && NeighbourLists(nb, |nb|) && Shaped(fr, |nb|) && 0 < k <= |nb|
    requires P.lower <= P.upper
    ensures InBox(Jacobi(P, nb, k, fr).xNew, P.lower, P.upper)
  {
    var prev := Jacobi(P, nb, k - 1, fr);
    CollisionStageBounds(P, CorrectionStage(P, nb, k - 1, ConstraintStage(P, nb, k - 1, prev)));
  }

  /** Density, multipliers, gradient norms, constraints and corrections are
      recomputed from scratch by every pass: after one pass or more, the
      result depends only on the candidate positions and velocities the loop
      started from. */
  lemma {:induction false} AccumulatorsDoNotCarryOver(P: Params, nb: seq<seq<int>>, k: nat, fr1: Frame, fr2: Frame)
    requires ValidParams(P) && NeighbourLists(nb, |nb|) && Shaped(fr1, |nb|) && Shaped(fr2, |nb|)
    requires 0 < k <= |nb| && fr1.xNew == fr2.xNew && fr1.v == fr2.v
    ensures Jacobi(P, nb, k, fr1) == Jacobi(P, nb, k, fr2)
    decreases k
  {
    if k == 1 {
      var c1, c2 := ConstraintStage(P, nb, 0, fr1), ConstraintStage(P, nb, 0, fr2);
      assert c1.density == c2.density && c1.c == c2.c && c1.lambda == c2.lambda && c1.cGradNorm == c2.cGradNorm;
      assert CorrectionStage(P, nb, 0, c1) == CorrectionStage(P, nb, 0, c2);
    } else {
      AccumulatorsDoNotCarryOver(P, nb, k - 1, fr1, fr2);
    }
  }
}
