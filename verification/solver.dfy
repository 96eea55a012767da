/** Value-level specification of one simulation step of the fluid: the
    external-force integration, one Jacobi pass (constraint evaluation,
    position correction, collision) and the velocity reconciliation. The
    methods of `FluidSim.Fluid` are proved to compute exactly these values. */
module Solver {
  import opened Vectors
  import opened Kernels
  import Boundary

  /** The configuration one Jacobi pass reads. */
  datatype Params = Params(
    mass: real, rho: real, cfmEpsilon: real, h: real,
    tensileK: real, tensileN: nat, tensileDenom: real,
    lower: real, upper: real,
    poly6: Poly6, spiky: Spiky, norm: Norm)

  /** What the pass needs for its divisions to be defined: a non-zero rest
      density and tensile denominator, a positive CFM epsilon and a norm that
      is never negative. */
  ghost predicate ValidParams(P: Params) {
    P.rho != 0.0 && P.cfmEpsilon > 0.0 && P.tensileDenom != 0.0 &&
    forall u :: P.norm(u) >= 0.0
  }

  /** The damping factor applied to the position correction. */
  const StepScale: real := 0.005

  /** The per-particle arrays of the solver, as values. */
  datatype Frame = Frame(
    xNew: seq<Vec3>, v: seq<Vec3>,
    density: seq<real>, c: seq<real>, lambda: seq<real>, cGradNorm: seq<real>,
    dP: seq<Vec3>)

  predicate Shaped(fr: Frame, n: nat) {
    |fr.xNew| == n && |fr.v| == n && |fr.density| == n && |fr.c| == n &&
    |fr.lambda| == n && |fr.cGradNorm| == n && |fr.dP| == n
  }

  predicate InRange(nbrs: seq<int>, n: nat) {
    forall k :: 0 <= k < |nbrs| ==> 0 <= nbrs[k] < n
  }

  /** One neighbour list per particle, every entry a particle index. */
  predicate NeighbourLists(nb: seq<seq<int>>, n: nat) {
    |nb| == n && forall p :: 0 <= p < n ==> InRange(nb[p], n)
  }

  function Zeros(n: nat): seq<real> {
    seq(n, _ => 0.0)
  }

  // ---------------------------------------------------------------------
  // External forces and velocity reconciliation

  /** `v.col(1) -= particle_mass * gravity_f`, with `dv` the product. */
  function Gravity(v: seq<Vec3>, dv: real): seq<Vec3> {
    seq(|v|, p requires 0 <= p < |v| => Vec3(v[p].x, v[p].y - dv, v[p].z))
  }

  /** `x_new = fluid_state + dt * v`. */
  function Predict(x: seq<Vec3>, v: seq<Vec3>, dt: real): seq<Vec3>
    requires |x| == |v|
  {
    seq(|x|, p requires 0 <= p < |x| => Add(x[p], Scale(dt, v[p])))
  }

  /** `v = (x_new - fluid_state) / dt`. */
  function Velocity(xNew: seq<Vec3>, x: seq<Vec3>, dt: real): seq<Vec3>
    requires |xNew| == |x| && dt != 0.0
  {
    seq(|x|, p requires 0 <= p < |x| => Div(Sub(xNew[p], x[p]), dt))
  }

  /** The frame at the start of the Jacobi loop. */
  function ApplyForces(x: seq<Vec3>, fr: Frame, dv: real, dt: real): Frame
    requires |x| == |fr.v|
  {
    var v := Gravity(fr.v, dv);
    fr.(v := v, xNew := Predict(x, v, dt))
  }

  // ---------------------------------------------------------------------
  // Sums over a neighbour list, accumulated front to back

  /** What neighbour `q` adds to the density of particle `p`. */
  function DensityTerm(P: Params, x: seq<Vec3>, p: nat, q: nat): real
    requires p < |x| && q < |x|
  {
    P.mass * P.poly6(x[p], x[q], P.h)
  }

  /** Density of particle `p` over the list `nbrs`. */
  function DensitySum(P: Params, x: seq<Vec3>, p: nat, nbrs: seq<int>): real
    requires p < |x| && InRange(nbrs, |x|)
    decreases |nbrs|
  {
    if nbrs == [] then 0.0
    else DensitySum(P, x, p, nbrs[..|nbrs| - 1]) + DensityTerm(P, x, p, nbrs[|nbrs| - 1])
  }

  /** Sum of spiky gradients of particle `p` over the list `nbrs`. */
  function SpikySum(P: Params, x: seq<Vec3>, p: nat, nbrs: seq<int>): Vec3
    requires p < |x| && InRange(nbrs, |x|)
    decreases |nbrs|
  {
    if nbrs == [] then Zero
    else
      var q := nbrs[|nbrs| - 1];
      Add(SpikySum(P, x, p, nbrs[..|nbrs| - 1]), P.spiky(x[p], x[q], P.h))
  }

  /** The gradient whose norm neighbour `q` adds for particle `p`: the sum
      over `p`'s own list `own` when `q` is `p` itself, else one gradient. */
  function GradTerm(P: Params, x: seq<Vec3>, p: nat, q: nat, own: seq<int>): Vec3
    requires p < |x| && q < |x| && InRange(own, |x|)
  {
    if p == q then SpikySum(P, x, p, own) else P.spiky(x[p], x[q], P.h)
  }

  function GradNormTerm(P: Params, x: seq<Vec3>, p: nat, q: nat, own: seq<int>): real
    requires P.rho != 0.0 && p < |x| && q < |x| && InRange(own, |x|)
  {
    P.norm(Div(GradTerm(P, x, p, q, own), P.rho))
  }

  /** What particle `p` adds to the gradient-norm accumulator while walking
      the list `nbrs`. */
  function GradNormSum(P: Params, x: seq<Vec3>, p: nat, nbrs: seq<int>, own: seq<int>): (r: real)
    requires ValidParams(P) && p < |x| && InRange(nbrs, |x|) && InRange(own, |x|)
    ensures r >= 0.0
    decreases |nbrs|
  {
    if nbrs == [] then 0.0
    else GradNormSum(P, x, p, nbrs[..|nbrs| - 1], own) + GradNormTerm(P, x, p, nbrs[|nbrs| - 1], own)
  }

  /** The accumulator `c_grad_norm[i]` after particles 0 .. n-1 of pass `i`
      walked the list `nb[i]`. */
  function GradNormPrefix(P: Params, x: seq<Vec3>, nb: seq<seq<int>>, i: nat, n: nat): (r: real)
    requires ValidParams(P) && NeighbourLists(nb, |x|) && i < |x| && n <= |x|
    ensures r >= 0.0
    decreases n
  {
    if n == 0 then 0.0
    else GradNormPrefix(P, x, nb, i, n - 1) + GradNormSum(P, x, n - 1, nb[i], nb[n - 1])
  }

  /** `-k * w^n / denom`, the shape of the tensile-instability term. */
  function Tensile(k: real, w: real, n: nat, denom: real): real
    requires denom != 0.0
  {
    -k * Pow(w, n) / denom
  }

  /** The tensile-instability term `s_corr` of two positions. */
  function SCorr(P: Params, xp: Vec3, xq: Vec3): real
    requires P.tensileDenom != 0.0
  {
    Tensile(P.tensileK, P.poly6(xp, xq, P.h), P.tensileN, P.tensileDenom)
  }

  /** What neighbour `q` adds to the position correction of particle `p`. */
  function CorrectionTerm(P: Params, x: seq<Vec3>, lambda: seq<real>, p: nat, q: nat): Vec3
    requires P.tensileDenom != 0.0 && |lambda| == |x| && p < |x| && q < |x|
  {
    Scale(lambda[p] + lambda[q] + SCorr(P, x[p], x[q]), P.spiky(x[p], x[q], P.h))
  }

  /** Weighted position-correction sum of particle `p` over `nbrs`. */
  function CorrectionSum(P: Params, x: seq<Vec3>, lambda: seq<real>, p: nat, nbrs: seq<int>): Vec3
    requires P.tensileDenom != 0.0 && |lambda| == |x| && p < |x| && InRange(nbrs, |x|)
    decreases |nbrs|
  {
    if nbrs == [] then Zero
    else Add(CorrectionSum(P, x, lambda, p, nbrs[..|nbrs| - 1]), CorrectionTerm(P, x, lambda, p, nbrs[|nbrs| - 1]))
  }

  // ---------------------------------------------------------------------
  // One Jacobi pass with iteration counter i

  /** Constraint value of particle `p` in pass `i`. */
  function ConstraintOf(P: Params, x: seq<Vec3>, nb: seq<seq<int>>, i: nat, p: nat): real
    requires ValidParams(P) && NeighbourLists(nb, |x|) && i < |x| && p < |x|
  {
    DensitySum(P, x, p, nb[i]) / P.rho - 1.0
  }

  /** The divisor particle `p` sees: `c_grad_norm[p]` at the moment `lambda[p]`
      is computed. Only slot `i` is ever accumulated, so it is zero unless
      `p == i`, and then it holds the sum of particles 0 .. i so far. */
  function LambdaDivisor(P: Params, x: seq<Vec3>, nb: seq<seq<int>>, i: nat, p: nat): real
    requires ValidParams(P) && NeighbourLists(nb, |x|) && i < |x| && p < |x|
  {
    (if p == i then GradNormPrefix(P, x, nb, i, p + 1) else 0.0) + P.cfmEpsilon
  }

  function LambdaOf(P: Params, x: seq<Vec3>, nb: seq<seq<int>>, i: nat, p: nat): real
    requires ValidParams(P) && NeighbourLists(nb, |x|) && i < |x| && p < |x|
  {
    -ConstraintOf(P, x, nb, i, p) / LambdaDivisor(P, x, nb, i, p)
  }

  /** Densities, constraints, multipliers and the gradient-norm accumulator
      of pass `i`, computed from the candidate positions alone. */
  function ConstraintStage(P: Params, nb: seq<seq<int>>, i: nat, fr: Frame): (r: Frame)
    requires ValidParams(P) && NeighbourLists(nb, |nb|) && Shaped(fr, |nb|) && i < |nb|
    ensures Shaped(r, |nb|) && r.xNew == fr.xNew && r.v == fr.v && r.dP == fr.dP
  {
    var x, n := fr.xNew, |nb|;
    fr.(density := seq(n, p requires 0 <= p < n => DensitySum(P, x, p, nb[i])),
        c := seq(n, p requires 0 <= p < n => ConstraintOf(P, x, nb, i, p)),
        lambda := seq(n, p requires 0 <= p < n => LambdaOf(P, x, nb, i, p)),
        cGradNorm := seq(n, p requires 0 <= p < n => if p == i then GradNormPrefix(P, x, nb, i, n) else 0.0))
  }

  /** The position corrections of pass `i` from the multipliers in `fr`. */
  function CorrectionStage(P: Params, nb: seq<seq<int>>, i: nat, fr: Frame): (r: Frame)
    requires ValidParams(P) && NeighbourLists(nb, |nb|) && Shaped(fr, |nb|) && i < |nb|
    ensures Shaped(r, |nb|)
  {
    var x, n := fr.xNew, |nb|;
    fr.(dP := seq(n, p requires 0 <= p < n => Div(CorrectionSum(P, x, fr.lambda, p, nb[i]), P.rho)))
  }

  /** Particle `p` after the collision stage: its damped correction applied,
      then the clamp-and-reflect checks against the box. */
  function CollideRow(P: Params, fr: Frame, p: nat): (Vec3, Vec3)
    requires Shaped(fr, |fr.xNew|) && p < |fr.xNew|
  {
    Boundary.Collide(P.lower, P.upper, Add(fr.xNew[p], Scale(StepScale, fr.dP[p])), fr.v[p])
  }

  /** Positions and velocities of particles 0 .. n-1 after the collision
      stage, in the order the stage visits them. */
  function CollidePrefix(P: Params, fr: Frame, n: nat): (r: (seq<Vec3>, seq<Vec3>))
    requires Shaped(fr, |fr.xNew|) && n <= |fr.xNew|
    ensures |r.0| == n && |r.1| == n
    decreases n
  {
    if n == 0 then ([], [])
    else
      var (xs, vs) := CollidePrefix(P, fr, n - 1);
      var row := CollideRow(P, fr, n - 1);
      (xs + [row.0], vs + [row.1])
  }

  /** Row `q` of a collided prefix is particle `q`'s own collision. */
  lemma {:induction false} CollidePrefixAt(P: Params, fr: Frame, n: nat, q: nat)
    requires Shaped(fr, |fr.xNew|) && q < n <= |fr.xNew|
    ensures var r := CollidePrefix(P, fr, n);
            (r.0[q], r.1[q]) == CollideRow(P, fr, q)
    decreases n
  {
    if q < n - 1 {
      CollidePrefixAt(P, fr, n - 1, q);
    }
  }

  /** Damped correction applied, then every particle collided with the box. */
  function CollisionStage(P: Params, fr: Frame): (r: Frame)
    requires Shaped(fr, |fr.xNew|)
    ensures Shaped(r, |fr.xNew|)
  {
    var rows := CollidePrefix(P, fr, |fr.xNew|);
    fr.(xNew := rows.0, v := rows.1)
  }

  /** A frame agreeing with `fr` outside the constraint fields and holding,
      row by row, what the constraint stage computes, is that stage's result. */
  lemma ConstraintStageByRows(P: Params, nb: seq<seq<int>>, i: nat, fr: Frame, r: Frame)
    requires ValidParams(P) && NeighbourLists(nb, |nb|) && Shaped(fr, |nb|) && i < |nb|
    requires Shaped(r, |nb|) && r.xNew == fr.xNew && r.v == fr.v && r.dP == fr.dP
    requires forall q :: 0 <= q < |nb| ==>
      r.density[q] == DensitySum(P, fr.xNew, q, nb[i]) &&
      r.c[q] == ConstraintOf(P, fr.xNew, nb, i, q) &&
      r.lambda[q] == LambdaOf(P, fr.xNew, nb, i, q)
    requires forall q :: 0 <= q < |nb| && q != i ==> r.cGradNorm[q] == 0.0
    requires r.cGradNorm[i] == GradNormPrefix(P, fr.xNew, nb, i, |nb|)
    ensures r == ConstraintStage(P, nb, i, fr)
  {
    var s := ConstraintStage(P, nb, i, fr);
    assert r.density == s.density;
    assert r.c == s.c;
    assert r.lambda == s.lambda;
    assert r.cGradNorm == s.cGradNorm;
  }

  /** The collision stage, row by row. */
  lemma CollisionStageByRows(P: Params, fr: Frame, r: Frame)
    requires Shaped(fr, |fr.xNew|) && Shaped(r, |fr.xNew|)
    requires r.density == fr.density && r.c == fr.c && r.lambda == fr.lambda &&
             r.cGradNorm == fr.cGradNorm && r.dP == fr.dP
    requires forall q :: 0 <= q < |fr.xNew| ==> (r.xNew[q], r.v[q]) == CollideRow(P, fr, q)
    ensures r == CollisionStage(P, fr)
  {
    var s := CollisionStage(P, fr);
    forall q | 0 <= q < |fr.xNew|
      ensures r.xNew[q] == s.xNew[q] && r.v[q] == s.v[q]
    {
      CollidePrefixAt(P, fr, |fr.xNew|, q);
    }
    assert r.xNew == s.xNew;
    assert r.v == s.v;
  }

  function JacobiPass(P: Params, nb: seq<seq<int>>, i: nat, fr: Frame): Frame
    requires ValidParams(P) && NeighbourLists(nb, |nb|) && Shaped(fr, |nb|) && i < |nb|
  {
    CollisionStage(P, CorrectionStage(P, nb, i, ConstraintStage(P, nb, i, fr)))
  }

  /** Passes 0 .. k-1 in order. Pass `i` reads `nb[i]`, so `k` may not
      exceed the number of lists; the divisions of a pass are only reached
      when at least one pass runs. */
  function Jacobi(P: Params, nb: seq<seq<int>>, k: nat, fr: Frame): (r: Frame)
    requires (k > 0 ==> ValidParams(P)) && NeighbourLists(nb, |nb|) && Shaped(fr, |nb|) && k <= |nb|
    ensures Shaped(r, |nb|)
    decreases k
  {
    if k == 0 then fr else JacobiPass(P, nb, k - 1, Jacobi(P, nb, k - 1, fr))
  }

  /** The whole step: external forces, the Jacobi passes, then the velocity
      reconciled with the displacement from the start positions `x`. */
  function StepFrame(P: Params, nb: seq<seq<int>>, k: nat, x: seq<Vec3>, fr: Frame, dv: real, dt: real): (r: Frame)
    requires (k > 0 ==> ValidParams(P)) && NeighbourLists(nb, |nb|) && Shaped(fr, |nb|) && |x| == |nb| && k <= |nb|
    requires dt != 0.0
    ensures Shaped(r, |nb|)
  {
    var f := Jacobi(P, nb, k, ApplyForces(x, fr, dv, dt));
    f.(v := Velocity(f.xNew, x, dt))
  }

  predicate InBox(xs: seq<Vec3>, lo: real, hi: real) {
    forall p, a :: 0 <= p < |xs| && 0 <= a < 3 ==> lo <= xs[p].At(a) <= hi
  }
}
