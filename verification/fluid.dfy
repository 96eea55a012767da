/** The `Fluid` object: configuration, per-particle arrays updated in place,
    the neighbour lists of the current frame and the simulation clock. */
module FluidSim {
  import opened Vectors
  import opened Kernels
  import opened Solver

  class Fluid {
    const numParticles: nat
    const particleMass: real
    const rho: real
    /** The constant per-particle gravity vector, kept as its common value. */
    const gravityF: real
    const userF: real
    const jacobiIterations: int
    const cfmEpsilon: real
    const kernelH: real
    const tensileK: real
    const tensileDeltaQ: real
    const tensileN: nat
    const viscosityC: real
    const vorticityEpsilon: real
    const lowerBound: real
    const upperBound: real
    const dt: real
    const tensileStabilityDenom: real

    const poly6: Poly6
    const spiky: Spiky
    const norm: Norm

    // N x 3 matrices, one row per particle
    const xNew: array<Vec3>
    const v: array<Vec3>
    const dP: array<Vec3>
    // per-particle scalars
    const density: array<real>
    const c: array<real>
    const lambda: array<real>
    const cGradNorm: array<real>

    var neighbours: seq<seq<int>>
    var t: real

    ghost predicate Valid()
      reads this
    {
      xNew.Length == numParticles && v.Length == numParticles && dP.Length == numParticles &&
      density.Length == numParticles && c.Length == numParticles &&
      lambda.Length == numParticles && cGradNorm.Length == numParticles &&
      xNew != v && xNew != dP && v != dP &&
      density != c && density != lambda && density != cGradNorm &&
      c != lambda && c != cGradNorm && lambda != cGradNorm &&
      NeighbourLists(neighbours, numParticles)
    }

    /** The configuration as the solver specification reads it. */
    function Config(): Params {
      Params(particleMass, rho, cfmEpsilon, kernelH, tensileK, tensileN, tensileStabilityDenom,
             lowerBound, upperBound, poly6, spiky, norm)
    }

    /** Number of Jacobi passes a step runs (a negative count runs none). */
    function Passes(): nat {
      if jacobiIterations < 0 then 0 else jacobiIterations
    }

    /** The solver arrays as values. */
    ghost function Snapshot(): Frame
      reads xNew, v, dP, density, c, lambda, cGradNorm
    {
      Frame(xNew[..], v[..], density[..], c[..], lambda[..], cGradNorm[..], dP[..])
    }

    constructor(numParticles: nat, particleMass: real, rho: real, gravityF: real, userF: real,
                jacobiIterations: int, cfmEpsilon: real, kernelH: real, tensileK: real,
                tensileDeltaQ: real, tensileN: nat, viscosityC: real, vorticityEpsilon: real,
                lowerBound: real, upperBound: real, dt: real,
                poly6: Poly6, radialPoly6: RadialPoly6, spiky: Spiky, norm: Norm)
      ensures Valid()
      ensures fresh(xNew) && fresh(v) && fresh(dP) && fresh(density) && fresh(c) && fresh(lambda) && fresh(cGradNorm)
      ensures this.numParticles == numParticles && this.particleMass == particleMass && this.rho == rho
      ensures this.gravityF == gravityF && this.userF == userF && this.jacobiIterations == jacobiIterations
      ensures this.cfmEpsilon == cfmEpsilon && this.kernelH == kernelH
      ensures this.tensileK == tensileK && this.tensileDeltaQ == tensileDeltaQ && this.tensileN == tensileN
      ensures this.viscosityC == viscosityC && this.vorticityEpsilon == vorticityEpsilon
      ensures this.lowerBound == lowerBound && this.upperBound == upperBound && this.dt == dt
      ensures this.poly6 == poly6 && this.spiky == spiky && this.norm == norm
      ensures tensileStabilityDenom == Pow(radialPoly6(tensileDeltaQ, kernelH), tensileN)
      ensures t == 0.0
      ensures |neighbours| == numParticles && forall p :: 0 <= p < numParticles ==> neighbours[p] == []
    {
      this.numParticles := numParticles;
      this.particleMass := particleMass;
      this.rho := rho;
      this.userF := userF;
      this.jacobiIterations := jacobiIterations;
      this.cfmEpsilon := cfmEpsilon;
      this.kernelH := kernelH;
      this.tensileK := tensileK;
      this.tensileDeltaQ := tensileDeltaQ;
      this.tensileN := tensileN;
      this.viscosityC := viscosityC;
      this.vorticityEpsilon := vorticityEpsilon;
      this.t := 0.0;
      this.dt := dt;
      this.lowerBound := lowerBound;
      this.upperBound := upperBound;
      this.poly6, this.spiky, this.norm := poly6, spiky, norm;

      xNew := new Vec3[numParticles];
      v := new Vec3[numParticles];
      dP := new Vec3[numParticles];
      density := new real[numParticles];
      c := new real[numParticles];
      lambda := new real[numParticles];
      cGradNorm := new real[numParticles];

      this.gravityF := gravityF;
      neighbours := seq(numParticles, _ => []);
      tensileStabilityDenom := Pow(radialPoly6(tensileDeltaQ, kernelH), tensileN);
    }

    /** `init_state`: velocities start at zero. */
    method InitState()
      requires Valid()
      modifies v
      ensures forall p :: 0 <= p < numParticles ==> v[p] == Zero
    {
      forall p | 0 <= p < v.Length {
        v[p] := Zero;
      }
    }

    /** Gravity on velocity column 1, then the candidate positions. */
    method ApplyExternalForces(fluidState: array<Vec3>)
      requires Valid() && fluidState.Length == numParticles && fluidState != v && fluidState != xNew
      modifies v, xNew
      ensures v[..] == Gravity(old(v[..]), particleMass * gravityF)
      ensures xNew[..] == Predict(fluidState[..], v[..], dt)
    {
      forall p | 0 <= p < v.Length {
        v[p] := Vec3(v[p].x, v[p].y - particleMass * gravityF, v[p].z);
      }
      forall p | 0 <= p < xNew.Length {
        xNew[p] := Add(fluidState[p], Scale(dt, v[p]));
      }
    }

    /** The reset at the head of every Jacobi pass. */
    method ResetJacobiState()
      requires Valid()
      modifies density, lambda, cGradNorm
      ensures Snapshot() == old(Snapshot()).(density := Zeros(numParticles), lambda := Zeros(numParticles),
                                             cGradNorm := Zeros(numParticles))
    {
      forall p | 0 <= p < density.Length {
        density[p] := 0.0;
      }
      forall p | 0 <= p < lambda.Length {
        lambda[p] := 0.0;
      }
      forall p | 0 <= p < cGradNorm.Length {
        cGradNorm[p] := 0.0;
      }
    }

    /** The sum of spiky gradients of particle `p` over its own neighbours. */
    method SelfGradient(p: nat) returns (cGradTemp: Vec3)
      requires Valid() && p < numParticles
      ensures cGradTemp == SpikySum(Config(), xNew[..], p, neighbours[p])
    {
      var own := neighbours[p];
      cGradTemp := Zero;
      for k := 0 to |own|
        invariant cGradTemp == SpikySum(Config(), xNew[..], p, own[..k])
      {
        assert own[..k + 1][..k] == own[..k];
        var kerRes := spiky(xNew[p], xNew[own[k]], kernelH);
        cGradTemp := Add(cGradTemp, kerRes);
      }
      assert own[..|own|] == own;
    }

    /** Particle `p` of pass `i` walks the list `neighbours[i]`, adding to its
        density and to the shared accumulator `c_grad_norm[i]`. */
    method AccumulateParticle(i: nat, p: nat)
      requires Valid() && ValidParams(Config()) && i < numParticles && p < numParticles
      modifies density, cGradNorm
      ensures density[p] == old(density[p]) + DensitySum(Config(), xNew[..], p, neighbours[i])
      ensures cGradNorm[i] == old(cGradNorm[i]) + GradNormSum(Config(), xNew[..], p, neighbours[i], neighbours[p])
      ensures forall q :: 0 <= q < numParticles && q != p ==> density[q] == old(density[q])
      ensures forall q :: 0 <= q < numParticles && q != i ==> cGradNorm[q] == old(cGradNorm[q])
    {
      var nbrs := neighbours[i];
      ghost var P, x := Config(), xNew[..];
      for j := 0 to |nbrs|
        invariant density[p] == old(density[p]) + DensitySum(P, x, p, nbrs[..j])
        invariant cGradNorm[i] == old(cGradNorm[i]) + GradNormSum(P, x, p, nbrs[..j], neighbours[p])
        invariant forall q :: 0 <= q < numParticles && q != p ==> density[q] == old(density[q])
        invariant forall q :: 0 <= q < numParticles && q != i ==> cGradNorm[q] == old(cGradNorm[q])
      {
        var pj := nbrs[j];
        assert nbrs[..j + 1][..j] == nbrs[..j];
        assert particleMass * poly6(xNew[p], xNew[pj], kernelH) == DensityTerm(P, x, p, pj);
        density[p] := density[p] + particleMass * poly6(xNew[p], xNew[pj], kernelH);
        var cGradTemp := Zero;
        if p == pj {
          cGradTemp := SelfGradient(p);
        } else {
          var kerRes := spiky(xNew[p], xNew[pj], kernelH);
          cGradTemp := kerRes;
        }
        assert cGradTemp == GradTerm(P, x, p, pj, neighbours[p]);
        cGradNorm[i] := cGradNorm[i] + norm(Div(cGradTemp, rho));
      }
      assert nbrs[..|nbrs|] == nbrs;
    }

    /** Constraint value and multiplier of particle `p` in pass `i`, once its
        density and the accumulator have been summed. */
    method ComputeLambda(i: nat, p: nat)
      requires Valid() && ValidParams(Config()) && i < numParticles && p < numParticles
      requires density[p] == DensitySum(Config(), xNew[..], p, neighbours[i])
      requires cGradNorm[p] + cfmEpsilon == LambdaDivisor(Config(), xNew[..], neighbours, i, p)
      modifies c, lambda
      ensures c[p] == ConstraintOf(Config(), xNew[..], neighbours, i, p)
      ensures lambda[p] == LambdaOf(Config(), xNew[..], neighbours, i, p)
      ensures forall q :: 0 <= q < numParticles && q != p ==> c[q] == old(c[q]) && lambda[q] == old(lambda[q])
    {
      c[p] := (density[p] / rho) - 1.0;
      lambda[p] := -c[p] / (cGradNorm[p] + cfmEpsilon);
    }

    /** Densities, constraints and multipliers of pass `i`. The accumulators
        must have been reset. */
    method ComputeConstraints(i: nat)
      requires Valid() && ValidParams(Config()) && i < numParticles
      requires forall p :: 0 <= p < numParticles ==> density[p] == 0.0 && cGradNorm[p] == 0.0
      modifies density, c, lambda, cGradNorm
      ensures Snapshot() == ConstraintStage(Config(), neighbours, i, old(Snapshot()))
    {
      ghost var P, x := Config(), xNew[..];
      var p := 0;
      while p < numParticles
        invariant 0 <= p <= numParticles
        invariant xNew[..] == x
        invariant forall q :: 0 <= q < p ==> density[q] == DensitySum(P, x, q, neighbours[i])
        invariant forall q :: p <= q < numParticles ==> density[q] == 0.0
        invariant forall q :: 0 <= q < p ==> c[q] == ConstraintOf(P, x, neighbours, i, q)
        invariant forall q :: 0 <= q < p ==> lambda[q] == LambdaOf(P, x, neighbours, i, q)
        invariant forall q :: 0 <= q < numParticles && q != i ==> cGradNorm[q] == 0.0
        invariant cGradNorm[i] == GradNormPrefix(P, x, neighbours, i, p)
      {
        AccumulateParticle(i, p);
        ComputeLambda(i, p);
        p := p + 1;
      }
      ConstraintStageByRows(P, neighbours, i, old(Snapshot()), Snapshot());
    }

    /** Particle `p` of pass `i` walks the list `neighbours[i]`, adding its
        weighted, tensile-corrected gradients to its correction row. */
    method AccumulateCorrection(i: nat, p: nat)
      requires Valid() && ValidParams(Config()) && i < numParticles && p < numParticles
      requires dP[p] == Zero
      modifies dP
      ensures dP[p] == CorrectionSum(Config(), xNew[..], lambda[..], p, neighbours[i])
      ensures forall q :: 0 <= q < numParticles && q != p ==> dP[q] == old(dP[q])
    {
      var nbrs := neighbours[i];
      ghost var P, x, lam := Config(), xNew[..], lambda[..];
      assert P.poly6 == poly6 && P.spiky == spiky && P.h == kernelH && P.tensileK == tensileK &&
             P.tensileN == tensileN && P.tensileDenom == tensileStabilityDenom;
      for j := 0 to |nbrs|
        invariant dP[p] == CorrectionSum(P, x, lam, p, nbrs[..j])
        invariant forall q :: 0 <= q < numParticles && q != p ==> dP[q] == old(dP[q])
      {
        var pj := nbrs[j];
        var kerRes := spiky(xNew[p], xNew[pj], kernelH);
        var w := poly6(xNew[p], xNew[pj], kernelH);
        var sCorr := -tensileK * Pow(w, tensileN) / tensileStabilityDenom;
        assert nbrs[..j + 1][..j] == nbrs[..j];
        assert x[p] == xNew[p] && x[pj] == xNew[pj] && lam[p] == lambda[p] && lam[pj] == lambda[pj];
        assert w == P.poly6(x[p], x[pj], P.h);
        assert sCorr == Tensile(tensileK, w, tensileN, tensileStabilityDenom);
        assert sCorr == SCorr(P, x[p], x[pj]);
        assert Scale(lambda[p] + lambda[pj] + sCorr, kerRes) == CorrectionTerm(P, x, lam, p, pj);
        dP[p] := Add(dP[p], Scale(lambda[p] + lambda[pj] + sCorr, kerRes));
      }
      assert nbrs[..|nbrs|] == nbrs;
    }

    /** The position corrections of pass `i` from the multipliers. */
    method ComputePositionCorrection(i: nat)
      requires Valid() && ValidParams(Config()) && i < numParticles
      modifies dP
      ensures Snapshot() == CorrectionStage(Config(), neighbours, i, old(Snapshot()))
    {
      ghost var P, x, lam := Config(), xNew[..], lambda[..];
      forall p | 0 <= p < dP.Length {
        dP[p] := Zero;
      }
      var p := 0;
      while p < numParticles
        invariant 0 <= p <= numParticles
        invariant xNew[..] == x && lambda[..] == lam
        invariant forall q :: 0 <= q < p ==> dP[q] == Div(CorrectionSum(P, x, lam, q, neighbours[i]), rho)
        invariant forall q :: p <= q < numParticles ==> dP[q] == Zero
      {
        AccumulateCorrection(i, p);
        dP[p] := Div(dP[p], rho);
        p := p + 1;
      }
      ghost var fr := old(Snapshot());
      assert fr.xNew == x && fr.lambda == lam;
      assert dP[..] == CorrectionStage(P, neighbours, i, fr).dP;
    }

    /** The clamp-and-reflect checks of one particle, axis by axis, on its
        position row `xp` and velocity row `vp`. */
    method ClampRow(xp: Vec3, vp: Vec3) returns (x': Vec3, v': Vec3)
      ensures (x', v') == Boundary.Collide(lowerBound, upperBound, xp, vp)
    {
      x', v' := xp, vp;
      for axis := 0 to 3
        invariant (x', v') == Boundary.ClampUpTo(lowerBound, upperBound, xp, vp, axis)
      {
        if x'.At(axis) < lowerBound {
          x' := x'.With(axis, lowerBound);
          if v'.At(axis) < 0.0 {
            v' := v'.With(axis, v'.At(axis) * -1.0);
          }
        }
        if x'.At(axis) > upperBound {
          x' := x'.With(axis, upperBound);
          if v'.At(axis) > 0.0 {
            v' := v'.With(axis, v'.At(axis) * -1.0);
          }
        }
      }
    }

    /** Particle `p`: damped correction of its candidate position, then the
        clamp-and-reflect checks. */
    method CollideParticle(p: nat)
      requires Valid() && p < numParticles
      modifies xNew, v
      ensures (xNew[p], v[p]) ==
              Boundary.Collide(lowerBound, upperBound, Add(old(xNew[p]), Scale(StepScale, dP[p])), old(v[p]))
      ensures forall q :: 0 <= q < numParticles && q != p ==> xNew[q] == old(xNew[q]) && v[q] == old(v[q])
    {
      xNew[p] := Add(xNew[p], Scale(StepScale, dP[p]));
      xNew[p], v[p] := ClampRow(xNew[p], v[p]);
    }

    /** Damped correction, then the clamp-and-reflect pass, particle by
        particle. */
    method ResolveCollisions()
      requires Valid()
      modifies xNew, v
      ensures Snapshot() == CollisionStage(Config(), old(Snapshot()))
    {
      ghost var fr0 := Snapshot();
      ghost var x0, v0, d := fr0.xNew, fr0.v, fr0.dP;
      var p := 0;
      while p < numParticles
        invariant 0 <= p <= numParticles
        invariant dP[..] == d
        invariant forall q :: 0 <= q < p ==>
          (xNew[q], v[q]) == CollideRow(Config(), fr0, q)
        invariant forall q :: p <= q < numParticles ==> xNew[q] == x0[q] && v[q] == v0[q]
      {
        CollideParticle(p);
        p := p + 1;
      }
      CollisionStageByRows(Config(), fr0, Snapshot());
    }

    /** Pass `i` of the Jacobi loop: reset the accumulators, then the
        constraints, the position corrections and the collisions. */
    method JacobiIteration(i: nat)
      requires Valid() && ValidParams(Config()) && i < numParticles
      modifies xNew, v, dP, density, c, lambda, cGradNorm
      ensures Snapshot() == JacobiPass(Config(), neighbours, i, old(Snapshot()))
    {
      ResetJacobiState();
      ghost var reset := Snapshot();
      ComputeConstraints(i);
      assert ConstraintStage(Config(), neighbours, i, reset) == ConstraintStage(Config(), neighbours, i, old(Snapshot()));
      ComputePositionCorrection(i);
      ResolveCollisions();
    }

    /** The Jacobi loop. Pass `i` reads the neighbour list of particle `i`,
        hence the bound on the iteration count. */
    method JacobiLoop()
      requires Valid() && (Passes() > 0 ==> ValidParams(Config())) && jacobiIterations <= numParticles
      modifies xNew, v, dP, density, c, lambda, cGradNorm
      ensures Snapshot() == Jacobi(Config(), neighbours, Passes(), old(Snapshot()))
    {
      // What a pass computes is irrelevant to the loop; only its index is.
      hide JacobiPass;
      ghost var fr0 := Snapshot();
      var i := 0;
      while i < jacobiIterations
        invariant 0 <= i <= Passes()
        invariant Snapshot() == Jacobi(Config(), neighbours, i, fr0)
      {
        JacobiIteration(i);
        i := i + 1;
      }
      assert i == Passes();
    }

    /** `v = (x_new - fluid_state) / dt`: velocities reconciled with the
        distance each particle actually moved. */
    method UpdateVelocity(fluidState: array<Vec3>)
      requires Valid() && dt != 0.0 && fluidState.Length == numParticles && fluidState != v
      modifies v
      ensures v[..] == Velocity(xNew[..], fluidState[..], dt)
    {
      forall p | 0 <= p < v.Length {
        v[p] := Div(Sub(xNew[p], fluidState[p]), dt);
      }
    }

    /** `fluid_state = x_new`: the candidate positions are committed. */
    method CommitPositions(fluidState: array<Vec3>)
      requires Valid() && fluidState.Length == numParticles && fluidState != xNew
      modifies fluidState
      ensures fluidState[..] == xNew[..]
    {
      forall p | 0 <= p < fluidState.Length {
        fluidState[p] := xNew[p];
      }
    }

    /** One frame: gravity and prediction, the neighbour lists `found` of the
        candidate positions, the Jacobi loop, velocity reconciliation, the
        position commit and the clock. */
    method Step(fluidState: array<Vec3>, found: seq<seq<int>>)
      requires Valid() && (Passes() > 0 ==> ValidParams(Config())) && dt != 0.0
      requires fluidState.Length == numParticles && fluidState != xNew && fluidState != v && fluidState != dP
      requires NeighbourLists(found, numParticles) && jacobiIterations <= numParticles
      modifies this, fluidState, xNew, v, dP, density, c, lambda, cGradNorm
      ensures Valid() && neighbours == found && t == old(t) + dt
      ensures Snapshot() == StepFrame(Config(), found, Passes(), old(fluidState[..]), old(Snapshot()),
                                      particleMass * gravityF, dt)
      ensures fluidState[..] == xNew[..]
    {
      ghost var x0, fr0 := fluidState[..], Snapshot();
      ApplyExternalForces(fluidState);
      assert Snapshot() == ApplyForces(x0, fr0, particleMass * gravityF, dt);
      neighbours := found;
      JacobiLoop();
      UpdateVelocity(fluidState);
      CommitPositions(fluidState);
      t := t + dt;
    }
  }
}
