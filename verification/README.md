# Position-based fluid step, modelled in Dafny

This project models the core of a position-based fluids (PBF) simulator:
the `Fluid` object of `src/Fluid.cpp`. That means its constructor,
`init_state` and the per-frame `step`. One call of `step` runs these stages
in order:

1. **External forces.** The y component of every velocity drops by
   `particle_mass * gravity_f`. The candidate positions are then predicted
   as `x_new = fluid_state + dt * v`.
2. **Jacobi loop.** It runs exactly `jacobi_iterations` passes. Each pass
   has four parts:
   - it resets `density`, `lambda` and `c_grad_norm`;
   - it accumulates densities and gradient norms, then computes the
     constraint `c` and the multiplier `lambda` of every particle;
   - it resets and accumulates the position corrections `dP`;
   - it applies `0.005 * dP` to each particle and runs the clamp-and-reflect
     checks against the box `[lower_bound, upper_bound]^3`, axis by axis.
3. **Commit.** Velocities are reconciled as `v = (x_new - fluid_state) / dt`.
   Then `fluid_state = x_new`, and the clock advances by `dt`.

The model is organised in five parts:

- **`Vectors`**: 3-vectors. Each `Vec3` is one row of the N x 3 Eigen
  matrices.
- **`Kernels`**: the smoothing kernels (`kernel.h`) and Eigen's `.norm()`.
  They are function values the fluid is given, and `pow` has a non-negative integer
  exponent.
- **`Boundary`**: the clamp-and-reflect checks of one particle.
- **`Solver` and `SolverLemmas`**: the step as pure functions on values,
  with the properties proved about it. A `Frame` holds all seven
  per-particle arrays. The step is built from these stage functions:
  - `ConstraintStage`, `CorrectionStage` and `CollisionStage`, which
    together make one pass, `JacobiPass`;
  - `Jacobi(k)`, which runs passes 0 .. k-1;
  - `StepFrame`, the whole step.
- **`FluidSim.Fluid`**: the object itself.
  - It holds the seven per-particle buffers as arrays, updated in place.
    They are `x_new`, `v`, `dP`, `density`, `c`, `lambda` and
    `c_grad_norm`.
  - The neighbour lists and the clock `t` are mutable fields.
  - Every method carries the loops of the source. The methods of the
    Jacobi loop and of `step` are proved to leave exactly the state the
    matching `Solver` function computes; `ClampRow` is proved to compute
    `Boundary.Collide`; `InitState` and `CommitPositions` state their new
    contents directly.

Two details of the code are kept as they are written:

- **The iteration counter indexes the neighbour lists.** Pass `i` walks
  `neighbours[i]` for every particle and adds into `c_grad_norm[i]`. Here
  `i` is the Jacobi counter, not the particle index. A step is therefore
  only in bounds when `jacobi_iterations <= num_particles`. This is a
  precondition of `Step`.
- **Only one slot of `c_grad_norm` is ever accumulated.** So `lambda[p]`
  divides by `cfm_epsilon` alone for every `p != i`. Particle `i` divides by
  the part of `c_grad_norm[i]` summed up to and including itself.
  `LambdaDivisor` states this, and `ConstraintStageRelations` relates it to
  the final accumulator.

Neither the constructor (src/Fluid.cpp:12-63) nor `step` checks its
arguments or buffer sizes. The model follows the code: what the arithmetic
needs becomes preconditions of `Step`.

- `dt` is non-zero, for the velocity update.
- When at least one Jacobi pass runs, `Solver.ValidParams` holds:
  - `rho` is non-zero;
  - `cfm_epsilon` is positive;
  - the tensile denominator is non-zero;
  - the norm is never negative.

Buffer sizes are stated the same way, as preconditions.

## Model

| member | source | states |
|---|---|---|
| Boundary.ClampScalar | src/Fluid.cpp:143-150 | One coordinate and its velocity component under the lower check and then the upper check. The coordinate ends in `[lo, hi]` when `lo <= hi`, and the velocity keeps its magnitude. After a lower clamp the velocity is `>= 0`; after an upper clamp it is `<= 0`. A coordinate already inside keeps its position and velocity. |
| Boundary.ClampAxis | src/Fluid.cpp:142-150 | The checks of one axis act on that axis's components exactly as the scalar checks do, and leave the other two axes untouched. |
| Boundary.ClampUpToAt | src/Fluid.cpp:142-151 | After the checks of axes 0 .. k-1, each checked axis holds its own scalar result, and every later axis still holds its input. |
| Boundary.CollideAxisWise | src/Fluid.cpp:142-151 | The full three-axis response, per axis. Every axis is the scalar clamp of that axis. Every coordinate lies in the box when the box is not empty. Every velocity component keeps its magnitude. |
| Boundary.CollideReflectsInward | src/Fluid.cpp:143-150 | The velocity of a particle clamped at the lower bound is reflected to `>= 0`, and one clamped at the upper bound to `<= 0`. A coordinate inside the box keeps its position and velocity. |
| Kernels.Pow | src/Fluid.cpp:61 | `pow(b, n)` for a natural exponent, as repeated multiplication. Used for the tensile denominator and for `s_corr`. |
| Boundary.ClampUpTo | src/Fluid.cpp:142-151 | The axis loop as a recursion: the checks of axes 0 .. k-1, applied in order to the position row and velocity row. |
| Boundary.Collide | src/Fluid.cpp:142-151 | The collision response of one particle: the checks of all three axes. |
| Solver.Gravity | src/Fluid.cpp:74 | `v.col(1) -= particle_mass * gravity_f`: the y component of every row drops by the given amount, and x and z are kept. |
| Solver.Predict | src/Fluid.cpp:75 | `x_new = fluid_state + dt * v`, row by row. |
| Solver.ApplyForces | src/Fluid.cpp:74-75 | The state entering the Jacobi loop: velocities after gravity, and candidate positions predicted from them. The accumulators are kept as they were. |
| Solver.Velocity | src/Fluid.cpp:158 | `v = (x_new - fluid_state) / dt`, row by row. |
| Solver.DensitySum | src/Fluid.cpp:96-97 | The density of particle `p`: `particle_mass * poly6(x_p, x_q, h)` summed over a neighbour list, in list order. |
| Solver.SpikySum | src/Fluid.cpp:102-105 | The spiky gradients of particle `p` summed over a neighbour list, in list order. |
| Solver.GradTerm | src/Fluid.cpp:100-110 | The gradient `c_grad_temp` a neighbour contributes: the sum over `p`'s own list when the neighbour is `p` itself, else the single spiky gradient. |
| Solver.GradNormTerm | src/Fluid.cpp:112 | What one neighbour adds to `c_grad_norm[i]`: the norm of `c_grad_temp / rho`. |
| Solver.ConstraintOf | src/Fluid.cpp:116 | `c[p] = density[p] / rho - 1`, with the density summed over `neighbours[i]`. |
| Solver.LambdaDivisor | src/Fluid.cpp:117 | The divisor `c_grad_norm[p] + cfm_epsilon` as particle `p` sees it. The slot is zero for `p != i`. For `p == i` it holds the accumulator summed over particles 0 .. i. |
| Solver.LambdaOf | src/Fluid.cpp:117 | `lambda[p] = -c[p] / divisor`, with the divisor as particle `p` sees it. |
| Solver.Tensile | src/Fluid.cpp:128 | `-k * w^n / denom`, the shape of `s_corr`. |
| Solver.SCorr | src/Fluid.cpp:128 | `s_corr` of two positions: `-tensile_k * poly6(x_p, x_q, h)^tensile_n / tensile_stability_denom`. |
| Solver.CorrectionTerm | src/Fluid.cpp:127-129 | What neighbour `q` adds to `dP[p]`: `(lambda[p] + lambda[q] + s_corr) * spiky(x_p, x_q, h)`. |
| Solver.CorrectionSum | src/Fluid.cpp:126-130 | The undivided correction row of particle `p`: its terms summed over a neighbour list, in list order. |
| Solver.CorrectionStage | src/Fluid.cpp:124-132 | The correction part of pass `i`: row `p` of `dP` is the correction sum over `neighbours[i]` divided by `rho`. The array lengths are kept. |
| Solver.CollideRow | src/Fluid.cpp:139-151 | Particle `p` in the collision loop: `x_new[p] + 0.005 * dP[p]`, then the three-axis response with its velocity. |
| Solver.CollidePrefix | src/Fluid.cpp:138-152 | Positions and velocities of particles 0 .. n-1 after the collision loop, built in visiting order, with exactly `n` rows each. |
| Solver.CollisionStage | src/Fluid.cpp:138-152 | The collision part of a pass: `x_new` and `v` replaced by the collided rows, the array lengths kept, and everything else untouched. |
| Solver.JacobiPass | src/Fluid.cpp:88-154 | One pass of the loop body: the constraint, correction and collision parts, in that order. |
| Solver.StepFrame | src/Fluid.cpp:70-185 | The state after a step: external forces, `k` passes, then velocities reconciled against the start positions. The array lengths are kept. |
| Solver.GradNormSum | src/Fluid.cpp:96-113 | What one particle adds to `c_grad_norm[i]` is never negative, because it is a sum of norms. |
| Solver.GradNormPrefix | src/Fluid.cpp:93-113 | The accumulator `c_grad_norm[i]` after particles 0 .. n-1 is never negative. |
| Solver.ConstraintStage | src/Fluid.cpp:89-118 | The constraint part of a pass keeps the array lengths. It leaves positions, velocities and corrections as they were. |
| Solver.CollidePrefixAt | src/Fluid.cpp:138-152 | Row `q` after the collision loop is particle `q`'s own damped-and-clamped result. The loop does not couple particles. |
| Solver.Jacobi | src/Fluid.cpp:87-155 | Any number of passes keeps every per-particle array at length `num_particles`. |
| Solver.ConstraintStageByRows | src/Fluid.cpp:93-118 | Suppose a state holds, particle by particle, the density sum, `density/rho - 1` and `-c/divisor`. Suppose also that `c_grad_norm` is zero outside slot `i` and slot `i` holds the full sum. Then that state is the constraint stage's result. |
| Solver.CollisionStageByRows | src/Fluid.cpp:138-152 | A state whose rows each hold that particle's collision result, and which is otherwise unchanged, is the collision stage's result. |
| SolverLemmas.VelocityRecoversPrediction | src/Fluid.cpp:158 | Reconciling velocities against a prediction made with `v` gives back `v`: `((x + dt*v) - x) / dt == v`. |
| SolverLemmas.PredictRecoversPositions | src/Fluid.cpp:158-166 | The reconciled velocity carries the start positions exactly onto the committed positions: `x + dt * ((xn - x) / dt) == xn`. |
| SolverLemmas.StepWithoutPasses | src/Fluid.cpp:74-166 | With zero Jacobi passes, the step commits `fluid_state + dt * v_after_gravity`. The new velocity equals the velocity after gravity. |
| SolverLemmas.StepInBox | src/Fluid.cpp:87-166 | After a step with at least one pass and a non-empty box, every committed coordinate lies in `[lower_bound, upper_bound]`. |
| SolverLemmas.GradNormPrefixMonotone | src/Fluid.cpp:112 | The accumulator `c_grad_norm[i]` only grows as the particle loop advances. |
| SolverLemmas.ConstraintStageRelations | src/Fluid.cpp:89-117 | After the constraint part of a pass, for every particle: `c = density / rho - 1` and `lambda = -c / divisor`. The divisor is at least `cfm_epsilon > 0`. `c_grad_norm` is never negative and is zero outside slot `i`. The divisor is `c_grad_norm[p] + cfm_epsilon` for `p != i`, and at most that for `p == i`. |
| SolverLemmas.GradNormPrefixOfEmptyList | src/Fluid.cpp:96-112 | When `neighbours[i]` is empty, nothing is ever added to `c_grad_norm[i]`. |
| SolverLemmas.EmptyListPass | src/Fluid.cpp:89-132 | A pass whose list `neighbours[i]` is empty gives every particle density 0, constraint -1, gradient norm 0, multiplier `1 / cfm_epsilon` and correction 0. |
| SolverLemmas.CollisionStageBounds | src/Fluid.cpp:138-152 | After the collision loop, every coordinate lies in the box if the box is not empty. Every velocity component keeps its magnitude. |
| SolverLemmas.JacobiInBox | src/Fluid.cpp:87-155 | After one or more passes, every candidate position lies in the box if the box is not empty. |
| SolverLemmas.AccumulatorsDoNotCarryOver | src/Fluid.cpp:89-124 | Every pass resets its accumulators before using them. After one pass or more, the result does not depend on the densities, constraints, multipliers, gradient norms or corrections the loop started with. |
| FluidSim.Fluid.constructor | src/Fluid.cpp:12-63 | Every per-particle buffer has `num_particles` rows, and every neighbour list is empty. The configuration is stored and `t = 0`. `tensile_stability_denom = pow(poly6(tensile_delta_q, h), tensile_n)`. |
| FluidSim.Fluid.InitState | src/Fluid.cpp:65-66 | Every velocity is zero. |
| FluidSim.Fluid.ApplyExternalForces | src/Fluid.cpp:74-75 | Only the y component of each velocity changes, by `-particle_mass * gravity_f`. Then `x_new = fluid_state + dt * v` row by row. |
| FluidSim.Fluid.ResetJacobiState | src/Fluid.cpp:89-91 | `density`, `lambda` and `c_grad_norm` become zero. Every other buffer is unchanged. |
| FluidSim.Fluid.SelfGradient | src/Fluid.cpp:100-105 | The result is the sum of spiky gradients of particle `p` over its own neighbour list, in list order. |
| FluidSim.Fluid.AccumulateParticle | src/Fluid.cpp:96-113 | `density[p]` grows by the density sum over `neighbours[i]`, and `c_grad_norm[i]` by the particle's gradient-norm sum. No other slot changes. |
| FluidSim.Fluid.ComputeLambda | src/Fluid.cpp:116-117 | `c[p]` and `lambda[p]` become the constraint and the multiplier of the pass. No other slot changes. |
| FluidSim.Fluid.ComputeConstraints | src/Fluid.cpp:93-118 | Starting from reset accumulators, the buffers hold exactly the constraint part of pass `i`. |
| FluidSim.Fluid.AccumulateCorrection | src/Fluid.cpp:126-130 | `dP[p]`, starting at zero, becomes the sum over `neighbours[i]` of `(lambda[p] + lambda[q] + s_corr) * spiky`. No other row changes. |
| FluidSim.Fluid.ComputePositionCorrection | src/Fluid.cpp:124-132 | `dP` becomes exactly the correction part of pass `i`, each row divided by `rho`. |
| FluidSim.Fluid.ClampRow | src/Fluid.cpp:142-151 | The axis loop computes exactly the three-axis collision response. |
| FluidSim.Fluid.CollideParticle | src/Fluid.cpp:139-151 | Row `p` becomes the collision response of `x_new[p] + 0.005 * dP[p]`, together with its velocity. No other row changes. |
| FluidSim.Fluid.ResolveCollisions | src/Fluid.cpp:138-152 | `x_new` and `v` become exactly the collision part of a pass. |
| FluidSim.Fluid.JacobiIteration | src/Fluid.cpp:88-154 | One iteration of the loop body leaves exactly the state `JacobiPass` computes from the state before it. |
| FluidSim.Fluid.JacobiLoop | src/Fluid.cpp:87-155 | The loop leaves exactly `Jacobi(jacobi_iterations)` of the state it started from. A negative count runs no pass. |
| FluidSim.Fluid.UpdateVelocity | src/Fluid.cpp:158 | `v = (x_new - fluid_state) / dt`, row by row. |
| FluidSim.Fluid.CommitPositions | src/Fluid.cpp:166 | `fluid_state = x_new`. |
| FluidSim.Fluid.Step | src/Fluid.cpp:70-185 | The buffers end as `StepFrame` computes, and `fluid_state` ends equal to `x_new`. The neighbour lists are those found for the frame, every buffer keeps its size, and `t` advances by exactly `dt`. |

## Left out

- The smoothing kernels (`kernel.h`) and Eigen's `.norm()` are not part of this model. The fluid receives them as function values, and the only fact assumed is that the norm is never negative.
- Floating point is modelled as real arithmetic. Rounding, overflow, and the infinities and NaNs of division by zero are not modelled.
- FluidSim.Fluid.Step: requires `dt != 0`, because line 158 divides by it on every step. It requires `rho != 0`, `cfm_epsilon > 0`, a non-zero tensile denominator and a never-negative norm only when at least one Jacobi pass runs, because only a pass divides by them (unchecked). `JacobiLoop`, `Jacobi` and `StepFrame` carry the same conditional requirement.
- FluidSim.Fluid.Step: requires `jacobi_iterations <= num_particles`. The code indexes `neighbours[i]` and `c_grad_norm[i]` with the iteration counter, so a larger count reads past the neighbour lists.
- FluidSim.Fluid.constructor: `tensile_n` is a natural number. `pow` with a negative exponent is not modelled.
- FluidSim.Fluid.constructor: `num_particles` is a natural number. The failure a negative count causes in `resize` and in the vector constructor is not modelled.
- The spatial hash grid (its construction, `update` and `findNeighbours`) is not part of this model. The neighbour lists it finds for the candidate positions are an input of `Step`, and every entry must be a particle index.
- Timing (`Clock`) and the console output under `DEBUG` are diagnostics and are not modelled.
- The debug colour buffer written at the end of `step` is visualisation only and is not modelled.
- Vorticity and viscosity are commented out in `step`, and their implementations are not part of this model.
- The buffers `omega`, `eta`, `N`, `vorticity_f` and `cell_coord` are sized by the constructor but never used by `step`, so they are not modelled. `user_f`, `viscocity_c` and `vorticity_epsilon` are stored only.
- `gravity_f` is a vector in the code with every entry equal to the constructor argument. It is modelled as that single value.
- The constructor leaves the buffer contents unspecified after `resize`, and so does the model.
- The scratch members `c_grad_temp`, `ker_res` and `s_corr` of the object are modelled as method locals. The step only writes them before it reads them, but in the code they keep their last values after a step, and the model does not record those values.
- `include/Particle.h` declares a data class that `step` does not use. It is not part of this model.
