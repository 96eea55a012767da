/** The smoothing kernels (kernel.h) and Eigen's vector norm the solver
    calls. Their definitions are not part of this model: the fluid receives
    them as function values, and the only fact assumed about any of them is
    that the norm is never negative. */
module Kernels {
  import opened Vectors

  /** kernel_poly6(x_i, x_j, h): density kernel of two positions. */
  type Poly6 = (Vec3, Vec3, real) -> real

  /** kernel_poly6(r, h): the same kernel evaluated at a scalar distance. */
  type RadialPoly6 = (real, real) -> real

  /** kernel_spiky(out, x_i, x_j, h): gradient of the spiky kernel. */
  type Spiky = (Vec3, Vec3, real) -> Vec3

  /** Eigen's `.norm()` of a 3-vector. */
  type Norm = Vec3 -> real

  /** `pow(b, n)` for a non-negative integer exponent. */
  function Pow(b: real, n: nat): real
  {
    if n == 0 then 1.0 else b * Pow(b, n - 1)
  }
}
