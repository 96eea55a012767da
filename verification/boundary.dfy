/** The collision pass against the axis-aligned world box
    [lower_bound, upper_bound]^3: each coordinate of a candidate position is
    clamped into the box and the matching velocity component is reflected
    when it points further out. */
module Boundary {
  import opened Vectors

  function Abs(a: real): real {
    if a < 0.0 then -a else a
  }

  /** One coordinate `xa` with its velocity component `va`: the lower check,
      then (independently, on the possibly clamped value) the upper check. */
  function ClampScalar(lo: real, hi: real, xa: real, va: real): (r: (real, real))
    ensures Abs(r.1) == Abs(va)
    ensures lo <= hi ==> lo <= r.0 <= hi
    ensures xa < lo && lo <= hi ==> r.0 == lo && r.1 >= 0.0
    ensures xa > hi ==> r.0 == hi && r.1 <= 0.0
    ensures lo <= xa <= hi ==> r.0 == xa && r.1 == va
  {
    var (x1, v1) :=
      if xa < lo then (lo, if va < 0.0 then va * -1.0 else va) else (xa, va);
    if x1 > hi then (hi, if v1 > 0.0 then v1 * -1.0 else v1) else (x1, v1)
  }

  /** Position and velocity after the checks of one axis, written on the
      vectors as the collision loop does. */
  function ClampAxis(lo: real, hi: real, x: Vec3, v: Vec3, axis: nat): (r: (Vec3, Vec3))
    requires axis < 3
    ensures r.0.At(axis) == ClampScalar(lo, hi, x.At(axis), v.At(axis)).0
    ensures r.1.At(axis) == ClampScalar(lo, hi, x.At(axis), v.At(axis)).1
    ensures forall b :: 0 <= b < 3 && b != axis ==> r.0.At(b) == x.At(b) && r.1.At(b) == v.At(b)
  {
    var (x1, v1) :=
      if x.At(axis) < lo then
        (x.With(axis, lo), if v.At(axis) < 0.0 then v.With(axis, v.At(axis) * -1.0) else v)
      else (x, v);
    if x1.At(axis) > hi then
      (x1.With(axis, hi), if v1.At(axis) > 0.0 then v1.With(axis, v1.At(axis) * -1.0) else v1)
    else (x1, v1)
  }

  /** Position and velocity after the checks of axes 0 .. k-1, in order. */
  function ClampUpTo(lo: real, hi: real, x: Vec3, v: Vec3, k: nat): (Vec3, Vec3)
    requires k <= 3
    decreases k
  {
    if k == 0 then (x, v)
    else
      var (x1, v1) := ClampUpTo(lo, hi, x, v, k - 1);
      ClampAxis(lo, hi, x1, v1, k - 1)
  }

  /** Axis `a` is settled by the checks of axis `a` alone: the axes before
      and after it leave its components alone. */
  lemma {:induction false} ClampUpToAt(lo: real, hi: real, x: Vec3, v: Vec3, k: nat, a: nat)
    requires k <= 3 && a < 3
    ensures var r := ClampUpTo(lo, hi, x, v, k);
            var s := ClampScalar(lo, hi, x.At(a), v.At(a));
            (a < k ==> r.0.At(a) == s.0 && r.1.At(a) == s.1)
            && (k <= a ==> r.0.At(a) == x.At(a) && r.1.At(a) == v.At(a))
    decreases k
  {
    if k > 0 {
      ClampUpToAt(lo, hi, x, v, k - 1, a);
    }
  }

  /** The full collision response of one particle: all three axes. */
  function Collide(lo: real, hi: real, x: Vec3, v: Vec3): (Vec3, Vec3) {
    ClampUpTo(lo, hi, x, v, 3)
  }

  /** The collision response is axis-wise: each coordinate is clamped into
      the box (when the box is not empty) and each velocity component keeps
      its magnitude. */
  lemma CollideAxisWise(lo: real, hi: real, x: Vec3, v: Vec3)
    ensures var r := Collide(lo, hi, x, v);
            forall a :: 0 <= a < 3 ==>
              r.0.At(a) == ClampScalar(lo, hi, x.At(a), v.At(a)).0 &&
              r.1.At(a) == ClampScalar(lo, hi, x.At(a), v.At(a)).1
    ensures var r := Collide(lo, hi, x, v);
            lo <= hi ==> forall a :: 0 <= a < 3 ==> lo <= r.0.At(a) <= hi
    ensures var r := Collide(lo, hi, x, v);
            forall a :: 0 <= a < 3 ==> Abs(r.1.At(a)) == Abs(v.At(a))
  {
    ClampUpToAt(lo, hi, x, v, 3, 0);
    ClampUpToAt(lo, hi, x, v, 3, 1);
    ClampUpToAt(lo, hi, x, v, 3, 2);
  }

  /** Reflection only: after a lower clamp the velocity component points
      inwards (>= 0), after an upper clamp it points inwards (<= 0), and a
      component already inside the box keeps position and velocity. */
  lemma CollideReflectsInward(lo: real, hi: real, x: Vec3, v: Vec3, a: nat)
    requires a < 3
    ensures var r := Collide(lo, hi, x, v);
            (x.At(a) < lo && lo <= hi ==> r.0.At(a) == lo && r.1.At(a) >= 0.0)
            && (x.At(a) > hi ==> r.0.At(a) == hi && r.1.At(a) <= 0.0)
            && (lo <= x.At(a) <= hi ==> r.0.At(a) == x.At(a) && r.1.At(a) == v.At(a))
  {
    CollideAxisWise(lo, hi, x, v);
  }
}
