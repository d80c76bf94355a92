/** Quaternions (w, x, y, z) over exact reals with the Hamilton product, the
    `@` operator of Blender's `mathutils.Quaternion`, and quaternions read
    from data, whose coordinates may be NaN. */
module Quaternions {

  import opened Numbers

  datatype Quat = Quat(w: real, x: real, y: real, z: real)

  /** The identity rotation (1, 0, 0, 0). */
  const Identity: Quat := Quat(1.0, 0.0, 0.0, 0.0)

  // The four coordinates of the Hamilton product of (a, b, c, d) and
  // (e, f, g, h), kept as separate functions so that the coordinates of a
  // nested product stay terms the solver can match.

  function ProductW(a: real, b: real, c: real, d: real, e: real, f: real, g: real, h: real): real
  {
    a * e - b * f - c * g - d * h
  }

  function ProductX(a: real, b: real, c: real, d: real, e: real, f: real, g: real, h: real): real
  {
    a * f + b * e + c * h - d * g
  }

  function ProductY(a: real, b: real, c: real, d: real, e: real, f: real, g: real, h: real): real
  {
    a * g - b * h + c * e + d * f
  }

  function ProductZ(a: real, b: real, c: real, d: real, e: real, f: real, g: real, h: real): real
  {
    a * h + b * g - c * f + d * e
  }

  /** Hamilton product `p @ q`: the rotation `q` followed by `p`. */
  function Mul(p: Quat, q: Quat): Quat
  {
    Quat(ProductW(p.w, p.x, p.y, p.z, q.w, q.x, q.y, q.z),
         ProductX(p.w, p.x, p.y, p.z, q.w, q.x, q.y, q.z),
         ProductY(p.w, p.x, p.y, p.z, q.w, q.x, q.y, q.z),
         ProductZ(p.w, p.x, p.y, p.z, q.w, q.x, q.y, q.z))
  }

  /** `(p @ q) @ r == p @ (q @ r)`: a chain of rotations may be regrouped. */
  lemma MulAssociative(p: Quat, q: Quat, r: Quat)
    ensures Mul(Mul(p, q), r) == Mul(p, Mul(q, r))
  {
    AssociativeCoordinates(p.w, p.x, p.y, p.z, q.w, q.x, q.y, q.z, r.w, r.x, r.y, r.z);
  }

  /** Associativity on the twelve coordinates of three quaternions. */
  lemma AssociativeCoordinates(a: real, b: real, c: real, d: real,
                               e: real, f: real, g: real, h: real,
                               i: real, j: real, k: real, l: real)
    ensures var pw, px, py, pz := ProductW(a, b, c, d, e, f, g, h), ProductX(a, b, c, d, e, f, g, h),
                                  ProductY(a, b, c, d, e, f, g, h), ProductZ(a, b, c, d, e, f, g, h);
            var qw, qx, qy, qz := ProductW(e, f, g, h, i, j, k, l), ProductX(e, f, g, h, i, j, k, l),
                                  ProductY(e, f, g, h, i, j, k, l), ProductZ(e, f, g, h, i, j, k, l);
            && ProductW(pw, px, py, pz, i, j, k, l) == ProductW(a, b, c, d, qw, qx, qy, qz)
            && ProductX(pw, px, py, pz, i, j, k, l) == ProductX(a, b, c, d, qw, qx, qy, qz)
            && ProductY(pw, px, py, pz, i, j, k, l) == ProductY(a, b, c, d, qw, qx, qy, qz)
            && ProductZ(pw, px, py, pz, i, j, k, l) == ProductZ(a, b, c, d, qw, qx, qy, qz)
  {
    ExpandedW(a, b, c, d, e, f, g, h, i, j, k, l);
    ExpandedX(a, b, c, d, e, f, g, h, i, j, k, l);
    ExpandedY(a, b, c, d, e, f, g, h, i, j, k, l);
    ExpandedZ(a, b, c, d, e, f, g, h, i, j, k, l);
  }

  // The four polynomial identities behind associativity, one per coordinate.

  lemma ExpandedW(a: real, b: real, c: real, d: real, e: real, f: real, g: real, h: real, i: real, j: real, k: real, l: real)
    ensures (a*e - b*f - c*g - d*h)*i - (a*f + b*e + c*h - d*g)*j - (a*g - b*h + c*e + d*f)*k - (a*h + b*g - c*f + d*e)*l
         == a*(e*i - f*j - g*k - h*l) - b*(e*j + f*i + g*l - h*k) - c*(e*k - f*l + g*i + h*j) - d*(e*l + f*k - g*j + h*i)
  {
  }

  lemma ExpandedX(a: real, b: real, c: real, d: real, e: real, f: real, g: real, h: real, i: real, j: real, k: real, l: real)
    ensures (a*e - b*f - c*g - d*h)*j + (a*f + b*e + c*h - d*g)*i + (a*g - b*h + c*e + d*f)*l - (a*h + b*g - c*f + d*e)*k
         == a*(e*j + f*i + g*l - h*k) + b*(e*i - f*j - g*k - h*l) + c*(e*l + f*k - g*j + h*i) - d*(e*k - f*l + g*i + h*j)
  {
  }

  lemma ExpandedY(a: real, b: real, c: real, d: real, e: real, f: real, g: real, h: real, i: real, j: real, k: real, l: real)
    ensures (a*e - b*f - c*g - d*h)*k - (a*f + b*e + c*h - d*g)*l + (a*g - b*h + c*e + d*f)*i + (a*h + b*g - c*f + d*e)*j
         == a*(e*k - f*l + g*i + h*j) - b*(e*l + f*k - g*j + h*i) + c*(e*i - f*j - g*k - h*l) + d*(e*j + f*i + g*l - h*k)
  {
  }

  lemma ExpandedZ(a: real, b: real, c: real, d: real, e: real, f: real, g: real, h: real, i: real, j: real, k: real, l: real)
    ensures (a*e - b*f - c*g - d*h)*l + (a*f + b*e + c*h - d*g)*k - (a*g - b*h + c*e + d*f)*j + (a*h + b*g - c*f + d*e)*i
         == a*(e*l + f*k - g*j + h*i) + b*(e*k - f*l + g*i + h*j) - c*(e*j + f*i + g*l - h*k) + d*(e*i - f*j - g*k - h*l)
  {
  }

  /** The identity rotation is neutral on both sides. */
  lemma MulIdentity(q: Quat)
    ensures Mul(Identity, q) == q && Mul(q, Identity) == q
  {
  }
  /** A quaternion built from data: any coordinate may be NaN. */
  datatype NumQuat = NumQuat(w: Num, x: Num, y: Num, z: Num)

  /** No coordinate is NaN. */
  predicate IsReal(q: NumQuat)
  {
    q.w.Val? && q.x.Val? && q.y.Val? && q.z.Val?
  }

  function Real(q: NumQuat): Quat
    requires IsReal(q)
  {
    Quat(q.w.v, q.x.v, q.y.v, q.z.v)
  }

  function Lift(q: Quat): NumQuat
  {
    NumQuat(Val(q.w), Val(q.x), Val(q.y), Val(q.z))
  }

  /** A real quaternion survives the trip through data, and a NaN-free
      quaternion from data is a real one. */
  lemma LiftRealRoundTrip(q: Quat, n: NumQuat)
    ensures IsReal(Lift(q)) && Real(Lift(q)) == q
    ensures IsReal(n) ==> Lift(Real(n)) == n
  {
  }

  const NaNQuat: NumQuat := NumQuat(NaN, NaN, NaN, NaN)

  /** `p @ q` in floating point. Every coordinate of the Hamilton product
      multiplies and adds every coordinate of both factors, so one NaN
      anywhere makes all four coordinates NaN. */
  function NumMul(p: NumQuat, q: NumQuat): (r: NumQuat)
    ensures IsReal(r) <==> IsReal(p) && IsReal(q)
    ensures !IsReal(r) ==> r.w.NaN? && r.x.NaN? && r.y.NaN? && r.z.NaN?
    ensures IsReal(r) ==> Real(r) == Mul(Real(p), Real(q))
  {
    if IsReal(p) && IsReal(q) then Lift(Mul(Real(p), Real(q))) else NaNQuat
  }

  /** Regrouping is sound for quaternions from data too. */
  lemma NumMulAssociative(p: NumQuat, q: NumQuat, r: NumQuat)
    ensures NumMul(NumMul(p, q), r) == NumMul(p, NumMul(q, r))
  {
    if IsReal(p) && IsReal(q) && IsReal(r) {
      MulAssociative(Real(p), Real(q), Real(r));
      LiftRealRoundTrip(Mul(Real(p), Real(q)), NumMul(p, q));
      LiftRealRoundTrip(Mul(Real(q), Real(r)), NumMul(q, r));
    }
  }

  /** The identity is neutral for quaternions from data; a NaN factor
      still blanks the product. */
  lemma NumMulIdentity(q: NumQuat)
    ensures IsReal(q) ==> NumMul(Lift(Identity), q) == q && NumMul(q, Lift(Identity)) == q
    ensures !IsReal(q) ==> NumMul(Lift(Identity), q) == NaNQuat == NumMul(q, Lift(Identity))
  {
    if IsReal(q) {
      MulIdentity(Real(q));
    }
  }

  /** Blender's conversion of a three-number rotation vector (an
      exponential map) into a quaternion, which `mathutils.Quaternion`
      applies to a sequence of three numbers. It needs trigonometry, so it
      is a parameter. */
  type ExpMap = Vec3 -> NumQuat
}
