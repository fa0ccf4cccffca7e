/** Values shared by the whole camera model: points and vectors over the reals,
    the NaN sentinel, the errors the library raises, and the transcendental
    functions, which the model treats as uninterpreted. */
module Geometry {

  /** One NumPy coordinate or point. `None` stands for NaN; where a division by
      zero would give an infinity it stands for "not a finite value". */
  datatype Option<T> = None | Some(value: T) {
    function GetOr(default: T): T {
      if Some? then value else default
    }
  }

  /** The exceptions the modelled code can raise. */
  datatype Error =
    | UnboundAxisIndex   // spaceFromImage: neither X, Y, Z nor D given (UnboundLocalError)
    | SingularMatrix     // numpy.linalg.solve on a singular system (LinAlgError)
    | EmptyExtent        // getMap: the image border has no finite ground point, so np.nanmin and np.nanmax give NaN bounds and np.arange raises ValueError on them
    | MissingCamera      // the rig has fewer cameras than indexed (IndexError)
    | InvalidStep        // getMap: np.arange with a zero step (ZeroDivisionError) or a NaN step (ValueError)
    | EmptyPoints        // getRay on an empty point list: np.array([]) has no last axis to index (IndexError)

  datatype Result<T> = Ok(value: T) | Err(error: Error)

  /** A 3-D point or direction (camera or world frame). */
  datatype Vec3 = Vec3(x: real, y: real, z: real)

  /** A 2-D image point in pixels. */
  datatype Px = Px(x: real, y: real)

  datatype Coord = X | Y | Z

  const Zero: Vec3 := Vec3(0.0, 0.0, 0.0)

  function Abs(r: real): real {
    if r < 0.0 then -r else r
  }

  function Component(v: Vec3, c: Coord): real {
    match c
    case X => v.x
    case Y => v.y
    case Z => v.z
  }

  function Add(a: Vec3, b: Vec3): Vec3 {
    Vec3(a.x + b.x, a.y + b.y, a.z + b.z)
  }

  function Sub(a: Vec3, b: Vec3): Vec3 {
    Vec3(a.x - b.x, a.y - b.y, a.z - b.z)
  }

  function Scale(k: real, a: Vec3): Vec3 {
    Vec3(k * a.x, k * a.y, k * a.z)
  }

  function Dot(a: Vec3, b: Vec3): real {
    a.x * b.x + a.y * b.y + a.z * b.z
  }

  function Cross(a: Vec3, b: Vec3): Vec3 {
    Vec3(a.y * b.z - a.z * b.y, a.z * b.x - a.x * b.z, a.x * b.y - a.y * b.x)
  }

  /** The point `p + s·v` of the line through `p` with direction `v`. */
  function Along(p: Vec3, s: real, v: Vec3): Vec3 {
    Add(p, Scale(s, v))
  }

  /** `np.mean([a, b], axis=0)`. */
  function Midpoint(a: Vec3, b: Vec3): Vec3 {
    Scale(0.5, Add(a, b))
  }

  /** NumPy's float division `n / d`: a zero divisor gives NaN or an infinity,
      neither of which is a finite value. */
  function Quotient(n: real, d: real): (r: Option<real>)
    ensures r.Some? <==> d != 0.0
    ensures r.Some? ==> r.value * d == n
  {
    if d == 0.0 then None else Some(n / d)
  }

  /** The transcendental functions of NumPy, as uninterpreted total functions. */
  datatype Numerics = Numerics(
    sin: real -> real,
    cos: real -> real,
    tan: real -> real,
    atan: real -> real,
    atan2: (real, real) -> real,
    sqrt: real -> real)

  /** The properties of the square root the model relies on; no property of
      the other transcendental functions is assumed. */
  ghost predicate SqrtLaws(num: Numerics) {
    && num.sqrt(0.0) == 0.0
    && forall s: real {:trigger num.sqrt(s)} :: 0.0 < s ==> 0.0 < num.sqrt(s) && num.sqrt(s) * num.sqrt(s) == s
  }

  /** Lagrange's identity: |a × b|² = |a|²·|b|² − (a·b)². */
  lemma Lagrange(a: Vec3, b: Vec3)
    ensures Dot(Cross(a, b), Cross(a, b)) == Dot(a, a) * Dot(b, b) - Dot(a, b) * Dot(a, b)
  {
  }

  /** A squared length is never negative. */
  lemma SquareLength(v: Vec3)
    ensures 0.0 <= Dot(v, v)
  {
  }

  /** Each squared coordinate is at most the squared length. */
  lemma ComponentSquares(v: Vec3)
    ensures v.x * v.x <= Dot(v, v)
    ensures v.y * v.y <= Dot(v, v)
    ensures v.z * v.z <= Dot(v, v)
  {
    SquareLength(Vec3(0.0, v.y, v.z));
    SquareLength(Vec3(v.x, 0.0, v.z));
    SquareLength(Vec3(v.x, v.y, 0.0));
  }

  lemma SquareNonNegative(a: real)
    ensures 0.0 <= a * a
  {
  }

  lemma Cancel(p: real, a: real)
    requires a != 0.0
    ensures (p * a) / a == p
  {
  }

  lemma SquareZero(a: real)
    requires a * a <= 0.0
    ensures a == 0.0
  {
    SquareNonNegative(a);
    if a != 0.0 {
      Cancel(a, a);
      Cancel(0.0, a);
    }
  }

  /** Only the zero vector has squared length zero. */
  lemma ZeroLength(v: Vec3)
    requires Dot(v, v) == 0.0
    ensures v == Zero
  {
    ComponentSquares(v);
    SquareZero(v.x);
    SquareZero(v.y);
    SquareZero(v.z);
  }

  /** Every other vector has a positive squared length. */
  lemma DotPositive(v: Vec3)
    requires v != Zero
    ensures 0.0 < Dot(v, v)
  {
    SquareLength(v);
    if Dot(v, v) == 0.0 {
      ZeroLength(v);
    }
  }

  lemma DotScale(k: real, u: Vec3)
    ensures Dot(Scale(k, u), Scale(k, u)) == (k * k) * Dot(u, u)
  {
  }

  lemma UnitFactor(d: real, m: real, q: real)
    requires d != 0.0 && m == d && d == m * q
    ensures q == 1.0
  {
    Cancel(q, d);
    Cancel(1.0, d);
  }

  /** A vector divided by a length n with n² equal to its squared length has
      length one. */
  lemma UnitLength(v: Vec3, n: real, r: Vec3)
    requires n * n == Dot(v, v) && Dot(v, v) != 0.0
    requires Scale(n, r) == v
    ensures Dot(r, r) == 1.0
  {
    DotScale(n, r);
    UnitFactor(Dot(v, v), n * n, Dot(r, r));
  }
}
