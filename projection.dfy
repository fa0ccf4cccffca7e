/** The camera projections: the five intrinsic parameters, the pixel
    intrinsics derived from them, the ray through an image pixel and the
    projection of camera-frame points onto the image, for the rectilinear
    (pinhole), cylindrical and equirectangular models. */
module Projections {
  import opened Geometry

  datatype Kind = Rectilinear | Cylindrical | Equirectangular

  /** The raw intrinsic parameters, as the parameter set holds them. */
  datatype Intrinsics = Intrinsics(
    focallengthMm: real,
    imageHeightPx: real,
    imageWidthPx: real,
    sensorHeightMm: real,
    sensorWidthMm: real)

  datatype IntrinsicName = FocallengthMm | ImageHeightPx | ImageWidthPx | SensorHeightMm | SensorWidthMm

  function NameOf(n: IntrinsicName): string {
    match n
    case FocallengthMm => "focallength_mm"
    case ImageHeightPx => "image_height_px"
    case ImageWidthPx => "image_width_px"
    case SensorHeightMm => "sensor_height_mm"
    case SensorWidthMm => "sensor_width_mm"
  }

  /** The names of the intrinsic parameters, in the order the parameter set registers them. */
  function ParameterNames(): (names: seq<string>)
    ensures |names| == 5
    ensures forall n: IntrinsicName :: NameOf(n) in names
    ensures forall i, j :: 0 <= i < j < |names| ==> names[i] != names[j]
  {
    [NameOf(FocallengthMm), NameOf(ImageHeightPx), NameOf(ImageWidthPx), NameOf(SensorHeightMm), NameOf(SensorWidthMm)]
  }

  function Get(p: Intrinsics, n: IntrinsicName): real {
    match n
    case FocallengthMm => p.focallengthMm
    case ImageHeightPx => p.imageHeightPx
    case ImageWidthPx => p.imageWidthPx
    case SensorHeightMm => p.sensorHeightMm
    case SensorWidthMm => p.sensorWidthMm
  }

  /** Setting one parameter changes that parameter and no other. */
  function With(p: Intrinsics, n: IntrinsicName, value: real): (q: Intrinsics)
    ensures Get(q, n) == value
    ensures forall m :: m != n ==> Get(q, m) == Get(p, m)
  {
    match n
    case FocallengthMm => p.(focallengthMm := value)
    case ImageHeightPx => p.(imageHeightPx := value)
    case ImageWidthPx => p.(imageWidthPx := value)
    case SensorHeightMm => p.(sensorHeightMm := value)
    case SensorWidthMm => p.(sensorWidthMm := value)
  }

  /** The defaults: a 14 mm lens on a 17.3 x 13.0 mm sensor, 4608 x 3456 pixels. */
  const Defaults: Intrinsics := Intrinsics(14.0, 3456.0, 4608.0, 13.0, 17.3)

  /** The constructor's `image` argument: an image array, whose shape is
      (rows, columns, ...), or a (width, height) pair. */
  datatype ImageArg = ImageArray(rows: real, columns: real) | SizePair(width: real, height: real)

  /** The parameters the constructor registers: the `sensor` pair and the
      `image` argument override the single arguments they cover, and an
      argument left out takes its default. */
  function ResolveIntrinsics(
    focallengthMm: Option<real>, imageWidthPx: Option<real>, imageHeightPx: Option<real>,
    image: Option<ImageArg>, sensorWidthMm: Option<real>, sensorHeightMm: Option<real>,
    sensor: Option<(real, real)>): (p: Intrinsics)
    ensures p.focallengthMm == focallengthMm.GetOr(Defaults.focallengthMm)
    ensures sensor.Some? ==> p.sensorWidthMm == sensor.value.0 && p.sensorHeightMm == sensor.value.1
    ensures sensor.None? ==>
      && p.sensorWidthMm == sensorWidthMm.GetOr(Defaults.sensorWidthMm)
      && p.sensorHeightMm == sensorHeightMm.GetOr(Defaults.sensorHeightMm)
    ensures image.Some? && image.value.ImageArray? ==>
      p.imageHeightPx == image.value.rows && p.imageWidthPx == image.value.columns
    ensures image.Some? && image.value.SizePair? ==>
      p.imageWidthPx == image.value.width && p.imageHeightPx == image.value.height
    ensures image.None? ==>
      && p.imageWidthPx == imageWidthPx.GetOr(Defaults.imageWidthPx)
      && p.imageHeightPx == imageHeightPx.GetOr(Defaults.imageHeightPx)
  {
    var (sensorWidth, sensorHeight) :=
      if sensor.Some? then (Some(sensor.value.0), Some(sensor.value.1)) else (sensorWidthMm, sensorHeightMm);
    var (imageWidth, imageHeight) :=
      match image
      case None => (imageWidthPx, imageHeightPx)
      case Some(ImageArray(rows, columns)) => (Some(columns), Some(rows))
      case Some(SizePair(width, height)) => (Some(width), Some(height));
    Intrinsics(
      focallengthMm.GetOr(Defaults.focallengthMm),
      imageHeight.GetOr(Defaults.imageHeightPx),
      imageWidth.GetOr(Defaults.imageWidthPx),
      sensorHeight.GetOr(Defaults.sensorHeightMm),
      sensorWidth.GetOr(Defaults.sensorWidthMm))
  }

  /** The derivation divides by the image width and then by the millimetres
      per pixel; a zero in either raises ZeroDivisionError. */
  predicate Derivable(p: Intrinsics) {
    p.imageWidthPx != 0.0 && p.sensorWidthMm != 0.0
  }

  /** The intrinsics in pixel units: pixel pitch, focal length and principal point. */
  datatype PixelIntrinsics = PixelIntrinsics(mmPerPx: real, focallengthPx: real, offsetX: real, offsetY: real)

  /** The pixel intrinsics follow from the raw ones: the pitch is the sensor
      width over the image width, the focal length in pixels scales the focal
      length in millimetres by the same ratio, and the principal point is the
      image centre. */
  function Derive(p: Intrinsics): (d: PixelIntrinsics)
    requires Derivable(p)
    ensures d.mmPerPx * p.imageWidthPx == p.sensorWidthMm
    ensures d.focallengthPx * p.sensorWidthMm == p.focallengthMm * p.imageWidthPx
    ensures 2.0 * d.offsetX == p.imageWidthPx && 2.0 * d.offsetY == p.imageHeightPx
  {
    var mmPerPx := p.sensorWidthMm / p.imageWidthPx;
    PixelIntrinsics(mmPerPx, p.focallengthMm / mmPerPx, p.imageWidthPx / 2.0, p.imageHeightPx / 2.0)
  }

  /** The sensor height is registered but takes no part in the pixel intrinsics. */
  lemma SensorHeightUnused(p: Intrinsics, value: real)
    requires Derivable(p)
    ensures Derivable(With(p, SensorHeightMm, value))
    ensures Derive(With(p, SensorHeightMm, value)) == Derive(p)
  {
  }

  /** A projection object. Every parameter's change callback re-runs
      InitIntrinsicMatrix, so the derived fields always match the parameters. */
  class CameraProjection {
    const kind: Kind
    var parameters: Intrinsics
    var mmPerPx: real
    var focallengthPx: real
    var offsetX: real
    var offsetY: real

    function Pixel(): PixelIntrinsics
      reads this
    {
      PixelIntrinsics(mmPerPx, focallengthPx, offsetX, offsetY)
    }

    ghost predicate Valid()
      reads this
    {
      Derivable(parameters) && Pixel() == Derive(parameters)
    }

    constructor (
      kind: Kind,
      focallengthMm: Option<real>, imageWidthPx: Option<real>, imageHeightPx: Option<real>,
      image: Option<ImageArg>, sensorWidthMm: Option<real>, sensorHeightMm: Option<real>,
      sensor: Option<(real, real)>)
      requires Derivable(ResolveIntrinsics(focallengthMm, imageWidthPx, imageHeightPx, image, sensorWidthMm, sensorHeightMm, sensor))
      ensures this.kind == kind
      ensures parameters == ResolveIntrinsics(focallengthMm, imageWidthPx, imageHeightPx, image, sensorWidthMm, sensorHeightMm, sensor)
      ensures Valid()
    {
      this.kind := kind;
      parameters := ResolveIntrinsics(focallengthMm, imageWidthPx, imageHeightPx, image, sensorWidthMm, sensorHeightMm, sensor);
      new;
      InitIntrinsicMatrix();
    }

    /** Recomputes the derived fields, one after the other, from the parameters. */
    method InitIntrinsicMatrix()
      requires Derivable(parameters)
      modifies this
      ensures parameters == old(parameters)
      ensures Valid()
    {
      mmPerPx := parameters.sensorWidthMm / parameters.imageWidthPx;
      focallengthPx := parameters.focallengthMm / mmPerPx;
      offsetX := parameters.imageWidthPx / 2.0;
      offsetY := parameters.imageHeightPx / 2.0;
    }

    /** Assigns one parameter; its callback brings the derived fields up to date. */
    method SetParameter(name: IntrinsicName, value: real)
      requires Derivable(With(parameters, name, value))
      modifies this
      ensures parameters == With(old(parameters), name, value)
      ensures Valid()
    {
      parameters := With(parameters, name, value);
      InitIntrinsicMatrix();
    }

    /** imageFromCamera: copies the points, zeroes every row whose depth is
        within 1e-10 of zero, evaluates the projection's formulas with NumPy's
        division, sets the rows of points behind the camera to NaN and, for the
        cylindrical projection, also the rows whose y is NaN. */
    method ImageFromCamera(points: seq<Vec3>, num: Numerics) returns (r: Result<seq<ImPoint>>)
      requires Valid()
      requires kind != Rectilinear ==> SqrtLaws(num)
      ensures r.Err? <==> |points| == 0
      ensures r.Err? ==> r.error == EmptyPoints
      ensures r.Ok? ==> |r.value| == |points|
      ensures r.Ok? ==> forall i :: 0 <= i < |points| ==> r.value[i] == Image(kind, Pixel(), num, points[i])
    {
      if |points| == 0 {
        return Err(EmptyPoints);
      }
      var px := Pixel();
      var q := new Vec3[|points|](j requires 0 <= j < |points| => points[j]);
      ZeroNearPlaneRows(q);
      var t := Evaluate(kind, px, num, q);
      MaskBehind(q, t);
      if kind == Cylindrical {
        MaskJoint(t);
      }
      var image := t[..];
      forall j | 0 <= j < |points|
        ensures image[j] == Image(kind, px, num, points[j])
      {
        PassesAgree(kind, px, num, points[j]);
      }
      r := Ok(image);
    }
  }

  /** Sets every row whose depth is within Eps of zero to zero, in place. */
  method ZeroNearPlaneRows(q: array<Vec3>)
    modifies q
    ensures forall j :: 0 <= j < q.Length ==> q[j] == ZeroNearPlane(old(q[j]))
  {
    var i := 0;
    while i < q.Length
      invariant 0 <= i <= q.Length
      invariant forall j :: 0 <= j < i ==> q[j] == ZeroNearPlane(old(q[j]))
      invariant forall j :: i <= j < q.Length ==> q[j] == old(q[j])
    {
      if Abs(q[i].z) < Eps {
        q[i] := Zero;
      }
      i := i + 1;
    }
  }

  /** Evaluates the projection formulas on every row. */
  method Evaluate(kind: Kind, px: PixelIntrinsics, num: Numerics, q: array<Vec3>) returns (t: array<ImPoint>)
    ensures fresh(t) && t.Length == q.Length
    ensures forall j :: 0 <= j < q.Length ==> t[j] == Formula(kind, px, num, q[j])
  {
    t := new ImPoint[q.Length];
    var i := 0;
    while i < q.Length
      invariant 0 <= i <= q.Length
      invariant forall j :: 0 <= j < i ==> t[j] == Formula(kind, px, num, q[j])
    {
      t[i] := Formula(kind, px, num, q[i]);
      i := i + 1;
    }
  }

  /** Sets the result rows of points behind the camera to NaN, in place. */
  method MaskBehind(q: array<Vec3>, t: array<ImPoint>)
    requires q.Length == t.Length
    modifies t
    ensures forall j :: 0 <= j < t.Length ==> t[j] == BehindMasked(q[j], old(t[j]))
  {
    var i := 0;
    while i < t.Length
      invariant 0 <= i <= t.Length
      invariant forall j :: 0 <= j < i ==> t[j] == BehindMasked(q[j], old(t[j]))
      invariant forall j :: i <= j < t.Length ==> t[j] == old(t[j])
    {
      if q[i].z > 0.0 {
        t[i] := NaN2;
      }
      i := i + 1;
    }
  }

  /** Sets the rows whose y is NaN to NaN on both axes, in place. */
  method MaskJoint(t: array<ImPoint>)
    modifies t
    ensures forall j :: 0 <= j < t.Length ==> t[j] == JointMasked(old(t[j]))
  {
    var i := 0;
    while i < t.Length
      invariant 0 <= i <= t.Length
      invariant forall j :: 0 <= j < i ==> t[j] == JointMasked(old(t[j]))
      invariant forall j :: i <= j < t.Length ==> t[j] == old(t[j])
    {
      if t[i].y.None? {
        t[i] := NaN2;
      }
      i := i + 1;
    }
  }

  /** One row of imageFromCamera's result; `None` is NaN. */
  datatype ImPoint = ImPoint(x: Option<real>, y: Option<real>)

  const NaN2: ImPoint := ImPoint(None, None)

  /** Depths within this distance of the image plane are treated as zero. */
  const Eps: real := 0.0000000001

  /** A camera-frame point the projections map to a finite pixel: in front
      of the camera (negative z) and not within Eps of the image plane. */
  predicate InFront(c: Vec3) {
    c.z <= -Eps
  }

  /** The distance of a camera-frame point from the camera's vertical axis. */
  function PlanarNorm(num: Numerics, c: Vec3): real {
    num.sqrt(c.x * c.x + c.z * c.z)
  }

  /** Only points on the vertical axis have planar norm zero. */
  lemma PlanarNormPositive(num: Numerics, c: Vec3)
    requires SqrtLaws(num)
    requires c.z != 0.0
    ensures 0.0 < PlanarNorm(num, c)
  {
    PlanarLength(c.x, c.z);
  }

  lemma PlanarNormZero(num: Numerics)
    requires SqrtLaws(num)
    ensures PlanarNorm(num, Zero) == 0.0
  {
    assert Zero.x * Zero.x + Zero.z * Zero.z == 0.0;
  }

  lemma PlanarLength(x: real, z: real)
    requires z != 0.0
    ensures 0.0 < x * x + z * z
  {
  }

  /** The pixel a camera-frame point projects to, or NaN on both axes for a
      point behind the camera or too close to the image plane:
      rectilinear  x = f x / z + ox,                y = f y / z + oy;
      cylindrical  x = f atan2(-x, -z) + ox,        y = -f y / sqrt(x² + z²) + oy;
      equirect.    x = f atan(x / z) + ox,          y = -f atan(y / sqrt(x² + z²)) + oy. */
  function Image(kind: Kind, px: PixelIntrinsics, num: Numerics, c: Vec3): (i: ImPoint)
    requires kind != Rectilinear ==> SqrtLaws(num)
    ensures i.x.Some? <==> InFront(c)
    ensures i.y.Some? <==> InFront(c)
  {
    if !InFront(c) then NaN2
    else
      FiniteInFront(kind, px, num, c);
      Formula(kind, px, num, c)
  }

  /** In front of the camera every divisor of the formulas is non-zero. */
  lemma FiniteInFront(kind: Kind, px: PixelIntrinsics, num: Numerics, c: Vec3)
    requires kind != Rectilinear ==> SqrtLaws(num)
    requires InFront(c)
    ensures Formula(kind, px, num, c).x.Some? && Formula(kind, px, num, c).y.Some?
  {
    if kind != Rectilinear {
      PlanarNormPositive(num, c);
    }
  }

  /** The first pass: a row whose depth is within Eps of zero becomes all zeros. */
  function ZeroNearPlane(c: Vec3): Vec3 {
    if Abs(c.z) < Eps then Zero else c
  }

  /** The projection formulas as NumPy evaluates them, a zero divisor giving a non-finite value. */
  function Formula(kind: Kind, px: PixelIntrinsics, num: Numerics, q: Vec3): (r: ImPoint)
    ensures kind == Rectilinear ==> (r.x.Some? <==> q.z != 0.0) && (r.y.Some? <==> q.z != 0.0)
    ensures kind == Rectilinear && q.z != 0.0 ==>
      && (r.x.value - px.offsetX) * q.z == q.x * px.focallengthPx
      && (r.y.value - px.offsetY) * q.z == q.y * px.focallengthPx
    ensures kind == Cylindrical ==> r.x.Some? && (r.y.Some? <==> PlanarNorm(num, q) != 0.0)
    ensures kind == Cylindrical && r.y.Some? ==> (r.y.value - px.offsetY) * PlanarNorm(num, q) == -(q.y * px.focallengthPx)
    ensures kind == Equirectangular ==> (r.x.Some? <==> q.z != 0.0) && (r.y.Some? <==> PlanarNorm(num, q) != 0.0)
  {
    var f, ox, oy := px.focallengthPx, px.offsetX, px.offsetY;
    match kind
    case Rectilinear =>
      if q.z == 0.0 then NaN2 else ImPoint(Some(Pinhole(q.x, f, q.z, ox)), Some(Pinhole(q.y, f, q.z, oy)))
    case Cylindrical =>
      var n := PlanarNorm(num, q);
      ImPoint(Some(f * num.atan2(-q.x, -q.z) + ox),
              if n == 0.0 then None else Some(Pinhole(q.y, -f, n, oy)))
    case Equirectangular =>
      var n := PlanarNorm(num, q);
      ImPoint(if q.z == 0.0 then None else Some(f * num.atan(Ratio(q.x, q.z)) + ox),
              if n == 0.0 then None else Some((-f) * num.atan(Ratio(q.y, n)) + oy))
  }

  /** The perspective division of one coordinate: a·f/z + o. */
  function Pinhole(a: real, f: real, z: real, o: real): real
    requires z != 0.0
  {
    a * f / z + o
  }

  function Ratio(a: real, b: real): real
    requires b != 0.0
  {
    a / b
  }

  /** The mask for points behind the camera, tested on the zeroed points. */
  function BehindMasked(q: Vec3, t: ImPoint): ImPoint {
    if q.z > 0.0 then NaN2 else t
  }

  /** The cylindrical projection's extra mask: a NaN y makes the whole row NaN. */
  function JointMasked(t: ImPoint): ImPoint {
    if t.y.None? then NaN2 else t
  }

  /** The NumPy passes of imageFromCamera compute Image on every point. */
  lemma PassesAgree(kind: Kind, px: PixelIntrinsics, num: Numerics, c: Vec3)
    requires kind != Rectilinear ==> SqrtLaws(num)
    ensures var q := ZeroNearPlane(c);
      var t := BehindMasked(q, Formula(kind, px, num, q));
      (if kind == Cylindrical then JointMasked(t) else t) == Image(kind, px, num, c)
  {
    var q := ZeroNearPlane(c);
    if InFront(c) {
      assert q == c;
    } else if Abs(c.z) < Eps {
      assert q == Zero;
      if kind != Rectilinear {
        PlanarNormZero(num);
      }
    }
  }

  /** The rectilinear ray through pixel p: minus (x - ox, y - oy, f). */
  function RectilinearRay(px: PixelIntrinsics, p: Px): Vec3 {
    Vec3(-(p.x - px.offsetX), -(p.y - px.offsetY), -px.focallengthPx)
  }

  /** The ray through pixel p, in camera coordinates, before norming. The
      cylindrical and equirectangular rays divide by the focal length, so a
      zero focal length leaves them without a finite value. */
  function RawRay(kind: Kind, px: PixelIntrinsics, num: Numerics, p: Px): (r: Option<Vec3>)
    ensures r.None? <==> kind != Rectilinear && px.focallengthPx == 0.0
    ensures r.Some? ==> r.value.z == if kind == Rectilinear then -px.focallengthPx else -num.cos((p.x - px.offsetX) / px.focallengthPx)
  {
    var f := px.focallengthPx;
    match kind
    case Rectilinear => Some(RectilinearRay(px, p))
    case Cylindrical =>
      if f == 0.0 then None
      else
        var alpha := (p.x - px.offsetX) / f;
        Some(Vec3(-num.sin(alpha), -((p.y - px.offsetY) / f), -num.cos(alpha)))
    case Equirectangular =>
      if f == 0.0 then None
      else
        var alpha := (p.x - px.offsetX) / f;
        Some(Vec3(-num.sin(alpha), -num.tan((p.y - px.offsetY) / f), -num.cos(alpha)))
  }

  /** The vector divided by its Euclidean norm; the zero vector gives 0/0 = NaN. */
  function Normalized(num: Numerics, v: Vec3): (r: Option<Vec3>)
    requires SqrtLaws(num)
    ensures r.Some? <==> v != Zero
    ensures r.Some? ==> 0.0 < Norm(num, v) && Scale(Norm(num, v), r.value) == v
    ensures r.Some? ==> Dot(r.value, r.value) == 1.0
  {
    var n := Norm(num, v);
    NormZero(num, v);
    if n == 0.0 then None
    else
      DividedByNorm(num, v);
      Some(Vec3(v.x / n, v.y / n, v.z / n))
  }

  /** A non-zero vector divided by its norm has length one, and the norm scales it back. */
  lemma DividedByNorm(num: Numerics, v: Vec3)
    requires SqrtLaws(num)
    requires v != Zero
    ensures var n := Norm(num, v);
      && 0.0 < n
      && Scale(n, Vec3(v.x / n, v.y / n, v.z / n)) == v
      && Dot(Vec3(v.x / n, v.y / n, v.z / n), Vec3(v.x / n, v.y / n, v.z / n)) == 1.0
  {
    var n := Norm(num, v);
    DotPositive(v);
    Rescaled(v, n);
    UnitLength(v, n, Vec3(v.x / n, v.y / n, v.z / n));
  }

  function Norm(num: Numerics, v: Vec3): real {
    num.sqrt(Dot(v, v))
  }

  lemma Rescaled(v: Vec3, n: real)
    requires n != 0.0
    ensures Scale(n, Vec3(v.x / n, v.y / n, v.z / n)) == v
  {
  }

  /** The norm is zero exactly for the zero vector. */
  lemma NormZero(num: Numerics, v: Vec3)
    requires SqrtLaws(num)
    ensures Norm(num, v) == 0.0 <==> v == Zero
  {
    if v == Zero {
      assert Dot(Zero, Zero) == 0.0;
    } else {
      DotPositive(v);
    }
  }

  /** getRay: the ray through pixel p, normed on request. */
  function Ray(kind: Kind, px: PixelIntrinsics, num: Numerics, p: Px, normed: bool): (r: Option<Vec3>)
    requires normed ==> SqrtLaws(num)
    ensures !normed ==> r == RawRay(kind, px, num, p)
    ensures normed && r.Some? ==>
      (var raw := RawRay(kind, px, num, p);
       raw.Some? && 0.0 < Norm(num, raw.value) && Scale(Norm(num, raw.value), r.value) == raw.value)
    ensures normed ==> (r.Some? <==> RawRay(kind, px, num, p).Some? && RawRay(kind, px, num, p).value != Zero)
    ensures normed && r.Some? ==> Dot(r.value, r.value) == 1.0
  {
    var raw := RawRay(kind, px, num, p);
    if raw.None? || !normed then raw else Normalized(num, raw.value)
  }

  /** Round trip: every point t·ray(p) on the rectilinear ray through pixel p,
      far enough in front of the camera, projects back onto p. */
  lemma RectilinearRoundTrip(px: PixelIntrinsics, num: Numerics, p: Px, t: real)
    requires t * px.focallengthPx >= Eps
    ensures Image(Rectilinear, px, num, Scale(t, RectilinearRay(px, p))) == ImPoint(Some(p.x), Some(p.y))
  {
    var f := px.focallengthPx;
    var c := Scale(t, RectilinearRay(px, p));
    BackProjected(p.x, px.offsetX, f, t);
    BackProjected(p.y, px.offsetY, f, t);
    assert c == Vec3(t * -(p.x - px.offsetX), t * -(p.y - px.offsetY), t * -f);
    RectilinearInFront(px, num, c);
    assert Pinhole(c.x, f, c.z, px.offsetX) == p.x;
    assert Pinhole(c.y, f, c.z, px.offsetY) == p.y;
  }

  /** One coordinate of the rectilinear round trip: the point t·(-(p - o)) at
      depth t·(-f) goes back to p. */
  lemma BackProjected(p: real, o: real, f: real, t: real)
    requires t * f >= Eps
    ensures t * -f <= -Eps
    ensures Pinhole(t * -(p - o), f, t * -f, o) == p
  {
    var k, d := t * f, p - o;
    assert t * -f == -k;
    assert (t * -d) * f == -(d * k);
  }

  /** In front of the camera the rectilinear projection is the pinhole
      formula x = f·x/z + ox, y = f·y/z + oy. */
  lemma RectilinearInFront(px: PixelIntrinsics, num: Numerics, c: Vec3)
    requires InFront(c)
    ensures Image(Rectilinear, px, num, c) ==
      ImPoint(Some(Pinhole(c.x, px.focallengthPx, c.z, px.offsetX)), Some(Pinhole(c.y, px.focallengthPx, c.z, px.offsetY)))
  {
    RectilinearFormula(px, num, c);
    ImageInFront(Rectilinear, px, num, c);
  }

  lemma RectilinearFormula(px: PixelIntrinsics, num: Numerics, c: Vec3)
    requires InFront(c)
    ensures Formula(Rectilinear, px, num, c) ==
      ImPoint(Some(Pinhole(c.x, px.focallengthPx, c.z, px.offsetX)), Some(Pinhole(c.y, px.focallengthPx, c.z, px.offsetY)))
  {
  }

  lemma ImageInFront(kind: Kind, px: PixelIntrinsics, num: Numerics, c: Vec3)
    requires kind != Rectilinear ==> SqrtLaws(num)
    requires InFront(c)
    ensures Image(kind, px, num, c) == Formula(kind, px, num, c)
  {
  }

  /** The other way round: the rectilinear ray through the image of a point
      in front of the camera passes through that point. */
  lemma RectilinearRayThroughPoint(px: PixelIntrinsics, num: Numerics, c: Vec3)
    requires InFront(c)
    ensures var i := Image(Rectilinear, px, num, c);
      RectilinearRay(px, Px(i.x.value, i.y.value)) == Scale(-px.focallengthPx / c.z, c)
  {
    var f := px.focallengthPx;
    assert (-f / c.z) * c.z == -f;
  }

  /** With the default intrinsics, a point straight ahead of the camera lands
      on the image centre (2304, 1728). */
  lemma DefaultCentre(num: Numerics)
    ensures Derivable(Defaults)
    ensures Image(Rectilinear, Derive(Defaults), num, Vec3(0.0, 0.0, -1000.0)) == ImPoint(Some(2304.0), Some(1728.0))
  {
  }
}
