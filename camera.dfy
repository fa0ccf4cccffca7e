/** A camera: a projection combined with an orientation. It casts rays from
    image pixels into space, intersects them with a plane or stops them at a
    distance, walks the image border, builds the camera cone and caches the
    top-view lookup table. */
module Cameras {
  import opened Geometry
  import opened Projections

  /** The orientation transform. Its implementation is not part of this
      model: it is given by its parameters and its three maps, from
      camera to space for points and for directions, and from space back to
      the camera. */
  datatype Orientation = Orientation(
    parameters: map<string, real>,
    spaceFromCamera: Vec3 -> Vec3,
    directionToSpace: Vec3 -> Vec3,
    cameraFromSpace: Vec3 -> Vec3)

  /** What a rigid orientation satisfies: the camera position plus the
      direction map gives the point map, the direction map is linear in its
      scale, and cameraFromSpace undoes spaceFromCamera. */
  ghost predicate RigidLaws(o: Orientation) {
    && (forall c: Vec3 {:trigger o.spaceFromCamera(c)} :: o.cameraFromSpace(o.spaceFromCamera(c)) == c)
    && (forall c: Vec3 {:trigger o.spaceFromCamera(c)} ::
          o.spaceFromCamera(c) == Add(o.spaceFromCamera(Zero), o.directionToSpace(c)))
    && (forall k: real, c: Vec3 {:trigger o.directionToSpace(Scale(k, c))} ::
          o.directionToSpace(Scale(k, c)) == Scale(k, o.directionToSpace(c)))
  }

  /** The projection's parameters by their names. */
  function ParameterMap(p: Intrinsics): (m: map<string, real>)
    ensures forall key :: key in m <==> key in ParameterNames()
    ensures forall n :: NameOf(n) in m && m[NameOf(n)] == Get(p, n)
  {
    map[NameOf(FocallengthMm) := p.focallengthMm,
        NameOf(ImageHeightPx) := p.imageHeightPx,
        NameOf(ImageWidthPx) := p.imageWidthPx,
        NameOf(SensorHeightMm) := p.sensorHeightMm,
        NameOf(SensorWidthMm) := p.sensorWidthMm]
  }

  /** A ray in space: the camera position and the direction through a pixel
      (`None` when the direction is NaN). */
  datatype SpaceRay = SpaceRay(origin: Vec3, direction: Option<Vec3>)

  /** getRay: the camera position and the projection's ray turned into space. */
  function CameraRay(kind: Kind, px: PixelIntrinsics, o: Orientation, num: Numerics, p: Px, normed: bool): (r: SpaceRay)
    requires normed ==> SqrtLaws(num)
    ensures r.origin == o.spaceFromCamera(Zero)
    ensures r.direction.None? <==>
      RawRay(kind, px, num, p).None? || (normed && RawRay(kind, px, num, p).value == Zero)
    ensures kind == Rectilinear && !normed ==> r.direction == Some(o.directionToSpace(RectilinearRay(px, p)))
  {
    var r := Ray(kind, px, num, p, normed);
    SpaceRay(o.spaceFromCamera(Zero), if r.Some? then Some(o.directionToSpace(r.value)) else None)
  }

  /** With a rigid orientation the space ray is the camera-frame ray moved
      into space: it starts at the camera position, and its point at
      parameter t is the camera-frame point t·ray taken into space. */
  lemma RayInSpace(kind: Kind, px: PixelIntrinsics, o: Orientation, num: Numerics, p: Px, normed: bool, t: real)
    requires RigidLaws(o)
    requires normed ==> SqrtLaws(num)
    requires Ray(kind, px, num, p, normed).Some?
    ensures var r := CameraRay(kind, px, o, num, p, normed);
      && r.origin == o.spaceFromCamera(Zero)
      && r.direction.Some?
      && Along(r.origin, t, r.direction.value) == o.spaceFromCamera(Scale(t, Ray(kind, px, num, p, normed).value))
  {
    var c := Ray(kind, px, num, p, normed).value;
    assert o.spaceFromCamera(Scale(t, c)) == Add(o.spaceFromCamera(Zero), o.directionToSpace(Scale(t, c)));
    assert o.directionToSpace(Scale(t, c)) == Scale(t, o.directionToSpace(c));
  }

  /** Where spaceFromImage stops a ray: on the plane where one coordinate
      takes a given value, or at a given distance along the normed ray. */
  datatype Target = OnPlane(axis: Coord, value: real) | AtDistance(distance: real)

  /** The keyword arguments X, Y, Z and D of spaceFromImage: D wins, then X,
      then Y, then Z; with none of them the source reads an unbound index. */
  function ResolveTarget(x: Option<real>, y: Option<real>, z: Option<real>, d: Option<real>): (r: Result<Target>)
    ensures r.Err? <==> x.None? && y.None? && z.None? && d.None?
    ensures r.Err? ==> r.error == UnboundAxisIndex
    ensures r.Ok? && r.value.AtDistance? <==> d.Some?
    ensures d.Some? ==> r == Ok(AtDistance(d.value))
    ensures r.Ok? && r.value.OnPlane? ==>
      match r.value.axis
      case X => x == Some(r.value.value)
      case Y => x.None? && y == Some(r.value.value)
      case Z => x.None? && y.None? && z == Some(r.value.value)
  {
    if d.Some? then Ok(AtDistance(d.value))
    else if x.Some? then Ok(OnPlane(X, x.value))
    else if y.Some? then Ok(OnPlane(Y, y.value))
    else if z.Some? then Ok(OnPlane(Z, z.value))
    else Err(UnboundAxisIndex)
  }

  /** An orientation whose direction map keeps lengths, as a rotation does. */
  ghost predicate LengthLaws(o: Orientation) {
    forall c: Vec3 {:trigger o.directionToSpace(c)} :: Dot(o.directionToSpace(c), o.directionToSpace(c)) == Dot(c, c)
  }

  /** With D given, spaceFromImage stretches the normed ray by D, so for
      D >= 0 each point it finds lies at distance D from the camera
      position (squared distance D·D). */
  lemma DistanceFromCamera(kind: Kind, px: PixelIntrinsics, o: Orientation, num: Numerics, p: Px,
                           x: Option<real>, y: Option<real>, z: Option<real>, dist: real)
    requires SqrtLaws(num)
    requires LengthLaws(o)
    requires 0.0 <= dist
    requires Ray(kind, px, num, p, true).Some?
    ensures var ray := CameraRay(kind, px, o, num, p, true);
      var q := Locate(ResolveTarget(x, y, z, Some(dist)).value, ray);
      q.Some? && Dot(Sub(q.value, ray.origin), Sub(q.value, ray.origin)) == dist * dist
  {
    var ray := CameraRay(kind, px, o, num, p, true);
    var u := Ray(kind, px, num, p, true).value;
    var v := o.directionToSpace(u);
    assert ray.direction == Some(v);
    var q := Locate(AtDistance(dist), ray);
    assert q == Some(Along(ray.origin, dist, v));
    assert Sub(q.value, ray.origin) == Scale(dist, v);
    DotScale(dist, v);
    assert Dot(v, v) == Dot(u, u) == 1.0;
  }

  /** The factor by which the direction is stretched: the distance itself,
      or (value - origin[i]) / direction[i] for a plane, NaN or infinite
      when the direction is NaN or parallel to the plane. */
  function Factor(target: Target, ray: SpaceRay): Option<real> {
    match target
    case AtDistance(d) => Some(d)
    case OnPlane(axis, value) =>
      if ray.direction.None? then None
      else Quotient(value - Component(ray.origin, axis), Component(ray.direction.value, axis))
  }

  /** The point `origin + factor·direction` before the mask for negative factors. */
  function Unmasked(target: Target, ray: SpaceRay): Option<Vec3> {
    var factor := Factor(target, ray);
    if ray.direction.None? || factor.None? then None
    else Some(Along(ray.origin, factor.value, ray.direction.value))
  }

  /** One row of spaceFromImage: NaN for a negative factor. */
  function Locate(target: Target, ray: SpaceRay): (r: Option<Vec3>)
    ensures r.Some? ==> ray.direction.Some? && Factor(target, ray).Some? && 0.0 <= Factor(target, ray).value
    ensures r.Some? && target.OnPlane? ==> Component(r.value, target.axis) == target.value
    ensures target.AtDistance? ==>
      r == if ray.direction.Some? && 0.0 <= target.distance
           then Some(Along(ray.origin, target.distance, ray.direction.value)) else None
    ensures Factor(target, ray) == Some(0.0) && ray.direction.Some? ==> r == Some(ray.origin)
    ensures ray.direction.Some? && Factor(target, ray).Some? ==>
      r == if Factor(target, ray).value < 0.0 then None
           else Some(Along(ray.origin, Factor(target, ray).value, ray.direction.value))
    ensures ray.direction.None? || Factor(target, ray).None? ==> r.None?
  {
    var factor := Factor(target, ray);
    if factor.Some? && factor.value < 0.0 then None
    else
      var u := Unmasked(target, ray);
      if u.Some? then OnTarget(target, ray, factor.value); u else u
  }

  lemma OnTarget(target: Target, ray: SpaceRay, factor: real)
    requires ray.direction.Some? && Factor(target, ray) == Some(factor)
    ensures target.OnPlane? ==> Component(Along(ray.origin, factor, ray.direction.value), target.axis) == target.value
    ensures factor == 0.0 ==> Along(ray.origin, factor, ray.direction.value) == ray.origin
  {
    var o, v := ray.origin, ray.direction.value;
    ComponentAlong(o, factor, v);
    if target.OnPlane? {
      var i := target.axis;
      PlaneHit(Component(o, i), target.value, Component(v, i));
    }
    if factor == 0.0 {
      assert Scale(0.0, v) == Zero;
    }
  }

  lemma ComponentAlong(o: Vec3, s: real, v: Vec3)
    ensures forall i: Coord :: Component(Along(o, s, v), i) == Component(o, i) + s * Component(v, i)
  {
  }

  /** Solving o + s·d = value for s and substituting gives the value back. */
  lemma PlaneHit(o: real, value: real, d: real)
    requires d != 0.0
    ensures Quotient(value - o, d).Some?
    ensures o + Quotient(value - o, d).value * d == value
  {
  }

  /** A point found by spaceFromImage on a plane, in front of a rectilinear
      camera with a rigid orientation, projects back to the pixel it came
      from. */
  lemma SpaceImageRoundTrip(px: PixelIntrinsics, o: Orientation, num: Numerics, p: Px, target: Target)
    requires RigidLaws(o)
    requires 0.0 < px.focallengthPx
    requires target.OnPlane?
    requires var ray := CameraRay(Rectilinear, px, o, num, p, false);
      Factor(target, ray).Some? && Factor(target, ray).value * px.focallengthPx >= Eps
    ensures var ray := CameraRay(Rectilinear, px, o, num, p, false);
      Locate(target, ray).Some? &&
      Image(Rectilinear, px, num, o.cameraFromSpace(Locate(target, ray).value)) == ImPoint(Some(p.x), Some(p.y))
  {
    var ray := CameraRay(Rectilinear, px, o, num, p, false);
    var c := RectilinearRay(px, p);
    var t := Factor(target, ray).value;
    assert ray.direction == Some(o.directionToSpace(c));
    FactorSign(t, px.focallengthPx);
    RayInSpace(Rectilinear, px, o, num, p, false, t);
    assert Locate(target, ray).value == o.spaceFromCamera(Scale(t, c));
    RectilinearRoundTrip(px, num, p, t);
  }

  /** The other way round: a point in front of a rectilinear camera with a
      rigid orientation, projected to its pixel and cast back onto the plane
      through it (any axis the ray is not parallel to), is found again. */
  lemma SpaceImageSpaceRoundTrip(px: PixelIntrinsics, o: Orientation, num: Numerics, c: Vec3, axis: Coord)
    requires RigidLaws(o)
    requires 0.0 < px.focallengthPx
    requires InFront(c)
    requires Component(o.directionToSpace(c), axis) != 0.0
    ensures var i := Image(Rectilinear, px, num, c);
      var target := OnPlane(axis, Component(o.spaceFromCamera(c), axis));
      Locate(target, CameraRay(Rectilinear, px, o, num, Px(i.x.value, i.y.value), false)) == Some(o.spaceFromCamera(c))
  {
    var i := Image(Rectilinear, px, num, c);
    var p := Px(i.x.value, i.y.value);
    var k := -px.focallengthPx / c.z;
    var dir := o.directionToSpace(c);
    var origin := o.spaceFromCamera(Zero);
    RectilinearRayThroughPoint(px, num, c);
    assert RectilinearRay(px, p) == Scale(k, c);
    assert o.directionToSpace(Scale(k, c)) == Scale(k, dir);
    assert CameraRay(Rectilinear, px, o, num, p, false) == SpaceRay(origin, Some(Scale(k, dir)));
    assert o.spaceFromCamera(c) == Add(origin, dir);
    PlaneThroughEnd(origin, dir, k, axis);
  }

  /** The ray from o along k·d, for k > 0, meets the plane through o + d
      across an axis d is not parallel to in o + d itself. */
  lemma PlaneThroughEnd(o: Vec3, d: Vec3, k: real, axis: Coord)
    requires 0.0 < k
    requires Component(d, axis) != 0.0
    ensures Locate(OnPlane(axis, Component(Add(o, d), axis)), SpaceRay(o, Some(Scale(k, d)))) == Some(Add(o, d))
  {
    var target, ray := OnPlane(axis, Component(Add(o, d), axis)), SpaceRay(o, Some(Scale(k, d)));
    PlaneFactor(o, d, k, axis);
    var t := Factor(target, ray).value;
    assert Locate(target, ray) == Some(Along(o, t, Scale(k, d)));
    Unstretch(t, k, d);
  }

  /** The factor of that ray is 1/k: positive, and undoing the stretch. */
  lemma PlaneFactor(o: Vec3, d: Vec3, k: real, axis: Coord)
    requires 0.0 < k
    requires Component(d, axis) != 0.0
    ensures var f := Factor(OnPlane(axis, Component(Add(o, d), axis)), SpaceRay(o, Some(Scale(k, d))));
      f.Some? && 0.0 < f.value && f.value * k == 1.0
  {
    var a := Component(d, axis);
    Reciprocal(a, k);
    assert Component(Scale(k, d), axis) == k * a;
    assert Component(Add(o, d), axis) - Component(o, axis) == a;
  }

  lemma Reciprocal(d: real, k: real)
    requires d != 0.0 && 0.0 < k
    ensures k * d != 0.0
    ensures 0.0 < d / (k * d) && (d / (k * d)) * k == 1.0
  {
  }

  lemma Unstretch(t: real, k: real, v: Vec3)
    requires t * k == 1.0
    ensures Scale(t, Scale(k, v)) == v
  {
  }

  lemma FactorSign(t: real, f: real)
    requires 0.0 < f && t * f >= Eps
    ensures 0.0 < t
  {
  }

  /** np.arange(start, stop, step): ceil((stop - start) / step) values, none when that is negative. */
  function ArangeLength(start: real, stop: real, step: real): nat
    requires step != 0.0
  {
    var n := Ceil((stop - start) / step);
    if n < 0 then 0 else n
  }

  function Ceil(r: real): int {
    -((-r).Floor)
  }

  function Arange(start: real, stop: real, step: real): (r: seq<real>)
    requires step != 0.0
    ensures |r| == ArangeLength(start, stop, step)
    ensures forall k :: 0 <= k < |r| ==> r[k] == start + k as real * step
  {
    seq(ArangeLength(start, stop, step), k => start + k as real * step)
  }

  /** getImageBorder's walk around a w×h image at the given resolution: down
      the left edge, along the bottom edge, up the right edge and back along
      the top edge. */
  function ImageBorder(w: real, h: real, resolution: real): (b: seq<Px>)
    requires resolution != 0.0
    ensures var nh, nw := ArangeLength(0.0, h, resolution), ArangeLength(0.0, w, resolution);
      && |b| == 2 * nh + 2 * nw
      && (forall k :: 0 <= k < nh ==> b[k] == Px(0.0, k as real * resolution))
      && (forall k :: nh <= k < nh + nw ==> b[k] == Px((k - nh) as real * resolution, h))
      && (forall k :: nh + nw <= k < 2 * nh + nw ==> b[k] == Px(w, h - (k - nh - nw) as real * resolution))
      && (forall k :: 2 * nh + nw <= k < |b| ==> b[k] == Px(w - (k - 2 * nh - nw) as real * resolution, 0.0))
  {
    ReversedRange(h, resolution);
    ReversedRange(w, resolution);
    Column(0.0, Arange(0.0, h, resolution))
    + Row(Arange(0.0, w, resolution), h)
    + Column(w, Arange(h, 0.0, -resolution))
    + Row(Arange(w, 0.0, -resolution), 0.0)
  }

  /** The image points (x, y) for each y of ys. */
  function Column(x: real, ys: seq<real>): seq<Px> {
    seq(|ys|, k requires 0 <= k < |ys| => Px(x, ys[k]))
  }

  /** The image points (x, y) for each x of xs. */
  function Row(xs: seq<real>, y: real): seq<Px> {
    seq(|xs|, k requires 0 <= k < |xs| => Px(xs[k], y))
  }

  predicate OnEdge(w: real, h: real, p: Px) {
    p.x == 0.0 || p.x == w || p.y == 0.0 || p.y == h
  }

  /** Every sample of the border lies on an edge of the image rectangle. */
  lemma BorderOnEdges(w: real, h: real, resolution: real)
    requires resolution != 0.0
    ensures forall k :: 0 <= k < |ImageBorder(w, h, resolution)| ==> OnEdge(w, h, ImageBorder(w, h, resolution)[k])
  {
  }

  /** For a positive resolution the walk takes 2·⌈h/r⌉ + 2·⌈w/r⌉ samples,
      starts at the corner (0, 0) and turns at (0, h), (w, h) and (w, 0). */
  lemma BorderWalk(w: real, h: real, resolution: real)
    requires 0.0 < resolution && 0.0 < w && 0.0 < h
    ensures var b := ImageBorder(w, h, resolution);
      var nh, nw := Ceil(h / resolution), Ceil(w / resolution);
      && 0 < nh && 0 < nw
      && |b| == 2 * nh + 2 * nw
      && b[0] == Px(0.0, 0.0)
      && b[nh] == Px(0.0, h)
      && b[nh + nw] == Px(w, h)
      && b[2 * nh + nw] == Px(w, 0.0)
  {
    var r := resolution;
    ReversedRange(h, r);
    ReversedRange(w, r);
    CeilPositive(h / r);
    CeilPositive(w / r);
    var nh, nw := Ceil(h / r), Ceil(w / r);
    var b := ImageBorder(w, h, r);
    assert |b| == 2 * nh + 2 * nw;
    assert b[0] == Px(0.0, 0.0 + 0 as real * r);
    assert b[nh] == Px(0.0 + 0 as real * r, h);
    assert b[nh + nw] == Px(w, h + 0 as real * -r);
    assert b[2 * nh + nw] == Px(w + 0 as real * -r, 0.0);
  }

  /** Walking from e down to 0 takes as many steps as walking from 0 up to e. */
  lemma ReversedRange(e: real, r: real)
    requires r != 0.0
    ensures (0.0 - e) / -r == (e - 0.0) / r
    ensures ArangeLength(e, 0.0, -r) == ArangeLength(0.0, e, r)
  {
    assert (0.0 - e) / -r == e / r;
  }

  /** The walk is empty exactly when neither edge length has the sign of
      the resolution: a positive resolution on an image with no positive
      side, or a negative resolution on an image with no negative side (such
      as any real image). spaceFromImage then fails on the empty list. */
  lemma EmptyWalk(w: real, h: real, resolution: real)
    requires resolution != 0.0
    ensures |ImageBorder(w, h, resolution)| == 0 <==> h / resolution <= 0.0 && w / resolution <= 0.0
  {
    EmptyRange(h, resolution);
    EmptyRange(w, resolution);
  }

  lemma EmptyRange(e: real, r: real)
    requires r != 0.0
    ensures ArangeLength(0.0, e, r) == 0 <==> e / r <= 0.0
  {
    assert (e - 0.0) / r == e / r;
    if e / r > 0.0 {
      CeilPositive(e / r);
    } else {
      CeilNonPositive(e / r);
    }
  }

  lemma CeilNonPositive(x: real)
    requires x <= 0.0
    ensures Ceil(x) <= 0
  {
  }

  lemma CeilPositive(x: real)
    requires 0.0 < x
    ensures 0 < Ceil(x)
  {
  }

  datatype Extent = Extent(xmin: real, xmax: real, ymin: real, ymax: real)

  predicate Inside(e: Extent, p: Vec3) {
    e.xmin <= p.x <= e.xmax && e.ymin <= p.y <= e.ymax
  }

  function Grow(e: Extent, p: Vec3): Extent {
    Extent(Min(e.xmin, p.x), Max(e.xmax, p.x), Min(e.ymin, p.y), Max(e.ymax, p.y))
  }

  function Min(a: real, b: real): real { if a <= b then a else b }
  function Max(a: real, b: real): real { if a <= b then b else a }

  /** [nanmin(x), nanmax(x), nanmin(y), nanmax(y)] over the rows of the
      border; `None` when no row is finite. */
  function BoundingBox(points: seq<Option<Vec3>>): (b: Option<Extent>)
    ensures b.None? <==> forall i :: 0 <= i < |points| ==> points[i].None?
    ensures b.Some? ==> forall i :: 0 <= i < |points| && points[i].Some? ==> Inside(b.value, points[i].value)
    decreases |points|
  {
    if |points| == 0 then None
    else
      var rest := BoundingBox(points[1..]);
      assert forall i :: 1 <= i < |points| ==> points[i] == points[1..][i - 1];
      match points[0]
      case None => rest
      case Some(p) => Some(if rest.None? then Extent(p.x, p.x, p.y, p.y) else Grow(rest.value, p))
  }

  /** Each bound of the box is the coordinate of some finite row. */
  lemma {:induction false} BoundsAttained(points: seq<Option<Vec3>>)
    requires BoundingBox(points).Some?
    ensures var e := BoundingBox(points).value;
      && (exists i :: 0 <= i < |points| && points[i].Some? && points[i].value.x == e.xmin)
      && (exists i :: 0 <= i < |points| && points[i].Some? && points[i].value.x == e.xmax)
      && (exists i :: 0 <= i < |points| && points[i].Some? && points[i].value.y == e.ymin)
      && (exists i :: 0 <= i < |points| && points[i].Some? && points[i].value.y == e.ymax)
    decreases |points|
  {
    var rest := BoundingBox(points[1..]);
    var e := BoundingBox(points).value;
    if points[0].None? {
      BoundsAttained(points[1..]);
      assert e == rest.value;
      Shifted(points, e);
    } else if rest.None? {
      assert points[0].value.x == e.xmin && points[0].value.x == e.xmax;
      assert points[0].value.y == e.ymin && points[0].value.y == e.ymax;
    } else {
      BoundsAttained(points[1..]);
      Shifted(points, rest.value);
    }
  }

  /** A witness in the tail is a witness in the whole sequence. */
  lemma Shifted(points: seq<Option<Vec3>>, e: Extent)
    requires |points| > 0
    requires exists i :: 0 <= i < |points[1..]| && points[1..][i].Some? && points[1..][i].value.x == e.xmin
    requires exists i :: 0 <= i < |points[1..]| && points[1..][i].Some? && points[1..][i].value.x == e.xmax
    requires exists i :: 0 <= i < |points[1..]| && points[1..][i].Some? && points[1..][i].value.y == e.ymin
    requires exists i :: 0 <= i < |points[1..]| && points[1..][i].Some? && points[1..][i].value.y == e.ymax
    ensures exists i :: 0 <= i < |points| && points[i].Some? && points[i].value.x == e.xmin
    ensures exists i :: 0 <= i < |points| && points[i].Some? && points[i].value.x == e.xmax
    ensures exists i :: 0 <= i < |points| && points[i].Some? && points[i].value.y == e.ymin
    ensures exists i :: 0 <= i < |points| && points[i].Some? && points[i].value.y == e.ymax
  {
    var a :| 0 <= a < |points[1..]| && points[1..][a].Some? && points[1..][a].value.x == e.xmin;
    assert points[a + 1] == points[1..][a];
    var b :| 0 <= b < |points[1..]| && points[1..][b].Some? && points[1..][b].value.x == e.xmax;
    assert points[b + 1] == points[1..][b];
    var c :| 0 <= c < |points[1..]| && points[1..][c].Some? && points[1..][c].value.y == e.ymin;
    assert points[c + 1] == points[1..][c];
    var d :| 0 <= d < |points[1..]| && points[1..][d].Some? && points[1..][d].value.y == e.ymax;
    assert points[d + 1] == points[1..][d];
  }

  /** The top-view lookup table; its contents are not part of this model. */
  type LookupTable = seq<seq<ImPoint>>

  /** The fields getMap reads and writes: the cached map and the extent and
      scaling it was built for. */
  datatype Cache = Cache(table: Option<LookupTable>, lastExtent: Option<Extent>, lastScaling: Option<real>)

  /** A stored map always comes with the extent and the scaling it was built for. */
  predicate CacheValid(c: Cache) {
    c.table.Some? ==> c.lastExtent.Some? && c.lastScaling.Some?
  }

  /** The cache is used exactly when a map exists and the requested extent
      and scaling compare equal to the stored ones. */
  predicate Hit(c: Cache, extent: Extent, scaling: Option<real>) {
    c.table.Some? && c.lastExtent == Some(extent) && c.lastScaling == scaling
  }

  /** The extent getMap works on: the one given, or else the bounding box of
      the image border on the ground. Computing that border fails when its
      walk is empty. When the border has no finite point, np.nanmin and
      np.nanmax give NaN bounds, and np.arange raises ValueError on them
      whatever the scaling. A NaN extent never equals the cached one, so
      that error is reached before the cache is consulted. */
  function Requested(extent: Option<Extent>, border: Result<seq<Option<Vec3>>>): (e: Result<Extent>)
    ensures extent.Some? ==> e == Ok(extent.value)
    ensures extent.None? && border.Err? ==> e == Err(border.error)
    ensures extent.None? && border.Ok? ==>
      && (e.Err? <==> BoundingBox(border.value).None?)
      && (e.Err? ==> e.error == EmptyExtent)
      && (e.Ok? ==> BoundingBox(border.value) == Some(e.value))
  {
    if extent.Some? then Ok(extent.value)
    else if border.Err? then Err(border.error)
    else
      var b := BoundingBox(border.value);
      if b.None? then Err(EmptyExtent) else Ok(b.value)
  }

  /** The scaling getMap uses on a miss: the one given, or else the default
      for the extent (`None` when that default is NaN). */
  function UsedScaling(scaling: Option<real>, defaultScaling: Extent -> Option<real>, e: Extent): (s: Option<real>)
    ensures scaling.Some? ==> s == scaling
    ensures scaling.None? ==> s == defaultScaling(e)
  {
    if scaling.Some? then scaling else defaultScaling(e)
  }

  /** A step np.arange accepts: a number other than zero (zero divides by
      zero, NaN cannot be turned into a length). */
  predicate ValidStep(s: Option<real>) {
    s.Some? && s.value != 0.0
  }

  /** getMap as a step on the cache. Without an extent, when the image
      border cannot be computed or has no finite point, or with a step
      np.arange refuses, the call fails before the cache is written. The
      stored map is returned when the requested extent and scaling compare
      equal to the stored ones; otherwise the map is rebuilt and stored with
      the extent and the scaling actually used. */
  function MapStep(c: Cache, extent: Option<Extent>, border: Result<seq<Option<Vec3>>>, scaling: Option<real>,
                   defaultScaling: Extent -> Option<real>, build: (Extent, real) -> LookupTable): (out: (Cache, Result<LookupTable>))
    ensures CacheValid(c) ==> CacheValid(out.0)
    ensures out.1.Err? ==> out.0 == c
    ensures var e := Requested(extent, border);
      e.Err? ==> out == (c, Err(e.error))
    ensures var e := Requested(extent, border);
      e.Ok? && Hit(c, e.value, scaling) ==> out == (c, Ok(c.table.value))
    ensures var e := Requested(extent, border);
      e.Ok? && !Hit(c, e.value, scaling) && !ValidStep(UsedScaling(scaling, defaultScaling, e.value)) ==>
      out == (c, Err(InvalidStep))
    ensures var e := Requested(extent, border);
      e.Ok? && !Hit(c, e.value, scaling) && ValidStep(UsedScaling(scaling, defaultScaling, e.value)) ==>
      var s := UsedScaling(scaling, defaultScaling, e.value);
      out == (Cache(Some(build(e.value, s.value)), Some(e.value), s), Ok(build(e.value, s.value)))
  {
    var ext := Requested(extent, border);
    if ext.Err? then (c, Err(ext.error))
    else if Hit(c, ext.value, scaling) then (c, Ok(c.table.value))
    else
      var s := UsedScaling(scaling, defaultScaling, ext.value);
      if !ValidStep(s) then (c, Err(InvalidStep))
      else
        var m := build(ext.value, s.value);
        (Cache(Some(m), Some(ext.value), s), Ok(m))
  }

  /** Once a map exists, a call without a scaling never uses the cache. */
  lemma NoScalingMisses(c: Cache, extent: Extent)
    requires CacheValid(c) && c.table.Some?
    ensures !Hit(c, extent, None)
  {
  }

  /** Asking twice for the same extent and the same explicit scaling builds
      the map once: the second call returns the stored map and changes nothing. */
  lemma RepeatedCallHits(c: Cache, extent: Extent, border: Result<seq<Option<Vec3>>>, scaling: real,
                         defaultScaling: Extent -> Option<real>, build: (Extent, real) -> LookupTable)
    ensures var first := MapStep(c, Some(extent), border, Some(scaling), defaultScaling, build);
      var second := MapStep(first.0, Some(extent), border, Some(scaling), defaultScaling, build);
      second == first
  {
  }

  /** Asking for a different extent or a different scaling than the stored
      ones never returns the stored map: the map is rebuilt for the new
      extent and scaling, or the call fails on its step. */
  lemma ChangedKeyRebuilds(c: Cache, extent: Extent, border: Result<seq<Option<Vec3>>>, scaling: Option<real>,
                           defaultScaling: Extent -> Option<real>, build: (Extent, real) -> LookupTable)
    requires c.lastExtent != Some(extent) || c.lastScaling != scaling
    ensures var out := MapStep(c, Some(extent), border, scaling, defaultScaling, build);
      var s := UsedScaling(scaling, defaultScaling, extent);
      && (out.1.Ok? <==> ValidStep(s))
      && (out.1.Ok? ==> out.0 == Cache(Some(build(extent, s.value)), Some(extent), s) && out.1.value == build(extent, s.value))
  {
  }

  /** The first array pass of spaceFromImage: the factor of every ray, and
      the point origin + factor·direction. */
  method FactorPass(target: Target, rays: seq<SpaceRay>) returns (factors: array<Option<real>>, rows: array<Option<Vec3>>)
    ensures fresh(factors) && fresh(rows)
    ensures factors.Length == |rays| && rows.Length == |rays|
    ensures forall j :: 0 <= j < |rays| ==> factors[j] == Factor(target, rays[j]) && rows[j] == Unmasked(target, rays[j])
  {
    factors := new Option<real>[|rays|];
    rows := new Option<Vec3>[|rays|];
    var i := 0;
    while i < |rays|
      invariant 0 <= i <= |rays|
      invariant forall j :: 0 <= j < i ==> factors[j] == Factor(target, rays[j]) && rows[j] == Unmasked(target, rays[j])
    {
      factors[i] := Factor(target, rays[i]);
      rows[i] := Unmasked(target, rays[i]);
      i := i + 1;
    }
  }

  /** The second array pass of spaceFromImage: `points[factor < 0] = np.nan`,
      which leaves `Locate` of every ray. */
  method MaskPass(target: Target, rays: seq<SpaceRay>, factors: array<Option<real>>, rows: array<Option<Vec3>>)
    requires factors.Length == |rays| && rows.Length == |rays|
    requires forall j :: 0 <= j < |rays| ==> factors[j] == Factor(target, rays[j]) && rows[j] == Unmasked(target, rays[j])
    modifies rows
    ensures forall j :: 0 <= j < |rays| ==> rows[j] == Locate(target, rays[j])
  {
    var i := 0;
    while i < |rays|
      invariant 0 <= i <= |rays|
      invariant forall j :: 0 <= j < |rays| ==> factors[j] == Factor(target, rays[j])
      invariant forall j :: 0 <= j < i ==> rows[j] == Locate(target, rays[j])
      invariant forall j :: i <= j < |rays| ==> rows[j] == Unmasked(target, rays[j])
    {
      if factors[i].Some? && factors[i].value < 0.0 {
        rows[i] := None;
      }
      i := i + 1;
    }
  }

  /** A camera object; the cached map lives in its fields. */
  class Camera {
    const projection: CameraProjection
    const orientation: Orientation
    var table: Option<LookupTable>
    var lastExtent: Option<Extent>
    var lastScaling: Option<real>

    function CacheState(): Cache
      reads this
    {
      Cache(table, lastExtent, lastScaling)
    }

    ghost predicate Valid()
      reads this, projection
    {
      projection.Valid() && CacheValid(CacheState())
    }

    constructor (projection: CameraProjection, orientation: Orientation)
      requires projection.Valid()
      ensures this.projection == projection && this.orientation == orientation
      ensures CacheState() == Cache(None, None, None)
      ensures Valid()
    {
      this.projection := projection;
      this.orientation := orientation;
      table := None;
      lastExtent := None;
      lastScaling := None;
    }

    /** The camera's parameter set: the projection's parameters, updated by
        the orientation's. */
    function Parameters(): (params: map<string, real>)
      reads projection
      ensures params.Keys == ParameterMap(projection.parameters).Keys + orientation.parameters.Keys
      ensures forall key :: key in orientation.parameters ==> params[key] == orientation.parameters[key]
      ensures forall n :: NameOf(n) !in orientation.parameters ==> params[NameOf(n)] == Get(projection.parameters, n)
    {
      ParameterMap(projection.parameters) + orientation.parameters
    }

    function GetRay(num: Numerics, p: Px, normed: bool): (r: SpaceRay)
      reads projection
      requires normed ==> SqrtLaws(num)
      ensures r.origin == orientation.spaceFromCamera(Zero)
      ensures r.direction.None? <==> (var raw := RawRay(projection.kind, projection.Pixel(), num, p);
        raw.None? || (normed && raw.value == Zero))
      ensures projection.kind == Rectilinear && !normed ==>
        r.direction == Some(orientation.directionToSpace(RectilinearRay(projection.Pixel(), p)))
    {
      CameraRay(projection.kind, projection.Pixel(), orientation, num, p, normed)
    }

    /** The rows spaceFromImage returns for the given pixels. */
    function SpaceRows(target: Target, num: Numerics, points: seq<Px>): (rows: seq<Option<Vec3>>)
      reads projection
      requires target.AtDistance? ==> SqrtLaws(num)
      ensures |rows| == |points|
    {
      seq(|points|, i requires 0 <= i < |points| reads projection => Locate(target, GetRay(num, points[i], target.AtDistance?)))
    }

    /** spaceFromImage: resolves the target, computes every row
        origin + factor·direction, then sets the rows with a negative
        factor to NaN. */
    method SpaceFromImage(points: seq<Px>, x: Option<real>, y: Option<real>, z: Option<real>, d: Option<real>, num: Numerics)
      returns (r: Result<seq<Option<Vec3>>>)
      requires d.Some? ==> SqrtLaws(num)
      ensures r.Err? <==> |points| == 0 || ResolveTarget(x, y, z, d).Err?
      ensures r.Err? ==> r.error == if |points| == 0 then EmptyPoints else UnboundAxisIndex
      ensures r.Ok? ==> r.value == SpaceRows(ResolveTarget(x, y, z, d).value, num, points)
    {
      if |points| == 0 {
        return Err(EmptyPoints);
      }
      var target := ResolveTarget(x, y, z, d);
      if target.Err? {
        return Err(target.error);
      }
      var t := target.value;
      var rays := seq(|points|, j requires 0 <= j < |points| reads projection => GetRay(num, points[j], d.Some?));
      var factors, rows := FactorPass(t, rays);
      MaskPass(t, rays, factors, rows);
      r := Ok(rows[..]);
    }

    /** imageFromSpace: into the camera frame, then onto the image. */
    method ImageFromSpace(points: seq<Vec3>, num: Numerics) returns (r: Result<seq<ImPoint>>)
      requires projection.Valid()
      requires projection.kind != Rectilinear ==> SqrtLaws(num)
      ensures r.Err? <==> |points| == 0
      ensures r.Err? ==> r.error == EmptyPoints
      ensures r.Ok? ==> |r.value| == |points|
      ensures r.Ok? ==> forall i :: 0 <= i < |points| ==>
        r.value[i] == Image(projection.kind, projection.Pixel(), num, orientation.cameraFromSpace(points[i]))
    {
      var inCamera := seq(|points|, i requires 0 <= i < |points| => orientation.cameraFromSpace(points[i]));
      r := projection.ImageFromCamera(inCamera, num);
    }

    function Width(): real reads projection { projection.parameters.imageWidthPx }
    function Height(): real reads projection { projection.parameters.imageHeightPx }

    /** The image border walked at the given resolution and put on the ground plane Z = 0. */
    function GroundBorder(num: Numerics, resolution: real): (r: Result<seq<Option<Vec3>>>)
      reads projection
      requires resolution != 0.0
      ensures r.Err? <==> |ImageBorder(Width(), Height(), resolution)| == 0
      ensures r.Err? ==> r.error == EmptyPoints
      ensures r.Ok? ==> |r.value| == |ImageBorder(Width(), Height(), resolution)|
    {
      var pixels := ImageBorder(Width(), Height(), resolution);
      if |pixels| == 0 then Err(EmptyPoints) else Ok(SpaceRows(OnPlane(Z, 0.0), num, pixels))
    }

    /** getImageBorder: the four loops of appends, then spaceFromImage with Z = 0. */
    method GetImageBorder(resolution: real, num: Numerics) returns (border: Result<seq<Option<Vec3>>>)
      requires resolution != 0.0
      ensures border == GroundBorder(num, resolution)
    {
      var pixels := BorderPixels(Width(), Height(), resolution);
      border := SpaceFromImage(pixels, None, None, Some(0.0), None, num);
    }

    /** getCameraCone: the border walked pixel by pixel and put on the ground,
        then for each of the five recorded corner indices a NaN row, the
        camera position and the row at that index. The fifth index equals the
        border's length and so picks the NaN row appended first. */
    method GetCameraCone(num: Numerics) returns (cone: Result<seq<Option<Vec3>>>)
      requires Whole(Width()) && Whole(Height())
      ensures var ground := GroundBorder(num, 1.0);
        && (cone.Err? <==> ground.Err?)
        && (cone.Err? ==> cone.error == EmptyPoints)
        && (cone.Ok? ==>
              var corners := ConeCorners(Width(), Height());
              corners[4] == |ground.value| && ConeRows(cone.value, ground.value, orientation.spaceFromCamera(Zero), corners))
    {
      var w, h := Width(), Height();
      var pixels, corners := ConePixels(w, h);
      ConeBorderIsImageBorder(w, h);
      var r := SpaceFromImage(pixels, None, None, Some(0.0), None, num);
      if r.Err? {
        return Err(r.error);
      }
      var rows := AppendCorners(r.value, orientation.spaceFromCamera(Zero), corners);
      cone := Ok(rows);
    }

    /** getMap: the cache rule of MapStep on the camera's fields. */
    method GetMap(extent: Option<Extent>, scaling: Option<real>, num: Numerics,
                  defaultScaling: Extent -> Option<real>, build: (Extent, real) -> LookupTable)
      returns (r: Result<LookupTable>)
      requires Valid()
      modifies this
      ensures Valid()
      ensures (CacheState(), r) ==
        MapStep(old(CacheState()), extent, old(GroundBorder(num, 1.0)), scaling, defaultScaling, build)
    {
      var e: Extent;
      if extent.Some? {
        e := extent.value;
      } else {
        var border := GetImageBorder(1.0, num);
        if border.Err? {
          return Err(border.error);
        }
        var box := BoundingBox(border.value);
        if box.None? {
          return Err(EmptyExtent);
        }
        e := box.value;
      }
      if table.Some? && lastExtent == Some(e) && lastScaling == scaling {
        return Ok(table.value);
      }
      var s := if scaling.Some? then scaling else defaultScaling(e);
      if s.None? || s.value == 0.0 {
        return Err(InvalidStep);
      }
      var m := build(e, s.value);
      table := Some(m);
      lastExtent := Some(e);
      lastScaling := s;
      r := Ok(m);
    }
  }

  /** The rows of the camera cone: the ground border, then for each corner
      index a NaN row, the camera position and the row at that index, which
      for an index past the border is the first NaN row. */
  predicate ConeRows(cone: seq<Option<Vec3>>, ground: seq<Option<Vec3>>, origin: Vec3, corners: seq<nat>) {
    var n := |ground|;
    && |cone| == n + 3 * |corners|
    && cone[..n] == ground
    && forall j :: 0 <= j < |corners| ==>
         && cone[n + 3 * j] == None
         && cone[n + 3 * j + 1] == Some(origin)
         && cone[n + 3 * j + 2] == (if corners[j] < n then ground[corners[j]] else None)
  }

  /** The last loop of getCameraCone. */
  method AppendCorners(ground: seq<Option<Vec3>>, origin: Vec3, corners: seq<nat>) returns (cone: seq<Option<Vec3>>)
    requires forall j :: 0 <= j < |corners| ==> corners[j] <= |ground|
    ensures ConeRows(cone, ground, origin, corners)
  {
    var n := |ground|;
    cone := ground;
    var j := 0;
    while j < |corners|
      invariant 0 <= j <= |corners|
      invariant ConeRows(cone, ground, origin, corners[..j])
    {
      cone := cone + [None, Some(origin)];
      assert cone[n] == None;
      cone := cone + [cone[corners[j]]];
      j := j + 1;
    }
    assert corners[..j] == corners;
  }

  predicate Whole(r: real) {
    r == r.Floor as real
  }

  /** range(n) and np.arange(n, 0, -1) for a whole n: max(n, 0) values. */
  function RangeLength(n: real): nat
    requires Whole(n)
  {
    if n < 0.0 then 0 else n.Floor
  }

  /** The corner indices getCameraCone records: 0, then the border's length
      after each of its four loops. */
  function ConeCorners(w: real, h: real): (corners: seq<nat>)
    requires Whole(w) && Whole(h)
    ensures |corners| == 5
  {
    var nh, nw := RangeLength(h), RangeLength(w);
    [0, nh, nh + nw, 2 * nh + nw, 2 * nh + 2 * nw]
  }

  /** The four loops of getImageBorder: append the samples of each edge in turn. */
  method BorderPixels(w: real, h: real, resolution: real) returns (border: seq<Px>)
    requires resolution != 0.0
    ensures border == ImageBorder(w, h, resolution)
  {
    var r := resolution;
    border := AppendColumn([], 0.0, Arange(0.0, h, r));
    border := AppendRow(border, Arange(0.0, w, r), h);
    border := AppendColumn(border, w, Arange(h, 0.0, -r));
    border := AppendRow(border, Arange(w, 0.0, -r), 0.0);
  }

  /** `for y in ys: border.append([x, y])` */
  method AppendColumn(border: seq<Px>, x: real, ys: seq<real>) returns (b: seq<Px>)
    ensures b == border + Column(x, ys)
  {
    b := border;
    var k := 0;
    while k < |ys|
      invariant 0 <= k <= |ys|
      invariant b == border + Column(x, ys[..k])
    {
      assert Column(x, ys[..k + 1]) == Column(x, ys[..k]) + [Px(x, ys[k])];
      b := b + [Px(x, ys[k])];
      k := k + 1;
    }
    assert ys[..k] == ys;
  }

  /** `for x in xs: border.append([x, y])` */
  method AppendRow(border: seq<Px>, xs: seq<real>, y: real) returns (b: seq<Px>)
    ensures b == border + Row(xs, y)
  {
    b := border;
    var k := 0;
    while k < |xs|
      invariant 0 <= k <= |xs|
      invariant b == border + Row(xs[..k], y)
    {
      assert Row(xs[..k + 1], y) == Row(xs[..k], y) + [Px(xs[k], y)];
      b := b + [Px(xs[k], y)];
      k := k + 1;
    }
    assert xs[..k] == xs;
  }

  /** The loops of getCameraCone: range(h), range(w), np.arange(h, 0, -1) and
      np.arange(w, 0, -1), recording the border's length after each. */
  method ConePixels(w: real, h: real) returns (border: seq<Px>, corners: seq<nat>)
    requires Whole(w) && Whole(h)
    ensures border == ConeBorder(w, h)
    ensures corners == ConeCorners(w, h)
  {
    var nh, nw := RangeLength(h), RangeLength(w);
    border := [];
    corners := [0];
    var k := 0;
    while k < nh
      invariant 0 <= k <= nh
      invariant |border| == k && forall i :: 0 <= i < k ==> border[i] == Px(0.0, i as real)
    {
      border := border + [Px(0.0, k as real)];
      k := k + 1;
    }
    corners := corners + [|border|];
    k := 0;
    while k < nw
      invariant 0 <= k <= nw
      invariant |border| == nh + k
      invariant border[..nh] == seq(nh, i requires 0 <= i < nh => Px(0.0, i as real))
      invariant border[nh..] == seq(k, i requires 0 <= i < k => Px(i as real, h))
    {
      border := border + [Px(k as real, h)];
      k := k + 1;
    }
    corners := corners + [|border|];
    var ab := border;
    border := [];
    k := 0;
    while k < nh
      invariant 0 <= k <= nh
      invariant |border| == k && forall i :: 0 <= i < k ==> border[i] == Px(w, h - i as real)
    {
      border := border + [Px(w, h - k as real)];
      k := k + 1;
    }
    border := ab + border;
    corners := corners + [|border|];
    var abc := border;
    border := [];
    k := 0;
    while k < nw
      invariant 0 <= k <= nw
      invariant |border| == k && forall i :: 0 <= i < k ==> border[i] == Px(w - i as real, 0.0)
    {
      border := border + [Px(w - k as real, 0.0)];
      k := k + 1;
    }
    border := abc + border;
    corners := corners + [|border|];
  }

  function ConeBorder(w: real, h: real): (b: seq<Px>)
    requires Whole(w) && Whole(h)
  {
    var nh, nw := RangeLength(h), RangeLength(w);
    seq(nh, i requires 0 <= i < nh => Px(0.0, i as real))
    + seq(nw, i requires 0 <= i < nw => Px(i as real, h))
    + seq(nh, i requires 0 <= i < nh => Px(w, h - i as real))
    + seq(nw, i requires 0 <= i < nw => Px(w - i as real, 0.0))
  }

  /** For whole sizes the cone walks exactly getImageBorder's samples at resolution 1. */
  lemma ConeBorderIsImageBorder(w: real, h: real)
    requires Whole(w) && Whole(h)
    ensures ConeBorder(w, h) == ImageBorder(w, h, 1.0)
  {
    UnitRange(h);
    UnitRange(w);
  }

  lemma UnitRange(n: real)
    requires Whole(n)
    ensures ArangeLength(0.0, n, 1.0) == RangeLength(n)
    ensures ArangeLength(n, 0.0, -1.0) == RangeLength(n)
  {
    assert (n - 0.0) / 1.0 == n;
    assert (0.0 - n) / -1.0 == n;
  }
}
