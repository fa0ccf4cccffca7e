/** A rig of several cameras: the combined parameter set with per-camera
    prefixes, the projection of space points into every image, and the
    triangulation of a point seen by the first two cameras. */
module CameraGroups {
  import opened Geometry
  import opened Projections
  import opened Cameras

  /** A constructor argument of CameraGroup: one object shared by every
      camera, or one object per camera. */
  datatype Rig<T> = Shared(item: T) | PerCamera(items: seq<T>)

  /** Whether camera `i` of the zip has an entry on this side. A shared
      object is cycled when the other side is a list. */
  predicate Fits<T>(r: Rig<T>, i: nat) {
    r.Shared? || i < |r.items|
  }

  /** The object camera `i` is built from. */
  function Member<T>(r: Rig<T>, i: nat): T
    requires Fits(r, i)
  {
    if r.Shared? then r.item else r.items[i]
  }

  /** The number of cameras `zip(projection, orientation_list)` makes: one
      when both sides are shared, otherwise as many as both sides can
      supply. */
  function RigSize<S, T>(projections: Rig<S>, orientations: Rig<T>): (n: nat)
    ensures projections.Shared? && orientations.Shared? ==> n == 1
    ensures projections.PerCamera? || orientations.PerCamera? ==>
      forall i: nat :: i < n <==> Fits(projections, i) && Fits(orientations, i)
  {
    match (projections, orientations)
    case (Shared(_), Shared(_)) => 1
    case (Shared(_), PerCamera(os)) => |os|
    case (PerCamera(ps), Shared(_)) => |ps|
    case (PerCamera(ps), PerCamera(os)) => if |ps| <= |os| then |ps| else |os|
  }

  /** One decimal digit. */
  function Digit(d: nat): (c: char)
    requires d < 10
    ensures IsDigit(c) && c as int - '0' as int == d
  {
    ('0' as int + d) as char
  }

  predicate IsDigit(c: char) {
    '0' <= c <= '9'
  }

  /** The number a string of decimal digits denotes, most significant digit first. */
  function DigitsValue(s: string): int
    requires forall k :: 0 <= k < |s| ==> IsDigit(s[k])
  {
    if |s| == 0 then 0 else 10 * DigitsValue(s[..|s| - 1]) + (s[|s| - 1] as int - '0' as int)
  }

  /** `"%d" % n` for a non-negative n: the decimal digits that denote n,
      without leading zeros. */
  function Decimal(n: nat): (s: string)
    ensures 1 <= |s|
    ensures forall k :: 0 <= k < |s| ==> IsDigit(s[k])
    ensures DigitsValue(s) == n
    ensures |s| == 1 <==> n < 10
    ensures 1 < |s| ==> s[0] != '0'
  {
    if n < 10 then [Digit(n)]
    else
      var s := Decimal(n / 10) + [Digit(n % 10)];
      assert s[..|s| - 1] == Decimal(n / 10);
      s
  }

  /** Different numbers print differently. */
  lemma DecimalInjective(i: nat, j: nat)
    requires Decimal(i) == Decimal(j)
    ensures i == j
  {
  }

  /** The key `"C%d_%s" % (index, name)` under which a camera's parameter
      enters the rig's parameter set. */
  function Prefixed(index: nat, name: string): string {
    "C" + Decimal(index) + "_" + name
  }

  /** No two parameters of a rig share a key: the index and the name can be
      read back from the key. */
  lemma PrefixedInjective(i: nat, a: string, j: nat, b: string)
    requires Prefixed(i, a) == Prefixed(j, b)
    ensures i == j && a == b
  {
    var s := Prefixed(i, a);
    var di, dj := Decimal(i), Decimal(j);
    Layout(i, a);
    Layout(j, b);
    if |di| < |dj| {
      assert false;
    } else if |dj| < |di| {
      assert false;
    }
    assert di == s[1..1 + |di|] == dj;
    DecimalInjective(i, j);
    assert a == s[2 + |di|..] == b;
  }

  /** A prefixed key is "C", then digits, then "_" before the name. */
  lemma Layout(i: nat, name: string)
    ensures var d := Decimal(i);
      && Prefixed(i, name)[1 + |d|] == '_'
      && forall k :: 1 <= k < 1 + |d| ==> IsDigit(Prefixed(i, name)[k])
  {
    var d := Decimal(i);
    forall k | 1 <= k < 1 + |d|
      ensures IsDigit(Prefixed(i, name)[k])
    {
      assert Prefixed(i, name)[k] == d[k - 1];
    }
  }

  /** The parameters of camera `index` under their prefixed keys. */
  function Prefix(index: nat, table: map<string, real>): (r: map<string, real>)
    ensures forall name :: name in table ==> Prefixed(index, name) in r && r[Prefixed(index, name)] == table[name]
    ensures forall key :: key in r ==> exists name :: name in table && key == Prefixed(index, name)
  {
    assert forall a, b {:trigger Prefixed(index, a), Prefixed(index, b)} ::
      Prefixed(index, a) == Prefixed(index, b) ==> a == b by {
      forall a, b | Prefixed(index, a) == Prefixed(index, b) {
        PrefixedInjective(index, a, index, b);
      }
    }
    map name | name in table :: Prefixed(index, name) := table[name]
  }

  /** Every camera's parameters under their prefixed keys, as the loop over
      `enumerate(...)` collects them. */
  function Flatten(tables: seq<map<string, real>>): map<string, real>
    decreases |tables|
  {
    if |tables| == 0 then map[]
    else Flatten(tables[..|tables| - 1]) + Prefix(|tables| - 1, tables[|tables| - 1])
  }

  /** Every parameter of every camera is in the flattened set under its
      own prefixed key, with its own value: no camera's entry overwrites
      another's. */
  lemma {:induction false} FlattenValues(tables: seq<map<string, real>>, i: nat, name: string)
    requires i < |tables| && name in tables[i]
    ensures Prefixed(i, name) in Flatten(tables) && Flatten(tables)[Prefixed(i, name)] == tables[i][name]
    decreases |tables|
  {
    var last := |tables| - 1;
    var init := tables[..last];
    var p := Prefix(last, tables[last]);
    if i < last {
      assert init[i] == tables[i];
      FlattenValues(init, i, name);
      if Prefixed(i, name) in p {
        var other :| other in tables[last] && Prefixed(i, name) == Prefixed(last, other);
        PrefixedInjective(i, name, last, other);
      }
    }
  }

  /** The flattened set holds prefixed keys only. */
  lemma {:induction false} FlattenKeys(tables: seq<map<string, real>>, key: string)
    requires key in Flatten(tables)
    ensures IsPrefixedKey(key, tables)
    decreases |tables|
  {
    assert |tables| != 0;
    var last := |tables| - 1;
    var init := tables[..last];
    var p := Prefix(last, tables[last]);
    assert Flatten(tables) == Flatten(init) + p;
    if key in p {
      var other :| other in tables[last] && key == Prefixed(last, other);
      assert 0 <= last < |tables| && other in tables[last] && key == Prefixed(last, other);
    } else {
      assert key in Flatten(init);
      FlattenKeys(init, key);
      var i, name :| 0 <= i < |init| && name in init[i] && key == Prefixed(i, name);
      assert init[i] == tables[i];
      assert 0 <= i < |tables| && name in tables[i] && key == Prefixed(i, name);
    }
  }

  predicate IsPrefixedKey(key: string, tables: seq<map<string, real>>) {
    exists i, name :: 0 <= i < |tables| && name in tables[i] && key == Prefixed(i, name)
  }

  /** The projection's parameter set of every camera of the rig. */
  function ProjectionTables(r: Rig<CameraProjection>): Rig<map<string, real>>
    reads Objects(r)
  {
    match r
    case Shared(p) => Shared(ParameterMap(p.parameters))
    case PerCamera(ps) => PerCamera(seq(|ps|, k requires 0 <= k < |ps| reads Objects(r) => ParameterMap(ps[k].parameters)))
  }

  function OrientationTables(r: Rig<Orientation>): Rig<map<string, real>> {
    match r
    case Shared(o) => Shared(o.parameters)
    case PerCamera(os) => PerCamera(seq(|os|, k requires 0 <= k < |os| => os[k].parameters))
  }

  function Objects(r: Rig<CameraProjection>): set<CameraProjection> {
    if r.Shared? then {r.item} else set k | 0 <= k < |r.items| :: r.items[k]
  }

  /** One side's contribution: a shared object's parameters as they are,
      one object per camera under prefixed keys. */
  function RigParameters(r: Rig<map<string, real>>): map<string, real> {
    if r.Shared? then r.item else Flatten(r.items)
  }

  /** The rig's parameter set: the projections' parameters, updated by the
      orientations'. */
  function GroupParameters(projections: Rig<map<string, real>>, orientations: Rig<map<string, real>>): map<string, real> {
    RigParameters(projections) + RigParameters(orientations)
  }

  /** With one projection and one orientation per camera, every camera's
      own projection parameters survive the orientations' update, because
      the keys carry the camera index and a parameter name is never shared
      between a projection and an orientation. */
  lemma PerCameraParametersKept(ps: seq<map<string, real>>, os: seq<map<string, real>>, i: nat, name: string)
    requires 0 <= i < |ps| && name in ps[i]
    requires i < |os| ==> name !in os[i]
    ensures var params := GroupParameters(PerCamera(ps), PerCamera(os));
      Prefixed(i, name) in params && params[Prefixed(i, name)] == ps[i][name]
  {
    FlattenValues(ps, i, name);
    if Prefixed(i, name) in Flatten(os) {
      FlattenKeys(os, Prefixed(i, name));
      var j, other :| 0 <= j < |os| && other in os[j] && Prefixed(i, name) == Prefixed(j, other);
      PrefixedInjective(i, name, j, other);
    }
  }

  /** With one shared projection and one orientation per camera, the
      projection's parameters (none of which starts with "C") all survive. */
  lemma SharedProjectionKept(p: map<string, real>, os: seq<map<string, real>>, key: string)
    requires key in p && (|key| == 0 || key[0] != 'C')
    ensures var params := GroupParameters(Shared(p), PerCamera(os));
      key in params && params[key] == p[key]
  {
    if key in Flatten(os) {
      FlattenKeys(os, key);
    }
  }

  /** The projection parameter names never start with "C". */
  lemma ParameterNamesPlain()
    ensures forall n: IntrinsicName :: NameOf(n)[0] != 'C'
  {
    forall n: IntrinsicName ensures NameOf(n)[0] != 'C' {
      match n
      case FocallengthMm =>
      case ImageHeightPx =>
      case ImageWidthPx =>
      case SensorHeightMm =>
      case SensorWidthMm =>
    }
  }

  /** `numpy.linalg.solve` on the 2×2 system [[a1, b1], [a2, b2]]·(s, t) =
      (c1, c2): no solution when the determinant is zero. */
  function Solve2(a1: real, b1: real, a2: real, b2: real, c1: real, c2: real): (r: Option<(real, real)>)
    ensures r.Some? <==> a1 * b2 - b1 * a2 != 0.0
    ensures r.Some? ==> a1 * r.value.0 + b1 * r.value.1 == c1 && a2 * r.value.0 + b2 * r.value.1 == c2
  {
    var det := a1 * b2 - b1 * a2;
    if det == 0.0 then None else Some(((c1 * b2 - b1 * c2) / det, (a1 * c2 - c1 * a2) / det))
  }

  /** A regular system has only the one solution. */
  lemma Solve2Unique(a1: real, b1: real, a2: real, b2: real, c1: real, c2: real, s: real, t: real)
    requires a1 * b2 - b1 * a2 != 0.0
    requires a1 * s + b1 * t == c1 && a2 * s + b2 * t == c2
    ensures Solve2(a1, b1, a2, b2, c1, c2) == Some((s, t))
  {
    var r := Solve2(a1, b1, a2, b2, c1, c2).value;
    Regular(a1, b1, a2, b2, s - r.0, t - r.1);
  }

  /** A regular homogeneous system has only the zero solution. */
  lemma Regular(a1: real, b1: real, a2: real, b2: real, x: real, y: real)
    requires a1 * b2 - b1 * a2 != 0.0
    requires a1 * x + b1 * y == 0.0 && a2 * x + b2 * y == 0.0
    ensures x == 0.0 && y == 0.0
  {
  }

  /** The parameters (s, t) of the closest points p1 + s·v1 and p2 + t·v2,
      from the normal equations of intersectionOfTwoLines. */
  function ClosestParameters(p1: Vec3, v1: Vec3, p2: Vec3, v2: Vec3): Option<(real, real)> {
    var d := Sub(p1, p2);
    Solve2(Dot(v1, v1), -Dot(v2, v1), Dot(v1, v2), -Dot(v2, v2), -Dot(v1, d), -Dot(v2, d))
  }

  /** The directions of two lines are parallel (or one of them is zero)
      when their cross product has zero squared length. */
  predicate Parallel(v1: Vec3, v2: Vec3) {
    Dot(Cross(v1, v2), Cross(v1, v2)) == 0.0
  }

  /** intersectionOfTwoLines for one pair of lines: the midpoint of the
      closest points, and a singular system for parallel directions. */
  function IntersectionOfTwoLines(p1: Vec3, v1: Vec3, p2: Vec3, v2: Vec3): (r: Result<Vec3>)
    ensures r.Err? <==> Parallel(v1, v2)
    ensures r.Err? ==> r.error == SingularMatrix
  {
    DeterminantIsCrossLength(v1, v2);
    var st := ClosestParameters(p1, v1, p2, v2);
    if st.None? then Err(SingularMatrix)
    else Ok(Midpoint(Along(p1, st.value.0, v1), Along(p2, st.value.1, v2)))
  }

  /** The determinant of the normal equations is −|v1 × v2|² (Lagrange's identity). */
  lemma DeterminantIsCrossLength(v1: Vec3, v2: Vec3)
    ensures Dot(v1, v1) * -Dot(v2, v2) - -Dot(v2, v1) * Dot(v1, v2) == -Dot(Cross(v1, v2), Cross(v1, v2))
  {
    Lagrange(v1, v2);
  }

  /** Lines with proportional directions cannot be intersected: the solve
      fails with a singular matrix. */
  lemma ProportionalDirections(p1: Vec3, v1: Vec3, p2: Vec3, k: real)
    ensures IntersectionOfTwoLines(p1, v1, p2, Scale(k, v1)) == Err(SingularMatrix)
  {
    assert Cross(v1, Scale(k, v1)) == Zero;
  }

  /** The segment between the two points whose midpoint is returned is
      perpendicular to both lines: they are the closest points of the lines. */
  lemma ClosestApproach(p1: Vec3, v1: Vec3, p2: Vec3, v2: Vec3)
    requires !Parallel(v1, v2)
    ensures var st := ClosestParameters(p1, v1, p2, v2);
      && st.Some?
      && var gap := Sub(Along(p1, st.value.0, v1), Along(p2, st.value.1, v2));
      && Dot(v1, gap) == 0.0 && Dot(v2, gap) == 0.0
      && IntersectionOfTwoLines(p1, v1, p2, v2) == Ok(Midpoint(Along(p1, st.value.0, v1), Along(p2, st.value.1, v2)))
  {
    DeterminantIsCrossLength(v1, v2);
    var st := ClosestParameters(p1, v1, p2, v2);
    var s, t := st.value.0, st.value.1;
    Gap(v1, p1, s, v1, p2, t, v2);
    Gap(v2, p1, s, v1, p2, t, v2);
    assert Dot(v2, v1) == Dot(v1, v2);
  }

  /** a·((p1 + s·v1) − (p2 + t·v2)) = a·(p1 − p2) + s·(a·v1) − t·(a·v2). */
  lemma Gap(a: Vec3, p1: Vec3, s: real, v1: Vec3, p2: Vec3, t: real, v2: Vec3)
    ensures Dot(a, Sub(Along(p1, s, v1), Along(p2, t, v2))) == Dot(a, Sub(p1, p2)) + s * Dot(a, v1) - t * Dot(a, v2)
  {
  }

  /** Two lines that meet in a point, and are not parallel, are intersected
      exactly in that point. */
  lemma MeetingLines(p1: Vec3, v1: Vec3, p2: Vec3, v2: Vec3, s: real, t: real)
    requires !Parallel(v1, v2)
    requires Along(p1, s, v1) == Along(p2, t, v2)
    ensures IntersectionOfTwoLines(p1, v1, p2, v2) == Ok(Along(p1, s, v1))
  {
    DeterminantIsCrossLength(v1, v2);
    var q := Along(p1, s, v1);
    assert Sub(q, q) == Zero;
    Gap(v1, p1, s, v1, p2, t, v2);
    Gap(v2, p1, s, v1, p2, t, v2);
    assert Dot(v2, v1) == Dot(v1, v2);
    var d := Sub(p1, p2);
    Solve2Unique(Dot(v1, v1), -Dot(v2, v1), Dot(v1, v2), -Dot(v2, v2), -Dot(v1, d), -Dot(v2, d), s, t);
    assert Midpoint(q, q) == q;
  }

  /** One row of the batch: a NaN direction gives a NaN point, a singular
      system an error. */
  function IntersectRow(p1: Vec3, d1: Option<Vec3>, p2: Vec3, d2: Option<Vec3>): (r: Result<Option<Vec3>>)
    ensures r == Ok(None) <==> d1.None? || d2.None?
    ensures r.Err? <==> d1.Some? && d2.Some? && Parallel(d1.value, d2.value)
    ensures r.Err? ==> r.error == SingularMatrix
    ensures r.Ok? && r.value.Some? ==> IntersectionOfTwoLines(p1, d1.value, p2, d2.value) == Ok(r.value.value)
  {
    if d1.None? || d2.None? then Ok(None)
    else
      var r := IntersectionOfTwoLines(p1, d1.value, p2, d2.value);
      if r.Err? then Err(r.error) else Ok(Some(r.value))
  }

  /** intersectionOfTwoLines for a batch of directions: the stacked solve
      fails as a whole when any one system is singular; otherwise each row
      is the single-line result. */
  function Intersections(p1: Vec3, ds1: seq<Option<Vec3>>, p2: Vec3, ds2: seq<Option<Vec3>>): (r: Result<seq<Option<Vec3>>>)
    requires |ds1| == |ds2|
    ensures r.Err? <==> exists i :: 0 <= i < |ds1| && IntersectRow(p1, ds1[i], p2, ds2[i]).Err?
    ensures r.Err? ==> r.error == SingularMatrix
    ensures r.Ok? ==> |r.value| == |ds1|
    ensures r.Ok? ==> forall i :: 0 <= i < |ds1| ==> r.value[i] == IntersectRow(p1, ds1[i], p2, ds2[i]).value
    decreases |ds1|
  {
    if |ds1| == 0 then Ok([])
    else
      var head := IntersectRow(p1, ds1[0], p2, ds2[0]);
      var rest := Intersections(p1, ds1[1..], p2, ds2[1..]);
      assert forall i :: 1 <= i < |ds1| ==> ds1[i] == ds1[1..][i - 1] && ds2[i] == ds2[1..][i - 1];
      if head.Err? then Err(head.error)
      else if rest.Err? then
        assert exists i :: 0 <= i < |ds1| && IntersectRow(p1, ds1[i], p2, ds2[i]).Err? by {
          var k :| 0 <= k < |ds1| - 1 && IntersectRow(p1, ds1[1..][k], p2, ds2[1..][k]).Err?;
          assert IntersectRow(p1, ds1[k + 1], p2, ds2[k + 1]).Err?;
        }
        rest
      else Ok([head.value] + rest.value)
  }

  /** A rig of cameras. */
  class CameraGroup {
    const projections: Rig<CameraProjection>
    const orientations: Rig<Orientation>
    var parameters: map<string, real>
    var cameras: seq<Camera>

    /** Builds the parameter set and one camera per entry of the zip. */
    constructor (projections: Rig<CameraProjection>, orientations: Rig<Orientation>)
      requires forall p :: p in Objects(projections) ==> p.Valid()
      ensures this.projections == projections && this.orientations == orientations
      ensures parameters == GroupParameters(old(ProjectionTables(projections)), OrientationTables(orientations))
      ensures |cameras| == RigSize(projections, orientations)
      ensures forall i :: 0 <= i < |cameras| ==>
        && Fits(projections, i) && Fits(orientations, i)
        && cameras[i].projection == Member(projections, i)
        && cameras[i].orientation == Member(orientations, i)
      ensures forall i :: 0 <= i < |cameras| ==> cameras[i].Valid()
    {
      var pt := ProjectionTables(projections);
      var built := BuildCameras(projections, orientations);
      var params := CollectParameters(pt, OrientationTables(orientations));
      this.projections := projections;
      this.orientations := orientations;
      parameters := params;
      cameras := built;
    }

    /** imagesFromSpace: the points projected into every camera's image. */
    method ImagesFromSpace(points: seq<Vec3>, num: Numerics) returns (r: Result<seq<seq<ImPoint>>>)
      requires forall i :: 0 <= i < |cameras| ==> cameras[i].projection.Valid()
      requires forall i :: 0 <= i < |cameras| && cameras[i].projection.kind != Rectilinear ==> SqrtLaws(num)
      ensures r.Err? <==> 0 < |cameras| && |points| == 0
      ensures r.Err? ==> r.error == EmptyPoints
      ensures r.Ok? ==> |r.value| == |cameras|
      ensures r.Ok? ==> forall i :: 0 <= i < |cameras| ==> |r.value[i]| == |points|
      ensures r.Ok? ==> forall i, k :: 0 <= i < |cameras| && 0 <= k < |points| ==>
        r.value[i][k] == Image(cameras[i].projection.kind, cameras[i].projection.Pixel(), num,
                               cameras[i].orientation.cameraFromSpace(points[k]))
    {
      if 0 < |cameras| && |points| == 0 {
        return Err(EmptyPoints);
      }
      var images := [];
      var i := 0;
      while i < |cameras|
        invariant 0 <= i <= |cameras|
        invariant |images| == i
        invariant forall j :: 0 <= j < i ==> |images[j]| == |points|
        invariant forall j, k :: 0 <= j < i && 0 <= k < |points| ==>
          images[j][k] == Image(cameras[j].projection.kind, cameras[j].projection.Pixel(), num,
                                cameras[j].orientation.cameraFromSpace(points[k]))
      {
        var image := cameras[i].ImageFromSpace(points, num);
        images := images + [image.value];
        i := i + 1;
      }
      r := Ok(images);
    }

    /** spaceFromImages: the rays of the first two cameras through the
        given pixels, intersected pairwise. Camera 0 is indexed and asked
        for its rays before camera 1 is indexed, so with an empty point list
        a one-camera rig fails on the points, not on the missing camera. */
    method SpaceFromImages(points1: seq<Px>, points2: seq<Px>, num: Numerics) returns (r: Result<seq<Option<Vec3>>>)
      requires |points1| == |points2|
      ensures |cameras| == 0 ==> r == Err(MissingCamera)
      ensures 1 <= |cameras| && |points1| == 0 ==> r == Err(EmptyPoints)
      ensures |cameras| == 1 && |points1| != 0 ==> r == Err(MissingCamera)
      ensures 2 <= |cameras| && |points1| != 0 ==> r == Intersections(
        cameras[0].orientation.spaceFromCamera(Zero), Directions(cameras[0], num, points1),
        cameras[1].orientation.spaceFromCamera(Zero), Directions(cameras[1], num, points2))
      ensures r.Err? ==> r.error in {MissingCamera, EmptyPoints, SingularMatrix}
    {
      if |cameras| == 0 {
        return Err(MissingCamera);
      }
      if |points1| == 0 {
        return Err(EmptyPoints);
      }
      if |cameras| < 2 {
        return Err(MissingCamera);
      }
      var c0, c1 := cameras[0], cameras[1];
      r := Intersections(c0.orientation.spaceFromCamera(Zero), Directions(c0, num, points1),
                         c1.orientation.spaceFromCamera(Zero), Directions(c1, num, points2));
    }
  }

  /** The unnormed ray directions of a camera through the given pixels. */
  function Directions(c: Camera, num: Numerics, points: seq<Px>): (ds: seq<Option<Vec3>>)
    reads c.projection
    ensures |ds| == |points|
    ensures forall i :: 0 <= i < |points| ==> ds[i] == c.GetRay(num, points[i], false).direction
  {
    seq(|points|, i requires 0 <= i < |points| reads c.projection => c.GetRay(num, points[i], false).direction)
  }

  /** The parameter set the constructor collects: each side's own
      parameters when shared, the prefixed ones when given per camera. */
  method CollectParameters(pt: Rig<map<string, real>>, ot: Rig<map<string, real>>) returns (params: map<string, real>)
    ensures params == GroupParameters(pt, ot)
  {
    if pt.Shared? {
      params := pt.item;
    } else {
      params := CollectPrefixed(map[], pt.items);
      assert map[] + Flatten(pt.items) == Flatten(pt.items);
    }
    if ot.Shared? {
      params := params + ot.item;
    } else {
      params := CollectPrefixed(params, ot.items);
    }
  }

  /** `[Camera(projection, orientation) for projection, orientation in zip(...)]` */
  method BuildCameras(projections: Rig<CameraProjection>, orientations: Rig<Orientation>) returns (cameras: seq<Camera>)
    requires forall p :: p in Objects(projections) ==> p.Valid()
    ensures |cameras| == RigSize(projections, orientations)
    ensures forall i :: 0 <= i < |cameras| ==>
      && Fits(projections, i) && Fits(orientations, i)
      && cameras[i].projection == Member(projections, i)
      && cameras[i].orientation == Member(orientations, i)
      && cameras[i].Valid()
  {
    var n := RigSize(projections, orientations);
    cameras := [];
    var i := 0;
    while i < n
      invariant 0 <= i <= n
      invariant |cameras| == i
      invariant forall k :: 0 <= k < i ==>
        && Fits(projections, k) && Fits(orientations, k)
        && cameras[k].projection == Member(projections, k)
        && cameras[k].orientation == Member(orientations, k)
        && cameras[k].Valid()
    {
      var p := Member(projections, i);
      assert p in Objects(projections);
      var c := new Camera(p, Member(orientations, i));
      cameras := cameras + [c];
      i := i + 1;
    }
  }

  /** The loop over `enumerate(...)` that enters every camera's parameters
      under its prefixed keys. */
  method CollectPrefixed(params: map<string, real>, tables: seq<map<string, real>>) returns (q: map<string, real>)
    ensures q == params + Flatten(tables)
  {
    q := params;
    var index := 0;
    while index < |tables|
      invariant 0 <= index <= |tables|
      invariant q == params + Flatten(tables[..index])
    {
      FlattenStep(tables, index);
      MapUnionAssociative(params, Flatten(tables[..index]), Prefix(index, tables[index]));
      q := q + Prefix(index, tables[index]);
      index := index + 1;
    }
    assert tables[..index] == tables;
  }

  lemma FlattenStep(tables: seq<map<string, real>>, index: nat)
    requires index < |tables|
    ensures Flatten(tables[..index + 1]) == Flatten(tables[..index]) + Prefix(index, tables[index])
  {
    assert tables[..index + 1][..index] == tables[..index];
  }

  lemma MapUnionAssociative(a: map<string, real>, b: map<string, real>, c: map<string, real>)
    ensures a + (b + c) == (a + b) + c
  {
  }
}
