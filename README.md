# CameraTransform camera geometry in Dafny

CameraTransform maps between image pixels and points in space. A camera combines two things:

- a *projection*, which is one of rectilinear (pinhole), cylindrical or equirectangular and holds the intrinsic parameters (focal length, sensor size and image size);
- an *orientation*, which gives the camera's position and rotation in space.

This project models the geometric core of the library:

- the pixel intrinsics derived from the raw parameters;
- the projection of camera-frame points onto the image, including NumPy's NaN masking;
- the ray through a pixel;
- `Camera.spaceFromImage`, which stops rays on an axis-aligned plane or at a given distance;
- the image-border walks of `getImageBorder` and `getCameraCone`;
- the lookup-table cache of `getMap`;
- `CameraGroup`, which covers the rig's parameter naming and size, `imagesFromSpace`, and the closest-point intersection of two lines used by `spaceFromImages`.

Modelling conventions:

- NumPy's NaN is `Option.None`. A division by zero, which gives NaN or an infinity, is also `None`.
- The transcendental functions (`sin`, `cos`, `tan`, `arctan`, `arctan2`, `sqrt`) are uninterpreted functions passed in as a `Numerics` record.
  - Only two square-root laws are assumed, through `SqrtLaws`: `sqrt(0) = 0`, and `sqrt(s) > 0` with `sqrt(s)² = s` for every `s > 0`.
  - No law of the trigonometric functions is used.
- The orientation is given by its parameter table and its three maps: camera to space for points, camera to space for directions, and space to camera.
  - Lemmas that need a rigid motion require `RigidLaws`.
- Objects whose fields the library updates are classes:
  - `CameraProjection`, whose derived fields are recomputed by the parameter callback;
  - `Camera`, whose cached map, extent and scaling are updated by `getMap`;
  - `CameraGroup`.
- Loops that build lists by appending, or that write NaN into arrays in place, are methods with loop invariants. Each is proved equal to a specification function, and the properties are proved about that function.

Modules:

- `Geometry`: vectors, `Option` and `Result`, and the errors the library raises.
- `Projections`: the code of `projection.py`.
- `Cameras`: the `Camera` class of `camera.py`.
- `CameraGroups`: the `CameraGroup` class of `camera.py`.

## Model

| member | source | states |
|---|---|---|
| Geometry.Quotient | CameraTransform/camera.py:210 | NumPy division is finite exactly when the divisor is non-zero, and then quotient · divisor = numerator |
| Projections.ParameterNames | CameraTransform/projection.py:20-27 | the parameter set registers five distinct names, one per intrinsic parameter |
| Projections.With | CameraTransform/projection.py:30-32 | assigning one intrinsic parameter changes that parameter and no other |
| Projections.ResolveIntrinsics | CameraTransform/projection.py:11-27 | the `sensor` pair overrides both sensor sizes; an image array's shape gives (height, width), and a pair gives (width, height); every argument left out takes its default (14 mm, 4608 × 3456 px, 17.3 × 13.0 mm) |
| Projections.Derive | CameraTransform/projection.py:42-47 | mm_per_px · image_width = sensor_width; focallength_px · sensor_width = focallength_mm · image_width; the principal point is half the image width and half the image height |
| Projections.SensorHeightUnused | CameraTransform/projection.py:42-47 | changing the sensor height leaves every derived intrinsic unchanged |
| Projections.CameraProjection.constructor | CameraTransform/projection.py:11-32 | the parameters are the resolved constructor arguments, and the derived fields match them |
| Projections.CameraProjection.InitIntrinsicMatrix | CameraTransform/projection.py:42-47 | recomputes the derived fields from the unchanged parameters, so that they agree with `Derive` |
| Projections.CameraProjection.SetParameter | CameraTransform/projection.py:30-32 | after a parameter assignment the callback leaves the derived fields consistent with the new parameters |
| Projections.CameraProjection.ImageFromCamera | CameraTransform/projection.py:77-90 | an empty point list is the IndexError of indexing a shape-(0,) array; otherwise the in-place passes (zero the near-plane rows, evaluate the formulas, mask the points behind the camera, and for the cylindrical projection mask jointly) give `Image` of every point, one row per point |
| Projections.ZeroNearPlaneRows | CameraTransform/projection.py:85 | every row whose depth is within 1e-10 of zero becomes all zeros; the other rows are unchanged |
| Projections.Evaluate | CameraTransform/projection.py:87-88 | every result row is the projection formula applied to the zeroed point |
| Projections.MaskBehind | CameraTransform/projection.py:89 | the rows of points with positive depth become NaN; the other rows are unchanged |
| Projections.MaskJoint | CameraTransform/projection.py:139 | a row whose y is NaN becomes NaN on both axes; the other rows are unchanged |
| Projections.Image | CameraTransform/projection.py:77-190 | for every projection (the `imageFromCamera` methods at lines 77-90, 122-141 and 173-190), each pixel coordinate is finite exactly when the point lies in front of the camera (depth ≤ −1e-10), so x and y are jointly finite or jointly NaN |
| Projections.FiniteInFront | CameraTransform/projection.py:134-135 | in front of the camera every divisor of the formulas is non-zero, including the norm of (x, z) |
| Projections.PassesAgree | CameraTransform/projection.py:77-190 | for every projection (the `imageFromCamera` methods at lines 77-90, 122-141 and 173-190), the NumPy passes agree with the closed form: a near-plane point is zeroed and gives NaN (0/0 or arctan of 0/0), and a point behind the camera gives NaN |
| Projections.RectilinearInFront | CameraTransform/projection.py:85-89 | in front of the camera the rectilinear image is x = f·x/z + ox, y = f·y/z + oy |
| Projections.Formula | CameraTransform/projection.py:87-186 | the formulas of the three `imageFromCamera` methods (lines 87-88, 133-135 and 184-186). Rectilinear: both coordinates are finite exactly when the depth is non-zero, and then (x − ox)·z = f·x and (y − oy)·z = f·y. Cylindrical: x is always finite; y is finite exactly when the norm of (x, z) is non-zero, and then (y − oy)·norm = −f·y. Equirectangular: x is finite exactly when the depth is non-zero, and y exactly when the norm of (x, z) is non-zero |
| Projections.RawRay | CameraTransform/projection.py:64-75 | the rectilinear ray's third component is always −focallength_px; the cylindrical and equirectangular rays are NaN exactly when the focal length is zero |
| Projections.Normalized | CameraTransform/projection.py:72-73 | the result is finite exactly for a non-zero vector; then it has unit length, and times the vector's positive norm it gives back the vector |
| Projections.NormZero | CameraTransform/projection.py:72-73 | the norm is zero exactly for the zero vector |
| Projections.Ray | CameraTransform/projection.py:64-75 | an un-normed request returns the raw ray; a normed one is finite exactly when the raw ray is finite and non-zero, and is then the raw ray divided by its positive norm, of unit length |
| Projections.RectilinearRoundTrip | CameraTransform/projection.py:68-88 | for t · focallength_px ≥ 1e-10, the point t·getRay(p) projects back onto p |
| Projections.BackProjected | CameraTransform/projection.py:87-88 | one coordinate of the round trip: the depth is in front of the camera, and the pinhole formula returns the pixel |
| Projections.RectilinearRayThroughPoint | CameraTransform/projection.py:68-88 | the ray through the image of a point in front of the camera is a multiple of that point |
| Projections.DefaultCentre | CameraTransform/projection.py:87-88 | with the default intrinsics, (0, 0, −1000) projects to the image centre (2304, 1728) |
| Cameras.ParameterMap | CameraTransform/camera.py:111 | the projection's parameter table holds exactly the five intrinsic names, each with its value |
| Cameras.CameraRay | CameraTransform/camera.py:177-186 | the ray starts at the camera position; its direction is NaN exactly when the projection's ray is NaN or, when normed, zero; an un-normed rectilinear direction is the pixel ray (−(x − ox), −(y − oy), −f) turned into space |
| Cameras.Camera.GetRay | CameraTransform/camera.py:177-186 | the same for the camera's own projection and orientation |
| Cameras.RayInSpace | CameraTransform/camera.py:177-186 | under a rigid orientation the space ray starts at the camera position, and its point at parameter t is spaceFromCamera(t · camera ray) |
| Cameras.ResolveTarget | CameraTransform/camera.py:192-210 | a given D selects distance mode with D itself as the factor; otherwise the fixed axis is X if given, else Y, else Z; none given fails, and the failure is the unbound-index error |
| Cameras.DistanceFromCamera | CameraTransform/camera.py:200-205 | with D ≥ 0, a finite normed ray and an orientation that keeps lengths, the point found in distance mode lies at distance D from the camera position |
| Cameras.Locate | CameraTransform/camera.py:207-219 | with a finite direction and factor the row is origin + factor·direction, or NaN when the factor is negative; a NaN direction or factor (a ray parallel to the plane) gives NaN; in plane mode a finite row's fixed coordinate equals the given value; distance mode gives origin + D·direction, or NaN for negative D; factor 0 gives the camera position |
| Cameras.SpaceImageRoundTrip | CameraTransform/camera.py:188-220 | under a rigid orientation, a rectilinear point found on a plane in front of the camera projects back to the pixel it came from |
| Cameras.SpaceImageSpaceRoundTrip | CameraTransform/camera.py:171-220 | under a rigid orientation, a point in front of a rectilinear camera, projected to its pixel and cast back onto the plane through it along any axis the ray is not parallel to, is found again |
| Cameras.Arange | CameraTransform/camera.py:137 | np.arange yields ⌈(stop − start)/step⌉ values (none if that is negative), the k-th being start + k·step |
| Cameras.ImageBorder | CameraTransform/camera.py:136-144 | the walk has 2·len(arange(0, h, r)) + 2·len(arange(0, w, r)) samples: (0, k·r) down the left edge, (k·r, h) along the bottom edge, (w, h − k·r) up the right edge and (w − k·r, 0) back along the top edge (image y grows downward) |
| Cameras.EmptyWalk | CameraTransform/camera.py:136-145 | the walk is empty, and getImageBorder then fails, exactly when neither h/r nor w/r is positive, e.g. a negative resolution on a 4608 × 3456 image |
| Cameras.BorderOnEdges | CameraTransform/camera.py:134-145 | every sample of the border walk lies on an edge of the image rectangle |
| Cameras.BorderWalk | CameraTransform/camera.py:136-144 | the walk has 2·⌈h/r⌉ + 2·⌈w/r⌉ samples, starts at (0, 0) and turns at (0, h), (w, h) and (w, 0) |
| Cameras.BoundingBox | CameraTransform/camera.py:224-227 | nanmin and nanmax over the border: no extent exactly when every row is NaN; otherwise every finite row lies inside the extent |
| Cameras.BoundsAttained | CameraTransform/camera.py:226-227 | each bound of the extent is a coordinate of some finite row |
| Cameras.Requested | CameraTransform/camera.py:224-227 | the given extent is used; without one, a border that could not be computed passes its error on, a border without a finite point is the empty-extent error (np.nanmin and np.nanmax then give NaN bounds, and np.arange raises ValueError on them at line 241, with or without a given scaling), and otherwise the extent is the border's bounding box |
| Cameras.UsedScaling | CameraTransform/camera.py:235-237 | the given scaling is used; without one the default for the extent |
| Cameras.MapStep | CameraTransform/camera.py:222-258 | the cache stays consistent and an error leaves it unchanged; without an extent, the border's error or the empty-extent error is returned; when a map is stored for the same extent and scaling it is returned and nothing changes; otherwise a zero or NaN step is an error, and any other step builds the map, which is returned and stored with the extent and the scaling used |
| Cameras.ChangedKeyRebuilds | CameraTransform/camera.py:229-258 | a call whose extent or scaling differs from the stored ones never returns the stored map: it succeeds exactly for a valid step, and then stores and returns the map built for the new extent and scaling |
| Cameras.NoScalingMisses | CameraTransform/camera.py:230-238 | once a map exists, a call with no scaling never uses the cache |
| Cameras.RepeatedCallHits | CameraTransform/camera.py:229-255 | a second call with the same extent and explicit scaling returns the stored map and changes nothing |
| Cameras.Camera.constructor | CameraTransform/camera.py:106-113 | the camera keeps its projection and orientation, and starts with no cached map |
| Cameras.Camera.Parameters | CameraTransform/camera.py:110-113 | the keys are those of the projection and the orientation; the orientation's values win, and the projection keeps its values for the other names |
| Cameras.Camera.SpaceFromImage | CameraTransform/camera.py:188-220 | an empty point list fails with the IndexError getRay raises, and otherwise a missing target fails with the unbound-index error; in every other case the two array passes (factors and rows, then the NaN mask) give `Locate` of every pixel's ray |
| Cameras.FactorPass | CameraTransform/camera.py:210-217 | the first array pass gives every ray's factor and its point origin + factor·direction, NaN where the direction or the factor is NaN |
| Cameras.MaskPass | CameraTransform/camera.py:219 | setting the rows with a negative factor to NaN leaves `Locate` of every ray |
| Cameras.Camera.ImageFromSpace | CameraTransform/camera.py:171-175 | an empty point list is the IndexError; otherwise each row is the projection's image of the point taken into the camera frame |
| Cameras.Camera.GetImageBorder | CameraTransform/camera.py:134-145 | the four append loops followed by spaceFromImage with Z = 0 give the border walk on the ground plane, or the IndexError when the walk is empty |
| Cameras.Camera.GetCameraCone | CameraTransform/camera.py:147-169 | an empty walk fails with the IndexError; otherwise the rows are the ground border (2w + 2h rows), then for each of the five corner indices a NaN row, the camera position and the row at that index; the fifth index equals the border length and picks the first appended NaN row |
| Cameras.Camera.GetMap | CameraTransform/camera.py:222-258 | the camera's cache fields and the result follow `MapStep`, and the cache stays consistent |
| Cameras.AppendCorners | CameraTransform/camera.py:165-168 | the corner loop appends [NaN, origin, border[corner]] for every corner index |
| Cameras.ConeCorners | CameraTransform/camera.py:150-162 | five corner indices are recorded: 0, then the length after each of the four loops |
| Cameras.BorderPixels | CameraTransform/camera.py:136-144 | the four append loops produce exactly the border walk |
| Cameras.AppendColumn | CameraTransform/camera.py:137-138 | appending (x, y) for every y extends the list by exactly those points, in order |
| Cameras.AppendRow | CameraTransform/camera.py:139-140 | appending (x, y) for every x extends the list by exactly those points, in order |
| Cameras.ConePixels | CameraTransform/camera.py:149-162 | the cone's loops produce its border and record the corner indices |
| Cameras.ConeBorderIsImageBorder | CameraTransform/camera.py:151-161 | for whole image sizes the cone's border is the border walk at resolution 1 |
| CameraGroups.RigSize | CameraTransform/camera.py:18-41 | two shared objects give one camera; otherwise camera i exists exactly when both sides can supply it (cycle for a shared side, zip truncation for two lists) |
| CameraGroups.Decimal | CameraTransform/camera.py:27 | `%d` prints a non-empty string of digits whose decimal value is n, without a leading zero, a single digit exactly for n < 10 |
| CameraGroups.DecimalInjective | CameraTransform/camera.py:27 | different indices print differently |
| CameraGroups.PrefixedInjective | CameraTransform/camera.py:27 | the key "C<index>_<name>" determines both the index and the name |
| CameraGroups.Prefix | CameraTransform/camera.py:25-27 | every parameter of a camera appears under its prefixed key with its own value, and there are no other keys |
| CameraGroups.FlattenValues | CameraTransform/camera.py:25-27 | after the enumerate loop, every camera's parameter is present under its own key with its own value; no camera overwrites another |
| CameraGroups.FlattenKeys | CameraTransform/camera.py:36-38 | the per-camera loop enters only prefixed keys |
| CameraGroups.PerCameraParametersKept | CameraTransform/camera.py:25-38 | with lists on both sides, every camera's projection parameter survives the orientations' update |
| CameraGroups.SharedProjectionKept | CameraTransform/camera.py:18-38 | a shared projection's parameters survive the per-camera orientations' update |
| CameraGroups.ParameterNamesPlain | CameraTransform/projection.py:22-26 | no intrinsic parameter name starts with "C", so none collides with a prefixed key |
| CameraGroups.Solve2 | CameraTransform/camera.py:79 | the 2×2 solve succeeds exactly when the determinant is non-zero, and its result satisfies both equations |
| CameraGroups.Solve2Unique | CameraTransform/camera.py:79 | a regular system's only solution is the one returned |
| CameraGroups.IntersectionOfTwoLines | CameraTransform/camera.py:73-81 | fails with a singular matrix exactly when the directions are parallel (zero cross product length) |
| CameraGroups.DeterminantIsCrossLength | CameraTransform/camera.py:73-79 | the determinant of the normal equations is −‖v1 × v2‖² |
| CameraGroups.ProportionalDirections | CameraTransform/camera.py:79 | lines with proportional directions always give the singular-matrix error |
| CameraGroups.ClosestApproach | CameraTransform/camera.py:73-81 | the solved (s, t) make the gap between p1 + s·v1 and p2 + t·v2 perpendicular to both directions, and the result is their midpoint |
| CameraGroups.MeetingLines | CameraTransform/camera.py:73-81 | two non-parallel lines through a common point intersect exactly in that point |
| CameraGroups.IntersectRow | CameraTransform/camera.py:62-71 | a row is NaN exactly when one of its directions is NaN; it fails with a singular matrix exactly when both directions are finite and parallel; otherwise it is the single-pair intersection |
| CameraGroups.Intersections | CameraTransform/camera.py:62-71 | the batch fails exactly when some row's system is singular, and the failure is the singular-matrix error; otherwise row i is the single-pair result for row i |
| CameraGroups.CameraGroup.constructor | CameraTransform/camera.py:13-41 | the parameter set is the projections' table updated by the orientations'; the number of cameras (`__len__`) is `RigSize`; camera i pairs the i-th projection with the i-th orientation |
| CameraGroups.CameraGroup.ImagesFromSpace | CameraTransform/camera.py:88-89 | one image per camera, in rig order, each that camera's `imageFromSpace`; an empty point list fails with the IndexError exactly when the rig has a camera |
| CameraGroups.CameraGroup.SpaceFromImages | CameraTransform/camera.py:83-86 | the errors come in the order the source meets them: no camera, then an empty point list for camera 0, then a missing camera 1; otherwise the rays of cameras 0 and 1 intersected row by row, failing only with the singular-matrix error |
| CameraGroups.Directions | CameraTransform/camera.py:84-85 | one un-normed space direction per pixel, from the camera's getRay |
| CameraGroups.CollectParameters | CameraTransform/camera.py:17-39 | the dict-building loops produce `GroupParameters` |
| CameraGroups.BuildCameras | CameraTransform/camera.py:41 | the zip builds `RigSize` cameras, camera i from the i-th members of both sides |
| CameraGroups.CollectPrefixed | CameraTransform/camera.py:25-27 | the enumerate loop adds exactly the flattened prefixed tables to the dict |

## Left out

- `Camera.fit` and `CameraGroup.fit` are not modelled. They wrap `scipy.optimize.minimize`, whose behaviour is not visible here.
- `save`, `load` and `load_camera` are not modelled. They are JSON file I/O.
- `__str__` is not modelled. It only formats text.
- `getTopViewOfImage` is not modelled. It calls `cv2.remap` and matplotlib plotting.
- The field-of-view functions are not modelled, nor the constructor path that takes `view_x_deg`/`view_y_deg`. They are transcendental floating-point numerics.
- The trigonometric and square-root values are uninterpreted. Only their NaN structure is modelled.
- Cameras.MapStep: the grid contents of the lookup table are not modelled. The meshgrid, reshape, `float32` cast and row reversal are a `build` function parameter.
- Cameras.MapStep: the default scaling, √(extent area) / √(image area), is a `defaultScaling` function parameter. It returns `None` where that value is NaN.
- Cameras.MapStep: an infinite step, which NumPy's division by a zero image area can produce, is not modelled. Every step is a finite real or NaN.
- The orientation transform (spatial.py) is not part of this model. It is given by its maps, constrained by `RigidLaws` where a lemma needs it.
- The parameter registry (parameter_set.py) is not part of this model. Parameters are plain maps from names to values, so parameter objects shared between the camera and rig parameter sets are not modelled.
- NaN coordinates in the inputs are not modelled. Every input value is finite.
- Rounding is not modelled. Arithmetic is exact over the reals, so the 1e-10 depth test and the singular-matrix test are exact comparisons rather than floating-point ones.
- CameraGroups.IntersectionOfTwoLines: parallelism is defined as ‖v1 × v2‖² = 0. The model does not prove that this is equivalent to v1 × v2 = 0.
- CameraGroups.IntersectRow: a NaN direction row gives a NaN point and no error, as `numpy.linalg.solve` does on NaN entries.
- A missing `orientation_list`, which makes the iteration fail with a TypeError, is not modelled. The rig always has an orientation argument.
- `CameraGroup.__getitem__`, `__len__` and `__iter__` are the `cameras` sequence itself.
- CameraGroups.CameraGroup.SpaceFromImages: requires equal point counts. The model does not cover NumPy broadcasting of mismatched point arrays.
- Cameras.Camera.SpaceFromImage: the `Z=0` default is passed explicitly by the caller, because Dafny has no default arguments.
- Cameras.Camera.GetCameraCone: requires whole image sizes. `range()` accepts only integers, and the width and height are reals here.
- Cameras.Camera.GetMap: list equality of the extents is modelled as equality of `Extent` values.
- Projections.CameraProjection.SetParameter: requires that the new parameters leave the sensor and image widths non-zero. In the library a zero width is assigned first. The callback then raises ZeroDivisionError in its first statement, the division that computes `mm_per_px` (projection.py:44), before any derived field changes. So every derived field, `mm_per_px` included, keeps its value from the old parameters. That partial update is not modelled.
- Cameras.Arange: requires a non-zero step. `np.arange` raises on a zero step, and that error is not modelled here.
- Cameras.Camera.GetImageBorder: requires a non-zero resolution, for the same reason as `Arange`.
- Cameras.Camera.ImageFromSpace: an empty point list is reported as the IndexError of `imageFromCamera`. The orientation transform is not part of this model, so whether it fails first, with another error, is not captured.
- Cameras.Camera.SpaceFromImage: D is one scalar distance for all pixels. The library also accepts a per-point array of distances, which is not modelled.
- The constructors of `CameraProjection`, `Camera` and `CameraGroup` require non-zero sensor and image widths, which the derivation divides by. A zero there raises ZeroDivisionError, and that error path is not modelled.
