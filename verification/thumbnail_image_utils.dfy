/**
 * Frame reconciliation for thumbnails (thumbnails/thumbnail_image_utils.py).
 * Here annotations, tomograms, coordinate systems and transformations are
 * dicts: a key that is read with `d[key]` and is absent raises KeyError, and
 * a key read with `d.get(key, [])` defaults to the empty list. After the
 * points are resolved into the tomogram's frame they are filtered to a depth
 * window around the tomogram's centre plane and projected into thumbnail
 * pixel space.
 */
module ThumbnailImageUtils {
  import opened Wrappers
  import opened Coordinates

  /** An annotation dict; the sequence fields are read with a `[]` default. */
  datatype Annotation = Annotation(
    annotationType: Option<string>,
    origin3D: seq<Point3>,
    coordinateSystems: seq<CoordinateSystem>,
    coordinateTransformations: seq<Transformation>)

  // ---------------------------------------------------------------------------
  // Frame names

  /** `{cs["name"] for cs in css}`: KeyError as soon as one coordinate system has no name. */
  function CsNames(css: seq<CoordinateSystem>): (r: Result<set<string>>)
    ensures r.Err? <==> exists k :: 0 <= k < |css| && css[k].name.None?
    ensures r.Err? ==> r.error == KeyError("name")
    ensures r.Ok? ==> forall n :: n in r.value <==> exists k :: 0 <= k < |css| && css[k].name == Some(n)
  {
    if exists k :: 0 <= k < |css| && css[k].name.None? then Err(KeyError("name"))
    else Ok(set k | 0 <= k < |css| :: css[k].name.value)
  }

  /** `check_coordinate_systems_without_transformation`: passes only when exactly one name is shared. */
  function CheckWithoutTransformation(annoCs: seq<CoordinateSystem>, tomoCs: seq<CoordinateSystem>): (r: Result<()>)
    ensures CsNames(annoCs).Ok? && CsNames(tomoCs).Ok? ==>
      (r.Ok? <==> |CsNames(annoCs).value * CsNames(tomoCs).value| == 1)
      && (r == Err(ValueError(NoCommonFrame)) <==> CsNames(annoCs).value * CsNames(tomoCs).value == {})
      && (r == Err(ValueError(MultipleCommonFrames)) <==> |CsNames(annoCs).value * CsNames(tomoCs).value| > 1)
    ensures CsNames(annoCs).Err? || CsNames(tomoCs).Err? ==> r == Err(KeyError("name"))
  {
    var anno :- CsNames(annoCs);
    var tomo :- CsNames(tomoCs);
    var common := anno * tomo;
    if common != {} then
      if |common| == 1 then Ok(()) else Err(ValueError(MultipleCommonFrames))
    else Err(ValueError(NoCommonFrame))
  }

  /** One endpoint in each name set, either way round (the endpoints are read, never checked for truthiness). */
  predicate Bridges(t: Transformation, anno: set<string>, tomo: set<string>)
    requires t.input.Some? && t.output.Some?
  {
    (t.input.value in tomo && t.output.value in anno) || (t.input.value in anno && t.output.value in tomo)
  }

  /** Read as the scan does: both endpoints present and not bridging. */
  predicate Passed(t: Transformation, anno: set<string>, tomo: set<string>) {
    t.input.Some? && t.output.Some? && !Bridges(t, anno, tomo)
  }

  /**
   * The first-match scan of `check_coordinate_system_with_transformation`
   * over the transformations, given the two name sets: the first one that
   * bridges; KeyError at the first one lacking an endpoint; ValueError when
   * the scan runs out.
   */
  function FirstBridge(ts: seq<Transformation>, anno: set<string>, tomo: set<string>): (r: Result<Transformation>)
    ensures r.Ok? ==> (exists j :: ScanReaches(ts, j, anno, tomo)
                        && ts[j].input.Some? && ts[j].output.Some? && Bridges(ts[j], anno, tomo) && r.value == ts[j])
    ensures r == Err(ValueError(NoBridgingTransformation)) <==> forall k :: 0 <= k < |ts| ==> Passed(ts[k], anno, tomo)
    ensures r.Err? && r != Err(ValueError(NoBridgingTransformation)) ==>
      exists j :: ScanReaches(ts, j, anno, tomo) && MissingEndpoint(ts[j]).Some? && r.error == MissingEndpoint(ts[j]).value
    decreases |ts|
  {
    if |ts| == 0 then Err(ValueError(NoBridgingTransformation))
    else if ts[0].input.None? then Err(KeyError("input"))
    else if ts[0].output.None? then Err(KeyError("output"))
    else if Bridges(ts[0], anno, tomo) then Ok(ts[0])
    else
      var r := FirstBridge(ts[1..], anno, tomo);
      assert forall k :: 1 <= k < |ts| ==> ts[k] == ts[1..][k - 1];
      if r.Ok? then
        var j :| ScanReaches(ts[1..], j, anno, tomo)
          && ts[1..][j].input.Some? && ts[1..][j].output.Some? && Bridges(ts[1..][j], anno, tomo) && r.value == ts[1..][j];
        assert ts[j + 1] == ts[1..][j] && ScanReaches(ts, j + 1, anno, tomo);
        r
      else if r != Err(ValueError(NoBridgingTransformation)) then
        var j :| ScanReaches(ts[1..], j, anno, tomo) && MissingEndpoint(ts[1..][j]).Some? && r.error == MissingEndpoint(ts[1..][j]).value;
        assert ts[j + 1] == ts[1..][j] && ScanReaches(ts, j + 1, anno, tomo);
        r
      else r
  }

  /** The scan reaches position j: every transformation before it had both endpoints and did not bridge. */
  predicate ScanReaches(ts: seq<Transformation>, j: int, anno: set<string>, tomo: set<string>) {
    0 <= j < |ts| && forall k :: 0 <= k < j ==> Passed(ts[k], anno, tomo)
  }

  /** The KeyError reading a transformation's endpoints raises: "input" first, then "output". */
  function MissingEndpoint(t: Transformation): Option<Error> {
    if t.input.None? then Some(KeyError("input"))
    else if t.output.None? then Some(KeyError("output"))
    else None
  }

  /**
   * `check_coordinate_system_with_transformation`: the names of both sides
   * (KeyError "name" when one is missing), then the first transformation in
   * declared order that bridges them; ValueError exactly when the scan
   * passes every one; KeyError at the first one read without an endpoint.
   */
  function CheckWithTransformation(ts: seq<Transformation>, annoCs: seq<CoordinateSystem>, tomoCs: seq<CoordinateSystem>)
    : (r: Result<Transformation>)
    ensures CsNames(annoCs).Err? || CsNames(tomoCs).Err? ==> r == Err(KeyError("name"))
    ensures r.Ok? ==> (r.value in ts && r.value.input.Some? && r.value.output.Some?
                        && Bridges(r.value, CsNames(annoCs).value, CsNames(tomoCs).value))
    ensures CsNames(annoCs).Ok? && CsNames(tomoCs).Ok? ==>
      var anno, tomo := CsNames(annoCs).value, CsNames(tomoCs).value;
      (r == Err(ValueError(NoBridgingTransformation)) <==> forall k :: 0 <= k < |ts| ==> Passed(ts[k], anno, tomo))
      && (r.Ok? ==> exists j :: ScanReaches(ts, j, anno, tomo) && ts[j].input.Some? && ts[j].output.Some?
                             && Bridges(ts[j], anno, tomo) && r.value == ts[j])
      && (r.Err? && r != Err(ValueError(NoBridgingTransformation)) ==>
            exists j :: ScanReaches(ts, j, anno, tomo) && MissingEndpoint(ts[j]).Some? && r.error == MissingEndpoint(ts[j]).value)
  {
    var anno :- CsNames(annoCs);
    var tomo :- CsNames(tomoCs);
    FirstBridge(ts, anno, tomo)
  }

  // ---------------------------------------------------------------------------
  // Applying a transformation

  /**
   * `apply_coordinate_transformation`: a "scale" multiplies every point
   * componentwise, keeping count and order; any other type raises
   * NotImplementedError. The type and the scale are read with `d[key]`.
   */
  function ApplyTransformation(coords: seq<Point3>, t: Transformation): (r: Result<seq<Point3>>)
    ensures t.transformationType.None? ==> r == Err(KeyError("transformation_type"))
    ensures t.transformationType.Some? && t.transformationType.value != "scale" ==>
      r == Err(NotImplementedError(UnsupportedTransformationType(t.transformationType.value)))
    ensures r.Ok? <==> t.transformationType == Some("scale") && t.scale.Some? && (|coords| == 0 || |t.scale.value| >= 3)
    ensures r.Ok? ==> (|r.value| == |coords|
                        && forall i :: 0 <= i < |coords| ==> |t.scale.value| >= 3 && r.value[i] == ScalePoint(coords[i], t.scale.value))
  {
    match t.transformationType
    case None => Err(KeyError("transformation_type"))
    case Some(kind) =>
      if kind != "scale" then Err(NotImplementedError(UnsupportedTransformationType(kind)))
      else if t.scale.None? then Err(KeyError("scale"))
      else if |coords| == 0 then Ok([])
      else if |t.scale.value| < 3 then Err(IndexError)
      else Ok(ScaleAll(coords, t.scale.value))
  }

  /**
   * `get_transformed_point_set_3D_coordinates`: no points, or no coordinate
   * systems on either side, is a ValueError; with no transformations the
   * points come back unchanged once exactly one frame is shared; otherwise
   * the bridging transformation is applied.
   */
  function TransformedPointSet(annotation: Annotation, tomoCs: seq<CoordinateSystem>): (r: Result<seq<Point3>>)
    ensures annotation.origin3D == [] ==> r == Err(ValueError(NoOrigin3D))
    ensures annotation.origin3D != [] && (annotation.coordinateSystems == [] || tomoCs == []) ==> r == Err(ValueError(MissingFrames))
    ensures annotation.coordinateTransformations == [] && r.Ok? ==>
      (r.value == annotation.origin3D && CsNames(annotation.coordinateSystems).Ok? && CsNames(tomoCs).Ok?
       && |CsNames(annotation.coordinateSystems).value * CsNames(tomoCs).value| == 1)
    // With frames on both sides and no transformations: the points unchanged, or the shared-frame check's error.
    ensures annotation.origin3D != [] && annotation.coordinateSystems != [] && tomoCs != []
            && annotation.coordinateTransformations == [] ==>
      var c := CheckWithoutTransformation(annotation.coordinateSystems, tomoCs);
      (r.Ok? <==> c.Ok?) && (r.Err? ==> r.error == c.error)
    // With transformations: the scan's error, or the first bridging transformation applied to the points.
    ensures annotation.origin3D != [] && annotation.coordinateSystems != [] && tomoCs != []
            && annotation.coordinateTransformations != [] ==>
      var c := CheckWithTransformation(annotation.coordinateTransformations, annotation.coordinateSystems, tomoCs);
      (c.Err? ==> r == Err(c.error)) && (c.Ok? ==> r == ApplyTransformation(annotation.origin3D, c.value))
    ensures annotation.coordinateTransformations != [] && r.Ok? ==>
      (exists t :: t in annotation.coordinateTransformations && ApplyTransformation(annotation.origin3D, t) == Ok(r.value))
    ensures r.Ok? ==> |r.value| == |annotation.origin3D|
  {
    var coords := annotation.origin3D;
    if coords == [] then Err(ValueError(NoOrigin3D))
    else if annotation.coordinateSystems == [] || tomoCs == [] then Err(ValueError(MissingFrames))
    else if annotation.coordinateTransformations == [] then
      var _ :- CheckWithoutTransformation(annotation.coordinateSystems, tomoCs);
      Ok(coords)
    else
      var t :- CheckWithTransformation(annotation.coordinateTransformations, annotation.coordinateSystems, tomoCs);
      ApplyTransformation(coords, t)
  }

  /** `get_transformed_annotation_coordinates`: only "point_set_3D" annotations are supported. */
  function TransformedAnnotationCoordinates(annotation: Annotation, tomoCs: seq<CoordinateSystem>): (r: Result<seq<Point3>>)
    ensures annotation.annotationType.None? ==> r == Err(KeyError("type"))
    ensures annotation.annotationType.Some? && annotation.annotationType.value != "point_set_3D" ==>
      r == Err(NotImplementedError(UnsupportedAnnotationType(annotation.annotationType.value)))
    ensures annotation.annotationType == Some("point_set_3D") ==> r == TransformedPointSet(annotation, tomoCs)
  {
    match annotation.annotationType
    case None => Err(KeyError("type"))
    case Some(kind) =>
      if kind == "point_set_3D" then TransformedPointSet(annotation, tomoCs)
      else Err(NotImplementedError(UnsupportedAnnotationType(kind)))
  }

  // ---------------------------------------------------------------------------
  // Depth window and projection

  function Abs(x: real): real { if x < 0.0 then -x else x }

  /** The indices, among the first n points, that the window keeps, in ascending order. */
  function KeptIndices(coords: seq<Point3>, keep: Point3 -> bool, n: nat): (r: seq<nat>)
    requires n <= |coords|
    ensures forall k :: 0 <= k < |r| ==> r[k] < n && keep(coords[r[k]])
    ensures forall k, l :: 0 <= k < l < |r| ==> r[k] < r[l]
    ensures |r| <= n
    decreases n
  {
    if n == 0 then []
    else KeptIndices(coords, keep, n - 1) + (if keep(coords[n - 1]) then [n - 1] else [])
  }

  /** Every point the window keeps is listed. */
  lemma {:induction false} KeptIndicesComplete(coords: seq<Point3>, keep: Point3 -> bool, n: nat, i: nat)
    requires i < n <= |coords| && keep(coords[i])
    ensures i in KeptIndices(coords, keep, n)
    decreases n
  {
    if i < n - 1 {
      KeptIndicesComplete(coords, keep, n - 1, i);
    }
  }

  /** The points among the first n that the window keeps, with z dropped, in order. */
  function Project2D(coords: seq<Point3>, keep: Point3 -> bool, n: nat): (r: seq<Point2>)
    requires n <= |coords|
    ensures var idx := KeptIndices(coords, keep, n);
      |r| == |idx| && forall k :: 0 <= k < |r| ==> r[k] == Point2(coords[idx[k]].x, coords[idx[k]].y)
    decreases n
  {
    if n == 0 then []
    else
      var p := coords[n - 1];
      Project2D(coords, keep, n - 1) + (if keep(p) then [Point2(p.x, p.y)] else [])
  }

  /** The thumbnail window: within depth × limit of the centre plane at depth / 2. */
  function InDepthWindow(depth: real, limit: real): Point3 -> bool {
    (p: Point3) => Abs(p.z - depth / 2.0) <= depth * limit
  }

  /**
   * `filter_coordinates_by_depth`: exactly the points with
   * |z − depth/2| ≤ depth × limit, z dropped, order kept, never more than
   * the input.
   */
  function FilterByDepth(coords: seq<Point3>, depth: real, limit: real): (r: seq<Point2>)
    ensures |r| <= |coords|
    ensures var idx := KeptIndices(coords, InDepthWindow(depth, limit), |coords|);
      |r| == |idx| && forall k :: 0 <= k < |r| ==>
        Abs(coords[idx[k]].z - depth / 2.0) <= depth * limit && r[k] == Point2(coords[idx[k]].x, coords[idx[k]].y)
  {
    Project2D(coords, InDepthWindow(depth, limit), |coords|)
  }

  /**
   * `project_and_scale_coordinates`: the shape is (depth, width, height); the
   * retained points are scaled by thumbnail width / width and thumbnail
   * height / height. A zero width or height is a ZeroDivisionError.
   */
  function ProjectAndScale(coords: seq<Point3>, shape: (int, int, int), thumbnail: (int, int), limit: real)
    : (r: Result<seq<Point2>>)
    ensures r.Ok? <==> shape.1 != 0 && shape.2 != 0
    ensures r.Err? ==> r.error == ZeroDivisionError
    ensures r.Ok? ==> var idx := KeptIndices(coords, InDepthWindow(shape.0 as real, limit), |coords|);
      |r.value| == |idx| && forall k :: 0 <= k < |idx| ==>
        r.value[k] == Point2(coords[idx[k]].x * (thumbnail.0 as real / shape.1 as real),
                             coords[idx[k]].y * (thumbnail.1 as real / shape.2 as real))
  {
    var (depth, width, height) := shape;
    var coords2d := FilterByDepth(coords, depth as real, limit);
    if width == 0 || height == 0 then Err(ZeroDivisionError)
    else
      var sx := thumbnail.0 as real / width as real;
      var sy := thumbnail.1 as real / height as real;
      Ok(seq(|coords2d|, k requires 0 <= k < |coords2d| => Point2(coords2d[k].x * sx, coords2d[k].y * sy)))
  }

  /** A point in the window is projected; one outside it is not. */
  lemma {:induction false} FilterByDepthKeepsExactly(coords: seq<Point3>, depth: real, limit: real, i: nat)
    requires i < |coords|
    ensures Abs(coords[i].z - depth / 2.0) <= depth * limit <==>
      i in KeptIndices(coords, InDepthWindow(depth, limit), |coords|)
  {
    if Abs(coords[i].z - depth / 2.0) <= depth * limit {
      KeptIndicesComplete(coords, InDepthWindow(depth, limit), |coords|, i);
    }
  }
}
