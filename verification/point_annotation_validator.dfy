/**
 * The validator revision of frame reconciliation and bounds checking
 * (validation/validator_models/point_annotation.py): it resolves the frame a
 * point annotation should be read in against a tomogram, scales the points
 * when a transformation bridges the two, and checks them against the
 * tomogram's extent in a closed box. When the extent cannot be determined it
 * skips the check.
 */
module PointAnnotationValidator {
  import opened Wrappers
  import opened Coordinates
  import opened Text

  datatype PointAnnotation = PointAnnotation(
    origin3D: seq<Point3>,
    coordinateSystems: seq<CoordinateSystem>,
    coordinateTransformations: seq<Transformation>)

  datatype Tomogram = Tomogram(
    width: Option<int>,
    height: Option<int>,
    depth: Option<int>,
    coordinateSystems: seq<CoordinateSystem>,
    coordinateTransformations: seq<Transformation>)

  datatype Interval = Interval(lo: real, hi: real)

  datatype Bounds = Bounds(x: Interval, y: Interval, z: Interval)

  /** How the bounds were chosen: a box to check against, or a reason to skip the check. */
  datatype BoundsChoice = Check(bounds: Bounds) | SkipMissingDimensions | SkipNoPhysicalBounds

  /** A successful validation: all points were inside the box, or the check was skipped. */
  datatype Outcome = WithinBounds(bounds: Bounds) | BoundsCheckSkipped(choice: BoundsChoice)

  // ---------------------------------------------------------------------------
  // Frame names

  /** `_get_cs_names`: the names of the coordinate systems that have one. */
  function CsNames(css: seq<CoordinateSystem>): (names: set<string>)
    ensures forall n :: n in names <==> exists k :: 0 <= k < |css| && css[k].name == Some(n)
  {
    set k | 0 <= k < |css| && css[k].name.Some? :: css[k].name.value
  }

  lemma {:induction false} SingletonElement(s: set<string>, n: string)
    requires |s| == 1 && n in s
    ensures s == {n}
  {
    if s != {n} {
      var m :| m in s && m != n;
      assert {n, m} <= s;
      assert |{n, m}| == 2;
      SubsetCardinality({n, m}, s);
      assert false;
    }
  }

  lemma {:induction false} SubsetCardinality(a: set<string>, b: set<string>)
    requires a <= b
    ensures |a| <= |b|
  {
    assert b == a + (b - a);
  }

  /**
   * `_check_coordinate_systems_without_transformation`: the one name both sides
   * share; "several" and "none" are distinct ValueErrors.
   */
  function CheckWithoutTransformation(annoCs: seq<CoordinateSystem>, tomoCs: seq<CoordinateSystem>): (r: Result<string>)
    ensures r.Ok? <==> |CsNames(annoCs) * CsNames(tomoCs)| == 1
    ensures r.Ok? ==> CsNames(annoCs) * CsNames(tomoCs) == {r.value}
    ensures r == Err(ValueError(NoCommonFrame)) <==> CsNames(annoCs) * CsNames(tomoCs) == {}
    ensures r == Err(ValueError(MultipleCommonFrames)) <==> |CsNames(annoCs) * CsNames(tomoCs)| > 1
  {
    var common := CsNames(annoCs) * CsNames(tomoCs);
    if common == {} then Err(ValueError(NoCommonFrame))
    else if |common| == 1 then
      var n :| n in common;
      SingletonElement(common, n);
      Ok(n)
    else Err(ValueError(MultipleCommonFrames))
  }

  // ---------------------------------------------------------------------------
  // Bridging transformation

  /** An endpoint the source accepts: present and not the empty string. */
  predicate Present(o: Option<string>) { o.Some? && o.value != "" }

  /** The transformation has both endpoints, one in each name set, in either direction. */
  predicate Bridges(t: Transformation, anno: set<string>, tomo: set<string>) {
    Present(t.input) && Present(t.output) &&
    ((t.input.value in tomo && t.output.value in anno) || (t.input.value in anno && t.output.value in tomo))
  }

  /**
   * The target name as the source writes it: the output when the input is a
   * tomogram frame, and otherwise the input.
   */
  function TargetNameAsWritten(t: Transformation, tomo: set<string>): (n: string)
    requires Present(t.input) && Present(t.output)
    ensures t.input.value in tomo ==> n == t.output.value
    ensures t.input.value !in tomo ==> n == t.input.value
  {
    if t.input.value in tomo then t.output.value else t.input.value
  }

  /**
   * Under the source's rule the target is a tomogram frame exactly when both
   * endpoints of the bridging transformation are: with only one of them in
   * the tomogram, the name picked is the other one.
   */
  lemma {:induction false} AsWrittenTargetFoundIff(t: Transformation, anno: set<string>, tomo: set<string>)
    requires Bridges(t, anno, tomo)
    ensures TargetNameAsWritten(t, tomo) in tomo <==> t.input.value in tomo && t.output.value in tomo
  {
    if t.input.value !in tomo {
      assert TargetNameAsWritten(t, tomo) == t.input.value;
    }
  }

  /**
   * The target name as intended: the endpoint that is a tomogram frame,
   * preferring the output, into which the scale carries the points.
   */
  function TargetName(t: Transformation, tomo: set<string>): (n: string)
    requires Present(t.input) && Present(t.output)
    ensures n == t.input.value || n == t.output.value
    ensures t.output.value in tomo ==> n == t.output.value
  {
    if t.output.value in tomo then t.output.value else t.input.value
  }

  /** The intended target of a bridging transformation is always a tomogram frame, and agrees with the source's pick whenever that one is. */
  lemma {:induction false} TargetNameInTomogram(t: Transformation, anno: set<string>, tomo: set<string>)
    requires Bridges(t, anno, tomo)
    ensures TargetName(t, tomo) in tomo
    ensures TargetNameAsWritten(t, tomo) in tomo ==> TargetName(t, tomo) == TargetNameAsWritten(t, tomo)
  {
  }

  /** Which target-name rule a resolution follows: the source's, or the intended one. */
  datatype TargetRule = AsWritten | Intended

  /** The target name a rule picks for a transformation. */
  function Target(rule: TargetRule, t: Transformation, tomo: set<string>): string
    requires Present(t.input) && Present(t.output)
  {
    match rule
    case AsWritten => TargetNameAsWritten(t, tomo)
    case Intended => TargetName(t, tomo)
  }

  /** Transformation j is the first, in declaration order, that bridges the two name sets. */
  predicate FirstBridging(ts: seq<Transformation>, j: int, anno: set<string>, tomo: set<string>) {
    0 <= j < |ts| && Bridges(ts[j], anno, tomo) && forall k :: 0 <= k < j ==> !Bridges(ts[k], anno, tomo)
  }

  /**
   * The first declared transformation that bridges the two name sets, with
   * the target name the rule picks; a ValueError when none does.
   */
  function FindBridge(rule: TargetRule, ts: seq<Transformation>, anno: set<string>, tomo: set<string>)
    : (r: Result<(Transformation, string)>)
    ensures r.Err? <==> forall j :: 0 <= j < |ts| ==> !Bridges(ts[j], anno, tomo)
    ensures r.Err? ==> r.error == ValueError(NoBridgingTransformation)
    ensures r.Ok? ==> exists j :: FirstBridging(ts, j, anno, tomo) && r.value == (ts[j], Target(rule, ts[j], tomo))
    decreases |ts|
  {
    if |ts| == 0 then Err(ValueError(NoBridgingTransformation))
    else if Bridges(ts[0], anno, tomo) then
      assert FirstBridging(ts, 0, anno, tomo);
      Ok((ts[0], Target(rule, ts[0], tomo)))
    else
      var r := FindBridge(rule, ts[1..], anno, tomo);
      assert forall j :: 1 <= j < |ts| ==> ts[j] == ts[1..][j - 1];
      if r.Ok? then
        var j :| FirstBridging(ts[1..], j, anno, tomo) && r.value == (ts[1..][j], Target(rule, ts[1..][j], tomo));
        assert ts[j + 1] == ts[1..][j];
        assert FirstBridging(ts, j + 1, anno, tomo);
        r
      else r
  }

  /**
   * `_check_coordinate_system_with_transformation`: an early-exit scan in
   * declaration order, picking the target by the source's rule.
   */
  method CheckWithTransformation(ts: seq<Transformation>, annoCs: seq<CoordinateSystem>, tomoCs: seq<CoordinateSystem>)
    returns (r: Result<(Transformation, string)>)
    ensures r == FindBridge(AsWritten, ts, CsNames(annoCs), CsNames(tomoCs))
  {
    var anno := CsNames(annoCs);
    var tomo := CsNames(tomoCs);
    var i := 0;
    while i < |ts|
      invariant 0 <= i <= |ts|
      invariant FindBridge(AsWritten, ts[i..], anno, tomo) == FindBridge(AsWritten, ts, anno, tomo)
    {
      var t := ts[i];
      assert ts[i..][1..] == ts[i + 1..];
      if !Present(t.input) || !Present(t.output) {
        i := i + 1;
        continue;
      }
      var input, output := t.input.value, t.output.value;
      if (input in tomo && output in anno) || (input in anno && output in tomo) {
        return Ok((t, if input in tomo then output else input));
      }
      i := i + 1;
    }
    return Err(ValueError(NoBridgingTransformation));
  }

  // ---------------------------------------------------------------------------
  // Applying a transformation

  /** The transformation's kind: its declared type, else "scale" when it has a scale. */
  function Kind(t: Transformation): Option<string> {
    if t.transformationType.Some? then t.transformationType
    else if t.scale.Some? then Some("scale")
    else None
  }

  /**
   * `_apply_coordinate_transformation`: a scale multiplies every point
   * componentwise, keeping count and order; any other kind is
   * NotImplementedError; a transformation with neither a type nor a scale is
   * a ValueError.
   */
  function ApplyTransformation(coords: seq<Point3>, t: Transformation): (r: Result<seq<Point3>>)
    ensures Kind(t).None? ==> r == Err(ValueError(UnknownTransformationType))
    ensures Kind(t).Some? && Kind(t).value != "scale" ==> r == Err(NotImplementedError(UnsupportedTransformationType(Kind(t).value)))
    ensures r.Ok? <==> Kind(t) == Some("scale") && t.scale.Some? && (|coords| == 0 || |t.scale.value| >= 3)
    ensures r.Ok? ==> (|r.value| == |coords|
                        && forall i :: 0 <= i < |coords| ==> |t.scale.value| >= 3 && r.value[i] == ScalePoint(coords[i], t.scale.value))
  {
    match Kind(t)
    case None => Err(ValueError(UnknownTransformationType))
    case Some(kind) =>
      if kind != "scale" then Err(NotImplementedError(UnsupportedTransformationType(kind)))
      else if t.scale.None? then Err(AttributeError("scale"))
      else if |coords| == 0 then Ok([])
      else if |t.scale.value| < 3 then Err(IndexError)
      else Ok(ScaleAll(coords, t.scale.value))
  }

  /**
   * What `_get_transformed_coordinates` computes, with the target picked by
   * the rule: without transformations, the points unchanged in the one
   * shared frame; otherwise the points scaled by the first bridging
   * transformation, in the frame the rule picks, or the error of that
   * transformation's application.
   */
  function TransformedCoordinates(rule: TargetRule, coords: seq<Point3>, annoTs: seq<Transformation>,
                                  annoCs: seq<CoordinateSystem>, tomoCs: seq<CoordinateSystem>)
    : (r: Result<(seq<Point3>, string)>)
    ensures annoTs == [] ==> (r.Ok? <==> CheckWithoutTransformation(annoCs, tomoCs).Ok?)
    ensures annoTs == [] && r.Err? ==> r == Err(CheckWithoutTransformation(annoCs, tomoCs).error)
    ensures annoTs == [] && r.Ok? ==> r.value.0 == coords && CsNames(annoCs) * CsNames(tomoCs) == {r.value.1}
    ensures annoTs != [] ==>
      (r == Err(ValueError(NoBridgingTransformation)) <==> forall j :: 0 <= j < |annoTs| ==> !Bridges(annoTs[j], CsNames(annoCs), CsNames(tomoCs)))
    ensures annoTs != [] && r != Err(ValueError(NoBridgingTransformation)) ==>
      exists j :: FirstBridging(annoTs, j, CsNames(annoCs), CsNames(tomoCs))
        && (r.Err? ==> ApplyTransformation(coords, annoTs[j]) == Err(r.error))
        && (r.Ok? ==> ApplyTransformation(coords, annoTs[j]) == Ok(r.value.0)
                      && r.value.1 == Target(rule, annoTs[j], CsNames(tomoCs))
                      && annoTs[j].scale.Some? && |r.value.0| == |coords|
                      && forall i :: 0 <= i < |coords| ==>
                           |annoTs[j].scale.value| >= 3 && r.value.0[i] == ScalePoint(coords[i], annoTs[j].scale.value))
  {
    if annoTs == [] then
      var target :- CheckWithoutTransformation(annoCs, tomoCs);
      Ok((coords, target))
    else
      var anno, tomo := CsNames(annoCs), CsNames(tomoCs);
      var bridge :- FindBridge(rule, annoTs, anno, tomo);
      var j :| FirstBridging(annoTs, j, anno, tomo) && bridge == (annoTs[j], Target(rule, annoTs[j], tomo));
      var scaled :- ApplyTransformation(coords, bridge.0);
      Ok((scaled, bridge.1))
  }

  /** `_get_transformed_coordinates`. */
  method GetTransformedCoordinates(coords: seq<Point3>, annoTs: seq<Transformation>,
                                   annoCs: seq<CoordinateSystem>, tomoCs: seq<CoordinateSystem>)
    returns (r: Result<(seq<Point3>, string)>)
    ensures r == TransformedCoordinates(AsWritten, coords, annoTs, annoCs, tomoCs)
  {
    if annoTs == [] {
      var target := CheckWithoutTransformation(annoCs, tomoCs);
      if target.Err? {
        return Err(target.error);
      }
      return Ok((coords, target.value));
    }
    var bridge := CheckWithTransformation(annoTs, annoCs, tomoCs);
    if bridge.Err? {
      return Err(bridge.error);
    }
    var scaled := ApplyTransformation(coords, bridge.value.0);
    if scaled.Err? {
      return Err(scaled.error);
    }
    return Ok((scaled.value, bridge.value.1));
  }

  // ---------------------------------------------------------------------------
  // Bounds

  /** Inside the closed box: lo <= c <= hi on every axis. */
  predicate Inside(p: Point3, b: Bounds) {
    b.x.lo <= p.x <= b.x.hi && b.y.lo <= p.y <= b.y.hi && b.z.lo <= p.z <= b.z.hi
  }

  /** The (index, point) pairs among the first n points that lie outside the box, in index order. */
  function OutOfBounds(coords: seq<Point3>, b: Bounds, n: nat): (r: seq<(nat, Point3)>)
    requires n <= |coords|
    ensures |r| <= n
    ensures forall k :: 0 <= k < |r| ==> r[k].0 < n && r[k].1 == coords[r[k].0] && !Inside(r[k].1, b)
    ensures forall k, l :: 0 <= k < l < |r| ==> r[k].0 < r[l].0
    decreases n
  {
    if n == 0 then []
    else
      var prev := OutOfBounds(coords, b, n - 1);
      if Inside(coords[n - 1], b) then prev else prev + [(n - 1, coords[n - 1])]
  }

  /** Every point outside the box is reported under its own index. */
  lemma {:induction false} OutOfBoundsListsEvery(coords: seq<Point3>, b: Bounds, n: nat, i: nat)
    requires i < n <= |coords| && !Inside(coords[i], b)
    ensures exists k :: 0 <= k < |OutOfBounds(coords, b, n)| && OutOfBounds(coords, b, n)[k] == (i, coords[i])
    decreases n
  {
    var r := OutOfBounds(coords, b, n);
    if i == n - 1 {
      assert r[|r| - 1] == (i, coords[i]);
    } else {
      OutOfBoundsListsEvery(coords, b, n - 1, i);
      var prev := OutOfBounds(coords, b, n - 1);
      var k :| 0 <= k < |prev| && prev[k] == (i, coords[i]);
      assert r[k] == prev[k];
    }
  }

  /** The report is empty exactly when every point is inside the box. */
  lemma {:induction false} OutOfBoundsEmptyIff(coords: seq<Point3>, b: Bounds)
    ensures OutOfBounds(coords, b, |coords|) == [] <==> forall i :: 0 <= i < |coords| ==> Inside(coords[i], b)
  {
    var r := OutOfBounds(coords, b, |coords|);
    if r != [] {
      var i := r[0].0;
      assert 0 <= i < |coords| && !Inside(coords[i], b);
    } else {
      forall i | 0 <= i < |coords| ensures Inside(coords[i], b) {
        if !Inside(coords[i], b) {
          OutOfBoundsListsEvery(coords, b, |coords|, i);
        }
      }
    }
  }

  /** `_check_points_within_bounds`: scans the points and appends each one outside the box. */
  method CheckPointsWithinBounds(coords: seq<Point3>, b: Bounds) returns (outOfBounds: seq<(nat, Point3)>)
    ensures outOfBounds == OutOfBounds(coords, b, |coords|)
  {
    outOfBounds := [];
    var i := 0;
    while i < |coords|
      invariant 0 <= i <= |coords|
      invariant outOfBounds == OutOfBounds(coords, b, i)
    {
      var p := coords[i];
      if !(b.x.lo <= p.x <= b.x.hi && b.y.lo <= p.y <= b.y.hi && b.z.lo <= p.z <= b.z.hi) {
        outOfBounds := outOfBounds + [(i, p)];
      }
      i := i + 1;
    }
  }

  /** `all([width, height, depth])`: every dimension present and non-zero. */
  predicate DimensionsKnown(t: Tomogram) {
    t.width.Some? && t.width.value != 0 && t.height.Some? && t.height.value != 0
    && t.depth.Some? && t.depth.value != 0
  }

  /** The first tomogram transformation whose output is the target and that has a scale. */
  function FirstScaleTo(ts: seq<Transformation>, target: string): (r: Option<nat>)
    ensures r.Some? ==> r.value < |ts| && ts[r.value].output == Some(target) && ts[r.value].scale.Some?
    ensures r.Some? ==> forall k :: 0 <= k < r.value ==> !(ts[k].output == Some(target) && ts[k].scale.Some?)
    ensures r.None? ==> forall k :: 0 <= k < |ts| ==> !(ts[k].output == Some(target) && ts[k].scale.Some?)
    decreases |ts|
  {
    if |ts| == 0 then None
    else if ts[0].output == Some(target) && ts[0].scale.Some? then Some(0)
    else
      var r := FirstScaleTo(ts[1..], target);
      assert forall k :: 1 <= k < |ts| ==> ts[k] == ts[1..][k - 1];
      if r.Some? then Some(r.value + 1) else None
  }

  /** The voxel box: (0, width), (0, height), (0, depth). */
  function VoxelBounds(t: Tomogram): Bounds
    requires DimensionsKnown(t)
  {
    Bounds(Interval(0.0, t.width.value as real), Interval(0.0, t.height.value as real),
           Interval(0.0, t.depth.value as real))
  }

  /** The physical box: each dimension times the matching scale factor. */
  function PhysicalBounds(t: Tomogram, s: seq<real>): Bounds
    requires DimensionsKnown(t) && |s| >= 3
  {
    Bounds(Interval(0.0, t.width.value as real * s[0]), Interval(0.0, t.height.value as real * s[1]),
           Interval(0.0, t.depth.value as real * s[2]))
  }

  /**
   * The box the points are checked against. A target whose lower-cased name
   * contains "voxel" is checked against the voxel box; any other target
   * against the dimensions times the scale of the first tomogram
   * transformation whose output is the target. Missing dimensions or a
   * missing scale skip the check.
   */
  function ChooseBounds(tomogram: Tomogram, target: string, lower: string -> string): (r: Result<BoundsChoice>)
    ensures Contains(lower(target), "voxel") && DimensionsKnown(tomogram) ==> r == Ok(Check(VoxelBounds(tomogram)))
    ensures Contains(lower(target), "voxel") && !DimensionsKnown(tomogram) ==> r == Ok(SkipMissingDimensions)
    ensures !Contains(lower(target), "voxel") && !DimensionsKnown(tomogram) ==> r == Ok(SkipNoPhysicalBounds)
    ensures !Contains(lower(target), "voxel") && FirstScaleTo(tomogram.coordinateTransformations, target).None? ==>
      r == Ok(SkipNoPhysicalBounds)
    ensures r.Ok? && r.value.Check? && !Contains(lower(target), "voxel") ==>
      (DimensionsKnown(tomogram) && FirstScaleTo(tomogram.coordinateTransformations, target).Some? &&
       var s := tomogram.coordinateTransformations[FirstScaleTo(tomogram.coordinateTransformations, target).value].scale.value;
       |s| >= 3 && r.value.bounds == PhysicalBounds(tomogram, s))
    ensures !Contains(lower(target), "voxel") && DimensionsKnown(tomogram)
            && FirstScaleTo(tomogram.coordinateTransformations, target).Some? ==>
      var s := tomogram.coordinateTransformations[FirstScaleTo(tomogram.coordinateTransformations, target).value].scale.value;
      r == (if |s| < 3 then Err(IndexError) else Ok(Check(PhysicalBounds(tomogram, s))))
    ensures r.Err? ==> r.error == IndexError && !Contains(lower(target), "voxel")
  {
    if Contains(lower(target), "voxel") then
      if !DimensionsKnown(tomogram) then Ok(SkipMissingDimensions)
      else Ok(Check(VoxelBounds(tomogram)))
    else
      var j := FirstScaleTo(tomogram.coordinateTransformations, target);
      if j.Some? && DimensionsKnown(tomogram) then
        var s := tomogram.coordinateTransformations[j.value].scale.value;
        if |s| < 3 then Err(IndexError)
        else Ok(Check(PhysicalBounds(tomogram, s)))
      else Ok(SkipNoPhysicalBounds)
  }

  /** The indices the error message lists: those of the first five violations. */
  function Shown(oob: seq<(nat, Point3)>): (r: seq<nat>)
    ensures |r| == if |oob| < 5 then |oob| else 5
    ensures forall k :: 0 <= k < |r| ==> r[k] == oob[k].0
  {
    var n := if |oob| < 5 then |oob| else 5;
    seq(n, k requires 0 <= k < n => oob[k].0)
  }

  /**
   * What `validate_with_tomogram` decides for an annotation and a tomogram,
   * with the target picked by the rule.
   */
  function Validate(rule: TargetRule, annotation: PointAnnotation, tomogram: Tomogram, lower: string -> string): (r: Result<Outcome>)
  {
    if annotation.coordinateSystems == [] then Err(ValueError(EmptyAnnotationFrames))
    else if tomogram.coordinateSystems == [] then Err(ValueError(EmptyTomogramFrames))
    else if annotation.origin3D == [] then Err(ValueError(NoOrigin3D))
    else
      var transformed :- TransformedCoordinates(rule, annotation.origin3D, annotation.coordinateTransformations,
                                                annotation.coordinateSystems, tomogram.coordinateSystems);
      var (coords, target) := transformed;
      if target !in CsNames(tomogram.coordinateSystems) then Err(ValueError(TargetFrameNotInTomogram(target)))
      else
        var choice :- ChooseBounds(tomogram, target, lower);
        if !choice.Check? then Ok(BoundsCheckSkipped(choice))
        else
          var oob := OutOfBounds(coords, choice.bounds, |coords|);
          if oob == [] then Ok(WithinBounds(choice.bounds))
          else Err(ValueError(PointsOutOfBounds(|oob|, Shown(oob))))
  }

  /** The lookup of the target among the tomogram's coordinate systems. */
  method HasFrame(css: seq<CoordinateSystem>, target: string) returns (found: bool)
    ensures found <==> target in CsNames(css)
  {
    found := false;
    var i := 0;
    while i < |css|
      invariant 0 <= i <= |css|
      invariant found <==> exists k :: 0 <= k < i && css[k].name == Some(target)
    {
      if css[i].name == Some(target) {
        found := true;
        break;
      }
      i := i + 1;
    }
  }

  /** The scan for the first tomogram transformation into the target that has a scale. */
  method FindScaleTransformation(ts: seq<Transformation>, target: string) returns (j: Option<nat>)
    ensures j == FirstScaleTo(ts, target)
  {
    var i := 0;
    while i < |ts|
      invariant 0 <= i <= |ts|
      invariant forall k :: 0 <= k < i ==> !(ts[k].output == Some(target) && ts[k].scale.Some?)
    {
      if ts[i].output == Some(target) && ts[i].scale.Some? {
        FirstScaleToIsFirst(ts, target, i);
        return Some(i);
      }
      i := i + 1;
    }
    FirstScaleToIsFirst(ts, target, |ts|);
    return None;
  }

  /** FirstScaleTo finds the earliest match: nothing before i matches, so the answer is i or nothing. */
  lemma {:induction false} FirstScaleToIsFirst(ts: seq<Transformation>, target: string, i: nat)
    requires i <= |ts|
    requires forall k :: 0 <= k < i ==> !(ts[k].output == Some(target) && ts[k].scale.Some?)
    ensures i < |ts| && ts[i].output == Some(target) && ts[i].scale.Some? ==> FirstScaleTo(ts, target) == Some(i)
    ensures i == |ts| ==> FirstScaleTo(ts, target).None?
  {
  }

  /** The choice of bounds, as the source computes it inline. */
  method SelectBounds(tomogram: Tomogram, target: string, lower: string -> string) returns (r: Result<BoundsChoice>)
    ensures r == ChooseBounds(tomogram, target, lower)
  {
    if Contains(lower(target), "voxel") {
      if !DimensionsKnown(tomogram) {
        return Ok(SkipMissingDimensions);
      }
      return Ok(Check(VoxelBounds(tomogram)));
    }
    var j := FindScaleTransformation(tomogram.coordinateTransformations, target);
    if j.Some? && DimensionsKnown(tomogram) {
      var s := tomogram.coordinateTransformations[j.value].scale.value;
      if |s| < 3 {
        return Err(IndexError);
      }
      return Ok(Check(PhysicalBounds(tomogram, s)));
    }
    return Ok(SkipNoPhysicalBounds);
  }

  /**
   * `validate_with_tomogram`: checks the frames, transforms the points, looks
   * the target up among the tomogram's frames, chooses the bounds and checks
   * the points against them.
   */
  method ValidateWithTomogram(annotation: PointAnnotation, tomogram: Tomogram, lower: string -> string)
    returns (r: Result<Outcome>)
    ensures r == Validate(AsWritten, annotation, tomogram, lower)
  {
    var annoCs := annotation.coordinateSystems;
    var tomoCs := tomogram.coordinateSystems;
    if annoCs == [] {
      return Err(ValueError(EmptyAnnotationFrames));
    }
    if tomoCs == [] {
      return Err(ValueError(EmptyTomogramFrames));
    }
    var coordinates := annotation.origin3D;
    if coordinates == [] {
      return Err(ValueError(NoOrigin3D));
    }
    var transformed := GetTransformedCoordinates(coordinates, annotation.coordinateTransformations, annoCs, tomoCs);
    if transformed.Err? {
      return Err(transformed.error);
    }
    var (coords, target) := transformed.value;
    var found := HasFrame(tomoCs, target);
    if !found {
      return Err(ValueError(TargetFrameNotInTomogram(target)));
    }
    var choice := SelectBounds(tomogram, target, lower);
    if choice.Err? {
      return Err(choice.error);
    }
    if !choice.value.Check? {
      return Ok(BoundsCheckSkipped(choice.value));
    }
    var outOfBounds := CheckPointsWithinBounds(coords, choice.value.bounds);
    if outOfBounds != [] {
      return Err(ValueError(PointsOutOfBounds(|outOfBounds|, Shown(outOfBounds))));
    }
    return Ok(WithinBounds(choice.value.bounds));
  }

  // ---------------------------------------------------------------------------
  // Properties of validation

  /** With the intended rule the resolved target is always one of the tomogram's frames. */
  lemma {:induction false} ResolvedTargetInTomogram(coords: seq<Point3>, annoTs: seq<Transformation>,
                                 annoCs: seq<CoordinateSystem>, tomoCs: seq<CoordinateSystem>)
    requires TransformedCoordinates(Intended, coords, annoTs, annoCs, tomoCs).Ok?
    ensures TransformedCoordinates(Intended, coords, annoTs, annoCs, tomoCs).value.1 in CsNames(tomoCs)
  {
    if annoTs != [] {
      var j :| FirstBridging(annoTs, j, CsNames(annoCs), CsNames(tomoCs))
        && TransformedCoordinates(Intended, coords, annoTs, annoCs, tomoCs).value.1 == Target(Intended, annoTs[j], CsNames(tomoCs));
      TargetNameInTomogram(annoTs[j], CsNames(annoCs), CsNames(tomoCs));
    }
  }

  /** With the intended rule, validation never fails the target lookup. */
  lemma {:induction false} TargetLookupNeverFails(annotation: PointAnnotation, tomogram: Tomogram, lower: string -> string)
    ensures Validate(Intended, annotation, tomogram, lower).Err? && Validate(Intended, annotation, tomogram, lower).error.ValueError? ==>
      !Validate(Intended, annotation, tomogram, lower).error.reason.TargetFrameNotInTomogram?
  {
    if annotation.coordinateSystems != [] && tomogram.coordinateSystems != [] && annotation.origin3D != [] {
      var tc := TransformedCoordinates(Intended, annotation.origin3D, annotation.coordinateTransformations,
                                       annotation.coordinateSystems, tomogram.coordinateSystems);
      if tc.Ok? {
        ResolvedTargetInTomogram(annotation.origin3D, annotation.coordinateTransformations,
                                 annotation.coordinateSystems, tomogram.coordinateSystems);
        assert tc.value.1 in CsNames(tomogram.coordinateSystems);
      }
    }
  }

  /**
   * As written, once the points are transformed by a bridging
   * transformation, validation fails the target lookup, naming the picked
   * target, exactly when an endpoint of that transformation is not a
   * tomogram frame.
   */
  lemma {:induction false} AsWrittenTargetLookup(annotation: PointAnnotation, tomogram: Tomogram, lower: string -> string)
    requires annotation.coordinateSystems != [] && tomogram.coordinateSystems != [] && annotation.origin3D != []
    requires annotation.coordinateTransformations != []
    requires TransformedCoordinates(AsWritten, annotation.origin3D, annotation.coordinateTransformations,
                                    annotation.coordinateSystems, tomogram.coordinateSystems).Ok?
    ensures var ts, anno, tomo := annotation.coordinateTransformations, CsNames(annotation.coordinateSystems), CsNames(tomogram.coordinateSystems);
      exists j :: FirstBridging(ts, j, anno, tomo)
        && (Validate(AsWritten, annotation, tomogram, lower) == Err(ValueError(TargetFrameNotInTomogram(TargetNameAsWritten(ts[j], tomo))))
            <==> !(ts[j].input.value in tomo && ts[j].output.value in tomo))
  {
    var ts, anno, tomo := annotation.coordinateTransformations, CsNames(annotation.coordinateSystems), CsNames(tomogram.coordinateSystems);
    var tc := TransformedCoordinates(AsWritten, annotation.origin3D, ts, annotation.coordinateSystems, tomogram.coordinateSystems);
    var j :| FirstBridging(ts, j, anno, tomo) && tc.value.1 == Target(AsWritten, ts[j], tomo);
    AsWrittenTargetFoundIff(ts[j], anno, tomo);
    assert FirstBridging(ts, j, anno, tomo);
  }

  /**
   * Frame "A" only in the annotation, "B" only in the tomogram, and a scale
   * A -> B: as written the target is "A" and the lookup fails; with the
   * intended rule the target is "B" and validation goes on.
   */
  lemma {:induction false} AsWrittenValidateCounterexample(p: Point3, lower: string -> string)
    ensures var t := Transformation(Some("scale"), Some([2.0, 2.0, 2.0]), None, Some("A"), Some("B"));
      var annotation := PointAnnotation([p], [Named("A")], [t]);
      var tomogram := Tomogram(None, None, None, [Named("B")], []);
      Validate(AsWritten, annotation, tomogram, lower) == Err(ValueError(TargetFrameNotInTomogram("A")))
      && Validate(Intended, annotation, tomogram, lower).Ok?
  {
    var t := Transformation(Some("scale"), Some([2.0, 2.0, 2.0]), None, Some("A"), Some("B"));
    assert CsNames([Named("A")]) == {"A"} by {
      assert Named("A") == [Named("A")][0];
    }
    assert CsNames([Named("B")]) == {"B"} by {
      assert Named("B") == [Named("B")][0];
    }
    assert Bridges(t, {"A"}, {"B"});
    assert FindBridge(AsWritten, [t], {"A"}, {"B"}) == Ok((t, "A"));
    assert FindBridge(Intended, [t], {"A"}, {"B"}) == Ok((t, "B"));
  }

  /** A validation that passes the bounds check has every transformed point inside the chosen box. */
  lemma {:induction false} ValidatedPointsInside(rule: TargetRule, annotation: PointAnnotation, tomogram: Tomogram, lower: string -> string, b: Bounds)
    requires Validate(rule, annotation, tomogram, lower) == Ok(WithinBounds(b))
    ensures annotation.coordinateSystems != [] && tomogram.coordinateSystems != [] && annotation.origin3D != []
    ensures var tc := TransformedCoordinates(rule, annotation.origin3D, annotation.coordinateTransformations,
                                             annotation.coordinateSystems, tomogram.coordinateSystems);
            tc.Ok? && |tc.value.0| == |annotation.origin3D|
            && ChooseBounds(tomogram, tc.value.1, lower) == Ok(Check(b))
            && forall i :: 0 <= i < |tc.value.0| ==> Inside(tc.value.0[i], b)
  {
    var tc := TransformedCoordinates(rule, annotation.origin3D, annotation.coordinateTransformations,
                                     annotation.coordinateSystems, tomogram.coordinateSystems);
    OutOfBoundsEmptyIff(tc.value.0, b);
  }

  /**
   * A bounds failure reports how many points are outside the box and lists
   * the indices of the first five of them, ascending; each listed point is
   * outside the box.
   */
  lemma {:induction false} ViolationReport(rule: TargetRule, annotation: PointAnnotation, tomogram: Tomogram, lower: string -> string, total: nat, shown: seq<nat>)
    requires Validate(rule, annotation, tomogram, lower) == Err(ValueError(PointsOutOfBounds(total, shown)))
    ensures total >= 1
    ensures |shown| == if total < 5 then total else 5
    ensures var tc := TransformedCoordinates(rule, annotation.origin3D, annotation.coordinateTransformations,
                                             annotation.coordinateSystems, tomogram.coordinateSystems);
            tc.Ok? && ChooseBounds(tomogram, tc.value.1, lower).Ok?
            && ChooseBounds(tomogram, tc.value.1, lower).value.Check?
            && (forall k :: 0 <= k < |shown| ==>
                  shown[k] < |tc.value.0| && !Inside(tc.value.0[shown[k]], ChooseBounds(tomogram, tc.value.1, lower).value.bounds))
            && (forall k, l :: 0 <= k < l < |shown| ==> shown[k] < shown[l])
  {
    var tc := TransformedCoordinates(rule, annotation.origin3D, annotation.coordinateTransformations,
                                     annotation.coordinateSystems, tomogram.coordinateSystems);
    assert tc.Ok?;
    var choice := ChooseBounds(tomogram, tc.value.1, lower);
    assert choice.Ok? && choice.value.Check?;
    var oob := OutOfBounds(tc.value.0, choice.value.bounds, |tc.value.0|);
    assert oob != [] && total == |oob| && shown == Shown(oob);
  }

  /** Points exactly on the box's faces pass: the check is closed at both ends. */
  lemma {:induction false} ClosedBoxBoundary(t: Tomogram)
    requires DimensionsKnown(t) && t.width.value > 0 && t.height.value > 0 && t.depth.value > 0
    ensures Inside(Point3(0.0, 0.0, 0.0), VoxelBounds(t))
    ensures Inside(Point3(t.width.value as real, t.height.value as real, t.depth.value as real), VoxelBounds(t))
    ensures !Inside(Point3(t.width.value as real + 1.0, 0.0, 0.0), VoxelBounds(t))
  {
  }

  function Named(name: string): CoordinateSystem { CoordinateSystem(Some(name), []) }

  /** Frames "A" and "B" shared with no transformation are ambiguous; "A" against "B" share nothing. */
  lemma {:induction false} AmbiguityAndNoCommonFrame()
    ensures CheckWithoutTransformation([Named("A"), Named("B")], [Named("A"), Named("B")]) == Err(ValueError(MultipleCommonFrames))
    ensures CheckWithoutTransformation([Named("A")], [Named("B")]) == Err(ValueError(NoCommonFrame))
  {
    assert CsNames([Named("A"), Named("B")]) == {"A", "B"} by {
      assert Named("A") == [Named("A"), Named("B")][0];
      assert Named("B") == [Named("A"), Named("B")][1];
    }
    assert |{"A", "B"}| == 2;
    assert CsNames([Named("A")]) == {"A"} by {
      assert Named("A") == [Named("A")][0];
    }
    assert CsNames([Named("B")]) == {"B"} by {
      assert Named("B") == [Named("B")][0];
    }
  }

  /** A transformation bridges whichever way round it is declared. */
  lemma {:induction false} BridgingIsSymmetric(t: Transformation, anno: set<string>, tomo: set<string>)
    requires Present(t.input) && Present(t.output)
    ensures Bridges(t, anno, tomo) == Bridges(t.(input := t.output, output := t.input), anno, tomo)
  {
  }

  const ExampleScale := Transformation(Some("scale"), Some([2.0, 2.0, 2.0]), None, Some("voxel"), Some("physical"))
  const ExampleTomogram := Tomogram(Some(10), Some(10), Some(10), [Named("voxel"), Named("physical")], [ExampleScale])

  const ExampleBox := Bounds(Interval(0.0, 20.0), Interval(0.0, 20.0), Interval(0.0, 20.0))

  lemma {:induction false} ExampleFrames()
    ensures CsNames(ExampleTomogram.coordinateSystems) == {"voxel", "physical"}
    ensures CsNames([Named("voxel")]) == {"voxel"}
  {
    var tomoCs := ExampleTomogram.coordinateSystems;
    assert Named("voxel") == tomoCs[0];
    assert Named("physical") == tomoCs[1];
    assert Named("voxel") == [Named("voxel")][0];
  }

  /** The worked example's resolution: the scale bridges "voxel" to "physical" and doubles every component. */
  lemma {:induction false} WorkedExampleResolve(p: Point3)
    ensures TransformedCoordinates(AsWritten, [p], [ExampleScale], [Named("voxel")], ExampleTomogram.coordinateSystems)
            == Ok(([Point3(p.x * 2.0, p.y * 2.0, p.z * 2.0)], "physical"))
  {
    ExampleFrames();
    assert Bridges(ExampleScale, {"voxel"}, {"voxel", "physical"});
    assert FindBridge(AsWritten, [ExampleScale], {"voxel"}, {"voxel", "physical"}) == Ok((ExampleScale, "physical"));
    assert ScaleAll([p], [2.0, 2.0, 2.0]) == [Point3(p.x * 2.0, p.y * 2.0, p.z * 2.0)];
  }

  /** The worked example's bounds: "physical" is not a voxel frame, so the box is 10 x 10 x 10 scaled by 2. */
  lemma {:induction false} WorkedExampleBounds(lower: string -> string)
    requires lower("physical") == "physical"
    ensures ChooseBounds(ExampleTomogram, "physical", lower) == Ok(Check(ExampleBox))
  {
    ContainsNeedsFirstChar("physical", "voxel");
    assert FirstScaleTo(ExampleTomogram.coordinateTransformations, "physical") == Some(0);
  }

  /**
   * The worked example: the point (1, 2, 3) in "voxel", scaled by 2 into
   * "physical", lands on (2, 4, 6) and is inside the box (0, 20) on every
   * axis.
   */
  lemma {:induction false} WorkedExampleWithin(lower: string -> string)
    requires lower("physical") == "physical"
    ensures Validate(AsWritten, PointAnnotation([Point3(1.0, 2.0, 3.0)], [Named("voxel")], [ExampleScale]), ExampleTomogram, lower)
            == Ok(WithinBounds(ExampleBox))
  {
    ExampleFrames();
    WorkedExampleResolve(Point3(1.0, 2.0, 3.0));
    WorkedExampleBounds(lower);
    assert OutOfBounds([Point3(2.0, 4.0, 6.0)], ExampleBox, 1) == [];
  }

  /** The worked example's violation: (15, 2, 3) lands on (30, 4, 6) and is reported at index 0. */
  lemma {:induction false} WorkedExampleViolation(lower: string -> string)
    requires lower("physical") == "physical"
    ensures Validate(AsWritten, PointAnnotation([Point3(15.0, 2.0, 3.0)], [Named("voxel")], [ExampleScale]), ExampleTomogram, lower)
            == Err(ValueError(PointsOutOfBounds(1, [0])))
  {
    ExampleFrames();
    WorkedExampleResolve(Point3(15.0, 2.0, 3.0));
    WorkedExampleBounds(lower);
    assert OutOfBounds([Point3(30.0, 4.0, 6.0)], ExampleBox, 1) == [(0, Point3(30.0, 4.0, 6.0))];
    assert Shown([(0, Point3(30.0, 4.0, 6.0))]) == [0];
  }
}
