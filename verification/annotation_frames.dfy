/**
 * How the converter gives a new point annotation its coordinate systems and
 * transformations (conversion/annotation.py): a named default frame wins;
 * otherwise a pixel size puts the annotation in the physical frame, reusing
 * the tomogram's own voxel-to-physical scale when it is close to the pixel
 * size and building a new one otherwise; with neither the annotation gets no
 * frames.
 */
module AnnotationConversion {
  import opened Wrappers
  import opened Coordinates
  import Registry = CoordinateSystemRegistry
  import Builder = CoordinateTransformationBuilder

  function Abs(x: real): real { if x < 0.0 then -x else x }

  /** numpy's closeness test with rtol 1e-05 and the given atol: |a − b| ≤ atol + rtol × |b|. */
  predicate Close(a: real, b: real, atol: real) {
    Abs(a - b) <= atol + Abs(b) / 100000.0
  }

  /**
   * `np.allclose(a, b, atol=atol)`. Equal lengths compare elementwise; a
   * length-1 side is broadcast against the other; any other pair of lengths
   * cannot be broadcast and raises ValueError.
   */
  function AllClose(a: seq<real>, b: seq<real>, atol: real): (r: Result<bool>)
    ensures r.Err? <==> |a| != |b| && |a| != 1 && |b| != 1
    ensures r.Err? ==> r.error == ValueError(ShapesNotBroadcastable)
    ensures |a| == |b| ==> r == Ok(forall i :: 0 <= i < |a| ==> Close(a[i], b[i], atol))
    ensures |a| == 1 && |b| != 1 ==> r == Ok(forall i :: 0 <= i < |b| ==> Close(a[0], b[i], atol))
    ensures |b| == 1 && |a| != 1 ==> r == Ok(forall i :: 0 <= i < |a| ==> Close(a[i], b[0], atol))
  {
    if |a| == |b| then Ok(forall i :: 0 <= i < |a| ==> Close(a[i], b[i], atol))
    else if |a| == 1 then Ok(forall i :: 0 <= i < |b| ==> Close(a[0], b[i], atol))
    else if |b| == 1 then Ok(forall i :: 0 <= i < |a| ==> Close(a[i], b[0], atol))
    else Err(ValueError(ShapesNotBroadcastable))
  }

  /** The `next(...)` over the tomogram's transformations: the first whose output is the physical frame. */
  function FirstToPhysical(ts: seq<Transformation>): (r: Option<nat>)
    ensures r.Some? ==> (r.value < |ts| && ts[r.value].output == Some(Registry.PHYSICAL_FRAME)
                          && forall k :: 0 <= k < r.value ==> ts[k].output != Some(Registry.PHYSICAL_FRAME))
    ensures r.None? ==> forall k :: 0 <= k < |ts| ==> ts[k].output != Some(Registry.PHYSICAL_FRAME)
    decreases |ts|
  {
    if |ts| == 0 then None
    else if ts[0].output == Some(Registry.PHYSICAL_FRAME) then Some(0)
    else
      var r := FirstToPhysical(ts[1..]);
      assert forall k :: 1 <= k < |ts| ==> ts[k] == ts[1..][k - 1];
      if r.Some? then Some(r.value + 1) else None
  }

  /** A name or a pixel size is "given" when it is truthy: present and not empty. */
  predicate Given<T>(o: Option<seq<T>>) { o.Some? && o.value != [] }

  /**
   * `create_new_annotation_coordinate_system_and_transformations`.
   * `tomogramTransformations` None stands for the source's None, read as [].
   */
  function NewAnnotationFrames(tomogramTransformations: Option<seq<Transformation>>, pixelSize: Option<seq<real>>,
                               defaultFrame: Option<string>, str: real -> string)
    : (r: Result<(seq<CoordinateSystem>, seq<Transformation>)>)
    // A default frame decides alone: its registry entry, or a ValueError when it is not registered.
    ensures Given(defaultFrame) && defaultFrame.value in Registry.CoordinateSystems() ==>
      r == Ok(([Registry.CoordinateSystems()[defaultFrame.value]], []))
    ensures Given(defaultFrame) && defaultFrame.value !in Registry.CoordinateSystems() ==>
      r == Err(ValueError(UnknownDefaultFrame(defaultFrame.value)))
    // Neither a default frame nor a pixel size: no frames at all.
    ensures !Given(defaultFrame) && !Given(pixelSize) ==> r == Ok(([], []))
    // With a pixel size the annotation lives in the physical frame, with one transformation into it.
    ensures !Given(defaultFrame) && Given(pixelSize) && r.Ok? ==>
      r.value.0 == [Registry.CoordinateSystems()[Registry.PHYSICAL_FRAME]]
      && |r.value.1| == 1 && r.value.1[0].output == Some(Registry.PHYSICAL_FRAME)
    // The tomogram's first transformation into the physical frame is reused when close to the pixel size ...
    ensures !Given(defaultFrame) && Given(pixelSize) ==>
      var ts := if tomogramTransformations.Some? then tomogramTransformations.value else [];
      var j := FirstToPhysical(ts);
      (j.Some? && ts[j.value].scale.None? ==> r == Err(KeyError("scale")))
      && (j.Some? && ts[j.value].scale.Some? && AllClose(ts[j.value].scale.value, pixelSize.value, 0.01) == Ok(true) ==>
            r.Ok? && r.value.1 == [ts[j.value]])
      // A scale that cannot be broadcast against the pixel size is np.allclose's ValueError.
      && (j.Some? && ts[j.value].scale.Some? && AllClose(ts[j.value].scale.value, pixelSize.value, 0.01).Err? ==>
            r == Err(ValueError(ShapesNotBroadcastable)))
    // ... and otherwise a new voxel-to-physical scale by the pixel size is built.
    ensures !Given(defaultFrame) && Given(pixelSize) ==>
      var ts := if tomogramTransformations.Some? then tomogramTransformations.value else [];
      var j := FirstToPhysical(ts);
      (j.None? || (ts[j.value].scale.Some? && AllClose(ts[j.value].scale.value, pixelSize.value, 0.01) == Ok(false))) ==>
        (r.Ok? <==> |pixelSize.value| == 3)
        && (r.Ok? ==> r.value.1 == [Builder.MakeScaleTransformation(Registry.VOXEL_FRAME, Registry.PHYSICAL_FRAME, pixelSize.value, str)])
        && (r.Err? ==> r.error == ValueError(ScaleNeedsThreeParameters))
  {
    if Given(defaultFrame) then
      var name := defaultFrame.value;
      if name !in Registry.CoordinateSystems() then Err(ValueError(UnknownDefaultFrame(name)))
      else Ok(([Registry.CoordinateSystems()[name]], []))
    else if Given(pixelSize) then
      var frames := [Registry.CoordinateSystems()[Registry.PHYSICAL_FRAME]];
      var ts := if tomogramTransformations.Some? then tomogramTransformations.value else [];
      var j := FirstToPhysical(ts);
      if j.Some? && ts[j.value].scale.None? then Err(KeyError("scale"))
      else
        var reuse :- if j.Some? then AllClose(ts[j.value].scale.value, pixelSize.value, 0.01) else Ok(false);
        if reuse then Ok((frames, [ts[j.value]]))
        else
          var t :- Builder.MakeCoordinateTransformation("scale", Registry.VOXEL_FRAME, Registry.PHYSICAL_FRAME,
                                                        [pixelSize.value], str);
          Ok((frames, [t]))
    else Ok(([], []))
  }

  /**
   * Whatever succeeds, the annotation's transformations all lead into one of
   * its own frames: each output names a coordinate system it was given.
   */
  lemma {:induction false} TransformationsLeadIntoOwnFrame(tomogramTransformations: Option<seq<Transformation>>, pixelSize: Option<seq<real>>,
                                        defaultFrame: Option<string>, str: real -> string)
    requires NewAnnotationFrames(tomogramTransformations, pixelSize, defaultFrame, str).Ok?
    ensures var (frames, ts) := NewAnnotationFrames(tomogramTransformations, pixelSize, defaultFrame, str).value;
      |frames| <= 1 && forall t :: t in ts ==> exists f :: f in frames && f.name == t.output
  {
    var (frames, ts) := NewAnnotationFrames(tomogramTransformations, pixelSize, defaultFrame, str).value;
    if ts != [] {
      assert frames == [Registry.CoordinateSystems()[Registry.PHYSICAL_FRAME]];
      assert frames[0].name == Some(Registry.PHYSICAL_FRAME);
    }
  }

  /**
   * An isotropic pixel size (p, p, p), as the STAR reader produces, is always
   * accepted: the only failures left are a matching tomogram transformation
   * without a scale, and one whose scale cannot be compared with three values.
   */
  lemma {:induction false} IsotropicPixelSizeAccepted(tomogramTransformations: Option<seq<Transformation>>, p: real, str: real -> string)
    ensures var r := NewAnnotationFrames(tomogramTransformations, Some([p, p, p]), None, str);
      r.Err? ==> r.error == KeyError("scale") || r.error == ValueError(ShapesNotBroadcastable)
  {
  }
}
