/**
 * The transformation builder, dict revision (conversion/coordinate_transformation.py).
 * Only the "scale" kind exists. `str(float)`, used to spell the scale values
 * into the transformation's name, is the interpreter's and is a parameter.
 */
module CoordinateTransformationBuilder {
  import opened Wrappers
  import opened Coordinates
  import Text

  /** The name the builder derives: input, "_to_", output, "_scale_", then the factors joined by "_". */
  function ScaleName(input: string, output: string, scale: seq<real>, str: real -> string): string {
    input + "_to_" + output + "_scale_" + Text.Join(seq(|scale|, i requires 0 <= i < |scale| => str(scale[i])), "_")
  }

  /** `make_scale_transformation`: a scale record carrying the factors and frames exactly as given. */
  function MakeScaleTransformation(input: string, output: string, scale: seq<real>, str: real -> string): (t: Transformation)
    ensures t.transformationType == Some("scale")
    ensures t.scale == Some(scale) && t.input == Some(input) && t.output == Some(output)
    ensures t.name == Some(ScaleName(input, output, scale, str))
    ensures Text.StartsWith(t.name.value, input + "_to_" + output + "_scale_")
  {
    var name := ScaleName(input, output, scale, str);
    assert name == (input + "_to_" + output + "_scale_") + Text.Join(seq(|scale|, i requires 0 <= i < |scale| => str(scale[i])), "_");
    Transformation(Some("scale"), Some(scale), Some(name), Some(input), Some(output))
  }

  /**
   * `make_coordinate_transformation`: the kind is checked first (anything but
   * "scale" is a ValueError), then `params[0]` (IndexError when there are no
   * parameters), which must hold exactly three factors.
   */
  function MakeCoordinateTransformation(kind: string, input: string, output: string, params: seq<seq<real>>, str: real -> string)
    : (r: Result<Transformation>)
    ensures kind != "scale" ==> r == Err(ValueError(UnsupportedTransformationType(kind)))
    ensures kind == "scale" && |params| == 0 ==> r == Err(IndexError)
    ensures kind == "scale" && |params| > 0 && |params[0]| != 3 ==> r == Err(ValueError(ScaleNeedsThreeParameters))
    ensures r.Ok? <==> kind == "scale" && |params| > 0 && |params[0]| == 3
    ensures r.Ok? ==> r.value == MakeScaleTransformation(input, output, params[0], str)
  {
    if kind == "scale" then
      if |params| == 0 then Err(IndexError)
      else if |params[0]| != 3 then Err(ValueError(ScaleNeedsThreeParameters))
      else Ok(MakeScaleTransformation(input, output, params[0], str))
    else Err(ValueError(UnsupportedTransformationType(kind)))
  }
}

/**
 * The transformation builder, model revision
 * (entity_conversion/coordinate_transformation.py): the same rules, building
 * a Scale record instead of a dict.
 */
module EntityCoordinateTransformationBuilder {
  import opened Wrappers
  import opened Coordinates
  import Text
  import CoordinateTransformationBuilder

  function MakeScaleTransformation(input: string, output: string, scale: seq<real>, str: real -> string): (t: Transformation)
    ensures t.transformationType == Some("scale")
    ensures t.scale == Some(scale) && t.input == Some(input) && t.output == Some(output)
    ensures t.name == Some(CoordinateTransformationBuilder.ScaleName(input, output, scale, str))
  {
    Transformation(Some("scale"), Some(scale),
      Some(input + "_to_" + output + "_scale_" + Text.Join(seq(|scale|, i requires 0 <= i < |scale| => str(scale[i])), "_")),
      Some(input), Some(output))
  }

  function MakeCoordinateTransformation(kind: string, input: string, output: string, params: seq<seq<real>>, str: real -> string)
    : (r: Result<Transformation>)
    ensures kind != "scale" ==> r == Err(ValueError(UnsupportedTransformationType(kind)))
    ensures kind == "scale" && |params| == 0 ==> r == Err(IndexError)
    ensures kind == "scale" && |params| > 0 && |params[0]| != 3 ==> r == Err(ValueError(ScaleNeedsThreeParameters))
    ensures r.Ok? <==> kind == "scale" && |params| > 0 && |params[0]| == 3
    ensures r.Ok? ==> r.value == MakeScaleTransformation(input, output, params[0], str)
  {
    if kind == "scale" then
      if |params| == 0 then Err(IndexError)
      else if |params[0]| != 3 then Err(ValueError(ScaleNeedsThreeParameters))
      else Ok(MakeScaleTransformation(input, output, params[0], str))
    else Err(ValueError(UnsupportedTransformationType(kind)))
  }

  /** The two revisions build the same transformation, or fail the same way, on every input. */
  lemma {:induction false} RevisionsAgree(kind: string, input: string, output: string, params: seq<seq<real>>, str: real -> string)
    ensures MakeCoordinateTransformation(kind, input, output, params, str)
         == CoordinateTransformationBuilder.MakeCoordinateTransformation(kind, input, output, params, str)
  {
  }
}
