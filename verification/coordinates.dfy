/**
 * The records the coordinate-frame logic works on: 3D points, named
 * coordinate systems with their axes, and coordinate transformations.
 * A field that a record may lack (a dict key or a model attribute that is
 * absent) is an Option; reading it when absent is the source's KeyError or
 * AttributeError.
 */
module Coordinates {
  import opened Wrappers

  datatype Point3 = Point3(x: real, y: real, z: real)

  datatype Point2 = Point2(x: real, y: real)

  datatype Axis = Axis(name: string, axisUnit: string, axisType: string)

  datatype CoordinateSystem = CoordinateSystem(name: Option<string>, axes: seq<Axis>)

  datatype Transformation = Transformation(
    transformationType: Option<string>,
    scale: Option<seq<real>>,
    name: Option<string>,
    input: Option<string>,
    output: Option<string>)

  /** The point multiplied component by component by the first three scale factors. */
  function ScalePoint(p: Point3, s: seq<real>): Point3
    requires |s| >= 3
  {
    Point3(p.x * s[0], p.y * s[1], p.z * s[2])
  }

  /** Every point scaled, in the same order. */
  function ScaleAll(points: seq<Point3>, s: seq<real>): (r: seq<Point3>)
    requires |s| >= 3
  {
    seq(|points|, i requires 0 <= i < |points| => ScalePoint(points[i], s))
  }
}
