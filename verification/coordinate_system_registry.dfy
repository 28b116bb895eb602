/**
 * The built-in catalogue of coordinate systems, in the dict revision used by
 * the conversion code (`COORDINATE_SYSTEMS` of conversion/coordinate_system.py).
 * Axis types there are the axis letters X, Y, Z.
 */
module CoordinateSystemRegistry {
  import opened Wrappers
  import opened Coordinates

  const VOXEL_FRAME: string := "default_image_voxel"
  const PHYSICAL_FRAME: string := "physical_sampling_angstrom"

  function Frame(name: string, axisPrefix: string, unit: string): CoordinateSystem {
    CoordinateSystem(Some(name), [
      Axis(axisPrefix + " X", unit, "X"),
      Axis(axisPrefix + " Y", unit, "Y"),
      Axis(axisPrefix + " Z", unit, "Z")])
  }

  /** The registry: two frames, each filed under its own name, with X, Y, Z axes. */
  function CoordinateSystems(): (r: map<string, CoordinateSystem>)
    ensures r.Keys == {VOXEL_FRAME, PHYSICAL_FRAME}
    ensures forall k :: k in r ==> r[k].name == Some(k)
    ensures forall k :: k in r ==> |r[k].axes| == 3
    ensures forall k :: k in r ==>
      r[k].axes[0].axisType == "X" && r[k].axes[1].axisType == "Y" && r[k].axes[2].axisType == "Z"
    ensures forall i :: 0 <= i < 3 ==> r[VOXEL_FRAME].axes[i].axisUnit == "voxel"
    ensures forall i :: 0 <= i < 3 ==> r[PHYSICAL_FRAME].axes[i].axisUnit == "angstrom"
  {
    map[
      VOXEL_FRAME := Frame(VOXEL_FRAME, "default voxel axis", "voxel"),
      PHYSICAL_FRAME := Frame(PHYSICAL_FRAME, "physical sampling angstrom axis", "angstrom")]
  }
}

/**
 * The same catalogue in the revision that builds data-model records
 * (entity_conversion/coordinate_system.py): axis types are "array" for the
 * voxel frame and "space" for the physical frame.
 */
module EntityCoordinateSystemRegistry {
  import opened Wrappers
  import opened Coordinates

  const VOXEL_FRAME: string := "default_image_voxel"
  const PHYSICAL_FRAME: string := "physical_sampling_angstrom"

  function Frame(name: string, axisPrefix: string, unit: string, axisType: string): CoordinateSystem {
    CoordinateSystem(Some(name), [
      Axis(axisPrefix + " X", unit, axisType),
      Axis(axisPrefix + " Y", unit, axisType),
      Axis(axisPrefix + " Z", unit, axisType)])
  }

  /** The registry: two frames under their own names; voxel axes are arrays, physical axes are space. */
  function CoordinateSystems(): (r: map<string, CoordinateSystem>)
    ensures r.Keys == {VOXEL_FRAME, PHYSICAL_FRAME}
    ensures forall k :: k in r ==> r[k].name == Some(k)
    ensures forall k :: k in r ==> |r[k].axes| == 3
    ensures forall i :: 0 <= i < 3 ==>
      r[VOXEL_FRAME].axes[i].axisUnit == "voxel" && r[VOXEL_FRAME].axes[i].axisType == "array"
    ensures forall i :: 0 <= i < 3 ==>
      r[PHYSICAL_FRAME].axes[i].axisUnit == "angstrom" && r[PHYSICAL_FRAME].axes[i].axisType == "space"
  {
    map[
      VOXEL_FRAME := Frame(VOXEL_FRAME, "default voxel axis", "voxel", "array"),
      PHYSICAL_FRAME := Frame(PHYSICAL_FRAME, "physical sampling angstrom axis", "angstrom", "space")]
  }
}
