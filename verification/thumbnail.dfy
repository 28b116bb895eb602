/**
 * The older thumbnail projection (thumbnail.py). Its depth window divides
 * the distance from the centre plane by the depth, so a zero depth with
 * any points to filter is a ZeroDivisionError; the newer revision in
 * ThumbnailImageUtils multiplies instead. For a positive depth the two agree.
 */
module Thumbnail {
  import opened Wrappers
  import opened Coordinates
  import ThumbnailImageUtils

  /** The older window: |z − depth/2| / depth ≤ limit. */
  function InRelativeWindow(depth: real, limit: real): Point3 -> bool
    requires depth != 0.0
  {
    (p: Point3) => ThumbnailImageUtils.Abs(p.z - depth / 2.0) / depth <= limit
  }

  /**
   * `project_and_scale_coordinates`: the shape is (depth, width, height); the
   * points in the window keep their order, lose z and are scaled by thumbnail
   * width / width and thumbnail height / height. The depth is divided by only
   * when there are points, the width and height always.
   */
  function ProjectAndScale(coords: seq<Point3>, shape: (int, int, int), thumbnail: (int, int), limit: real)
    : (r: Result<seq<Point2>>)
    ensures r.Ok? <==> (coords == [] || shape.0 != 0) && shape.1 != 0 && shape.2 != 0
    ensures r.Err? ==> r.error == ZeroDivisionError
    ensures r.Ok? && coords != [] ==> var idx := ThumbnailImageUtils.KeptIndices(coords, InRelativeWindow(shape.0 as real, limit), |coords|);
      |r.value| == |idx| && |idx| <= |coords| && forall k :: 0 <= k < |idx| ==>
        ThumbnailImageUtils.Abs(coords[idx[k]].z - shape.0 as real / 2.0) / shape.0 as real <= limit
        && r.value[k] == Point2(coords[idx[k]].x * (thumbnail.0 as real / shape.1 as real),
                                coords[idx[k]].y * (thumbnail.1 as real / shape.2 as real))
    ensures r.Ok? && coords == [] ==> r.value == []
  {
    var (depth, width, height) := shape;
    if coords != [] && depth == 0 then Err(ZeroDivisionError)
    else
      var coords2d := if coords == [] then [] else ThumbnailImageUtils.Project2D(coords, InRelativeWindow(depth as real, limit), |coords|);
      if width == 0 || height == 0 then Err(ZeroDivisionError)
      else
        var sx := thumbnail.0 as real / width as real;
        var sy := thumbnail.1 as real / height as real;
        Ok(seq(|coords2d|, k requires 0 <= k < |coords2d| => Point2(coords2d[k].x * sx, coords2d[k].y * sy)))
  }

  /** For a positive depth the two windows keep the same points. */
  lemma {:induction false} WindowsAgree(depth: real, limit: real, p: Point3)
    requires depth > 0.0
    ensures InRelativeWindow(depth, limit)(p) == ThumbnailImageUtils.InDepthWindow(depth, limit)(p)
  {
    var a := ThumbnailImageUtils.Abs(p.z - depth / 2.0);
    var q := a / depth;
    assert a == q * depth;
    ScaleByPositive(q, limit, depth);
  }

  lemma {:induction false} ScaleByPositive(x: real, y: real, d: real)
    requires d > 0.0
    ensures x <= y <==> x * d <= d * y
  {
    assert y * d - x * d == (y - x) * d;
    if x <= y {
      assert (y - x) * d >= 0.0;
    } else {
      assert (x - y) * d > 0.0;
    }
  }

  /** The kept indices depend only on which points the window keeps. */
  lemma {:induction false} SameWindowSameIndices(coords: seq<Point3>, keep1: Point3 -> bool, keep2: Point3 -> bool, n: nat)
    requires n <= |coords|
    requires forall i :: 0 <= i < n ==> keep1(coords[i]) == keep2(coords[i])
    ensures ThumbnailImageUtils.KeptIndices(coords, keep1, n) == ThumbnailImageUtils.KeptIndices(coords, keep2, n)
    ensures ThumbnailImageUtils.Project2D(coords, keep1, n) == ThumbnailImageUtils.Project2D(coords, keep2, n)
    decreases n
  {
    if n > 0 {
      SameWindowSameIndices(coords, keep1, keep2, n - 1);
    }
  }

  /** For a positive depth the older and the newer projection give the same thumbnail points. */
  lemma {:induction false} RevisionsAgree(coords: seq<Point3>, shape: (int, int, int), thumbnail: (int, int), limit: real)
    requires shape.0 > 0
    ensures ProjectAndScale(coords, shape, thumbnail, limit) == ThumbnailImageUtils.ProjectAndScale(coords, shape, thumbnail, limit)
  {
    var depth := shape.0 as real;
    forall i | 0 <= i < |coords|
      ensures InRelativeWindow(depth, limit)(coords[i]) == ThumbnailImageUtils.InDepthWindow(depth, limit)(coords[i])
    {
      WindowsAgree(depth, limit, coords[i]);
    }
    SameWindowSameIndices(coords, InRelativeWindow(depth, limit), ThumbnailImageUtils.InDepthWindow(depth, limit), |coords|);
  }

  /** A zero depth divides by zero as soon as there is a point to filter; the newer revision accepts it. */
  lemma {:induction false} ZeroDepthDiffers(p: Point3)
    ensures ProjectAndScale([p], (0, 1, 1), (1, 1), 0.5) == Err(ZeroDivisionError)
    ensures ThumbnailImageUtils.ProjectAndScale([p], (0, 1, 1), (1, 1), 0.5).Ok?
  {
  }
}
