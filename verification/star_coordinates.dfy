/**
 * Reading point coordinates and a pixel size from the records of a STAR
 * annotation file (empiar_to_cets/utils/annotation_utils.py). Each record is
 * a dict from column name to value, as `json.load` yields it; reading the
 * file and downloading it are not part of this model.
 */
module AnnotationUtils {
  import opened Wrappers
  import opened Coordinates
  import opened PyValues

  type Record = map<string, Value>

  /** A STAR table: its column names and its rows, in file order. */
  datatype StarTable = StarTable(columns: set<string>, rows: seq<Record>)

  /** The row's cell in the column; a row that lacks the column holds a missing value, equal to no string. */
  predicate RowMatches(row: Record, column: string, imageName: string) {
    Get(row, column) == VStr(imageName)
  }

  /** The indices of the matching rows among the first n, ascending. */
  function MatchingIndices(rows: seq<Record>, column: string, imageName: string, n: nat): (r: seq<nat>)
    requires n <= |rows|
    ensures |r| <= n
    ensures forall k :: 0 <= k < |r| ==> r[k] < n && RowMatches(rows[r[k]], column, imageName)
    ensures forall k, l :: 0 <= k < l < |r| ==> r[k] < r[l]
    ensures forall i :: 0 <= i < n && RowMatches(rows[i], column, imageName) ==> i in r
    decreases n
  {
    if n == 0 then []
    else MatchingIndices(rows, column, imageName, n - 1) + if RowMatches(rows[n - 1], column, imageName) then [n - 1] else []
  }

  /** The first n rows whose cell in the column equals the image name. */
  function MatchingRows(rows: seq<Record>, column: string, imageName: string, n: nat): (r: seq<Record>)
    requires n <= |rows|
    ensures |r| <= n
    decreases n
  {
    if n == 0 then []
    else
      var prev := MatchingRows(rows, column, imageName, n - 1);
      if RowMatches(rows[n - 1], column, imageName) then prev + [rows[n - 1]] else prev
  }

  /** Each matching row is kept as often as it occurs among the first n rows, and no other row is kept. */
  lemma {:induction false} MatchingRowsCount(rows: seq<Record>, column: string, imageName: string, n: nat)
    requires n <= |rows|
    ensures forall x :: multiset(MatchingRows(rows, column, imageName, n))[x]
                        == if RowMatches(x, column, imageName) then multiset(rows[..n])[x] else 0
    decreases n
  {
    if n > 0 {
      MatchingRowsCount(rows, column, imageName, n - 1);
      assert rows[..n] == rows[..n - 1] + [rows[n - 1]];
    }
  }

  /** The matching rows keep table order: entry k is the row at the k-th matching index. */
  lemma {:induction false} MatchingRowsInOrder(rows: seq<Record>, column: string, imageName: string, n: nat)
    requires n <= |rows|
    ensures var r, idx := MatchingRows(rows, column, imageName, n), MatchingIndices(rows, column, imageName, n);
      |r| == |idx| && forall k :: 0 <= k < |idx| ==> r[k] == rows[idx[k]]
    decreases n
  {
    if n > 0 {
      MatchingRowsInOrder(rows, column, imageName, n - 1);
    }
  }

  /**
   * `filter_starfile_df`: the rows whose tomogram-column cell equals the
   * image name, in table order and each as often as in the table; a column
   * the table does not have raises KeyError.
   */
  function FilterStarTable(table: StarTable, column: string, imageName: string): (r: Result<StarTable>)
    ensures r.Err? <==> column !in table.columns
    ensures r.Err? ==> r.error == KeyError(column)
    ensures r.Ok? ==> (r.value.columns == table.columns && |r.value.rows| <= |table.rows|
                        && forall x :: multiset(r.value.rows)[x] == if RowMatches(x, column, imageName) then multiset(table.rows)[x] else 0)
    ensures r.Ok? ==> var idx := MatchingIndices(table.rows, column, imageName, |table.rows|);
      |r.value.rows| == |idx| && forall k :: 0 <= k < |idx| ==> r.value.rows[k] == table.rows[idx[k]]
  {
    if column !in table.columns then Err(KeyError(column))
    else
      assert table.rows[..|table.rows|] == table.rows;
      MatchingRowsCount(table.rows, column, imageName, |table.rows|);
      MatchingRowsInOrder(table.rows, column, imageName, |table.rows|);
      Ok(StarTable(table.columns, MatchingRows(table.rows, column, imageName, |table.rows|)))
  }

  /** A record with all three coordinates present and not None. */
  predicate Complete(rec: Record) {
    Get(rec, "rlnCoordinateX") != VNone && Get(rec, "rlnCoordinateY") != VNone && Get(rec, "rlnCoordinateZ") != VNone
  }

  /** The point of a complete record: `float(x)`, `float(y)`, `float(z)`, converted in that order. */
  function RecordPoint(rec: Record, parseFloat: string -> Option<real>): (r: Result<Point3>)
    ensures r.Ok? <==> (ToFloat(Get(rec, "rlnCoordinateX"), parseFloat).Ok?
                         && ToFloat(Get(rec, "rlnCoordinateY"), parseFloat).Ok? && ToFloat(Get(rec, "rlnCoordinateZ"), parseFloat).Ok?)
    ensures r.Ok? ==> r.value == Point3(ToFloat(Get(rec, "rlnCoordinateX"), parseFloat).value,
                                        ToFloat(Get(rec, "rlnCoordinateY"), parseFloat).value,
                                        ToFloat(Get(rec, "rlnCoordinateZ"), parseFloat).value)
  {
    var x :- ToFloat(Get(rec, "rlnCoordinateX"), parseFloat);
    var y :- ToFloat(Get(rec, "rlnCoordinateY"), parseFloat);
    var z :- ToFloat(Get(rec, "rlnCoordinateZ"), parseFloat);
    Ok(Point3(x, y, z))
  }

  /** The indices of the complete records among the first n, ascending. */
  function CompleteIndices(records: seq<Record>, n: nat): (r: seq<nat>)
    requires n <= |records|
    ensures |r| <= n
    ensures forall k :: 0 <= k < |r| ==> r[k] < n && Complete(records[r[k]])
    ensures forall k, l :: 0 <= k < l < |r| ==> r[k] < r[l]
    ensures forall i :: 0 <= i < n && Complete(records[i]) ==> i in r
    decreases n
  {
    if n == 0 then []
    else CompleteIndices(records, n - 1) + if Complete(records[n - 1]) then [n - 1] else []
  }

  /** What extraction yields from the first n records: the points of the complete ones, or the first conversion error. */
  function Extracted(records: seq<Record>, n: nat, parseFloat: string -> Option<real>): Result<seq<Point3>>
    requires n <= |records|
    decreases n
  {
    if n == 0 then Ok([])
    else
      var prev :- Extracted(records, n - 1, parseFloat);
      if Complete(records[n - 1]) then
        var p :- RecordPoint(records[n - 1], parseFloat);
        Ok(prev + [p])
      else Ok(prev)
  }

  /**
   * Extraction succeeds exactly when every complete record converts, and
   * then holds one point per complete record, in record order.
   */
  lemma {:induction false} ExtractedShape(records: seq<Record>, n: nat, parseFloat: string -> Option<real>)
    requires n <= |records|
    ensures Extracted(records, n, parseFloat).Ok? <==>
      forall i :: 0 <= i < n && Complete(records[i]) ==> RecordPoint(records[i], parseFloat).Ok?
    ensures Extracted(records, n, parseFloat).Ok? ==>
      var r, idx := Extracted(records, n, parseFloat).value, CompleteIndices(records, n);
      |r| == |idx| && forall k :: 0 <= k < |idx| ==> RecordPoint(records[idx[k]], parseFloat).Ok? && r[k] == RecordPoint(records[idx[k]], parseFloat).value
    decreases n
  {
    if n > 0 {
      ExtractedShape(records, n - 1, parseFloat);
    }
  }

  /** One more record: skipped when incomplete, otherwise its point is appended or its conversion error returned. */
  lemma {:induction false} ExtractedStep(records: seq<Record>, i: nat, parseFloat: string -> Option<real>)
    requires i < |records| && Extracted(records, i, parseFloat).Ok?
    ensures !Complete(records[i]) ==> Extracted(records, i + 1, parseFloat) == Extracted(records, i, parseFloat)
    ensures Complete(records[i]) && RecordPoint(records[i], parseFloat).Err? ==>
      Extracted(records, i + 1, parseFloat) == Err(RecordPoint(records[i], parseFloat).error)
    ensures Complete(records[i]) && RecordPoint(records[i], parseFloat).Ok? ==>
      Extracted(records, i + 1, parseFloat) == Ok(Extracted(records, i, parseFloat).value + [RecordPoint(records[i], parseFloat).value])
  {
  }

  /** Once a conversion fails, extracting more records fails with the same error. */
  lemma {:induction false} ExtractedErrorPersists(records: seq<Record>, n: nat, m: nat, parseFloat: string -> Option<real>)
    requires n <= m <= |records|
    requires Extracted(records, n, parseFloat).Err?
    ensures Extracted(records, m, parseFloat) == Extracted(records, n, parseFloat)
    decreases m - n
  {
    if n < m {
      ExtractedErrorPersists(records, n, m - 1, parseFloat);
    }
  }

  /**
   * `extract_coordinates_from_star_json`: appends, in record order, the point
   * of every record whose three coordinates are present; a coordinate that
   * `float` rejects raises.
   */
  method ExtractCoordinates(records: seq<Record>, parseFloat: string -> Option<real>) returns (r: Result<seq<Point3>>)
    ensures r == Extracted(records, |records|, parseFloat)
    ensures r.Ok? ==> |r.value| <= |records|
  {
    var coordinates: seq<Point3> := [];
    var i := 0;
    while i < |records|
      invariant 0 <= i <= |records|
      invariant Extracted(records, i, parseFloat) == Ok(coordinates)
    {
      ExtractedStep(records, i, parseFloat);
      var entry := records[i];
      var x, y, z := Get(entry, "rlnCoordinateX"), Get(entry, "rlnCoordinateY"), Get(entry, "rlnCoordinateZ");
      if x != VNone && y != VNone && z != VNone {
        var p := RecordPoint(entry, parseFloat);
        if p.Err? {
          ExtractedErrorPersists(records, i + 1, |records|, parseFloat);
          return Err(p.error);
        }
        coordinates := coordinates + [p.value];
      }
      i := i + 1;
    }
    ExtractedShape(records, |records|, parseFloat);
    return Ok(coordinates);
  }

  /**
   * `identify_pixel_unit_for_star_coordinates`: the value under the first of
   * rlnPixelSize, rlnImagePixelSize, _pixelSize the record has, as a float;
   * None when it has none of them.
   */
  function PixelUnit(rec: Record, parseFloat: string -> Option<real>): (r: Result<Option<real>>)
    ensures r == Ok(None) <==> "rlnPixelSize" !in rec && "rlnImagePixelSize" !in rec && "_pixelSize" !in rec
    ensures "rlnPixelSize" in rec ==>
      (r.Ok? == ToFloat(rec["rlnPixelSize"], parseFloat).Ok?
       && (r.Ok? ==> r.value == Some(ToFloat(rec["rlnPixelSize"], parseFloat).value)))
    ensures "rlnPixelSize" !in rec && "rlnImagePixelSize" in rec ==>
      (r.Ok? == ToFloat(rec["rlnImagePixelSize"], parseFloat).Ok?
       && (r.Ok? ==> r.value == Some(ToFloat(rec["rlnImagePixelSize"], parseFloat).value)))
    ensures "rlnPixelSize" !in rec && "rlnImagePixelSize" !in rec && "_pixelSize" in rec ==>
      (r.Ok? == ToFloat(rec["_pixelSize"], parseFloat).Ok?
       && (r.Ok? ==> r.value == Some(ToFloat(rec["_pixelSize"], parseFloat).value)))
  {
    var keys := ["rlnPixelSize", "rlnImagePixelSize", "_pixelSize"];
    FirstKeyValueStep(rec, keys, parseFloat);
    FirstKeyValueStep(rec, keys[1..], parseFloat);
    FirstKeyValueStep(rec, keys[2..], parseFloat);
    assert keys[1..][1..] == keys[2..] && keys[2..][1..] == [];
    FirstKeyValue(rec, keys, parseFloat)
  }

  /** The first-match loop over the candidate keys: None exactly when the record has none of them. */
  function FirstKeyValue(rec: Record, keys: seq<string>, parseFloat: string -> Option<real>): (r: Result<Option<real>>)
    ensures r == Ok(None) <==> forall k :: 0 <= k < |keys| ==> keys[k] !in rec
    decreases |keys|
  {
    if |keys| == 0 then Ok(None)
    else if keys[0] in rec then
      var f :- ToFloat(rec[keys[0]], parseFloat);
      Ok(Some(f))
    else
      assert forall k :: 1 <= k < |keys| ==> keys[k] == keys[1..][k - 1];
      FirstKeyValue(rec, keys[1..], parseFloat)
  }

  /** The first candidate key the record holds decides: its value is converted with `float`; an absent key passes to the next. */
  lemma {:induction false} FirstKeyValueStep(rec: Record, keys: seq<string>, parseFloat: string -> Option<real>)
    requires |keys| > 0
    ensures keys[0] in rec ==> FirstKeyValue(rec, keys, parseFloat) == (var f :- ToFloat(rec[keys[0]], parseFloat); Ok(Some(f)))
    ensures keys[0] !in rec ==> FirstKeyValue(rec, keys, parseFloat) == FirstKeyValue(rec, keys[1..], parseFloat)
  {
  }

  /** The pixel size the function hands back: a falsy float as it is, a truthy one as a triple. */
  datatype PixelSizeValue = Single(p: real) | PerAxis(sizes: seq<real>)

  /**
   * The part of `get_coordinates_and_units_from_star_json` after the file is
   * read: the coordinates, and the pixel size of the first record expanded to
   * (p, p, p) when it is truthy; a pixel size of 0.0 is falsy and handed back
   * as it is. No records is an IndexError.
   */
  method CoordinatesAndUnits(records: seq<Record>, parseFloat: string -> Option<real>)
    returns (r: Result<(seq<Point3>, Option<PixelSizeValue>)>)
    ensures r.Ok? <==>
      (Extracted(records, |records|, parseFloat).Ok? && records != [] && PixelUnit(records[0], parseFloat).Ok?)
    ensures Extracted(records, |records|, parseFloat).Err? ==> r == Err(Extracted(records, |records|, parseFloat).error)
    ensures Extracted(records, |records|, parseFloat).Ok? && records == [] ==> r == Err(IndexError)
    ensures Extracted(records, |records|, parseFloat).Ok? && records != [] && PixelUnit(records[0], parseFloat).Err? ==>
      r == Err(PixelUnit(records[0], parseFloat).error)
    ensures r.Ok? ==> Extracted(records, |records|, parseFloat) == Ok(r.value.0)
    ensures r.Ok? ==> match PixelUnit(records[0], parseFloat).value
      case Some(p) => r.value.1 == Some(if p != 0.0 then PerAxis([p, p, p]) else Single(p))
      case None => r.value.1 == None
  {
    var coordinates := ExtractCoordinates(records, parseFloat);
    if coordinates.Err? {
      return Err(coordinates.error);
    }
    if records == [] {
      return Err(IndexError);
    }
    var pixelSize := PixelUnit(records[0], parseFloat);
    if pixelSize.Err? {
      return Err(pixelSize.error);
    }
    var size: Option<PixelSizeValue> := None;
    if pixelSize.value.Some? {
      var p := pixelSize.value.value;
      size := Some(if p != 0.0 then PerAxis([p, p, p]) else Single(p));
    }
    return Ok((coordinates.value, size));
  }
}
