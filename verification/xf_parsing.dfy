/**
 * IMOD .xf alignment files (`parse_xf_file`, which the parsing module and
 * the older metadata_utils.py carry line for line the same). Every non-blank
 * line holding exactly six numbers a11 a12 a21 a22 dx dy becomes one
 * projection alignment: an affine rotation followed by a translation, named
 * after the line's index. Other lines are skipped.
 */
module XfParsing {
  import opened Wrappers
  import opened Text

  /** A transform dict inside an alignment sequence; keys the dict lacks are None. */
  datatype TransformRecord = TransformRecord(
    kind: Option<string>,
    name: Option<string>,
    input: Option<string>,
    output: Option<string>,
    affine: Option<seq<seq<real>>>,
    translation: Option<seq<real>>)

  /** A projection alignment dict: a named sequence of transforms. */
  datatype AlignmentRecord = AlignmentRecord(kind: Option<string>, name: Option<string>, sequence: Option<seq<TransformRecord>>)

  /** The dict `parse_xf_file` returns. */
  datatype AlignmentMetadata = AlignmentMetadata(projectionAlignments: Option<seq<AlignmentRecord>>)

  /** One line of an .xf file: the 2x2 rotation part and the shift of a projection. */
  datatype XfRow = XfRow(a11: real, a12: real, a21: real, a22: real, dx: real, dy: real)

  /** The six tokens of a stripped line, when it has exactly six and `float` accepts each. */
  function SixFloats(tokens: seq<string>, parseFloat: string -> Option<real>): (r: Option<XfRow>)
    ensures r.Some? <==> |tokens| == 6 && forall k :: 0 <= k < 6 ==> parseFloat(tokens[k]).Some?
    ensures r.Some? ==> [Some(r.value.a11), Some(r.value.a12), Some(r.value.a21), Some(r.value.a22), Some(r.value.dx), Some(r.value.dy)]
                        == seq(6, k requires 0 <= k < 6 => parseFloat(tokens[k]))
  {
    if |tokens| != 6 then None
    else if exists k :: 0 <= k < 6 && parseFloat(tokens[k]).None? then None
    else Some(XfRow(parseFloat(tokens[0]).value, parseFloat(tokens[1]).value, parseFloat(tokens[2]).value,
                    parseFloat(tokens[3]).value, parseFloat(tokens[4]).value, parseFloat(tokens[5]).value))
  }

  /** The values of one line of the file: its whitespace-separated tokens, read as six floats. */
  function XfValues(line: string, parseFloat: string -> Option<real>): Option<XfRow>
  {
    SixFloats(Words(Strip(line)), parseFloat)
  }

  /** The alignment built from line i's six values. */
  function AlignmentFor(i: nat, v: XfRow): AlignmentRecord
  {
    var index := IntToString(i);
    var affine := TransformRecord(Some("affine"), Some("rotation_projection_" + index), None,
                                  Some("rotated_projection_" + index),
                                  Some([[v.a11, v.a12, 0.0], [v.a21, v.a22, 0.0], [0.0, 0.0, 1.0]]), None);
    var translation := TransformRecord(Some("translation"), Some("translation_projection_" + index),
                                       Some("rotated_projection_" + index), None, None, Some([v.dx, v.dy]));
    AlignmentRecord(Some("sequence"), Some("alignment_projection_" + index), Some([affine, translation]))
  }

  /** The values of every line, in file order. */
  function LineValues(lines: seq<string>, parseFloat: string -> Option<real>): (r: seq<Option<XfRow>>)
    ensures |r| == |lines| && forall i :: 0 <= i < |lines| ==> r[i] == XfValues(lines[i], parseFloat)
  {
    seq(|lines|, i requires 0 <= i < |lines| => XfValues(lines[i], parseFloat))
  }

  /** The indices, among the first n lines, of lines holding six numbers, ascending. */
  function XfLineIndices(values: seq<Option<XfRow>>, n: nat): (r: seq<nat>)
    requires n <= |values|
    ensures |r| <= n
    ensures forall k :: 0 <= k < |r| ==> r[k] < n && values[r[k]].Some?
    ensures forall k, l :: 0 <= k < l < |r| ==> r[k] < r[l]
    ensures forall i :: 0 <= i < n && values[i].Some? ==> i in r
    decreases n
  {
    if n == 0 then []
    else XfLineIndices(values, n - 1) + if values[n - 1].Some? then [n - 1] else []
  }

  /** The alignments of the first n lines, given each line's values. */
  function XfAlignments(values: seq<Option<XfRow>>, n: nat): (r: seq<AlignmentRecord>)
    requires n <= |values|
    ensures var idx := XfLineIndices(values, n);
      |r| == |idx| && forall k :: 0 <= k < |r| ==> r[k] == AlignmentFor(idx[k], values[idx[k]].value)
    decreases n
  {
    if n == 0 then []
    else
      var v := values[n - 1];
      XfAlignments(values, n - 1) + if v.Some? then [AlignmentFor(n - 1, v.value)] else []
  }

  /** One more line adds its alignment when it holds six numbers, and nothing otherwise. */
  lemma {:induction false} XfAlignmentsStep(values: seq<Option<XfRow>>, i: nat)
    requires i < |values|
    ensures values[i].None? ==> XfAlignments(values, i + 1) == XfAlignments(values, i)
    ensures values[i].Some? ==> XfAlignments(values, i + 1) == XfAlignments(values, i) + [AlignmentFor(i, values[i].value)]
  {
  }

  /** The alignments read from a whole file. */
  function XfFile(lines: seq<string>, parseFloat: string -> Option<real>): seq<AlignmentRecord>
  {
    XfAlignments(LineValues(lines, parseFloat), |lines|)
  }

  /**
   * The per-line steps of `parse_xf_file`: strip, skip a blank line, split on
   * whitespace, skip unless six tokens, convert each with `float` and skip the
   * line if any conversion fails.
   */
  method ReadXfLine(line: string, parseFloat: string -> Option<real>) returns (parsed: Option<XfRow>)
    ensures parsed == XfValues(line, parseFloat)
    ensures parsed.Some? ==> |Words(Strip(line))| == 6
  {
    var stripped := Strip(line);
    if stripped == [] {
      assert Words(stripped) == [];
      return None;
    }
    var tokens := Words(stripped);
    if |tokens| != 6 {
      return None;
    }
    parsed := SixFloats(tokens, parseFloat);
  }

  /**
   * `parse_xf_file` on the file's lines: one alignment per line with six
   * numbers, in line order; blank lines, lines with another number of
   * tokens and lines with a token `float` rejects are skipped.
   */
  method ParseXfFile(lines: seq<string>, parseFloat: string -> Option<real>) returns (r: AlignmentMetadata)
    ensures r == AlignmentMetadata(Some(XfFile(lines, parseFloat)))
  {
    ghost var values := LineValues(lines, parseFloat);
    var projectionAlignments: seq<AlignmentRecord> := [];
    var i := 0;
    while i < |lines|
      invariant 0 <= i <= |lines|
      invariant projectionAlignments == XfAlignments(values, i)
    {
      XfAlignmentsStep(values, i);
      var parsed := ReadXfLine(lines[i], parseFloat);
      if parsed.Some? {
        projectionAlignments := projectionAlignments + [AlignmentFor(i, parsed.value)];
      }
      i := i + 1;
    }
    assert projectionAlignments == XfAlignments(values, |lines|);
    assert XfFile(lines, parseFloat) == XfAlignments(values, |lines|);
    return AlignmentMetadata(Some(projectionAlignments));
  }

  /** Distinct lines give distinct names: the index is spelled in decimal and read back unchanged. */
  lemma {:induction false} AlignmentNamesDistinct(i: nat, j: nat, v: XfRow, w: XfRow)
    requires i != j
    ensures AlignmentFor(i, v).name != AlignmentFor(j, w).name
  {
    var p := "alignment_projection_";
    var a, b := IntToString(i), IntToString(j);
    assert a != b by {
      assert DigitsToNat(a) == i && DigitsToNat(b) == j;
    }
    assert (p + a)[|p|..] == a;
    assert (p + b)[|p|..] == b;
  }

  /**
   * Every alignment read from an .xf file is an affine step into
   * "rotated_projection_i" followed by a translation out of it, with
   * the affine matrix's last row and column those of a 2D rotation.
   */
  lemma {:induction false} XfAlignmentShape(lines: seq<string>, parseFloat: string -> Option<real>, k: nat)
    requires k < |XfFile(lines, parseFloat)|
    ensures var a := XfFile(lines, parseFloat)[k];
      a.kind == Some("sequence") && a.sequence.Some? && |a.sequence.value| == 2
      && a.sequence.value[0].kind == Some("affine") && a.sequence.value[1].kind == Some("translation")
      && a.sequence.value[0].output == a.sequence.value[1].input
      && a.sequence.value[0].affine.Some? && |a.sequence.value[0].affine.value| == 3
      && a.sequence.value[0].affine.value[2] == [0.0, 0.0, 1.0]
      && a.sequence.value[1].translation.Some? && |a.sequence.value[1].translation.value| == 2
  {
  }
}
