/**
 * Turning parsed alignment metadata into the CETS alignment records
 * (`create_cets_alignment_from_alignment_metadata`, which cets/alignment.py
 * and conversion/alignment.py define identically). Every projection
 * alignment keeps, in order, its translation and affine steps, each reduced
 * to its parameters and name; steps of any other type are dropped.
 */
module CetsAlignment {
  import opened Wrappers
  import opened XfParsing
  import Text

  /** A CETS transformation step: a translation or an affine matrix, with its name. */
  datatype CetsTransform =
    | Translation(translation: seq<real>, name: string)
    | Affine(affine: seq<seq<real>>, name: string)

  /** A CETS projection alignment: its sequence of steps. */
  datatype ProjectionAlignment = ProjectionAlignment(sequence: seq<CetsTransform>)

  /** The CETS alignment record: all projection alignments of a tilt series. */
  datatype CetsAlignments = CetsAlignments(projectionAlignments: seq<ProjectionAlignment>)

  /** A step the conversion keeps. */
  predicate Kept(t: TransformRecord) {
    t.kind == Some("translation") || t.kind == Some("affine")
  }

  /**
   * One step: KeyError when it has no type; a translation reads its
   * translation and then its name, an affine step its matrix and then its
   * name; any other type is dropped (None).
   */
  function ConvertTransform(t: TransformRecord): (r: Result<Option<CetsTransform>>)
    ensures r.Ok? && r.value.Some? <==> Kept(t) && t.name.Some? && (t.kind == Some("translation") ==> t.translation.Some?)
                                        && (t.kind == Some("affine") ==> t.affine.Some?)
    ensures r == Ok(None) <==> t.kind.Some? && !Kept(t)
    ensures r.Ok? && r.value.Some? ==> r.value.value.name == t.name.value
    ensures r.Ok? && r.value.Some? && t.kind == Some("translation") ==> r.value.value == Translation(t.translation.value, t.name.value)
    ensures r.Ok? && r.value.Some? && t.kind == Some("affine") ==> r.value.value == Affine(t.affine.value, t.name.value)
    ensures t.kind.None? ==> r == Err(KeyError("type"))
    // The payload is read before the name, each with `t[key]`.
    ensures t.kind == Some("translation") && t.translation.None? ==> r == Err(KeyError("translation"))
    ensures t.kind == Some("affine") && t.affine.None? ==> r == Err(KeyError("affine"))
    ensures (Kept(t) && (t.kind == Some("translation") ==> t.translation.Some?) && (t.kind == Some("affine") ==> t.affine.Some?)
             && t.name.None?) ==> r == Err(KeyError("name"))
  {
    match t.kind
    case None => Err(KeyError("type"))
    case Some(kind) =>
      if kind == "translation" then
        if t.translation.None? then Err(KeyError("translation"))
        else if t.name.None? then Err(KeyError("name"))
        else Ok(Some(Translation(t.translation.value, t.name.value)))
      else if kind == "affine" then
        if t.affine.None? then Err(KeyError("affine"))
        else if t.name.None? then Err(KeyError("name"))
        else Ok(Some(Affine(t.affine.value, t.name.value)))
      else Ok(None)
  }

  /** The indices of the kept steps among the first n, ascending. */
  function KeptIndices(ts: seq<TransformRecord>, n: nat): (r: seq<nat>)
    requires n <= |ts|
    ensures |r| <= n
    ensures forall k :: 0 <= k < |r| ==> r[k] < n && Kept(ts[r[k]])
    ensures forall k, l :: 0 <= k < l < |r| ==> r[k] < r[l]
    ensures forall i :: 0 <= i < n && Kept(ts[i]) ==> i in r
    decreases n
  {
    if n == 0 then []
    else KeptIndices(ts, n - 1) + if Kept(ts[n - 1]) then [n - 1] else []
  }

  /** The converted first n steps, or the error of the first step that fails. */
  function ConvertSequence(ts: seq<TransformRecord>, n: nat): Result<seq<CetsTransform>>
    requires n <= |ts|
    decreases n
  {
    if n == 0 then Ok([])
    else
      var prev :- ConvertSequence(ts, n - 1);
      var step :- ConvertTransform(ts[n - 1]);
      if step.Some? then Ok(prev + [step.value]) else Ok(prev)
  }

  /**
   * The steps convert exactly when each one does, and then the result holds
   * the conversion of every kept step, in order.
   */
  lemma {:induction false} ConvertSequenceShape(ts: seq<TransformRecord>, n: nat)
    requires n <= |ts|
    ensures ConvertSequence(ts, n).Ok? <==> forall i :: 0 <= i < n ==> ConvertTransform(ts[i]).Ok?
    ensures ConvertSequence(ts, n).Ok? ==>
      var r, idx := ConvertSequence(ts, n).value, KeptIndices(ts, n);
      |r| == |idx| && forall k :: 0 <= k < |idx| ==> Some(r[k]) == ConvertTransform(ts[idx[k]]).value
    ensures ConvertSequence(ts, n).Err? ==>
      exists i :: 0 <= i < n && (forall k :: 0 <= k < i ==> ConvertTransform(ts[k]).Ok?)
                  && ConvertTransform(ts[i]).Err? && ConvertSequence(ts, n).error == ConvertTransform(ts[i]).error
    decreases n
  {
    if n > 0 {
      ConvertSequenceShape(ts, n - 1);
      if ConvertSequence(ts, n - 1).Ok? && ConvertTransform(ts[n - 1]).Err? {
        assert ConvertSequence(ts, n).error == ConvertTransform(ts[n - 1]).error;
      }
    }
  }

  /** One more step: its error ends the conversion, a kept step is appended, a dropped one changes nothing. */
  lemma {:induction false} ConvertSequenceStep(ts: seq<TransformRecord>, j: nat)
    requires j < |ts| && ConvertSequence(ts, j).Ok?
    ensures ConvertTransform(ts[j]).Err? ==> ConvertSequence(ts, j + 1) == Err(ConvertTransform(ts[j]).error)
    ensures ConvertTransform(ts[j]) == Ok(None) ==> ConvertSequence(ts, j + 1) == ConvertSequence(ts, j)
    ensures ConvertTransform(ts[j]).Ok? && ConvertTransform(ts[j]).value.Some? ==>
      ConvertSequence(ts, j + 1) == Ok(ConvertSequence(ts, j).value + [ConvertTransform(ts[j]).value.value])
  {
  }

  /** Once a step fails, converting more steps fails with the same error. */
  lemma {:induction false} SequenceErrorPersists(ts: seq<TransformRecord>, n: nat, m: nat)
    requires n <= m <= |ts|
    requires ConvertSequence(ts, n).Err?
    ensures ConvertSequence(ts, m) == ConvertSequence(ts, n)
    decreases m - n
  {
    if n < m {
      SequenceErrorPersists(ts, n, m - 1);
    }
  }

  /**
   * One projection alignment: KeyError when it has no sequence; otherwise
   * the conversion of each kept step, in order, or the error of the first
   * step that fails.
   */
  function ConvertAlignment(a: AlignmentRecord): (r: Result<ProjectionAlignment>)
    ensures a.sequence.None? ==> r == Err(KeyError("sequence"))
    ensures a.sequence.Some? ==> (r.Ok? <==> ConvertSequence(a.sequence.value, |a.sequence.value|).Ok?)
    ensures a.sequence.Some? ==> var ts := a.sequence.value;
      (r.Ok? <==> forall i :: 0 <= i < |ts| ==> ConvertTransform(ts[i]).Ok?)
      && (r.Ok? ==> var idx := KeptIndices(ts, |ts|);
            |r.value.sequence| == |idx| && forall k :: 0 <= k < |idx| ==> Some(r.value.sequence[k]) == ConvertTransform(ts[idx[k]]).value)
      && (r.Err? ==> exists i :: 0 <= i < |ts| && (forall k :: 0 <= k < i ==> ConvertTransform(ts[k]).Ok?)
                                && ConvertTransform(ts[i]).Err? && r.error == ConvertTransform(ts[i]).error)
  {
    match a.sequence
    case None => Err(KeyError("sequence"))
    case Some(ts) =>
      ConvertSequenceShape(ts, |ts|);
      var steps :- ConvertSequence(ts, |ts|);
      Ok(ProjectionAlignment(steps))
  }

  /** The first n alignments converted, one output per input, or the first error. */
  function ConvertAlignments(as_: seq<AlignmentRecord>, n: nat): Result<seq<ProjectionAlignment>>
    requires n <= |as_|
    decreases n
  {
    if n == 0 then Ok([])
    else
      var prev :- ConvertAlignments(as_, n - 1);
      var a :- ConvertAlignment(as_[n - 1]);
      Ok(prev + [a])
  }

  /** The alignments convert exactly when each one does, and then one output stands for each input, in order. */
  lemma {:induction false} ConvertAlignmentsShape(as_: seq<AlignmentRecord>, n: nat)
    requires n <= |as_|
    ensures ConvertAlignments(as_, n).Ok? <==> forall i :: 0 <= i < n ==> ConvertAlignment(as_[i]).Ok?
    ensures ConvertAlignments(as_, n).Ok? ==>
      |ConvertAlignments(as_, n).value| == n
      && forall i :: 0 <= i < n ==> ConvertAlignments(as_, n).value[i] == ConvertAlignment(as_[i]).value
    ensures ConvertAlignments(as_, n).Err? ==>
      exists i :: 0 <= i < n && (forall k :: 0 <= k < i ==> ConvertAlignment(as_[k]).Ok?)
                  && ConvertAlignment(as_[i]).Err? && ConvertAlignments(as_, n).error == ConvertAlignment(as_[i]).error
    decreases n
  {
    if n > 0 {
      ConvertAlignmentsShape(as_, n - 1);
      if ConvertAlignments(as_, n - 1).Ok? && ConvertAlignment(as_[n - 1]).Err? {
        assert ConvertAlignments(as_, n).error == ConvertAlignment(as_[n - 1]).error;
      }
    }
  }

  /** One more alignment: its error ends the conversion, otherwise its result is appended. */
  lemma {:induction false} ConvertAlignmentsStep(as_: seq<AlignmentRecord>, i: nat)
    requires i < |as_| && ConvertAlignments(as_, i).Ok?
    ensures ConvertAlignment(as_[i]).Err? ==> ConvertAlignments(as_, i + 1) == Err(ConvertAlignment(as_[i]).error)
    ensures ConvertAlignment(as_[i]).Ok? ==>
      ConvertAlignments(as_, i + 1) == Ok(ConvertAlignments(as_, i).value + [ConvertAlignment(as_[i]).value])
  {
  }

  /** Once an alignment fails, converting more fails with the same error. */
  lemma {:induction false} AlignmentsErrorPersists(as_: seq<AlignmentRecord>, n: nat, m: nat)
    requires n <= m <= |as_|
    requires ConvertAlignments(as_, n).Err?
    ensures ConvertAlignments(as_, m) == ConvertAlignments(as_, n)
    decreases m - n
  {
    if n < m {
      AlignmentsErrorPersists(as_, n, m - 1);
    }
  }

  /**
   * The whole conversion: KeyError without "projection_alignments";
   * otherwise a one-element list holding one converted entry per input
   * alignment, in order, or the error of the first alignment that fails.
   */
  function CetsAlignmentsOf(metadata: AlignmentMetadata): (r: Result<seq<CetsAlignments>>)
    ensures metadata.projectionAlignments.None? ==> r == Err(KeyError("projection_alignments"))
    ensures metadata.projectionAlignments.Some? ==> var as_ := metadata.projectionAlignments.value;
      (r.Ok? <==> forall i :: 0 <= i < |as_| ==> ConvertAlignment(as_[i]).Ok?)
      && (r.Ok? ==> |r.value| == 1 && |r.value[0].projectionAlignments| == |as_|
                    && forall i :: 0 <= i < |as_| ==> r.value[0].projectionAlignments[i] == ConvertAlignment(as_[i]).value)
      && (r.Err? ==> exists i :: 0 <= i < |as_| && (forall k :: 0 <= k < i ==> ConvertAlignment(as_[k]).Ok?)
                                 && ConvertAlignment(as_[i]).Err? && r.error == ConvertAlignment(as_[i]).error)
  {
    match metadata.projectionAlignments
    case None => Err(KeyError("projection_alignments"))
    case Some(as_) =>
      ConvertAlignmentsShape(as_, |as_|);
      var alignments :- ConvertAlignments(as_, |as_|);
      Ok([CetsAlignments(alignments)])
  }

  /** The inner loop: the steps of one sequence, kept steps in order. */
  method ConvertSteps(ts: seq<TransformRecord>) returns (r: Result<seq<CetsTransform>>)
    ensures r == ConvertSequence(ts, |ts|)
  {
    var steps: seq<CetsTransform> := [];
    var j := 0;
    while j < |ts|
      invariant 0 <= j <= |ts|
      invariant ConvertSequence(ts, j) == Ok(steps)
    {
      ConvertSequenceStep(ts, j);
      var transform := ts[j];
      if transform.kind.None? {
        SequenceErrorPersists(ts, j + 1, |ts|);
        return Err(KeyError("type"));
      }
      var step := ConvertTransform(transform);
      if step.Err? {
        SequenceErrorPersists(ts, j + 1, |ts|);
        return Err(step.error);
      }
      if transform.kind.value == "translation" || transform.kind.value == "affine" {
        steps := steps + [step.value.value];
      }
      j := j + 1;
    }
    return Ok(steps);
  }

  /**
   * `create_cets_alignment_from_alignment_metadata`: one CETS projection
   * alignment per input alignment, in order, wrapped as a one-element list.
   */
  method CreateCetsAlignment(metadata: AlignmentMetadata) returns (r: Result<seq<CetsAlignments>>)
    ensures r == CetsAlignmentsOf(metadata)
  {
    if metadata.projectionAlignments.None? {
      return Err(KeyError("projection_alignments"));
    }
    var input := metadata.projectionAlignments.value;
    var alignments: seq<ProjectionAlignment> := [];
    var i := 0;
    while i < |input|
      invariant 0 <= i <= |input|
      invariant ConvertAlignments(input, i) == Ok(alignments)
    {
      ConvertAlignmentsStep(input, i);
      var alignment := input[i];
      if alignment.sequence.None? {
        AlignmentsErrorPersists(input, i + 1, |input|);
        return Err(KeyError("sequence"));
      }
      var steps := ConvertSteps(alignment.sequence.value);
      if steps.Err? {
        AlignmentsErrorPersists(input, i + 1, |input|);
        return Err(steps.error);
      }
      alignments := alignments + [ProjectionAlignment(steps.value)];
      i := i + 1;
    }
    return Ok([CetsAlignments(alignments)]);
  }

  /**
   * The alignment of an .xf line converts to its affine matrix followed by
   * its translation, under the names the reader gave them.
   */
  lemma {:induction false} XfLineConverts(i: nat, v: XfRow)
    ensures ConvertAlignment(AlignmentFor(i, v)) == Ok(ProjectionAlignment([
      Affine([[v.a11, v.a12, 0.0], [v.a21, v.a22, 0.0], [0.0, 0.0, 1.0]], "rotation_projection_" + Text.IntToString(i)),
      Translation([v.dx, v.dy], "translation_projection_" + Text.IntToString(i))]))
  {
    var s := AlignmentFor(i, v).sequence.value;
    var affine := Affine([[v.a11, v.a12, 0.0], [v.a21, v.a22, 0.0], [0.0, 0.0, 1.0]], "rotation_projection_" + Text.IntToString(i));
    var translation := Translation([v.dx, v.dy], "translation_projection_" + Text.IntToString(i));
    assert ConvertTransform(s[0]) == Ok(Some(affine));
    assert ConvertTransform(s[1]) == Ok(Some(translation));
    assert ConvertSequence(s, 0) == Ok([]);
    ConvertSequenceStep(s, 0);
    assert [] + [affine] == [affine];
    assert ConvertSequence(s, 1) == Ok([affine]);
    ConvertSequenceStep(s, 1);
    assert [affine] + [translation] == [affine, translation];
    assert ConvertSequence(s, 2) == Ok([affine, translation]);
    assert |s| == 2;
    assert ConvertSequence(s, |s|) == Ok([affine, translation]);
  }

  /** Alignments read from an .xf file always convert, one CETS projection alignment per file line kept. */
  lemma {:induction false} XfAlignmentsConvert(lines: seq<string>, parseFloat: string -> Option<real>)
    ensures var r := CetsAlignmentsOf(AlignmentMetadata(Some(XfFile(lines, parseFloat))));
      var xs := XfFile(lines, parseFloat);
      r.Ok? && forall k :: 0 <= k < |xs| ==> r.value[0].projectionAlignments[k] == ConvertAlignment(xs[k]).value
  {
    var values := LineValues(lines, parseFloat);
    var xs := XfFile(lines, parseFloat);
    var idx := XfLineIndices(values, |lines|);
    forall k | 0 <= k < |xs|
      ensures ConvertAlignment(xs[k]).Ok?
    {
      XfLineConverts(idx[k], values[idx[k]].value);
    }
    ConvertAlignmentsShape(xs, |xs|);
  }
}
