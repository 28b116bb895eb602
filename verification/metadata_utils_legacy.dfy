/**
 * The older .mdoc reader (metadata_utils.py): a line loop that fills an
 * MdocFile in place. Blank lines and `[T = ...]` lines are dropped; each
 * `[ZValue = n]` line appends a new, empty section and ends the header part
 * for good; a "key = value" line goes to the global headers before the first
 * section and to the last section afterwards. Its `parse_value` never
 * builds a list. Reading the file is not modelled: the reader gets its lines.
 * The .xf reader of the same file is the one in XfParsing.
 */
module MetadataUtils {
  import opened Wrappers
  import opened Text
  import opened PyValues
  import opened MdocSyntax
  import opened MetadataModels
  import MetadataParsing

  /** `parse_value`: the stripped text as an int if `int` accepts it, else a float if `float` does, else the text. */
  function ParseValue(valueStr: string, parseInt: string -> Option<int>, parseFloat: string -> Option<real>): (r: Value)
    ensures r.VInt? || r.VFloat? || r.VStr?
    ensures r.VInt? <==> parseInt(Strip(valueStr)).Some?
    ensures r.VFloat? <==> parseInt(Strip(valueStr)).None? && parseFloat(Strip(valueStr)).Some?
    ensures r.VStr? ==> r.s == Strip(valueStr)
  {
    ParseScalar(Strip(valueStr), parseInt, parseFloat)
  }

  /** Surrounding whitespace never matters: a value and its stripped form parse alike. */
  lemma {:induction false} ParseValueIgnoresPadding(valueStr: string, parseInt: string -> Option<int>, parseFloat: string -> Option<real>)
    ensures ParseValue(Strip(valueStr), parseInt, parseFloat) == ParseValue(valueStr, parseInt, parseFloat)
  {
    StripIdempotent(valueStr);
  }

  /** On a value without an inner space the newer reader's `parse_value` agrees with this one. */
  lemma {:induction false} ParseValueAgreesWithoutSpace(valueStr: string, py: MetadataParsing.Interpreter)
    requires ' ' !in Strip(valueStr)
    ensures MetadataParsing.ValueOf(valueStr, py) == ParseValue(valueStr, py.parseInt, py.parseFloat)
  {
    MetadataParsing.ValueWithoutSpaceIsScalar(valueStr, py);
  }

  /** What one line is to this reader, once stripped. */
  datatype LegacyLine =
    | Skip
    | Section(z: nat)
    | Entry(key: string, value: Value)

  /**
   * How the reader sees a line: blank and `[T = ...]` lines are skipped, a
   * section marker carries its number, a "key = value" line is split at its
   * first "=" with both halves stripped and the value parsed, and anything
   * else is skipped.
   */
  function ReadLegacy(raw: string, parseInt: string -> Option<int>, parseFloat: string -> Option<real>): LegacyLine {
    var line := Strip(raw);
    if line == [] then Skip
    else if StartsWith(line, "[T =") && EndsWith(line, "]") then Skip
    else
      match MatchZValue(line)
      case Some(z) => Section(z)
      case None =>
        if IsKeyValue(line) then
          var (key, value) := SplitFirst(line, '=').value;
          Entry(Strip(key), ParseValue(Strip(value), parseInt, parseFloat))
        else Skip
  }

  /** A line opens a section exactly when it is a marker, and carries the marker's number. */
  lemma {:induction false} ReadLegacySection(raw: string, parseInt: string -> Option<int>, parseFloat: string -> Option<real>)
    ensures ReadLegacy(raw, parseInt, parseFloat).Section? <==> IsMarker(raw)
    ensures ReadLegacy(raw, parseInt, parseFloat).Section? ==>
      ReadLegacy(raw, parseInt, parseFloat).z == MatchZValue(Strip(raw)).value
  {
    var line := Strip(raw);
    if line != [] && StartsWith(line, "[T =") {
      TLinesAreNotMarkers(line);
    }
  }

  /**
   * A line is an entry exactly when it holds "=" and does not start with
   * "[", and then its key and value are the stripped halves around the
   * first "=".
   */
  lemma {:induction false} ReadLegacyEntry(raw: string, parseInt: string -> Option<int>, parseFloat: string -> Option<real>)
    ensures ReadLegacy(raw, parseInt, parseFloat).Entry? <==> IsKeyValue(Strip(raw))
    ensures ReadLegacy(raw, parseInt, parseFloat).Entry? ==>
      '=' !in SplitFirst(Strip(raw), '=').value.0
      && ReadLegacy(raw, parseInt, parseFloat).key == Strip(SplitFirst(Strip(raw), '=').value.0)
      && ReadLegacy(raw, parseInt, parseFloat).value == ParseValue(SplitFirst(Strip(raw), '=').value.1, parseInt, parseFloat)
  {
    var line := Strip(raw);
    if IsKeyValue(line) {
      assert line != [] && line[0] != '[';
      assert !StartsWith(line, "[T =") && MatchZValue(line).None?;
      var (key, value) := SplitFirst(line, '=').value;
      assert ReadLegacy(raw, parseInt, parseFloat) == Entry(Strip(key), ParseValue(Strip(value), parseInt, parseFloat));
      ParseValueIgnoresPadding(value, parseInt, parseFloat);
    } else {
      assert !ReadLegacy(raw, parseInt, parseFloat).Entry?;
    }
  }

  /** Every `[T = ...]` line is dropped, whether or not it ends with "]". */
  lemma {:induction false} TLinesDropped(raw: string, parseInt: string -> Option<int>, parseFloat: string -> Option<real>)
    requires StartsWith(Strip(raw), "[T =")
    ensures ReadLegacy(raw, parseInt, parseFloat) == Skip
  {
    TLinesAreNotMarkers(Strip(raw));
  }

  /** The reader's state between lines: the file's headers and sections, and whether it is still in the header part. */
  datatype LegacyState = LegacyState(headers: Dict, sections: seq<ZValueSection>, inHeaders: bool)

  /** One line: a marker appends a section and ends the header part; an entry goes to the headers or the last section. */
  function Step(st: LegacyState, line: LegacyLine): LegacyState {
    match line
    case Skip => st
    case Section(z) => LegacyState(st.headers, st.sections + [NewSection(z)], false)
    case Entry(k, v) =>
      if st.inHeaders then st.(headers := st.headers[k := v])
      else if st.sections != [] then
        var last := st.sections[|st.sections| - 1];
        st.(sections := st.sections[|st.sections| - 1 := last.(metadata := last.metadata[k := v])])
      else st
  }

  /** Out of the header part, no line touches the headers or returns to the header part. */
  lemma {:induction false} StepAfterHeaders(st: LegacyState, line: LegacyLine)
    requires !st.inHeaders
    ensures Step(st, line).headers == st.headers && !Step(st, line).inHeaders
  {
  }

  /** The state after the first n lines. */
  function Parsed(lines: seq<string>, n: nat, parseInt: string -> Option<int>, parseFloat: string -> Option<real>): LegacyState
    requires n <= |lines|
  {
    if n == 0 then LegacyState(map[], [], true)
    else Step(Parsed(lines, n - 1, parseInt, parseFloat), ReadLegacy(lines[n - 1], parseInt, parseFloat))
  }

  /** One more line. */
  lemma {:induction false} ParsedStep(lines: seq<string>, i: nat, parseInt: string -> Option<int>, parseFloat: string -> Option<real>)
    requires i < |lines|
    ensures Parsed(lines, i + 1, parseInt, parseFloat) == Step(Parsed(lines, i, parseInt, parseFloat), ReadLegacy(lines[i], parseInt, parseFloat))
  {
  }

  /**
   * After n lines there is one section per marker, in file order, each
   * numbered as its marker; the reader is in the header part exactly while
   * no marker has been seen.
   */
  lemma {:induction false} ParsedSections(lines: seq<string>, n: nat, parseInt: string -> Option<int>, parseFloat: string -> Option<real>)
    requires n <= |lines|
    ensures |Parsed(lines, n, parseInt, parseFloat).sections| == |Markers(lines, n)|
    ensures forall k :: 0 <= k < |Markers(lines, n)| ==> Parsed(lines, n, parseInt, parseFloat).sections[k].zValue == Markers(lines, n)[k]
    ensures Parsed(lines, n, parseInt, parseFloat).inHeaders <==> Markers(lines, n) == []
    decreases n
  {
    if n > 0 {
      ParsedSections(lines, n - 1, parseInt, parseFloat);
      ReadLegacySection(lines[n - 1], parseInt, parseFloat);
      ParsedStep(lines, n - 1, parseInt, parseFloat);
      var st := Parsed(lines, n - 1, parseInt, parseFloat);
      var line := ReadLegacy(lines[n - 1], parseInt, parseFloat);
      StepNumbers(st, line);
    }
  }

  /** A marker appends a section with its number; any other line keeps the section numbers and the mode. */
  lemma {:induction false} StepNumbers(st: LegacyState, line: LegacyLine)
    ensures line.Section? ==> Step(st, line).sections == st.sections + [NewSection(line.z)] && !Step(st, line).inHeaders
    ensures !line.Section? ==>
      |Step(st, line).sections| == |st.sections| && Step(st, line).inHeaders == st.inHeaders
      && forall k :: 0 <= k < |st.sections| ==> Step(st, line).sections[k].zValue == st.sections[k].zValue
  {
  }

  /** Once the first marker has been read the headers never change again. */
  lemma {:induction false} HeadersFrozen(lines: seq<string>, m: nat, n: nat, parseInt: string -> Option<int>, parseFloat: string -> Option<real>)
    requires m <= n <= |lines|
    requires !Parsed(lines, m, parseInt, parseFloat).inHeaders
    ensures Parsed(lines, n, parseInt, parseFloat).headers == Parsed(lines, m, parseInt, parseFloat).headers
    ensures !Parsed(lines, n, parseInt, parseFloat).inHeaders
    decreases n - m
  {
    if m < n {
      HeadersFrozen(lines, m, n - 1, parseInt, parseFloat);
      ParsedStep(lines, n - 1, parseInt, parseFloat);
      StepAfterHeaders(Parsed(lines, n - 1, parseInt, parseFloat), ReadLegacy(lines[n - 1], parseInt, parseFloat));
    }
  }

  /**
   * A "key = value" line stores its value under its key: in the headers
   * while no marker has been read, otherwise in the last section, leaving
   * the headers as they were.
   */
  lemma {:induction false} EntryRouting(lines: seq<string>, i: nat, parseInt: string -> Option<int>, parseFloat: string -> Option<real>)
    requires i < |lines| && ReadLegacy(lines[i], parseInt, parseFloat).Entry?
    ensures var e := ReadLegacy(lines[i], parseInt, parseFloat);
      var before := Parsed(lines, i, parseInt, parseFloat);
      var after := Parsed(lines, i + 1, parseInt, parseFloat);
      (Markers(lines, i) == [] ==> after.headers == before.headers[e.key := e.value] && after.sections == before.sections)
      && (Markers(lines, i) != [] ==>
            after.headers == before.headers && |after.sections| == |before.sections| > 0
            && after.sections[|after.sections| - 1].metadata == before.sections[|before.sections| - 1].metadata[e.key := e.value]
            && after.sections[..|after.sections| - 1] == before.sections[..|before.sections| - 1])
  {
    ParsedSections(lines, i, parseInt, parseFloat);
  }

  /** The per-line steps of `parse_mdoc_file` up to the point where the line is stored. */
  method ReadLegacyLine(raw: string, parseInt: string -> Option<int>, parseFloat: string -> Option<real>) returns (l: LegacyLine)
    ensures l == ReadLegacy(raw, parseInt, parseFloat)
  {
    var line := Strip(raw);
    if line == [] {
      return Skip;
    }
    if StartsWith(line, "[T =") && EndsWith(line, "]") {
      return Skip;
    }
    var zValueMatch := MatchZValue(line);
    if zValueMatch.Some? {
      return Section(zValueMatch.value);
    }
    if '=' in line && !StartsWith(line, "[") {
      var (key, value) := SplitFirst(line, '=').value;
      key := Strip(key);
      value := Strip(value);
      var parsedValue := ParseValue(value, parseInt, parseFloat);
      return Entry(key, parsedValue);
    }
    return Skip;
  }

  /**
   * What `parse_mdoc_file` does with one read line: a marker appends a new
   * section and leaves the header part; an entry is stored in the headers
   * or in the current section, which is the last one appended. Returns the
   * new value of the header-part flag.
   */
  method StoreLine(mdoc: MdocFile, inGlobalHeaders: bool, line: LegacyLine) returns (stillInHeaders: bool)
    modifies mdoc
    ensures mdoc.filename == old(mdoc.filename)
    ensures LegacyState(mdoc.globalHeaders, mdoc.zSections, stillInHeaders)
            == Step(LegacyState(old(mdoc.globalHeaders), old(mdoc.zSections), inGlobalHeaders), line)
  {
    stillInHeaders := inGlobalHeaders;
    match line {
      case Skip =>
      case Section(z) =>
        mdoc.zSections := mdoc.zSections + [NewSection(z)];
        stillInHeaders := false;
      case Entry(key, value) =>
        if inGlobalHeaders {
          mdoc.globalHeaders := mdoc.globalHeaders[key := value];
        } else if mdoc.zSections != [] {
          var current := mdoc.zSections[|mdoc.zSections| - 1];
          mdoc.zSections := mdoc.zSections[|mdoc.zSections| - 1 := current.(metadata := current.metadata[key := value])];
        }
    }
  }

  /**
   * `parse_mdoc_file` on the file's lines: a fresh MdocFile named after the
   * path, whose headers and sections are those the lines give. The
   * section the source keeps in `current_section` is always the last one
   * appended, so an entry after a marker updates the last section.
   */
  method ParseMdocFile(filepath: string, lines: seq<string>, parseInt: string -> Option<int>, parseFloat: string -> Option<real>)
    returns (mdoc: MdocFile)
    ensures fresh(mdoc)
    ensures mdoc.filename == filepath
    ensures mdoc.globalHeaders == Parsed(lines, |lines|, parseInt, parseFloat).headers
    ensures mdoc.zSections == Parsed(lines, |lines|, parseInt, parseFloat).sections
  {
    mdoc := new MdocFile(filepath);
    var inGlobalHeaders := true;
    var i := 0;
    while i < |lines|
      invariant 0 <= i <= |lines|
      invariant mdoc.filename == filepath
      invariant LegacyState(mdoc.globalHeaders, mdoc.zSections, inGlobalHeaders) == Parsed(lines, i, parseInt, parseFloat)
    {
      ParsedStep(lines, i, parseInt, parseFloat);
      var line := ReadLegacyLine(lines[i], parseInt, parseFloat);
      inGlobalHeaders := StoreLine(mdoc, inGlobalHeaders, line);
      i := i + 1;
    }
  }

  /**
   * The parsed file has one section per marker, numbered and ordered as the
   * markers are; with no marker every entry is a header, and with one the
   * headers are those read before it.
   */
  lemma {:induction false} ParsedFileShape(lines: seq<string>, parseInt: string -> Option<int>, parseFloat: string -> Option<real>, m: nat)
    requires m <= |lines| && !Parsed(lines, m, parseInt, parseFloat).inHeaders
    ensures |Parsed(lines, |lines|, parseInt, parseFloat).sections| == |Markers(lines, |lines|)|
    ensures forall k :: 0 <= k < |Markers(lines, |lines|)| ==>
      Parsed(lines, |lines|, parseInt, parseFloat).sections[k].zValue == Markers(lines, |lines|)[k]
    ensures Parsed(lines, |lines|, parseInt, parseFloat).headers == Parsed(lines, m, parseInt, parseFloat).headers
  {
    ParsedSections(lines, |lines|, parseInt, parseFloat);
    HeadersFrozen(lines, m, |lines|, parseInt, parseFloat);
  }
}
