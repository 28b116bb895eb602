/**
 * The .mdoc reader of the parsing package
 * (empiar_to_cets/parsing/metadata_parsing.py): a line-by-line state
 * machine that collects header values, `[T = ...]` header pairs and one
 * dict per `[ZValue = n]` section; the value parser; the subframe-path
 * search on the parsed file; and the match of an mdoc SubFramePath to an
 * EMPIAR file. Reading the file is not modelled: the parser gets its lines.
 */
module MetadataParsing {
  import opened Wrappers
  import opened Text
  import opened PyValues
  import opened MdocSyntax
  import opened SubframeSearch

  type Dict = map<string, Value>

  /**
   * The interpreter and library functions the parser calls: `int(s)` and
   * `float(s)` (None where they raise), `inflection.underscore`, and
   * `re.findall` with the header key/value pattern.
   */
  datatype Interpreter = Interpreter(
    parseInt: string -> Option<int>,
    parseFloat: string -> Option<real>,
    underscore: string -> string,
    keyValuePairs: string -> seq<(string, string)>)

  /**
   * What `parse_value` returns: the stripped text as one scalar, or, when
   * it holds a space, the list of its whitespace-separated tokens, each
   * parsed as a scalar.
   */
  function ValueOf(valueStr: string, py: Interpreter): Value {
    var s := Strip(valueStr);
    if ' ' in s then
      var parts := Words(s);
      VList(seq(|parts|, k requires 0 <= k < |parts| => ParseScalar(parts[k], py.parseInt, py.parseFloat)))
    else ParseScalar(s, py.parseInt, py.parseFloat)
  }

  /**
   * A value with a space inside is a list of one scalar per token, never
   * nested and never None; any other value is a scalar.
   */
  lemma {:induction false} ValueOfShape(valueStr: string, py: Interpreter)
    ensures ValueOf(valueStr, py).VList? <==> ' ' in Strip(valueStr)
    ensures ValueOf(valueStr, py).VList? ==>
      (|ValueOf(valueStr, py).items| == |Words(Strip(valueStr))|
       && forall k :: 0 <= k < |ValueOf(valueStr, py).items| ==> !ValueOf(valueStr, py).items[k].VList? && !ValueOf(valueStr, py).items[k].VNone?)
  {
  }

  /** Without a space the value is the one scalar the older `parse_value` also returns. */
  lemma {:induction false} ValueWithoutSpaceIsScalar(valueStr: string, py: Interpreter)
    requires ' ' !in Strip(valueStr)
    ensures ValueOf(valueStr, py) == ParseScalar(Strip(valueStr), py.parseInt, py.parseFloat)
  {
  }

  /** `parse_value`: strip; with a space, parse each token in a loop; otherwise parse the whole. */
  method ParseValue(valueStr: string, py: Interpreter) returns (r: Value)
    ensures r == ValueOf(valueStr, py)
  {
    var s := Strip(valueStr);
    if ' ' in s {
      var parts := Words(s);
      var parsedParts: seq<Value> := [];
      var i := 0;
      while i < |parts|
        invariant 0 <= i <= |parts|
        invariant |parsedParts| == i
        invariant forall k :: 0 <= k < i ==> parsedParts[k] == ParseScalar(parts[k], py.parseInt, py.parseFloat)
      {
        var part := parts[i];
        var val: Value;
        var asInt := py.parseInt(part);
        if asInt.Some? {
          val := VInt(asInt.value);
        } else {
          var asFloat := py.parseFloat(part);
          if asFloat.Some? {
            val := VFloat(asFloat.value);
          } else {
            val := VStr(part);
          }
        }
        parsedParts := parsedParts + [val];
        i := i + 1;
      }
      return VList(parsedParts);
    }
    return ParseScalar(s, py.parseInt, py.parseFloat);
  }

  /** `parse_key`: the stripped key through `inflection.underscore`. */
  function ParseKey(key: string, py: Interpreter): string {
    py.underscore(Strip(key))
  }

  /** The key a header pair lands under: stripped, spaces to underscores, then `parse_key`. */
  function HeaderKey(rawKey: string, py: Interpreter): string {
    ParseKey(ReplaceChar(Strip(rawKey), ' ', '_'), py)
  }

  /** A pair the pattern found, as the key and value it is stored under. */
  function Entry(pair: (string, string), py: Interpreter): (string, Value) {
    (HeaderKey(pair.0, py), ValueOf(Strip(pair.1), py))
  }

  /** Every pair the pattern found, as stored. */
  function Entries(pairs: seq<(string, string)>, py: Interpreter): (r: seq<(string, Value)>)
    ensures |r| == |pairs|
    ensures forall j :: 0 <= j < |pairs| ==> r[j] == Entry(pairs[j], py)
  {
    seq(|pairs|, j requires 0 <= j < |pairs| => Entry(pairs[j], py))
  }

  /** The dict built from the first n entries, stored in order. */
  function DictOf(entries: seq<(string, Value)>, n: nat): Dict
    requires n <= |entries|
  {
    if n == 0 then map[]
    else DictOf(entries, n - 1)[entries[n - 1].0 := entries[n - 1].1]
  }

  lemma {:induction false} DictOfStep(entries: seq<(string, Value)>, i: nat)
    requires i < |entries|
    ensures DictOf(entries, i + 1) == DictOf(entries, i)[entries[i].0 := entries[i].1]
  {
  }

  /** The dict holds exactly the keys of the entries. */
  lemma {:induction false} DictOfKeys(entries: seq<(string, Value)>, n: nat)
    requires n <= |entries|
    ensures DictOf(entries, n).Keys == set j | 0 <= j < n :: entries[j].0
    decreases n
  {
    if n > 0 {
      DictOfKeys(entries, n - 1);
      var before := set j | 0 <= j < n - 1 :: entries[j].0;
      var after := set j | 0 <= j < n :: entries[j].0;
      assert after == before + {entries[n - 1].0} by {
        assert forall j :: 0 <= j < n ==> entries[j].0 in before + {entries[n - 1].0} by {
          forall j | 0 <= j < n
            ensures entries[j].0 in before + {entries[n - 1].0}
          {
            if j < n - 1 {
              assert entries[j].0 in before;
            }
          }
        }
      }
    }
  }

  /** Under each key the dict holds the value of its last entry: a later pair with the same key wins. */
  lemma {:induction false} DictOfLastWins(entries: seq<(string, Value)>, n: nat, j: nat)
    requires j < n <= |entries|
    requires forall l :: j < l < n ==> entries[l].0 != entries[j].0
    ensures entries[j].0 in DictOf(entries, n) && DictOf(entries, n)[entries[j].0] == entries[j].1
    decreases n
  {
    if j < n - 1 {
      DictOfLastWins(entries, n - 1, j);
    }
  }

  /** Python's `s[1:-1]`: the text between the first and last characters, empty when s is shorter than 2. */
  function Inner(s: string): (r: string)
    ensures |s| >= 2 ==> s == [s[0]] + r + [s[|s| - 1]]
    ensures |s| < 2 ==> r == []
  {
    if |s| >= 2 then s[1..|s| - 1] else []
  }

  /**
   * `parse_header_section` on a `[T = ...]` line: the text inside the
   * brackets is split at its first "="; without one the two-name unpacking
   * raises ValueError. When the rest holds no further "=" the section is
   * descriptive text and gives {}; otherwise each key/value pair the pattern
   * finds is stored, a later pair winning.
   */
  function HeaderSectionOf(line: string, py: Interpreter): (r: Result<Dict>)
    ensures r.Err? <==> '=' !in Inner(Strip(line))
    ensures r.Err? ==> r.error == ValueError(NotEnoughValuesToUnpack)
    ensures r.Ok? && '=' !in Strip(SplitFirst(Inner(Strip(line)), '=').value.1) ==> r.value == map[]
    ensures r.Ok? && '=' in Strip(SplitFirst(Inner(Strip(line)), '=').value.1) ==>
      var pairs := py.keyValuePairs(Strip(SplitFirst(Inner(Strip(line)), '=').value.1));
      r.value == DictOf(Entries(pairs, py), |pairs|)
  {
    var content := Inner(Strip(line));
    match SplitFirst(content, '=')
    case None => Err(ValueError(NotEnoughValuesToUnpack))
    case Some((_, after)) =>
      var rest := Strip(after);
      if '=' !in rest then Ok(map[])
      else
        var pairs := py.keyValuePairs(rest);
        Ok(DictOf(Entries(pairs, py), |pairs|))
  }

  /** A T section of plain text, such as the "SerialEM: ..." line SerialEM writes, adds nothing to the header. */
  lemma {:induction false} DescriptiveTSection(text: string, py: Interpreter)
    requires '=' !in text
    ensures HeaderSectionOf("[T = " + text + "]", py) == Ok(map[])
  {
    var line := "[T = " + text + "]";
    StripKeepsInner(line);
    var content := Inner(line);
    assert content == "T = " + text;
    assert content == "T " + ['='] + (" " + text);
    var (before, after) := SplitFirst(content, '=').value;
    assert |before| == 2;
    assert after == " " + text;
    StripKeepsChars(after);
  }

  /** One pair: key and value stripped, the key's spaces made underscores, both parsed. */
  method ParseEntry(pair: (string, string), py: Interpreter) returns (entry: (string, Value))
    ensures entry == Entry(pair, py)
  {
    var (key, value) := pair;
    key := Strip(key);
    value := Strip(value);
    var keyField := ParseKey(ReplaceChar(key, ' ', '_'), py);
    var parsedValue := ParseValue(value, py);
    return (keyField, parsedValue);
  }

  /** ParseEntry on the i-th pair gives the i-th stored entry. */
  method ParseEntryAt(matches: seq<(string, string)>, i: nat, py: Interpreter, ghost entries: seq<(string, Value)>)
    returns (entry: (string, Value))
    requires i < |matches| == |entries|
    requires forall j {:trigger Entry(matches[j], py)} :: 0 <= j < |matches| ==> entries[j] == Entry(matches[j], py)
    ensures entry == entries[i]
  {
    entry := ParseEntry(matches[i], py);
  }

  /** The loop of `parse_header_section`: each pair parsed and stored, a later one overwriting an earlier. */
  method StoreHeaderPairs(matches: seq<(string, string)>, py: Interpreter, ghost entries: seq<(string, Value)>)
    returns (data: Dict)
    requires |entries| == |matches|
    requires forall j {:trigger Entry(matches[j], py)} :: 0 <= j < |matches| ==> entries[j] == Entry(matches[j], py)
    ensures data == DictOf(entries, |matches|)
  {
    data := map[];
    var i := 0;
    while i < |matches|
      invariant 0 <= i <= |matches|
      invariant data == DictOf(entries, i)
    {
      var entry := ParseEntryAt(matches, i, py, entries);
      DictOfStep(entries, i);
      data := data[entry.0 := entry.1];
      i := i + 1;
    }
  }

  /** `parse_header_section`. */
  method ParseHeaderSection(line: string, py: Interpreter) returns (r: Result<Dict>)
    ensures r == HeaderSectionOf(line, py)
  {
    var content := Inner(Strip(line));
    var split := SplitFirst(content, '=');
    if split.None? {
      return Err(ValueError(NotEnoughValuesToUnpack));
    }
    var rest := Strip(split.value.1);
    if '=' !in rest {
      return Ok(map[]);
    }
    var matches := py.keyValuePairs(rest);
    var data := StoreHeaderPairs(matches, py, Entries(matches, py));
    return Ok(data);
  }

  /** What one line of an .mdoc file is to the parser, once stripped. */
  datatype Line =
    | Blank
    | TSection(section: Result<Dict>)
    | Marker(z: nat)
    | KeyValue(key: string, value: Value)
    | Ignored

  /**
   * How the parser reads a line: blank; a `[T = ...]` header section,
   * parsed; a section marker; a "key = value" line split at its first "=",
   * with key and value parsed; or anything else, which is ignored. A T line
   * is never also a marker.
   */
  function Classify(raw: string, py: Interpreter): Line
  {
    var line := Strip(raw);
    if line == [] then Blank
    else if StartsWith(line, "[T =") then
      TLinesAreNotMarkers(line);
      TSection(HeaderSectionOf(line, py))
    else
      match MatchZValue(line)
      case Some(z) => Marker(z)
      case None =>
        if IsKeyValue(line) then
          var (key, value) := SplitFirst(line, '=').value;
          KeyValue(ParseKey(key, py), ValueOf(value, py))
        else Ignored
  }

  /** How each kind of line is recognised, and what a T section, a marker and a key/value pair carry. */
  lemma {:induction false} ClassifyShape(raw: string, py: Interpreter)
    ensures Classify(raw, py).Blank? <==> Strip(raw) == []
    ensures Classify(raw, py).TSection? <==> Strip(raw) != [] && StartsWith(Strip(raw), "[T =")
    ensures Classify(raw, py).TSection? ==> Classify(raw, py).section == HeaderSectionOf(Strip(raw), py)
    ensures Classify(raw, py).Marker? <==> MatchZValue(Strip(raw)).Some?
    ensures Classify(raw, py).Marker? ==> Classify(raw, py).z == MatchZValue(Strip(raw)).value
    ensures Classify(raw, py).KeyValue? <==> (Strip(raw) != [] && !StartsWith(Strip(raw), "[T =")
                                              && MatchZValue(Strip(raw)).None? && IsKeyValue(Strip(raw)))
    ensures Classify(raw, py).KeyValue? ==> var (key, value) := SplitFirst(Strip(raw), '=').value;
      Classify(raw, py).key == ParseKey(key, py) && Classify(raw, py).value == ValueOf(value, py)
  {
    if Strip(raw) != [] && StartsWith(Strip(raw), "[T =") {
      TLinesAreNotMarkers(Strip(raw));
    }
  }

  /** A line is read as a section marker exactly when the marker pattern matches it, and carries its number. */
  lemma {:induction false} ClassifyMarker(raw: string, py: Interpreter)
    ensures Classify(raw, py).Marker? <==> MatchZValue(Strip(raw)).Some?
    ensures Classify(raw, py).Marker? ==> Classify(raw, py).z == MatchZValue(Strip(raw)).value
  {
    if Strip(raw) != [] && StartsWith(Strip(raw), "[T =") {
      TLinesAreNotMarkers(Strip(raw));
    }
  }

  /** Every line of the file, read. */
  function Classified(lines: seq<string>, py: Interpreter): (r: seq<Line>)
    ensures |r| == |lines| && forall i :: 0 <= i < |lines| ==> r[i] == Classify(lines[i], py)
  {
    seq(|lines|, i requires 0 <= i < |lines| => Classify(lines[i], py))
  }

  /** The parser's state between lines. */
  datatype MdocState = MdocState(header: Dict, sections: seq<Dict>, current: Dict, inZ: bool)

  /** A section marker: the open section is closed unless it is empty, and a new one holds the number. */
  function OpenSection(st: MdocState, z: nat): MdocState {
    var sections := if st.inZ && st.current != map[] then st.sections + [st.current] else st.sections;
    MdocState(st.header, sections, map["z_value" := VInt(z)], true)
  }

  /**
   * One line: the pairs of a T section join the header when there are any
   * (an error propagates); a marker opens a section; a key/value pair goes
   * to the open section, or to the header before the first marker.
   */
  function Apply(st: MdocState, line: Line): Result<MdocState> {
    match line
    case Blank => Ok(st)
    case TSection(t) =>
      (match t
       case Err(e) => Err(e)
       case Ok(d) => Ok(if d != map[] then st.(header := st.header + d) else st))
    case Marker(z) => Ok(OpenSection(st, z))
    case KeyValue(k, v) =>
      Ok(if st.inZ then st.(current := st.current[k := v]) else st.(header := st.header[k := v]))
    case Ignored => Ok(st)
  }

  /** The state after the first n lines; the first failing line ends the parse. */
  function FoldLines(ls: seq<Line>, n: nat): Result<MdocState>
    requires n <= |ls|
  {
    if n == 0 then Ok(MdocState(map[], [], map[], false))
    else
      var st :- FoldLines(ls, n - 1);
      Apply(st, ls[n - 1])
  }

  /** One more line applied to a successful prefix. */
  lemma {:induction false} FoldLinesStep(ls: seq<Line>, i: nat)
    requires i < |ls| && FoldLines(ls, i).Ok?
    ensures FoldLines(ls, i + 1) == Apply(FoldLines(ls, i).value, ls[i])
  {
  }

  /** Once a line fails, the rest of the file does not change the outcome. */
  lemma {:induction false} FoldErrorPersists(ls: seq<Line>, n: nat, m: nat)
    requires n <= m <= |ls|
    requires FoldLines(ls, n).Err?
    ensures FoldLines(ls, m) == FoldLines(ls, n)
    decreases m - n
  {
    if n < m {
      FoldErrorPersists(ls, n, m - 1);
    }
  }

  /** What the state says about the markers seen so far. */
  predicate Consistent(st: MdocState, markers: seq<nat>) {
    |st.sections| + (if st.inZ then 1 else 0) == |markers|
    && (st.inZ <==> markers != [])
    && (st.inZ ==> "z_value" in st.current)
    && forall k :: 0 <= k < |st.sections| ==> "z_value" in st.sections[k]
  }

  /** One line keeps the state consistent with the markers, and fails only where its T section did. */
  lemma {:induction false} ApplyKeepsConsistent(st: MdocState, line: Line, markers: seq<nat>)
    requires Consistent(st, markers)
    ensures Apply(st, line).Ok? ==> Consistent(Apply(st, line).value, markers + if line.Marker? then [line.z] else [])
    ensures Apply(st, line).Err? ==> line.TSection? && line.section == Err(Apply(st, line).error)
  {
    if !line.Marker? {
      assert markers + [] == markers;
    }
  }

  /** The section numbers of the markers among the first n lines read. */
  function LineMarkers(ls: seq<Line>, n: nat): seq<nat>
    requires n <= |ls|
  {
    if n == 0 then [] else LineMarkers(ls, n - 1) + if ls[n - 1].Marker? then [ls[n - 1].z] else []
  }

  /** A line that can fail fails as a T section without "=" does. */
  predicate FailsOnlyAsUnpacking(l: Line) {
    l.TSection? && l.section.Err? ==> l.section.error == ValueError(NotEnoughValuesToUnpack)
  }

  /** Over lines that fail only by unpacking, the fold stays consistent with the markers read. */
  lemma {:induction false} FoldLinesConsistent(ls: seq<Line>, n: nat)
    requires n <= |ls|
    requires forall i :: 0 <= i < |ls| ==> FailsOnlyAsUnpacking(ls[i])
    ensures FoldLines(ls, n).Ok? ==> Consistent(FoldLines(ls, n).value, LineMarkers(ls, n))
    ensures FoldLines(ls, n).Err? ==> FoldLines(ls, n).error == ValueError(NotEnoughValuesToUnpack)
    decreases n
  {
    if n > 0 {
      FoldLinesConsistent(ls, n - 1);
      if FoldLines(ls, n - 1).Ok? {
        var st := FoldLines(ls, n - 1).value;
        ApplyKeepsConsistent(st, ls[n - 1], LineMarkers(ls, n - 1));
        assert FoldLines(ls, n) == Apply(st, ls[n - 1]);
        assert FailsOnlyAsUnpacking(ls[n - 1]);
      }
    }
  }

  /** The marker a read line stands for, if it is one. */
  function MarkerOf(l: Line): Option<nat> {
    if l.Marker? then Some(l.z) else None
  }

  /** The markers the reader sees are the markers of the file. */
  lemma {:induction false} ClassifiedMarkers(lines: seq<string>, ls: seq<Line>, n: nat)
    requires n <= |lines| == |ls|
    requires forall j :: 0 <= j < |lines| ==> MarkerOf(ls[j]) == MatchZValue(Strip(lines[j]))
    ensures LineMarkers(ls, n) == Markers(lines, n)
    decreases n
  {
    if n > 0 {
      ClassifiedMarkers(lines, ls, n - 1);
      assert MarkerOf(ls[n - 1]) == MatchZValue(Strip(lines[n - 1]));
    }
  }

  /** A read line fails only as a T section without "=" does. */
  lemma {:induction false} ClassifyFails(raw: string, py: Interpreter)
    ensures FailsOnlyAsUnpacking(Classify(raw, py))
  {
  }

  /**
   * The parse of a file so far: every closed section and the open one carry
   * "z_value", the closed sections plus the open one number the markers
   * read, and the only failure is the ValueError of a T section without "=".
   */
  lemma {:induction false} FoldConsistent(lines: seq<string>, n: nat, py: Interpreter)
    requires n <= |lines|
    ensures var r := FoldLines(Classified(lines, py), n);
      (r.Ok? ==> Consistent(r.value, Markers(lines, n)))
      && (r.Err? ==> r.error == ValueError(NotEnoughValuesToUnpack))
  {
    var ls := Classified(lines, py);
    forall i | 0 <= i < |ls|
      ensures FailsOnlyAsUnpacking(ls[i]) && MarkerOf(ls[i]) == MatchZValue(Strip(lines[i]))
    {
      ClassifyFails(lines[i], py);
      ClassifyMarker(lines[i], py);
    }
    FoldLinesConsistent(ls, n);
    ClassifiedMarkers(lines, ls, n);
  }

  /** The sections at the end of input: the open one is flushed unless empty. */
  function Finish(st: MdocState): seq<Dict> {
    if st.inZ && st.current != map[] then st.sections + [st.current] else st.sections
  }

  /** The parsed file: its name, the header values passed as keyword arguments, and the sections. */
  datatype MdocFile = MdocFile(filename: string, header: Dict, zSections: seq<Dict>)

  /** The file name the result carries: the JSON output path when given and not empty, else the input path. */
  function OutputName(filepath: string, jsonOutputPath: Option<string>): string {
    if jsonOutputPath.Some? && jsonOutputPath.value != [] then jsonOutputPath.value else filepath
  }

  /**
   * `parse_mdoc_file`: one section per marker, in file order, each holding
   * "z_value". A header key "filename" or "z_sections" would be passed
   * twice to the constructor: TypeError.
   */
  function MdocOf(lines: seq<string>, filepath: string, jsonOutputPath: Option<string>, py: Interpreter): Result<MdocFile> {
    var st :- FoldLines(Classified(lines, py), |lines|);
    if "filename" in st.header || "z_sections" in st.header then Err(TypeError)
    else Ok(MdocFile(OutputName(filepath, jsonOutputPath), st.header, Finish(st)))
  }

  /**
   * What `parse_mdoc_file` promises: one section per marker, in file order,
   * each holding "z_value"; it fails only on a T section without "=" or on a
   * header key that clashes with a constructor argument.
   */
  lemma {:induction false} MdocOfShape(lines: seq<string>, filepath: string, jsonOutputPath: Option<string>, py: Interpreter)
    ensures var r := MdocOf(lines, filepath, jsonOutputPath, py);
      && (r.Ok? ==> (|r.value.zSections| == |Markers(lines, |lines|)|
                      && (forall k :: 0 <= k < |r.value.zSections| ==> "z_value" in r.value.zSections[k])
                      && "filename" !in r.value.header && "z_sections" !in r.value.header
                      && r.value.filename == OutputName(filepath, jsonOutputPath)))
      && (r.Err? ==> r.error == ValueError(NotEnoughValuesToUnpack) || r.error == TypeError)
      && (r == Err(TypeError) <==> FoldLines(Classified(lines, py), |lines|).Ok?
                                   && ("filename" in FoldLines(Classified(lines, py), |lines|).value.header
                                       || "z_sections" in FoldLines(Classified(lines, py), |lines|).value.header))
  {
    FoldConsistent(lines, |lines|, py);
  }

  /** A `[T = ...]` line merges its pairs into the header, inside a section or not. */
  lemma {:induction false} TSectionMergesIntoHeader(st: MdocState, raw: string, py: Interpreter)
    requires StartsWith(Strip(raw), "[T =") && HeaderSectionOf(Strip(raw), py).Ok?
    ensures Apply(st, Classify(raw, py)) == Ok(st.(header := st.header + HeaderSectionOf(Strip(raw), py).value))
  {
    var t := HeaderSectionOf(Strip(raw), py).value;
    if t == map[] {
      assert st.header + t == st.header;
    }
  }

  /** A key=value line goes to the open section once a marker was seen, and to the header before. */
  lemma {:induction false} KeyValueRouting(st: MdocState, raw: string, py: Interpreter)
    requires IsKeyValue(Strip(raw)) && MatchZValue(Strip(raw)).None?
    ensures var (key, value) := SplitFirst(Strip(raw), '=').value;
      var k, v := ParseKey(key, py), ValueOf(value, py);
      Apply(st, Classify(raw, py)) == Ok(if st.inZ then st.(current := st.current[k := v]) else st.(header := st.header[k := v]))
  {
    var line := Strip(raw);
    assert line[0] != '[';
    assert !StartsWith(line, "[T =");
    var (key, value) := SplitFirst(line, '=').value;
    assert Classify(raw, py) == KeyValue(ParseKey(key, py), ValueOf(value, py));
  }

  /** A marker as SerialEM writes it opens a section numbered by it, closing the open one. */
  lemma {:induction false} MarkerOpensSection(st: MdocState, n: nat, py: Interpreter)
    requires st.inZ ==> "z_value" in st.current
    ensures Apply(st, Classify(ZValueLine(n), py))
      == Ok(MdocState(st.header, if st.inZ then st.sections + [st.current] else st.sections, map["z_value" := VInt(n)], true))
  {
    var line := ZValueLine(n);
    ZValueRoundTrip(n, []);
    assert line + [] == line;
    StripKeepsInner(line);
    ClassifyShape(line, py);
  }

  /** The per-line steps of `parse_mdoc_file`: strip, then test for a T section, a marker, a key/value pair. */
  method ReadLine(raw: string, py: Interpreter) returns (l: Line)
    ensures l == Classify(raw, py)
  {
    var line := Strip(raw);
    if line == [] {
      return Blank;
    }
    if StartsWith(line, "[T =") {
      var tSectionData := ParseHeaderSection(line, py);
      return TSection(tSectionData);
    }
    var zValueMatch := MatchZValue(line);
    if zValueMatch.Some? {
      return Marker(zValueMatch.value);
    }
    if '=' in line && !StartsWith(line, "[") {
      var (key, value) := SplitFirst(line, '=').value;
      var parsedKey := ParseKey(key, py);
      var parsedValue := ParseValue(value, py);
      return KeyValue(parsedKey, parsedValue);
    }
    return Ignored;
  }

  /**
   * The body of `parse_mdoc_file`'s loop for one read line: a T section
   * merges into the header unless it is empty, a marker closes the open
   * section (unless empty) and opens the next, a key/value pair goes to the
   * open section or, before the first marker, to the header.
   */
  method ApplyLine(headerData: Dict, zSections: seq<Dict>, currentSection: Dict, inZSection: bool, line: Line)
    returns (next: Result<MdocState>)
    ensures next == Apply(MdocState(headerData, zSections, currentSection, inZSection), line)
  {
    var header, sections, current, inZ := headerData, zSections, currentSection, inZSection;
    match line {
      case Blank =>
      case TSection(tSectionData) =>
        if tSectionData.Err? {
          return Err(tSectionData.error);
        }
        if tSectionData.value != map[] {
          header := header + tSectionData.value;
        }
      case Marker(z) =>
        if inZ && current != map[] {
          sections := sections + [current];
        }
        current := map["z_value" := VInt(z)];
        inZ := true;
      case KeyValue(parsedKey, parsedValue) =>
        if inZ {
          current := current[parsedKey := parsedValue];
        } else {
          header := header[parsedKey := parsedValue];
        }
      case Ignored =>
    }
    return Ok(MdocState(header, sections, current, inZ));
  }

  /** ReadLine on the i-th line gives the i-th line of the read file. */
  method ReadLineAt(lines: seq<string>, i: nat, py: Interpreter, ghost ls: seq<Line>) returns (line: Line)
    requires i < |lines| == |ls|
    requires forall j {:trigger Classify(lines[j], py)} :: 0 <= j < |lines| ==> ls[j] == Classify(lines[j], py)
    ensures line == ls[i]
  {
    line := ReadLine(lines[i], py);
  }

  /** The loop of `parse_mdoc_file`: every line read and applied in order, stopping at the first error. */
  method ReadMdocLines(lines: seq<string>, py: Interpreter, ghost ls: seq<Line>) returns (r: Result<MdocState>)
    requires |ls| == |lines| && forall j {:trigger Classify(lines[j], py)} :: 0 <= j < |lines| ==> ls[j] == Classify(lines[j], py)
    ensures r == FoldLines(ls, |lines|)
  {
    var headerData: Dict := map[];
    var zSections: seq<Dict> := [];
    var currentSection: Dict := map[];
    var inZSection := false;
    var i := 0;
    while i < |lines|
      invariant 0 <= i <= |lines|
      invariant FoldLines(ls, i) == Ok(MdocState(headerData, zSections, currentSection, inZSection))
    {
      var line := ReadLineAt(lines, i, py, ls);
      FoldLinesStep(ls, i);
      var next := ApplyLine(headerData, zSections, currentSection, inZSection, line);
      if next.Err? {
        FoldErrorPersists(ls, i + 1, |lines|);
        return Err(next.error);
      }
      headerData, zSections, currentSection, inZSection := next.value.header, next.value.sections, next.value.current, next.value.inZ;
      i := i + 1;
    }
    return Ok(MdocState(headerData, zSections, currentSection, inZSection));
  }

  /** `parse_mdoc_file` on the file's lines: the loop, the final flush, and the constructor call. */
  method ParseMdocFile(lines: seq<string>, filepath: string, jsonOutputPath: Option<string>, py: Interpreter)
    returns (r: Result<MdocFile>)
    ensures r == MdocOf(lines, filepath, jsonOutputPath, py)
  {
    var folded := ReadMdocLines(lines, py, Classified(lines, py));
    if folded.Err? {
      return Err(folded.error);
    }
    var headerData, zSections := folded.value.header, folded.value.sections;
    if folded.value.inZ && folded.value.current != map[] {
      zSections := zSections + [folded.value.current];
    }
    if "filename" in headerData || "z_sections" in headerData {
      return Err(TypeError);
    }
    return Ok(MdocFile(OutputName(filepath, jsonOutputPath), headerData, zSections));
  }

  /** The SubFramePath value of every section, None where the section has none. */
  function SectionPaths(sections: seq<Dict>): (r: seq<Value>)
    ensures |r| == |sections| && forall i :: 0 <= i < |sections| ==> r[i] == Get(sections[i], "sub_frame_path")
  {
    seq(|sections|, i requires 0 <= i < |sections| => Get(sections[i], "sub_frame_path"))
  }

  /**
   * `MdocFile.search_by_subframe_path`: the sections, in file order, whose
   * SubFramePath is set and ends with the search string (see SubframeSearch
   * for the lower-casing).
   */
  method SearchBySubframePath(mdoc: MdocFile, searchString: string, caseSensitive: bool,
                              lower: string -> string, str: Value -> string) returns (matches: seq<Dict>)
    ensures matches == Selected(mdoc.zSections, Search(SectionPaths(mdoc.zSections), searchString, caseSensitive, lower, str, |mdoc.zSections|).matches)
  {
    ghost var paths := SectionPaths(mdoc.zSections);
    var search := searchString;
    matches := [];
    ghost var idx: seq<nat> := [];
    if mdoc.zSections != [] {
      var i: nat := 0;
      while i < |mdoc.zSections|
        invariant i <= |mdoc.zSections|
        invariant Search(paths, searchString, caseSensitive, lower, str, i) == SearchState(idx, search)
        invariant matches == Selected(mdoc.zSections, idx)
      {
        SearchStep(paths, searchString, caseSensitive, lower, str, i);
        var section := mdoc.zSections[i];
        var subframePath := Get(section, "sub_frame_path");
        assert subframePath == paths[i];
        if !Truthy(subframePath) {
          i := i + 1;
          continue;
        }
        var path := str(subframePath);
        if !caseSensitive {
          path := lower(path);
          search := lower(search);
        }
        if EndsWith(path, search) {
          assert Selected(mdoc.zSections, idx + [i]) == Selected(mdoc.zSections, idx) + [section];
          matches := matches + [section];
          idx := idx + [i];
        }
        i := i + 1;
      }
    }
  }

  /** The last path segment after backslash runs become "/": what the filter pattern is matched against. */
  function LastSegment(subframePath: string): (r: string)
    ensures '/' !in r && '\\' !in r
    ensures EndsWith(CollapseBackslashes(subframePath), r)
  {
    var normalized := CollapseBackslashes(subframePath);
    var r := LastField(normalized, '/');
    assert forall c :: c in r ==> c in normalized by {
      assert r == normalized[|normalized| - |r|..];
    }
    r
  }

  /**
   * The EMPIAR path an mdoc SubFramePath points to: the values `parse.parse`
   * extracts from the last segment, formatted into the file pattern. A
   * segment the filter pattern does not match is a ValueError; a format
   * error (too few values) propagates.
   */
  function ExpectedEmpiarPath(subframePath: string, filterPattern: string, filePattern: string,
                              matcher: (string, string) -> Option<seq<string>>,
                              format: (string, seq<string>) -> Result<string>): (r: Result<(string, seq<string>)>)
    ensures matcher(filterPattern, LastSegment(subframePath)).None? ==>
      r == Err(ValueError(PathDoesNotMatchFilter(CollapseBackslashes(subframePath))))
    ensures r.Ok? ==> (matcher(filterPattern, LastSegment(subframePath)) == Some(r.value.1)
                        && format(filePattern, r.value.1) == Ok(r.value.0))
    ensures matcher(filterPattern, LastSegment(subframePath)).Some? ==>
      var fixed := matcher(filterPattern, LastSegment(subframePath)).value;
      (r.Ok? <==> format(filePattern, fixed).Ok?)
      && (r.Err? ==> r.error == format(filePattern, fixed).error)
  {
    var matched := matcher(filterPattern, LastSegment(subframePath));
    if matched.None? then Err(ValueError(PathDoesNotMatchFilter(CollapseBackslashes(subframePath))))
    else
      var expected := format(filePattern, matched.value);
      if expected.Err? then Err(expected.error) else Ok((expected.value, matched.value))
  }

  /** Two SubFramePaths with the same last segment lead to the same EMPIAR file, whatever their directories. */
  lemma {:induction false} OnlyLastSegmentMatters(p: string, q: string, filterPattern: string, filePattern: string,
                               matcher: (string, string) -> Option<seq<string>>,
                               format: (string, seq<string>) -> Result<string>)
    requires LastSegment(p) == LastSegment(q)
    requires ExpectedEmpiarPath(p, filterPattern, filePattern, matcher, format).Ok?
    ensures ExpectedEmpiarPath(q, filterPattern, filePattern, matcher, format)
         == ExpectedEmpiarPath(p, filterPattern, filePattern, matcher, format)
  {
  }

  /**
   * What `match_mdoc_path_to_empiar` returns: the expected path and the
   * extracted values when the file list holds that path; a ValueError
   * naming the expected path when it does not.
   */
  function MatchedEmpiarFile(subframePath: string, filterPattern: string, filePattern: string, files: seq<string>,
                             matcher: (string, string) -> Option<seq<string>>,
                             format: (string, seq<string>) -> Result<string>): (r: Result<(string, seq<string>)>)
    ensures var e := ExpectedEmpiarPath(subframePath, filterPattern, filePattern, matcher, format);
      (e.Err? ==> r == Err(e.error))
      && (e.Ok? && e.value.0 in files ==> r == e)
      && (e.Ok? && e.value.0 !in files ==> r == Err(ValueError(NoEmpiarFileAtPath(e.value.0))))
    ensures r.Ok? ==> r.value.0 in files
  {
    var (expected, fixed) :- ExpectedEmpiarPath(subframePath, filterPattern, filePattern, matcher, format);
    if expected in files then Ok((expected, fixed)) else Err(ValueError(NoEmpiarFileAtPath(expected)))
  }

  /** `match_mdoc_path_to_empiar`: the scan of the file list for the expected path. */
  method MatchMdocPathToEmpiar(subframePath: string, filterPattern: string, filePattern: string, files: seq<string>,
                               matcher: (string, string) -> Option<seq<string>>,
                               format: (string, seq<string>) -> Result<string>)
    returns (r: Result<(string, seq<string>)>)
    ensures r == MatchedEmpiarFile(subframePath, filterPattern, filePattern, files, matcher, format)
  {
    var normalizedMdocPath := CollapseBackslashes(subframePath);
    var result := matcher(filterPattern, LastSegment(subframePath));
    if result.None? {
      return Err(ValueError(PathDoesNotMatchFilter(normalizedMdocPath)));
    }
    var expected := format(filePattern, result.value);
    if expected.Err? {
      return Err(expected.error);
    }
    var expectedEmpiarPath := expected.value;
    var i := 0;
    while i < |files|
      invariant 0 <= i <= |files|
      invariant expectedEmpiarPath !in files[..i]
    {
      if files[i] == expectedEmpiarPath {
        return Ok((files[i], result.value));
      }
      i := i + 1;
    }
    assert files[..|files|] == files;
    return Err(ValueError(NoEmpiarFileAtPath(expectedEmpiarPath)));
  }
}
