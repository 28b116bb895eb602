/**
 * The .mdoc records of the older reader (empiar_to_cets/utils/metadata_models.py):
 * a `[ZValue = n]` section with its metadata dict, and the parsed file with
 * its global headers and sections, whose fields the reader fills in place.
 * Pydantic's field validation is not modelled.
 */
module MetadataModels {
  import opened Text
  import opened PyValues
  import opened SubframeSearch

  type Dict = map<string, Value>

  /** One `[ZValue = n]` section: its number and the key/value pairs under it. */
  datatype ZValueSection = ZValueSection(zValue: int, metadata: Dict)

  /** A new section holds only its number; its metadata dict starts empty. */
  function NewSection(zValue: int): (s: ZValueSection)
    ensures s.zValue == zValue && s.metadata == map[]
  {
    ZValueSection(zValue, map[])
  }

  /** The SubFramePath entry of every section's metadata, None where a section has none. */
  function SubframePaths(sections: seq<ZValueSection>): (r: seq<Value>)
    ensures |r| == |sections| && forall i :: 0 <= i < |sections| ==> r[i] == Get(sections[i].metadata, "SubFramePath")
  {
    seq(|sections|, i requires 0 <= i < |sections| => Get(sections[i].metadata, "SubFramePath"))
  }

  /** The sections `search_by_subframe_path` returns, as SubframeSearch describes the walk. */
  function SearchResult(sections: seq<ZValueSection>, searchString: string, caseSensitive: bool,
                        lower: string -> string, str: Value -> string): (r: seq<ZValueSection>)
    ensures |r| <= |sections|
  {
    Selected(sections, Search(SubframePaths(sections), searchString, caseSensitive, lower, str, |sections|).matches)
  }

  /**
   * The result is a subsequence of the sections in file order: each match is
   * the section at an ascending index whose SubFramePath is set. When
   * lower-casing the search string twice changes nothing, a section is
   * returned exactly when its path (lower-cased unless the search is
   * case-sensitive) ends with the (lower-cased) search string. With no
   * sections nothing is returned.
   */
  lemma {:induction false} SearchResultShape(sections: seq<ZValueSection>, searchString: string, caseSensitive: bool,
                          lower: string -> string, str: Value -> string)
    requires caseSensitive || lower(lower(searchString)) == lower(searchString)
    ensures sections == [] ==> SearchResult(sections, searchString, caseSensitive, lower, str) == []
    ensures exists idx: seq<nat> ::
      (forall k :: 0 <= k < |idx| ==> idx[k] < |sections|)
      && (forall k, l :: 0 <= k < l < |idx| ==> idx[k] < idx[l])
      && SearchResult(sections, searchString, caseSensitive, lower, str) == Selected(sections, idx)
      && (forall i :: 0 <= i < |sections| ==>
            (i in idx <==> Truthy(Get(sections[i].metadata, "SubFramePath"))
                           && EndsWith(Haystack(Get(sections[i].metadata, "SubFramePath"), caseSensitive, lower, str),
                                       if caseSensitive then searchString else lower(searchString))))
  {
    var paths := SubframePaths(sections);
    var idx := Search(paths, searchString, caseSensitive, lower, str, |sections|).matches;
    SearchShape(paths, searchString, caseSensitive, lower, str, |sections|);
    forall i | 0 <= i < |sections|
      ensures i in idx <==> Truthy(paths[i])
                            && EndsWith(Haystack(paths[i], caseSensitive, lower, str),
                                        if caseSensitive then searchString else lower(searchString))
    {
      SearchKeepsExactly(paths, searchString, caseSensitive, lower, str, |sections|, i);
    }
    assert SearchResult(sections, searchString, caseSensitive, lower, str) == Selected(sections, idx);
  }

  /** The parts of a parsed .mdoc file the converters read: its global headers and its sections. */
  datatype MdocData = MdocData(globalHeaders: Dict, zSections: seq<ZValueSection>)

  /**
   * A parsed .mdoc file. The older reader creates it with its file name and
   * empty headers and sections, then adds headers, sections and section
   * entries to it line by line.
   */
  class MdocFile {
    var filename: string
    var globalHeaders: Dict
    var zSections: seq<ZValueSection>

    /** `MdocFile(filename=...)`: the headers default to an empty dict and the sections to an empty list. */
    constructor (filename: string)
      ensures this.filename == filename && globalHeaders == map[] && zSections == []
    {
      this.filename := filename;
      globalHeaders := map[];
      zSections := [];
    }

    /**
     * `search_by_subframe_path`: walks the sections in order, skips those
     * whose SubFramePath is missing or falsy, lower-cases both strings
     * unless the search is case-sensitive, and keeps the sections whose path
     * ends with the search string.
     */
    method SearchBySubframePath(searchString: string, caseSensitive: bool, lower: string -> string, str: Value -> string)
      returns (matches: seq<ZValueSection>)
      ensures matches == SearchResult(zSections, searchString, caseSensitive, lower, str)
    {
      var sections := zSections;
      ghost var paths := SubframePaths(sections);
      var search := searchString;
      matches := [];
      ghost var idx: seq<nat> := [];
      if sections != [] {
        var i: nat := 0;
        while i < |sections|
          invariant i <= |sections|
          invariant Search(paths, searchString, caseSensitive, lower, str, i) == SearchState(idx, search)
          invariant matches == Selected(sections, idx)
        {
          SearchStep(paths, searchString, caseSensitive, lower, str, i);
          var section := sections[i];
          var subframePath := Get(section.metadata, "SubFramePath");
          assert subframePath == paths[i];
          if !Truthy(subframePath) {
            i := i + 1;
            continue;
          }
          var path := str(subframePath);
          if !caseSensitive {
            path := lower(path);
            search := lower(search);
          }
          if EndsWith(path, search) {
            assert Selected(sections, idx + [i]) == Selected(sections, idx) + [section];
            matches := matches + [section];
            idx := idx + [i];
          }
          i := i + 1;
        }
      }
    }
  }
}
