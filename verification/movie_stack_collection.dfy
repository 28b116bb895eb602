/**
 * The movie-stack collection of a region (empiar_to_cets/conversion/
 * movie_stack_collection.py): one movie-stack dict per movie-stack
 * definition, holding the URL of the movie file when exactly one file
 * matches the definition's pattern and, when .mdoc metadata is given, one
 * frame dict per subframe of the section recorded for that movie.
 *
 * The loop as written keeps one dict variable across iterations and binds
 * it only when a definition matches exactly one file; CreateMovieStacksAsWritten
 * models that loop, object for object. The rest of the model uses the
 * evidently intended fresh dict per definition (StackDictFor).
 */
module MovieStacks {
  import opened Wrappers
  import opened Text
  import opened PyValues
  import opened MetadataModels
  import opened EmpiarFiles
  import opened Folds
  import opened SubframeSearch
  import CetsTiltSeries

  /** The interpreter functions the converter relies on: `int(s)`, `s.lower()` and `str(v)`. */
  datatype Builtins = Builtins(parseInt: string -> Option<int>, lower: string -> string, str: Value -> string)

  /** A frame dict: the frame number as text, the section's TiltAngle entry, and the image size. */
  datatype MovieFrameDict = MovieFrameDict(section: string, nominalTiltAngle: Value, width: int, height: int)

  /** A movie-stack dict: "path" and "images" are set only under the conditions above. */
  datatype StackDict = StackDict(path: Option<string>, images: Option<seq<MovieFrameDict>>)

  /** The one series of the collection, and the collection itself. */
  datatype MovieStackSeriesDict = MovieStackSeriesDict(stacks: seq<StackDict>)
  datatype MovieStackCollectionDict = MovieStackCollectionDict(movieStacks: seq<MovieStackSeriesDict>)

  /** The text left once the trailing separators are dropped. */
  function TrimTrailingSlashes(s: string): (r: string)
    ensures |r| <= |s| && r == s[..|r|]
    ensures r == [] || r[|r| - 1] != '/'
    ensures forall k :: |r| <= k < |s| ==> s[k] == '/'
    decreases |s|
  {
    if |s| > 0 && s[|s| - 1] == '/' then TrimTrailingSlashes(s[..|s| - 1]) else s
  }

  /** `Path(pattern).name`: the last component, trailing separators ignored. */
  function PathName(pattern: string): (r: string)
    ensures '/' !in r
    ensures EndsWith(TrimTrailingSlashes(pattern), r)
  {
    LastField(TrimTrailingSlashes(pattern), '/')
  }

  /** The name of a path is the component after the last separator, with or without a trailing one. */
  lemma {:induction false} PathNameOfJoin(dir: string, name: string)
    requires name != [] && '/' !in name
    ensures PathName(dir + "/" + name) == name
    ensures PathName(dir + "/" + name + "/") == name
    ensures PathName(name) == name
  {
    var s := dir + "/" + name;
    assert s[|s| - 1] == name[|name| - 1];
    assert (s + "/")[..|s|] == s;
    assert name[|name| - 1] in name;
    LastFieldAfter(dir, '/', name);
    LastFieldWhole(name, '/');
  }

  /** The sections `search_by_subframe_path` returns for the file name of a movie-stack pattern. */
  function MatchingSections(pattern: string, mdoc: MdocData, lib: Builtins): (r: seq<ZValueSection>)
    ensures |r| <= |mdoc.zSections|
  {
    SearchResult(mdoc.zSections, PathName(pattern), false, lib.lower, lib.str)
  }

  /**
   * What `create_cets_movie_frames_for_volume_movie` returns: the first
   * section whose SubFramePath ends with the pattern's file name (none is
   * an IndexError), the image size, the section's NumSubFrames as an int,
   * and one frame per subframe.
   */
  function FramesForVolumeMovie(pattern: string, mdoc: MdocData, lib: Builtins): (r: Result<seq<MovieFrameDict>>)
    ensures MatchingSections(pattern, mdoc, lib) == [] ==> r == Err(IndexError)
    ensures r.Ok? ==> CetsTiltSeries.ImageSizePair(mdoc.globalHeaders, lib.parseInt).Ok?
  {
    var found := MatchingSections(pattern, mdoc, lib);
    if found == [] then Err(IndexError)
    else
      var size :- CetsTiltSeries.ImageSizePair(mdoc.globalHeaders, lib.parseInt);
      SectionFrames(found[0], size.0, size.1, lib.parseInt)
  }

  /** The frames of one section once the image size is known. */
  function SectionFrames(section: ZValueSection, width: int, height: int, parseInt: string -> Option<int>)
    : (r: Result<seq<MovieFrameDict>>)
    ensures "NumSubFrames" !in section.metadata ==> r == Err(KeyError("NumSubFrames"))
  {
    var countValue :- Lookup(section.metadata, "NumSubFrames");
    var count :- ToInt(countValue, parseInt);
    if count <= 0 then Ok([])
    else
      var angle :- Lookup(section.metadata, "TiltAngle");
      Ok(seq(count, f requires 0 <= f < count => MovieFrameDict(IntToString(f), angle, width, height)))
  }

  /**
   * The frames of the matched section: an error from the image size, a
   * KeyError without NumSubFrames, the error of `int()` on it, no frames
   * when it is not positive, and otherwise one frame per subframe numbered
   * from 0, all with the section's tilt angle and the image size, their
   * labels all different. The TiltAngle lookup happens inside the loop, so
   * a section without one fails only when it has subframes.
   */
  lemma {:induction false} FramesForVolumeMovieShape(pattern: string, mdoc: MdocData, lib: Builtins)
    requires MatchingSections(pattern, mdoc, lib) != []
    ensures var r := FramesForVolumeMovie(pattern, mdoc, lib);
      var section := MatchingSections(pattern, mdoc, lib)[0];
      var size := CetsTiltSeries.ImageSizePair(mdoc.globalHeaders, lib.parseInt);
      (size.Err? ==> r == Err(size.error))
      && (size.Ok? && "NumSubFrames" !in section.metadata ==> r == Err(KeyError("NumSubFrames")))
      && (size.Ok? && "NumSubFrames" in section.metadata ==>
          var count := ToInt(section.metadata["NumSubFrames"], lib.parseInt);
          (count.Err? ==> r == Err(count.error))
          && (count.Ok? && count.value <= 0 ==> r == Ok([]))
          && (count.Ok? && count.value > 0 && "TiltAngle" !in section.metadata ==> r == Err(KeyError("TiltAngle")))
          && (count.Ok? && count.value > 0 && "TiltAngle" in section.metadata ==>
              r.Ok? && |r.value| == count.value
              && (forall f :: 0 <= f < |r.value| ==>
                    r.value[f] == MovieFrameDict(IntToString(f), section.metadata["TiltAngle"], size.value.0, size.value.1))
              && (forall f, g :: 0 <= f < g < |r.value| ==> r.value[f].section != r.value[g].section)))
  {
    var r := FramesForVolumeMovie(pattern, mdoc, lib);
    if r.Ok? {
      forall f, g | 0 <= f < g < |r.value|
        ensures IntToString(f) != IntToString(g)
      {
        CetsTiltSeries.SectionLabelsDiffer(f, g);
      }
    }
  }

  /**
   * The section the frames come from is the first, in file order, whose
   * SubFramePath (lower-cased) ends with the lower-cased file name of the
   * pattern.
   */
  lemma {:induction false} MatchedSectionIsFirstMatch(pattern: string, mdoc: MdocData, lib: Builtins)
    requires lib.lower(lib.lower(PathName(pattern))) == lib.lower(PathName(pattern))
    requires MatchingSections(pattern, mdoc, lib) != []
    ensures exists i ::
      0 <= i < |mdoc.zSections|
      && MatchingSections(pattern, mdoc, lib)[0] == mdoc.zSections[i]
      && Truthy(Get(mdoc.zSections[i].metadata, "SubFramePath"))
      && EndsWith(lib.lower(lib.str(Get(mdoc.zSections[i].metadata, "SubFramePath"))), lib.lower(PathName(pattern)))
      && forall j :: 0 <= j < i ==>
           !(Truthy(Get(mdoc.zSections[j].metadata, "SubFramePath"))
             && EndsWith(lib.lower(lib.str(Get(mdoc.zSections[j].metadata, "SubFramePath"))), lib.lower(PathName(pattern))))
  {
    var name := PathName(pattern);
    var sections := mdoc.zSections;
    var paths := SubframePaths(sections);
    var idx := Search(paths, name, false, lib.lower, lib.str, |sections|).matches;
    SearchShape(paths, name, false, lib.lower, lib.str, |sections|);
    var i := idx[0];
    assert MatchingSections(pattern, mdoc, lib)[0] == sections[i];
    SearchKeepsExactly(paths, name, false, lib.lower, lib.str, |sections|, i);
    forall j | 0 <= j < i
      ensures !(Truthy(paths[j]) && EndsWith(Haystack(paths[j], false, lib.lower, lib.str), lib.lower(name)))
    {
      SearchKeepsExactly(paths, name, false, lib.lower, lib.str, |sections|, j);
      forall k | 0 <= k < |idx|
        ensures idx[k] != j
      {
        assert k > 0 ==> idx[0] < idx[k];
      }
    }
  }

  /** `create_cets_movie_frames_for_volume_movie`: finds the section, then builds its frames. */
  method CreateMovieFramesForVolumeMovie(pattern: string, metadata: MdocFile, lib: Builtins)
    returns (r: Result<seq<MovieFrameDict>>)
    ensures r == FramesForVolumeMovie(pattern, MdocData(metadata.globalHeaders, metadata.zSections), lib)
  {
    var found := metadata.SearchBySubframePath(PathName(pattern), false, lib.lower, lib.str);
    if |found| == 0 {
      return Err(IndexError);
    }
    var size := CetsTiltSeries.ImageSizePair(metadata.globalHeaders, lib.parseInt);
    if size.Err? {
      return Err(size.error);
    }
    r := CreateSectionFrames(found[0], size.value.0, size.value.1, lib.parseInt);
  }

  /** The frame loop: `range(int(NumSubFrames))`, one frame dict per subframe. */
  method CreateSectionFrames(section: ZValueSection, width: int, height: int, parseInt: string -> Option<int>)
    returns (r: Result<seq<MovieFrameDict>>)
    ensures r == SectionFrames(section, width, height, parseInt)
  {
    var countValue := Lookup(section.metadata, "NumSubFrames");
    if countValue.Err? {
      return Err(countValue.error);
    }
    var count := ToInt(countValue.value, parseInt);
    if count.Err? {
      return Err(count.error);
    }
    var frames: seq<MovieFrameDict> := [];
    var f := 0;
    while f < count.value
      invariant 0 <= f <= (if count.value > 0 then count.value else 0)
      invariant f > 0 ==> "TiltAngle" in section.metadata
      invariant |frames| == f
      invariant forall g :: 0 <= g < f ==>
                  frames[g] == MovieFrameDict(IntToString(g), section.metadata["TiltAngle"], width, height)
    {
      var angle := Lookup(section.metadata, "TiltAngle");
      if angle.Err? {
        return Err(angle.error);
      }
      frames := frames + [MovieFrameDict(IntToString(f), angle.value, width, height)];
      f := f + 1;
    }
    if count.value > 0 {
      assert frames == SectionFrames(section, width, height, parseInt).value;
    } else {
      assert frames == [];
    }
    return Ok(frames);
  }

  /** The data of a parsed .mdoc file, when one is given. */
  function DataOf(metadata: Option<MdocFile>): (r: Option<MdocData>)
    reads if metadata.Some? then {metadata.value} else {}
    ensures r.Some? <==> metadata.Some?
  {
    match metadata
    case None => None
    case Some(m) => Some(MdocData(m.globalHeaders, m.zSections))
  }

  /**
   * The dict one movie-stack definition should give: the files matching
   * its pattern (none is a ValueError), the accession number, the URL of
   * the only file when exactly one matches, and the frames when metadata
   * is given.
   */
  function StackDictFor(accessionId: string, pattern: string, matchFiles: string -> Result<seq<string>>,
                        metadata: Option<MdocData>, lib: Builtins): (r: Result<StackDict>)
    ensures matchFiles(pattern) == Ok([]) ==> r == Err(ValueError(NoFilesMatching(pattern)))
    ensures r.Ok? ==>
      matchFiles(pattern).Ok? && AccessionNo(accessionId).Ok?
      && var paths := matchFiles(pattern).value;
         (r.value.path.Some? <==> |paths| == 1)
         && (|paths| == 1 ==> r.value.path == Some(DataUrl(AccessionNo(accessionId).value, paths[0])))
         && (r.value.images.Some? <==> metadata.Some?)
         && (metadata.Some? ==> FramesForVolumeMovie(pattern, metadata.value, lib) == Ok(r.value.images.value))
    // It succeeds exactly when each step does, and otherwise fails with the first failing step's error.
    ensures r.Ok? <==> matchFiles(pattern).Ok? && matchFiles(pattern).value != [] && AccessionNo(accessionId).Ok?
                       && (metadata.Some? ==> FramesForVolumeMovie(pattern, metadata.value, lib).Ok?)
    ensures matchFiles(pattern).Err? ==> r == Err(matchFiles(pattern).error)
    ensures matchFiles(pattern).Ok? && matchFiles(pattern).value != [] && AccessionNo(accessionId).Err? ==>
      r == Err(AccessionNo(accessionId).error)
    ensures matchFiles(pattern).Ok? && matchFiles(pattern).value != [] && AccessionNo(accessionId).Ok?
            && metadata.Some? && FramesForVolumeMovie(pattern, metadata.value, lib).Err? ==>
      r == Err(FramesForVolumeMovie(pattern, metadata.value, lib).error)
  {
    var paths :- matchFiles(pattern);
    if paths == [] then Err(ValueError(NoFilesMatching(pattern)))
    else
      var accessionNo :- AccessionNo(accessionId);
      var path := if |paths| == 1 then Some(DataUrl(accessionNo, paths[0])) else None;
      if metadata.None? then Ok(StackDict(path, None))
      else
        var frames :- FramesForVolumeMovie(pattern, metadata.value, lib);
        Ok(StackDict(path, Some(frames)))
  }

  /** The builder the definition loop applies to each pattern. */
  function StackBuilder(accessionId: string, matchFiles: string -> Result<seq<string>>,
                        metadata: Option<MdocData>, lib: Builtins): string -> Result<StackDict>
  {
    p => StackDictFor(accessionId, p, matchFiles, metadata, lib)
  }

  /** The movie stacks of a region, one fresh dict per definition. */
  function StackDicts(accessionId: string, patterns: seq<string>, matchFiles: string -> Result<seq<string>>,
                      metadata: Option<MdocData>, lib: Builtins): Result<seq<StackDict>>
  {
    MapUpTo(patterns, StackBuilder(accessionId, matchFiles, metadata, lib), |patterns|)
  }

  /**
   * One dict per definition, in order: a path exactly when that definition
   * matches one file, frames exactly when metadata is given; the first
   * definition that fails decides the error.
   */
  lemma {:induction false} StackDictsShape(accessionId: string, patterns: seq<string>, matchFiles: string -> Result<seq<string>>,
                        metadata: Option<MdocData>, lib: Builtins)
    ensures var r := StackDicts(accessionId, patterns, matchFiles, metadata, lib);
      (r.Ok? <==> forall i :: 0 <= i < |patterns| ==> StackDictFor(accessionId, patterns[i], matchFiles, metadata, lib).Ok?)
      && (r.Ok? ==> |r.value| == |patterns|
                    && forall i :: 0 <= i < |patterns| ==>
                         r.value[i] == StackDictFor(accessionId, patterns[i], matchFiles, metadata, lib).value
                         && (r.value[i].path.Some? <==> |matchFiles(patterns[i]).value| == 1)
                         && (r.value[i].images.Some? <==> metadata.Some?))
  {
    MapUpToShape(patterns, StackBuilder(accessionId, matchFiles, metadata, lib), |patterns|);
  }

  /** The body of the definition loop, with a fresh dict each time. */
  method CreateMovieStackDict(accessionId: string, pattern: string, matchFiles: string -> Result<seq<string>>,
                              metadata: Option<MdocFile>, lib: Builtins)
    returns (r: Result<StackDict>)
    ensures r == StackDictFor(accessionId, pattern, matchFiles, DataOf(metadata), lib)
  {
    var paths := matchFiles(pattern);
    if paths.Err? {
      return Err(paths.error);
    }
    if paths.value == [] {
      return Err(ValueError(NoFilesMatching(pattern)));
    }
    var accessionNo := AccessionNo(accessionId);
    if accessionNo.Err? {
      return Err(accessionNo.error);
    }
    var dict := StackDict(None, None);
    if |paths.value| == 1 {
      dict := dict.(path := Some(DataUrl(accessionNo.value, paths.value[0])));
    }
    if metadata.Some? {
      var frames := CreateMovieFramesForVolumeMovie(pattern, metadata.value, lib);
      if frames.Err? {
        return Err(frames.error);
      }
      dict := dict.(images := Some(frames.value));
    }
    return Ok(dict);
  }

  /** `build` gives each definition the dict StackDictFor describes. */
  ghost predicate BuildsStackDicts(build: string -> Result<StackDict>, accessionId: string, matchFiles: string -> Result<seq<string>>,
                                   metadata: Option<MdocData>, lib: Builtins)
  {
    forall p {:trigger StackDictFor(accessionId, p, matchFiles, metadata, lib)} ::
      build(p) == StackDictFor(accessionId, p, matchFiles, metadata, lib)
  }

  /** The definition loop, for a builder giving each definition's dict. */
  method DefinitionLoop(accessionId: string, patterns: seq<string>, matchFiles: string -> Result<seq<string>>,
                        metadata: Option<MdocFile>, lib: Builtins, ghost build: string -> Result<StackDict>)
    returns (r: Result<seq<StackDict>>)
    requires BuildsStackDicts(build, accessionId, matchFiles, DataOf(metadata), lib)
    ensures r == MapUpTo(patterns, build, |patterns|)
  {
    var stacks: seq<StackDict> := [];
    var i: nat := 0;
    while i < |patterns|
      invariant i <= |patterns|
      invariant MapUpTo(patterns, build, i) == Ok(stacks)
    {
      MapStep(patterns, build, i, stacks);
      var dict := CreateMovieStackDict(accessionId, patterns[i], matchFiles, metadata, lib);
      if dict.Err? {
        MapErrorPersists(patterns, build, i + 1, |patterns|);
        return Err(dict.error);
      }
      stacks := stacks + [dict.value];
      i := i + 1;
    }
    return Ok(stacks);
  }

  /** `create_cets_movie_stacks_from_region_definition` with a fresh dict per definition. */
  method CreateMovieStacks(accessionId: string, patterns: seq<string>, matchFiles: string -> Result<seq<string>>,
                           metadata: Option<MdocFile>, lib: Builtins)
    returns (r: Result<seq<StackDict>>)
    ensures r == StackDicts(accessionId, patterns, matchFiles, DataOf(metadata), lib)
  {
    r := DefinitionLoop(accessionId, patterns, matchFiles, metadata, lib, StackBuilder(accessionId, matchFiles, DataOf(metadata), lib));
  }

  /**
   * What `create_cets_movie_stack_collection_from_region_definition`
   * returns: the stacks its loop as written leaves, wrapped in one series
   * of one collection.
   */
  function MovieStackCollection(accessionId: string, patterns: seq<string>, matchFiles: string -> Result<seq<string>>,
                                metadata: Option<MdocData>, lib: Builtins): (r: Result<seq<MovieStackCollectionDict>>)
    ensures var stacks := StacksAsWritten(accessionId, patterns, matchFiles, metadata, lib);
      (r.Ok? <==> stacks.Ok?)
      && (r.Err? ==> r.error == stacks.error)
      && (r.Ok? ==> |r.value| == 1 && |r.value[0].movieStacks| == 1 && r.value[0].movieStacks[0].stacks == stacks.value)
  {
    var stacks :- StacksAsWritten(accessionId, patterns, matchFiles, metadata, lib);
    Ok([MovieStackCollectionDict([MovieStackSeriesDict(stacks)])])
  }

  /** The collection the function evidently intends: a fresh dict per definition, wrapped the same way. */
  function MovieStackCollectionIntended(accessionId: string, patterns: seq<string>, matchFiles: string -> Result<seq<string>>,
                                        metadata: Option<MdocData>, lib: Builtins): (r: Result<seq<MovieStackCollectionDict>>)
    ensures var stacks := StackDicts(accessionId, patterns, matchFiles, metadata, lib);
      (r.Ok? <==> stacks.Ok?)
      && (r.Err? ==> r.error == stacks.error)
      && (r.Ok? ==> |r.value| == 1 && |r.value[0].movieStacks| == 1 && r.value[0].movieStacks[0].stacks == stacks.value)
  {
    var stacks :- StackDicts(accessionId, patterns, matchFiles, metadata, lib);
    Ok([MovieStackCollectionDict([MovieStackSeriesDict(stacks)])])
  }

  /**
   * When every definition's dict can be computed, the collection as
   * written equals the intended one exactly when every definition matches
   * a single file.
   */
  lemma {:induction false} CollectionsAgreeIff(accessionId: string, patterns: seq<string>, matchFiles: string -> Result<seq<string>>,
                                               metadata: Option<MdocData>, lib: Builtins)
    requires StackDicts(accessionId, patterns, matchFiles, metadata, lib).Ok?
    ensures var dicts := StackDicts(accessionId, patterns, matchFiles, metadata, lib).value;
      MovieStackCollection(accessionId, patterns, matchFiles, metadata, lib)
        == MovieStackCollectionIntended(accessionId, patterns, matchFiles, metadata, lib)
      <==> forall k :: 0 <= k < |dicts| ==> dicts[k].path.Some?
  {
    AsWrittenAgreesIff(accessionId, patterns, matchFiles, metadata, lib);
    var w := StacksAsWritten(accessionId, patterns, matchFiles, metadata, lib);
    var dicts := StackDicts(accessionId, patterns, matchFiles, metadata, lib).value;
    if MovieStackCollection(accessionId, patterns, matchFiles, metadata, lib)
         == MovieStackCollectionIntended(accessionId, patterns, matchFiles, metadata, lib) {
      assert w.Ok?;
      assert w.value == MovieStackCollection(accessionId, patterns, matchFiles, metadata, lib).value[0].movieStacks[0].stacks;
      assert w == Ok(dicts);
    }
  }

  /**
   * `create_cets_movie_stack_collection_from_region_definition`: the loop
   * as written, whose entries are then read into one series of one
   * collection.
   */
  method CreateMovieStackCollection(accessionId: string, patterns: seq<string>, matchFiles: string -> Result<seq<string>>,
                                    metadata: Option<MdocFile>, lib: Builtins)
    returns (r: Result<seq<MovieStackCollectionDict>>)
    ensures r == MovieStackCollection(accessionId, patterns, matchFiles, DataOf(metadata), lib)
  {
    ghost var w := StacksAsWritten(accessionId, patterns, matchFiles, DataOf(metadata), lib);
    var objects := CreateMovieStacksAsWritten(accessionId, patterns, matchFiles, metadata, lib);
    if objects.Err? {
      return Err(objects.error);
    }
    var stacks: seq<StackDict> := [];
    var i := 0;
    while i < |objects.value|
      invariant 0 <= i <= |objects.value|
      invariant |stacks| == i
      invariant forall k :: 0 <= k < i ==> stacks[k] == w.value[k]
    {
      stacks := stacks + [StackDict(Some(objects.value[i].path), objects.value[i].images)];
      i := i + 1;
    }
    assert stacks == w.value;
    var series := [MovieStackSeriesDict(stacks)];
    return Ok([MovieStackCollectionDict(series)]);
  }

  /** The intended collection, built from a fresh dict per definition. */
  method CreateMovieStackCollectionIntended(accessionId: string, patterns: seq<string>, matchFiles: string -> Result<seq<string>>,
                                            metadata: Option<MdocFile>, lib: Builtins)
    returns (r: Result<seq<MovieStackCollectionDict>>)
    ensures r == MovieStackCollectionIntended(accessionId, patterns, matchFiles, DataOf(metadata), lib)
  {
    var stacks := CreateMovieStacks(accessionId, patterns, matchFiles, metadata, lib);
    if stacks.Err? {
      return Err(stacks.error);
    }
    var series := [MovieStackSeriesDict(stacks.value)];
    return Ok([MovieStackCollectionDict(series)]);
  }

  // The loop as written.

  /** The dict object the loop as written binds to `cets_movie_stack_dict`: created with a path, given images later. */
  class MovieStackDict {
    var path: string
    var images: Option<seq<MovieFrameDict>>

    constructor (path: string)
      ensures this.path == path && images == None
    {
      this.path := path;
      images := None;
    }
  }

  /**
   * Which definition's dict entry k of the loop as written holds: the
   * latest definition up to k that matched exactly one file.
   */
  function Owner(dicts: seq<StackDict>, k: nat): (o: nat)
    requires k < |dicts| && dicts[0].path.Some?
    ensures o <= k && dicts[o].path.Some?
    ensures forall j :: o < j <= k ==> dicts[j].path.None?
    decreases k
  {
    if dicts[k].path.Some? then k else Owner(dicts, k - 1)
  }

  /** The last definition from k on whose loop iteration still holds the same dict. */
  function LastSharer(dicts: seq<StackDict>, k: nat): (j: nat)
    requires k < |dicts|
    ensures k <= j < |dicts|
    ensures forall m :: k < m <= j ==> dicts[m].path.None?
    ensures j + 1 < |dicts| ==> dicts[j + 1].path.Some?
    decreases |dicts| - k
  {
    if k + 1 < |dicts| && dicts[k + 1].path.None? then LastSharer(dicts, k + 1) else k
  }


  lemma {:induction false} OwnerIs(dicts: seq<StackDict>, k: nat, o: nat)
    requires o <= k < |dicts| && dicts[0].path.Some? && dicts[o].path.Some?
    requires forall j :: o < j <= k ==> dicts[j].path.None?
    ensures Owner(dicts, k) == o
  {
  }

  lemma {:induction false} LastSharerIs(dicts: seq<StackDict>, k: nat, j: nat)
    requires k <= j < |dicts|
    requires forall m :: k < m <= j ==> dicts[m].path.None?
    requires j + 1 < |dicts| ==> dicts[j + 1].path.Some?
    ensures LastSharer(dicts, k) == j
  {
  }

  /**
   * The entries the loop as written leaves, given the dicts its iterations
   * compute: each holds the path of its owner's dict and the images the
   * last iteration sharing that dict stored in it.
   */
  function AsWrittenOf(dicts: seq<StackDict>): (r: seq<StackDict>)
    requires |dicts| > 0 && dicts[0].path.Some?
    ensures |r| == |dicts|
  {
    seq(|dicts|, k requires 0 <= k < |dicts| => StackDict(dicts[Owner(dicts, k)].path, dicts[LastSharer(dicts, k)].images))
  }

  /** With every definition matching one file, each entry is its own definition's dict. */
  lemma {:induction false} AsWrittenOfOwnDicts(dicts: seq<StackDict>)
    requires |dicts| > 0 && forall k :: 0 <= k < |dicts| ==> dicts[k].path.Some?
    ensures AsWrittenOf(dicts) == dicts
  {
    var w := AsWrittenOf(dicts);
    forall k | 0 <= k < |dicts|
      ensures w[k] == dicts[k]
    {
      OwnerIs(dicts, k, k);
      LastSharerIs(dicts, k, k);
    }
  }

  /** An entry whose definition matched several files still carries a path. */
  lemma {:induction false} AsWrittenOfSharedEntry(dicts: seq<StackDict>, k: nat)
    requires |dicts| > 0 && dicts[0].path.Some? && k < |dicts| && dicts[k].path.None?
    ensures AsWrittenOf(dicts)[k] != dicts[k]
  {
    assert AsWrittenOf(dicts)[k].path.Some?;
  }

  /** The shared dict changes nothing exactly when every definition has its own. */
  lemma {:induction false} AsWrittenOfAgrees(dicts: seq<StackDict>)
    requires |dicts| > 0 && dicts[0].path.Some?
    ensures AsWrittenOf(dicts) == dicts <==> forall k :: 0 <= k < |dicts| ==> dicts[k].path.Some?
  {
    if forall k :: 0 <= k < |dicts| ==> dicts[k].path.Some? {
      AsWrittenOfOwnDicts(dicts);
    } else {
      var k :| 0 <= k < |dicts| && dicts[k].path.None?;
      AsWrittenOfSharedEntry(dicts, k);
    }
  }

  /**
   * What the loop as written leaves in its list: the first definition's
   * dict must have a path, else the variable is still unbound; after that
   * the entries are those of AsWrittenOf.
   */
  function StacksAsWritten(accessionId: string, patterns: seq<string>, matchFiles: string -> Result<seq<string>>,
                           metadata: Option<MdocData>, lib: Builtins): (r: Result<seq<StackDict>>)
    ensures r.Ok? ==> |r.value| == |patterns|
  {
    if |patterns| == 0 then Ok([])
    else
      var build := StackBuilder(accessionId, matchFiles, metadata, lib);
      var first :- build(patterns[0]);
      if first.path.None? then Err(UnboundLocalError("cets_movie_stack_dict"))
      else
        var dicts :- MapUpTo(patterns, build, |patterns|);
        MapUpToShape(patterns, build, |patterns|);
        Ok(AsWrittenOf(dicts))
  }

  /**
   * The loop as written agrees with a fresh dict per definition exactly
   * when every definition matches one file; it fails with an unbound
   * variable exactly when the first definition matches several.
   */
  lemma {:induction false} AsWrittenAgreesIff(accessionId: string, patterns: seq<string>, matchFiles: string -> Result<seq<string>>,
                           metadata: Option<MdocData>, lib: Builtins)
    requires StackDicts(accessionId, patterns, matchFiles, metadata, lib).Ok?
    ensures var dicts := StackDicts(accessionId, patterns, matchFiles, metadata, lib).value;
      (StacksAsWritten(accessionId, patterns, matchFiles, metadata, lib) == Ok(dicts)
       <==> forall k :: 0 <= k < |dicts| ==> dicts[k].path.Some?)
      && (StacksAsWritten(accessionId, patterns, matchFiles, metadata, lib) == Err(UnboundLocalError("cets_movie_stack_dict"))
          <==> |dicts| > 0 && dicts[0].path.None?)
  {
    var build := StackBuilder(accessionId, matchFiles, metadata, lib);
    MapUpToShape(patterns, build, |patterns|);
    var dicts := MapUpTo(patterns, build, |patterns|).value;
    if |dicts| > 0 {
      assert build(patterns[0]) == Ok(dicts[0]);
      if dicts[0].path.Some? {
        AsWrittenOfAgrees(dicts);
      }
    }
  }

  /**
   * Once the first definition's dict has a path, the loop as written fails
   * exactly as the fresh-dict loop does, and otherwise leaves the entries
   * of AsWrittenOf.
   */
  lemma {:induction false} AsWrittenOfStackDicts(accessionId: string, patterns: seq<string>, matchFiles: string -> Result<seq<string>>,
                                                 metadata: Option<MdocData>, lib: Builtins)
    requires |patterns| > 0 && StackDictFor(accessionId, patterns[0], matchFiles, metadata, lib).Ok?
    requires StackDictFor(accessionId, patterns[0], matchFiles, metadata, lib).value.path.Some?
    ensures var dicts := StackDicts(accessionId, patterns, matchFiles, metadata, lib);
      (dicts.Err? ==> StacksAsWritten(accessionId, patterns, matchFiles, metadata, lib) == Err(dicts.error))
      && (dicts.Ok? ==>
            |dicts.value| == |patterns| && dicts.value[0] == StackDictFor(accessionId, patterns[0], matchFiles, metadata, lib).value
            && StacksAsWritten(accessionId, patterns, matchFiles, metadata, lib) == Ok(AsWrittenOf(dicts.value)))
  {
    var build := StackBuilder(accessionId, matchFiles, metadata, lib);
    MapUpToShape(patterns, build, |patterns|);
    assert build(patterns[0]) == StackDictFor(accessionId, patterns[0], matchFiles, metadata, lib);
  }

  /**
   * A definition matching one file followed by one matching two: the
   * second entry is the first definition's dict again, carrying its path,
   * where a fresh dict would have none.
   */
  lemma {:induction false} StaleDictCounterexample(accessionId: string, matchFiles: string -> Result<seq<string>>, lib: Builtins)
    requires AccessionNo(accessionId).Ok?
    requires matchFiles("a.tif") == Ok(["a.tif"])
    requires matchFiles("b_{n}.tif") == Ok(["b_1.tif", "b_2.tif"])
    ensures var url := DataUrl(AccessionNo(accessionId).value, "a.tif");
      StackDicts(accessionId, ["a.tif", "b_{n}.tif"], matchFiles, None, lib)
        == Ok([StackDict(Some(url), None), StackDict(None, None)])
      && StacksAsWritten(accessionId, ["a.tif", "b_{n}.tif"], matchFiles, None, lib)
        == Ok([StackDict(Some(url), None), StackDict(Some(url), None)])
  {
    var patterns := ["a.tif", "b_{n}.tif"];
    var url := DataUrl(AccessionNo(accessionId).value, "a.tif");
    var dicts := [StackDict(Some(url), None), StackDict(None, None)];
    var build := StackBuilder(accessionId, matchFiles, None, lib);
    assert build(patterns[0]) == Ok(dicts[0]);
    assert build(patterns[1]) == Ok(dicts[1]);
    MapStep(patterns, build, 0, []);
    assert [] + [dicts[0]] == [dicts[0]];
    MapStep(patterns, build, 1, [dicts[0]]);
    assert [dicts[0]] + [dicts[1]] == dicts;
    OwnerIs(dicts, 1, 0);
    LastSharerIs(dicts, 0, 1);
    LastSharerIs(dicts, 1, 1);
    assert AsWrittenOf(dicts) == [StackDict(Some(url), None), StackDict(Some(url), None)];
  }

  /** A first definition matching two files: the loop as written fails where a fresh dict would not. */
  lemma {:induction false} UnboundDictCounterexample(accessionId: string, matchFiles: string -> Result<seq<string>>, lib: Builtins)
    requires AccessionNo(accessionId).Ok?
    requires matchFiles("b_{n}.tif") == Ok(["b_1.tif", "b_2.tif"])
    ensures StackDicts(accessionId, ["b_{n}.tif"], matchFiles, None, lib) == Ok([StackDict(None, None)])
    ensures StacksAsWritten(accessionId, ["b_{n}.tif"], matchFiles, None, lib)
            == Err(UnboundLocalError("cets_movie_stack_dict"))
  {
    var patterns := ["b_{n}.tif"];
    var build := StackBuilder(accessionId, matchFiles, None, lib);
    assert build(patterns[0]) == Ok(StackDict(None, None));
    MapStep(patterns, build, 0, []);
    assert [] + [StackDict(None, None)] == [StackDict(None, None)];
  }

  /** One more definition leaves the holder of every earlier entry as it was. */
  lemma {:induction false} OwnerExtends(dicts: seq<StackDict>, x: StackDict, k: nat)
    requires k < |dicts| && dicts[0].path.Some?
    ensures Owner(dicts + [x], k) == Owner(dicts, k)
  {
    OwnerIs(dicts + [x], k, Owner(dicts, k));
  }

  /** The new entry holds a new dict when its definition has a path, and the latest one otherwise; it is its own last sharer. */
  lemma {:induction false} OwnerOfNext(dicts: seq<StackDict>, x: StackDict)
    requires |dicts| > 0 && dicts[0].path.Some?
    ensures Owner(dicts + [x], |dicts|) == if x.path.Some? then |dicts| else Owner(dicts, |dicts| - 1)
    ensures LastSharer(dicts + [x], |dicts|) == |dicts|
  {
    var d := dicts + [x];
    if x.path.Some? {
      OwnerIs(d, |dicts|, |dicts|);
    } else {
      OwnerIs(d, |dicts|, Owner(dicts, |dicts| - 1));
    }
  }

  /**
   * One more definition: with a path it starts a new dict and changes no
   * earlier last sharer; without one it becomes the last sharer of every
   * entry holding the latest dict.
   */
  lemma {:induction false} LastSharerExtends(dicts: seq<StackDict>, x: StackDict, k: nat)
    requires k < |dicts| && dicts[0].path.Some?
    ensures LastSharer(dicts + [x], k)
            == if x.path.None? && Owner(dicts, k) == Owner(dicts, |dicts| - 1) then |dicts| else LastSharer(dicts, k)
  {
    var d := dicts + [x];
    var n := |dicts|;
    var last := Owner(dicts, n - 1);
    if x.path.Some? {
      LastSharerIs(d, k, LastSharer(dicts, k));
    } else if k >= last {
      OwnerIs(dicts, k, last);
      LastSharerIs(d, k, n);
    } else {
      var j := LastSharer(dicts, k);
      assert Owner(dicts, k) <= k < last;
      assert dicts[last].path.Some?;
      assert j < last;
      LastSharerIs(d, k, j);
    }
  }

  /** Each dict object holds the given path and images. */
  ghost predicate Mirrors(stacks: seq<MovieStackDict>, paths: seq<string>, images: seq<Option<seq<MovieFrameDict>>>)
    reads stacks
  {
    |paths| == |stacks| && |images| == |stacks|
    && forall k :: 0 <= k < |stacks| ==> stacks[k].path == paths[k] && stacks[k].images == images[k]
  }

  /**
   * The list of the loop as written against the dicts its iterations
   * computed, with the paths and images its objects hold: entries are
   * their owner's object, objects of different owners are different, and
   * each object holds its owner's path and the images of the last
   * iteration that held it.
   */
  ghost predicate Fits(stacks: seq<MovieStackDict>, paths: seq<string>, images: seq<Option<seq<MovieFrameDict>>>,
                       dicts: seq<StackDict>)
  {
    |stacks| == |dicts| && |paths| == |dicts| && |images| == |dicts| && |dicts| > 0 && dicts[0].path.Some?
    && SharedByOwner(stacks, dicts) && PathsFit(paths, dicts) && ImagesFit(images, dicts)
  }

  ghost predicate SharedByOwner(stacks: seq<MovieStackDict>, dicts: seq<StackDict>)
    requires |stacks| == |dicts| && |dicts| > 0 && dicts[0].path.Some?
  {
    (forall k {:trigger Owner(dicts, k)} :: 0 <= k < |stacks| ==> stacks[k] == stacks[Owner(dicts, k)])
    && (forall k, l :: 0 <= k < |stacks| && 0 <= l < |stacks| && Owner(dicts, k) != Owner(dicts, l) ==> stacks[k] != stacks[l])
  }

  ghost predicate PathsFit(paths: seq<string>, dicts: seq<StackDict>)
    requires |paths| == |dicts| && |dicts| > 0 && dicts[0].path.Some?
  {
    forall k :: 0 <= k < |paths| ==> Some(paths[k]) == dicts[Owner(dicts, k)].path
  }

  ghost predicate ImagesFit(images: seq<Option<seq<MovieFrameDict>>>, dicts: seq<StackDict>)
    requires |images| == |dicts| && |dicts| > 0 && dicts[0].path.Some?
  {
    forall k :: 0 <= k < |images| ==> images[k] == dicts[LastSharer(dicts, k)].images
  }

  /** The images once the latest dict receives x's frames: every entry holding that dict shows them. */
  ghost function ImagesAfterStore(images: seq<Option<seq<MovieFrameDict>>>, dicts: seq<StackDict>, x: StackDict)
    : seq<Option<seq<MovieFrameDict>>>
    requires |images| == |dicts| && |dicts| > 0 && dicts[0].path.Some?
  {
    seq(|images|, k requires 0 <= k < |images| =>
      if Owner(dicts, k) == Owner(dicts, |dicts| - 1) && x.images.Some? then x.images else images[k])
  }

  lemma {:induction false} SharedWithNew(stacks: seq<MovieStackDict>, dicts: seq<StackDict>, x: StackDict, o: MovieStackDict)
    requires x.path.Some? && o !in stacks
    requires |stacks| == |dicts| && |dicts| > 0 && dicts[0].path.Some?
    requires SharedByOwner(stacks, dicts)
    ensures SharedByOwner(stacks + [o], dicts + [x])
  {
    var next, d, n := stacks + [o], dicts + [x], |stacks|;
    OwnerOfNext(dicts, x);
    forall k | 0 <= k < |next|
      ensures next[k] == next[Owner(d, k)]
    {
      if k < n {
        OwnerExtends(dicts, x, k);
      }
    }
    forall k, l | 0 <= k < |next| && 0 <= l < |next| && Owner(d, k) != Owner(d, l)
      ensures next[k] != next[l]
    {
      if k < n && l < n {
        OwnerExtends(dicts, x, k);
        OwnerExtends(dicts, x, l);
      }
    }
  }

  lemma {:induction false} SharedWithLatest(stacks: seq<MovieStackDict>, dicts: seq<StackDict>, x: StackDict)
    requires x.path.None?
    requires |stacks| == |dicts| && |dicts| > 0 && dicts[0].path.Some?
    requires SharedByOwner(stacks, dicts)
    ensures SharedByOwner(stacks + [stacks[|stacks| - 1]], dicts + [x])
  {
    var n := |stacks|;
    var next, d := stacks + [stacks[n - 1]], dicts + [x];
    OwnerOfNext(dicts, x);
    assert stacks[n - 1] == stacks[Owner(dicts, n - 1)];
    forall k | 0 <= k < |next|
      ensures next[k] == next[Owner(d, k)]
    {
      if k < n {
        OwnerExtends(dicts, x, k);
      }
    }
    forall k, l | 0 <= k < |next| && 0 <= l < |next| && Owner(d, k) != Owner(d, l)
      ensures next[k] != next[l]
    {
      if k < n {
        OwnerExtends(dicts, x, k);
      }
      if l < n {
        OwnerExtends(dicts, x, l);
      }
    }
  }

  lemma {:induction false} PathsWithNext(paths: seq<string>, dicts: seq<StackDict>, x: StackDict, p: string)
    requires |paths| == |dicts| && |dicts| > 0 && dicts[0].path.Some?
    requires PathsFit(paths, dicts)
    requires Some(p) == if x.path.Some? then x.path else dicts[Owner(dicts, |dicts| - 1)].path
    ensures PathsFit(paths + [p], dicts + [x])
  {
    var d := dicts + [x];
    OwnerOfNext(dicts, x);
    forall k | 0 <= k < |dicts|
      ensures Some((paths + [p])[k]) == d[Owner(d, k)].path
    {
      OwnerExtends(dicts, x, k);
    }
  }

  lemma {:induction false} ImagesWithNew(images: seq<Option<seq<MovieFrameDict>>>, dicts: seq<StackDict>, x: StackDict)
    requires x.path.Some?
    requires |images| == |dicts| && |dicts| > 0 && dicts[0].path.Some?
    requires ImagesFit(images, dicts)
    ensures ImagesFit(images + [x.images], dicts + [x])
  {
    var d := dicts + [x];
    OwnerOfNext(dicts, x);
    forall k | 0 <= k < |dicts|
      ensures images[k] == d[LastSharer(d, k)].images
    {
      LastSharerExtends(dicts, x, k);
    }
  }

  lemma {:induction false} ImagesWithLatest(images: seq<Option<seq<MovieFrameDict>>>, dicts: seq<StackDict>, x: StackDict)
    requires x.path.None?
    requires |images| == |dicts| && |dicts| > 0 && dicts[0].path.Some?
    requires ImagesFit(images, dicts)
    requires forall k :: 0 <= k < |dicts| ==> (dicts[k].images.Some? <==> x.images.Some?)
    ensures var after := ImagesAfterStore(images, dicts, x);
      ImagesFit(after + [after[|dicts| - 1]], dicts + [x])
  {
    var d, n := dicts + [x], |dicts|;
    var after := ImagesAfterStore(images, dicts, x);
    OwnerOfNext(dicts, x);
    forall k | 0 <= k < n
      ensures after[k] == d[LastSharer(d, k)].images
    {
      LastSharerExtends(dicts, x, k);
    }
  }

  /** The first definition, or one with a path after it, keeps the list fitting once a new dict is appended. */
  lemma {:induction false} NewDictFits(stacks: seq<MovieStackDict>, paths: seq<string>, images: seq<Option<seq<MovieFrameDict>>>,
                                       dicts: seq<StackDict>, x: StackDict, o: MovieStackDict)
    requires x.path.Some? && o !in stacks
    requires stacks == [] ==> dicts == [] && paths == [] && images == []
    requires stacks != [] ==> Fits(stacks, paths, images, dicts)
    ensures Fits(stacks + [o], paths + [x.path.value], images + [x.images], dicts + [x])
  {
    if stacks == [] {
      assert Owner([x], 0) == 0 && LastSharer([x], 0) == 0;
    } else {
      SharedWithNew(stacks, dicts, x, o);
      PathsWithNext(paths, dicts, x, x.path.value);
      ImagesWithNew(images, dicts, x);
    }
  }

  /**
   * A definition without a path keeps the list fitting once the latest
   * dict, holding its frames, is appended again; the entries holding the
   * latest dict are those whose owner is the latest owner.
   */
  lemma {:induction false} LatestDictFits(stacks: seq<MovieStackDict>, paths: seq<string>, images: seq<Option<seq<MovieFrameDict>>>,
                                          dicts: seq<StackDict>, x: StackDict)
    requires x.path.None? && Fits(stacks, paths, images, dicts)
    requires forall k :: 0 <= k < |dicts| ==> (dicts[k].images.Some? <==> x.images.Some?)
    ensures var n, after := |stacks|, ImagesAfterStore(images, dicts, x);
      Fits(stacks + [stacks[n - 1]], paths + [paths[n - 1]], after + [after[n - 1]], dicts + [x])
    ensures forall k :: 0 <= k < |stacks| ==>
      (stacks[k] == stacks[|stacks| - 1] <==> Owner(dicts, k) == Owner(dicts, |stacks| - 1))
  {
    var n := |stacks|;
    SharedWithLatest(stacks, dicts, x);
    assert stacks[n - 1] == stacks[Owner(dicts, n - 1)];
    PathsWithNext(paths, dicts, x, paths[n - 1]);
    ImagesWithLatest(images, dicts, x);
  }

  lemma {:induction false} MirrorsAppend(stacks: seq<MovieStackDict>, paths: seq<string>, images: seq<Option<seq<MovieFrameDict>>>,
                                         o: MovieStackDict)
    requires Mirrors(stacks, paths, images)
    ensures Mirrors(stacks + [o], paths + [o.path], images + [o.images])
  {
    var next := stacks + [o];
    forall k | 0 <= k < |next|
      ensures next[k].path == (paths + [o.path])[k] && next[k].images == (images + [o.images])[k]
    {
      if k < |stacks| {
        assert next[k] == stacks[k];
      }
    }
  }

  /** A definition with a path: `cets_movie_stack_dict` is rebound to a new dict holding it and its frames. */
  method NewDict(x: StackDict) returns (o: MovieStackDict)
    requires x.path.Some?
    ensures fresh(o) && o.path == x.path.value && o.images == x.images
  {
    o := new MovieStackDict(x.path.value);
    if x.images.Some? {
      o.images := x.images;
    }
  }

  /**
   * A definition without a path: its frames, if any, overwrite the images
   * of the dict the variable still holds, which every entry sharing it shows.
   */
  method StoreInLatest(stacks: seq<MovieStackDict>, ghost paths: seq<string>, ghost images: seq<Option<seq<MovieFrameDict>>>,
                       ghost dicts: seq<StackDict>, current: MovieStackDict, x: StackDict)
    requires Fits(stacks, paths, images, dicts) && Mirrors(stacks, paths, images)
    requires current == stacks[|stacks| - 1]
    requires forall k :: 0 <= k < |stacks| ==>
      (stacks[k] == current <==> Owner(dicts, k) == Owner(dicts, |stacks| - 1))
    modifies current
    ensures Mirrors(stacks, paths, ImagesAfterStore(images, dicts, x))
  {
    ghost var after := ImagesAfterStore(images, dicts, x);
    if x.images.Some? {
      current.images := x.images;
    }
    forall k | 0 <= k < |stacks|
      ensures stacks[k].path == paths[k] && stacks[k].images == after[k]
    {
      if stacks[k] != current {
        assert stacks[k].images == old(stacks[k].images);
      }
    }
  }

  /**
   * One iteration of the loop as written once its dict is known: a path
   * rebinds the variable to a new dict, frames are stored in whatever
   * dict it holds, and that dict is appended.
   */
  method StoreInDict(stacks: seq<MovieStackDict>, ghost paths: seq<string>, ghost images: seq<Option<seq<MovieFrameDict>>>,
                     ghost dicts: seq<StackDict>, current: MovieStackDict?, x: StackDict)
    returns (next: seq<MovieStackDict>, ghost nextPaths: seq<string>, ghost nextImages: seq<Option<seq<MovieFrameDict>>>,
             nextCurrent: MovieStackDict)
    requires current == null ==> x.path.Some? && stacks == [] && dicts == [] && paths == [] && images == []
    requires current != null ==> stacks != [] && current == stacks[|stacks| - 1] && Fits(stacks, paths, images, dicts)
    requires Mirrors(stacks, paths, images)
    requires forall k :: 0 <= k < |dicts| ==> (dicts[k].images.Some? <==> x.images.Some?)
    modifies current
    ensures Fits(next, nextPaths, nextImages, dicts + [x]) && Mirrors(next, nextPaths, nextImages)
    ensures |next| == |stacks| + 1 && nextCurrent == next[|stacks|]
    ensures forall k :: 0 <= k < |stacks| ==> next[k] == stacks[k]
    ensures x.path.Some? ==> fresh(nextCurrent)
    ensures x.path.None? ==> nextCurrent == current
  {
    if x.path.Some? {
      nextCurrent := NewDict(x);
      NewDictFits(stacks, paths, images, dicts, x, nextCurrent);
      MirrorsAppend(stacks, paths, images, nextCurrent);
      next, nextPaths, nextImages := stacks + [nextCurrent], paths + [x.path.value], images + [x.images];
    } else {
      var n := |stacks|;
      var latest := stacks[n - 1];
      LatestDictFits(stacks, paths, images, dicts, x);
      StoreInLatest(stacks, paths, images, dicts, latest, x);
      ghost var after := ImagesAfterStore(images, dicts, x);
      MirrorsAppend(stacks, paths, after, latest);
      nextCurrent := latest;
      next, nextPaths, nextImages := stacks + [latest], paths + [paths[n - 1]], after + [after[n - 1]];
    }
  }

  /** Iteration i of the loop as written, over the dicts of the earlier iterations. */
  method StoreStep(stacks: seq<MovieStackDict>, ghost paths: seq<string>, ghost images: seq<Option<seq<MovieFrameDict>>>,
                   dicts: seq<StackDict>, i: nat, current: MovieStackDict?)
    returns (next: seq<MovieStackDict>, ghost nextPaths: seq<string>, ghost nextImages: seq<Option<seq<MovieFrameDict>>>,
             nextCurrent: MovieStackDict)
    requires i < |dicts| && dicts[0].path.Some?
    requires forall k :: 0 <= k < |dicts| ==> (dicts[k].images.Some? <==> dicts[0].images.Some?)
    requires current == null ==> i == 0 && stacks == [] && paths == [] && images == []
    requires current != null ==> 0 < i == |stacks| && current == stacks[i - 1] && Fits(stacks, paths, images, dicts[..i])
    requires Mirrors(stacks, paths, images)
    modifies current
    ensures Fits(next, nextPaths, nextImages, dicts[..i + 1]) && Mirrors(next, nextPaths, nextImages)
    ensures |next| == i + 1 && nextCurrent == next[i]
    ensures fresh(nextCurrent) || nextCurrent == current
  {
    assert dicts[..i] + [dicts[i]] == dicts[..i + 1];
    next, nextPaths, nextImages, nextCurrent := StoreInDict(stacks, paths, images, dicts[..i], current, dicts[i]);
  }

  /** Once every dict is stored, the objects hold the entries of AsWrittenOf. */
  lemma {:induction false} FitsAsWritten(stacks: seq<MovieStackDict>, paths: seq<string>, images: seq<Option<seq<MovieFrameDict>>>,
                                         dicts: seq<StackDict>)
    requires Fits(stacks, paths, images, dicts[..|dicts|]) && Mirrors(stacks, paths, images)
    ensures SharedByOwner(stacks, dicts)
    ensures forall k :: 0 <= k < |dicts| ==>
      Some(stacks[k].path) == AsWrittenOf(dicts)[k].path && stacks[k].images == AsWrittenOf(dicts)[k].images
  {
    assert dicts[..|dicts|] == dicts;
  }

  /**
   * The storing half of the loop as written, over the dicts its iterations
   * computed: the variable is rebound to a new dict for a definition with
   * a path, the frames go into whatever dict it holds, and that dict is
   * appended. Entries of one holder are one object, and each object ends
   * with its holder's path and the frames of the last definition sharing it.
   */
  method StoreAll(dicts: seq<StackDict>) returns (stacks: seq<MovieStackDict>)
    requires |dicts| > 0 ==> dicts[0].path.Some?
    requires forall k :: 0 <= k < |dicts| ==> (dicts[k].images.Some? <==> dicts[0].images.Some?)
    ensures |stacks| == |dicts|
    ensures |dicts| > 0 ==>
      SharedByOwner(stacks, dicts)
      && forall k :: 0 <= k < |dicts| ==>
           Some(stacks[k].path) == AsWrittenOf(dicts)[k].path && stacks[k].images == AsWrittenOf(dicts)[k].images
  {
    ghost var paths: seq<string> := [];
    ghost var images: seq<Option<seq<MovieFrameDict>>> := [];
    stacks := [];
    var current: MovieStackDict? := null;
    var i := 0;
    while i < |dicts|
      invariant i <= |dicts| && |stacks| == i
      invariant current != null ==> fresh(current)
      invariant i == 0 ==> current == null && paths == [] && images == []
      invariant i > 0 ==> current != null && current == stacks[i - 1] && Fits(stacks, paths, images, dicts[..i])
      invariant Mirrors(stacks, paths, images)
    {
      stacks, paths, images, current := StoreStep(stacks, paths, images, dicts, i, current);
      i := i + 1;
    }
    if i > 0 {
      FitsAsWritten(stacks, paths, images, dicts);
    }
  }

  /**
   * `create_cets_movie_stacks_from_region_definition` as written. The
   * dicts are computed first: the first definition on its own, since its
   * error or its lack of a path (the variable is then still unbound) ends
   * the loop before any later definition is looked at; then all of them,
   * failing with the first error. They are then stored through the shared
   * variable, so entries whose definitions share a holder are the same
   * object and a later definition's frames overwrite an earlier entry's.
   */
  method CreateMovieStacksAsWritten(accessionId: string, patterns: seq<string>, matchFiles: string -> Result<seq<string>>,
                                    metadata: Option<MdocFile>, lib: Builtins)
    returns (r: Result<seq<MovieStackDict>>)
    ensures var w := StacksAsWritten(accessionId, patterns, matchFiles, DataOf(metadata), lib);
      (r.Ok? <==> w.Ok?) && (r.Err? ==> r.error == w.error)
      && (r.Ok? ==> |r.value| == |w.value|
                    && forall k :: 0 <= k < |r.value| ==>
                         Some(r.value[k].path) == w.value[k].path && r.value[k].images == w.value[k].images)
    ensures r.Ok? && |patterns| > 0 ==>
      var dicts := StackDicts(accessionId, patterns, matchFiles, DataOf(metadata), lib).value;
      |r.value| == |dicts| && dicts[0].path.Some? && SharedByOwner(r.value, dicts)
  {
    ghost var data := DataOf(metadata);
    if |patterns| == 0 {
      return Ok([]);
    }
    var first := CreateMovieStackDict(accessionId, patterns[0], matchFiles, metadata, lib);
    if first.Err? {
      return Err(first.error);
    }
    if first.value.path.None? {
      return Err(UnboundLocalError("cets_movie_stack_dict"));
    }
    var dicts := CreateMovieStacks(accessionId, patterns, matchFiles, metadata, lib);
    AsWrittenOfStackDicts(accessionId, patterns, matchFiles, data, lib);
    if dicts.Err? {
      return Err(dicts.error);
    }
    StackDictsShape(accessionId, patterns, matchFiles, data, lib);
    var stacks := StoreAll(dicts.value);
    return Ok(stacks);
  }
}
