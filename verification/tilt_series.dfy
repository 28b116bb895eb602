/**
 * The older tilt-series builder (cets/tilt_series.py): one dict per
 * tilt-series definition of a region, holding the URL of the tilt-series
 * file when exactly one file matches its pattern and, when .mdoc metadata
 * is given, one projection-image dict per `[ZValue = n]` section.
 */
module CetsTiltSeries {
  import opened Wrappers
  import opened Text
  import opened PyValues
  import opened MetadataModels
  import opened EmpiarFiles
  import opened Folds

  /** A projection-image dict: the section number as text, the section's TiltAngle entry, and the image size. */
  datatype ProjectionImage = ProjectionImage(section: string, nominalTiltAngle: Value, width: int, height: int)

  /** A tilt-series dict: "path" and "images" are set only under the conditions above. */
  datatype TiltSeriesDict = TiltSeriesDict(path: Option<string>, images: Option<seq<ProjectionImage>>)

  /** `int(token)`: a ValueError naming the token when it is not an integer. */
  function IntOf(token: string, parseInt: string -> Option<int>): (r: Result<int>)
    ensures r.Ok? <==> parseInt(token).Some?
    ensures r.Ok? ==> parseInt(token) == Some(r.value)
    ensures r.Err? ==> r.error == ValueError(InvalidLiteral(token))
  {
    match parseInt(token)
    case Some(n) => Ok(n)
    case None => Err(ValueError(InvalidLiteral(token)))
  }

  /**
   * `a, b = map(int, tokens)`: the lazy map is pulled for the first value,
   * the second, and once more to check there is no third, so a bad token
   * among the first three is reported before a wrong count.
   */
  function UnpackTwo(tokens: seq<string>, parseInt: string -> Option<int>): (r: Result<(int, int)>)
    ensures r.Ok? <==> |tokens| == 2 && parseInt(tokens[0]).Some? && parseInt(tokens[1]).Some?
    ensures r.Ok? ==> parseInt(tokens[0]) == Some(r.value.0) && parseInt(tokens[1]) == Some(r.value.1)
    ensures r.Err? ==> r.error.ValueError?
    ensures |tokens| < 2 && (forall k :: 0 <= k < |tokens| ==> parseInt(tokens[k]).Some?) ==>
      r == Err(ValueError(NotEnoughValuesToUnpack))
    ensures |tokens| > 2 && (forall k :: 0 <= k < 3 ==> parseInt(tokens[k]).Some?) ==>
      r == Err(ValueError(TooManyValuesToUnpack))
  {
    if |tokens| == 0 then Err(ValueError(NotEnoughValuesToUnpack))
    else
      var first :- IntOf(tokens[0], parseInt);
      if |tokens| == 1 then Err(ValueError(NotEnoughValuesToUnpack))
      else
        var second :- IntOf(tokens[1], parseInt);
        if |tokens| == 2 then Ok((first, second))
        else
          var _ :- IntOf(tokens[2], parseInt);
          Err(ValueError(TooManyValuesToUnpack))
  }

  /**
   * `map(int, global_headers["ImageSize"].split())` unpacked into width and
   * height: a KeyError without the header, an AttributeError when it is
   * not a string, a ValueError unless it holds exactly two integers.
   */
  function ImageSizePair(headers: Dict, parseInt: string -> Option<int>): (r: Result<(int, int)>)
    ensures "ImageSize" !in headers ==> r == Err(KeyError("ImageSize"))
    ensures "ImageSize" in headers && !headers["ImageSize"].VStr? ==> r == Err(AttributeError("split"))
    ensures r.Ok? ==>
      "ImageSize" in headers && headers["ImageSize"].VStr?
      && var tokens := Words(headers["ImageSize"].s);
         |tokens| == 2 && parseInt(tokens[0]) == Some(r.value.0) && parseInt(tokens[1]) == Some(r.value.1)
    ensures "ImageSize" in headers && headers["ImageSize"].VStr? ==>
      var tokens := Words(headers["ImageSize"].s);
      (r.Ok? <==> |tokens| == 2 && parseInt(tokens[0]).Some? && parseInt(tokens[1]).Some?)
  {
    var v :- Lookup(headers, "ImageSize");
    var tokens :- SplitValue(v);
    UnpackTwo(tokens, parseInt)
  }

  /** The projection-image dict of one section: a KeyError when it has no TiltAngle. */
  function ProjectionImageFor(z: ZValueSection, width: int, height: int): (r: Result<ProjectionImage>)
    ensures r.Ok? <==> "TiltAngle" in z.metadata
    ensures r.Err? ==> r.error == KeyError("TiltAngle")
    ensures r.Ok? ==> r.value == ProjectionImage(IntToString(z.zValue), z.metadata["TiltAngle"], width, height)
  {
    var angle :- Lookup(z.metadata, "TiltAngle");
    Ok(ProjectionImage(IntToString(z.zValue), angle, width, height))
  }

  /** The builder the section loop applies to each section. */
  function ImageBuilder(width: int, height: int): ZValueSection -> Result<ProjectionImage>
  {
    z => ProjectionImageFor(z, width, height)
  }

  /**
   * What `create_cets_projection_images_for_tilt_series` returns: the image
   * size is read first; then every section must have a TiltAngle, else the
   * KeyError of the first that lacks one.
   */
  function ProjectionImages(mdoc: MdocData, parseInt: string -> Option<int>): (r: Result<seq<ProjectionImage>>)
    ensures ImageSizePair(mdoc.globalHeaders, parseInt).Err? ==> r == Err(ImageSizePair(mdoc.globalHeaders, parseInt).error)
    ensures ImageSizePair(mdoc.globalHeaders, parseInt).Ok? ==>
      (r.Ok? <==> forall i :: 0 <= i < |mdoc.zSections| ==> "TiltAngle" in mdoc.zSections[i].metadata)
    ensures r.Err? && ImageSizePair(mdoc.globalHeaders, parseInt).Ok? ==> r.error == KeyError("TiltAngle")
  {
    var size :- ImageSizePair(mdoc.globalHeaders, parseInt);
    MapUpToShape(mdoc.zSections, ImageBuilder(size.0, size.1), |mdoc.zSections|);
    MapUpTo(mdoc.zSections, ImageBuilder(size.0, size.1), |mdoc.zSections|)
  }

  /**
   * One image per section, in section order: the section is the z value as
   * text, the tilt angle is that section's TiltAngle entry, and width and
   * height are the two ImageSize integers.
   */
  lemma {:induction false} ProjectionImagesShape(mdoc: MdocData, parseInt: string -> Option<int>)
    requires ProjectionImages(mdoc, parseInt).Ok?
    ensures var images := ProjectionImages(mdoc, parseInt).value;
      var size := ImageSizePair(mdoc.globalHeaders, parseInt).value;
      |images| == |mdoc.zSections|
      && forall i :: 0 <= i < |images| ==>
           images[i].section == IntToString(mdoc.zSections[i].zValue)
           && images[i].nominalTiltAngle == mdoc.zSections[i].metadata["TiltAngle"]
           && images[i].width == size.0 && images[i].height == size.1
  {
    var size := ImageSizePair(mdoc.globalHeaders, parseInt).value;
    var build := ImageBuilder(size.0, size.1);
    MapUpToShape(mdoc.zSections, build, |mdoc.zSections|);
    assert ProjectionImages(mdoc, parseInt) == MapUpTo(mdoc.zSections, build, |mdoc.zSections|);
  }

  /** Different z values give different section labels. */
  lemma {:induction false} SectionLabelsDiffer(z1: int, z2: int)
    requires z1 != z2
    ensures IntToString(z1) != IntToString(z2)
  {
    var s1, s2 := IntToString(z1), IntToString(z2);
    if z1 >= 0 && z2 >= 0 {
      assert DigitsToNat(s1) == z1 && DigitsToNat(s2) == z2;
    } else if z1 < 0 && z2 < 0 {
      assert DigitsToNat(s1[1..]) == -z1 && DigitsToNat(s2[1..]) == -z2;
    } else if z1 < 0 {
      assert s1[0] == '-' && IsDigit(s2[0]);
    } else {
      assert s2[0] == '-' && IsDigit(s1[0]);
    }
  }

  /** `create_cets_projection_images_for_tilt_series`: appends one dict per section. */
  method CreateProjectionImages(mdoc: MdocData, parseInt: string -> Option<int>) returns (r: Result<seq<ProjectionImage>>)
    ensures r == ProjectionImages(mdoc, parseInt)
  {
    var size := ImageSizePair(mdoc.globalHeaders, parseInt);
    if size.Err? {
      return Err(size.error);
    }
    var width, height := size.value.0, size.value.1;
    var sections := mdoc.zSections;
    ghost var build := ImageBuilder(width, height);
    var images: seq<ProjectionImage> := [];
    var i: nat := 0;
    while i < |sections|
      invariant i <= |sections|
      invariant MapUpTo(sections, build, i) == Ok(images)
    {
      MapStep(sections, build, i, images);
      var image := ProjectionImageFor(sections[i], width, height);
      assert image == build(sections[i]);
      if image.Err? {
        MapErrorPersists(sections, build, i + 1, |sections|);
        return Err(image.error);
      }
      images := images + [image.value];
      i := i + 1;
    }
    return Ok(images);
  }

  /**
   * The dict for one tilt-series definition: the files matching its
   * pattern (none is a ValueError), the accession number, the URL of the
   * only file when exactly one matches, and the projection images when
   * metadata is given.
   */
  function TiltSeriesDictFor(accessionId: string, filePattern: string, matchFiles: string -> Result<seq<string>>,
                             metadata: Option<MdocData>, parseInt: string -> Option<int>): (r: Result<TiltSeriesDict>)
    ensures matchFiles(filePattern) == Ok([]) ==> r == Err(ValueError(NoFilesMatching(filePattern)))
    ensures r.Ok? ==>
      matchFiles(filePattern).Ok? && AccessionNo(accessionId).Ok?
      && var paths := matchFiles(filePattern).value;
         (r.value.path.Some? <==> |paths| == 1)
         && (|paths| == 1 ==> r.value.path == Some(DataUrl(AccessionNo(accessionId).value, paths[0])))
         && (r.value.images.Some? <==> metadata.Some?)
         && (metadata.Some? ==> ProjectionImages(metadata.value, parseInt) == Ok(r.value.images.value))
    // It succeeds exactly when each step does, and otherwise fails with the first failing step's error.
    ensures r.Ok? <==> matchFiles(filePattern).Ok? && matchFiles(filePattern).value != [] && AccessionNo(accessionId).Ok?
                       && (metadata.Some? ==> ProjectionImages(metadata.value, parseInt).Ok?)
    ensures matchFiles(filePattern).Err? ==> r == Err(matchFiles(filePattern).error)
    ensures matchFiles(filePattern).Ok? && matchFiles(filePattern).value != [] && AccessionNo(accessionId).Err? ==>
      r == Err(AccessionNo(accessionId).error)
    ensures matchFiles(filePattern).Ok? && matchFiles(filePattern).value != [] && AccessionNo(accessionId).Ok?
            && metadata.Some? && ProjectionImages(metadata.value, parseInt).Err? ==>
      r == Err(ProjectionImages(metadata.value, parseInt).error)
  {
    var paths :- matchFiles(filePattern);
    if paths == [] then Err(ValueError(NoFilesMatching(filePattern)))
    else
      var accessionNo :- AccessionNo(accessionId);
      var path := if |paths| == 1 then Some(DataUrl(accessionNo, paths[0])) else None;
      if metadata.None? then Ok(TiltSeriesDict(path, None))
      else
        var images :- ProjectionImages(metadata.value, parseInt);
        Ok(TiltSeriesDict(path, Some(images)))
  }

  /** What `create_cets_tilt_series_from_region_definition` returns: one dict per definition, in order. */
  function TiltSeriesDicts(accessionId: string, filePatterns: seq<string>, matchFiles: string -> Result<seq<string>>,
                           metadata: Option<MdocData>, parseInt: string -> Option<int>): Result<seq<TiltSeriesDict>>
  {
    MapUpTo(filePatterns, p => TiltSeriesDictFor(accessionId, p, matchFiles, metadata, parseInt), |filePatterns|)
  }

  /**
   * One dict per tilt-series definition, in order: a path exactly when
   * that definition matches one file, images exactly when metadata is
   * given. The first definition that fails decides the error.
   */
  lemma {:induction false} TiltSeriesDictsShape(accessionId: string, filePatterns: seq<string>, matchFiles: string -> Result<seq<string>>,
                             metadata: Option<MdocData>, parseInt: string -> Option<int>)
    ensures var r := TiltSeriesDicts(accessionId, filePatterns, matchFiles, metadata, parseInt);
      (r.Ok? <==> forall i :: 0 <= i < |filePatterns| ==>
                    TiltSeriesDictFor(accessionId, filePatterns[i], matchFiles, metadata, parseInt).Ok?)
      && (r.Ok? ==> |r.value| == |filePatterns|
                    && forall i :: 0 <= i < |filePatterns| ==>
                         (r.value[i].path.Some? <==> |matchFiles(filePatterns[i]).value| == 1)
                         && (r.value[i].images.Some? <==> metadata.Some?))
  {
    var build := p => TiltSeriesDictFor(accessionId, p, matchFiles, metadata, parseInt);
    MapUpToShape(filePatterns, build, |filePatterns|);
  }

  /** `create_cets_tilt_series_from_region_definition`: appends one dict per tilt-series definition. */
  method CreateTiltSeries(accessionId: string, filePatterns: seq<string>, matchFiles: string -> Result<seq<string>>,
                          metadata: Option<MdocData>, parseInt: string -> Option<int>)
    returns (r: Result<seq<TiltSeriesDict>>)
    ensures r == TiltSeriesDicts(accessionId, filePatterns, matchFiles, metadata, parseInt)
  {
    ghost var build := p => TiltSeriesDictFor(accessionId, p, matchFiles, metadata, parseInt);
    var dicts: seq<TiltSeriesDict> := [];
    var i: nat := 0;
    while i < |filePatterns|
      invariant i <= |filePatterns|
      invariant MapUpTo(filePatterns, build, i) == Ok(dicts)
    {
      MapStep(filePatterns, build, i, dicts);
      var dict := CreateTiltSeriesDict(accessionId, filePatterns[i], matchFiles, metadata, parseInt);
      if dict.Err? {
        MapErrorPersists(filePatterns, build, i + 1, |filePatterns|);
        return Err(dict.error);
      }
      dicts := dicts + [dict.value];
      i := i + 1;
    }
    return Ok(dicts);
  }

  /** The body of the definition loop: the dict is filled key by key. */
  method CreateTiltSeriesDict(accessionId: string, filePattern: string, matchFiles: string -> Result<seq<string>>,
                              metadata: Option<MdocData>, parseInt: string -> Option<int>)
    returns (r: Result<TiltSeriesDict>)
    ensures r == TiltSeriesDictFor(accessionId, filePattern, matchFiles, metadata, parseInt)
  {
    var paths := matchFiles(filePattern);
    if paths.Err? {
      return Err(paths.error);
    }
    if paths.value == [] {
      return Err(ValueError(NoFilesMatching(filePattern)));
    }
    var dict := TiltSeriesDict(None, None);
    var accessionNo := AccessionNo(accessionId);
    if accessionNo.Err? {
      return Err(accessionNo.error);
    }
    if |paths.value| == 1 {
      dict := dict.(path := Some(DataUrl(accessionNo.value, paths.value[0])));
    }
    if metadata.Some? {
      var images := CreateProjectionImages(metadata.value, parseInt);
      if images.Err? {
        return Err(images.error);
      }
      dict := dict.(images := Some(images.value));
    }
    return Ok(dict);
  }
}
