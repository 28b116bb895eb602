/**
 * The tilt-series and movie-stack builders of the converter
 * (empiar_to_cets/conversion/entity_conversion/tilt_series_and_movie.py),
 * on the dict-shaped .mdoc record: one movie stack of movie frames and one
 * tilt image per `[ZValue = n]` section, with accumulated doses read from
 * the section's PriorRecordDose and FrameDosesAndNumber entries; the stack
 * collection; and the tilt series that refers to it.
 */
module TiltSeriesAndMovie {
  import opened Wrappers
  import opened Text
  import opened PyValues
  import opened MetadataModels
  import opened EmpiarFiles
  import MetadataParsing

  /** The fields of a region definition the builders read. */
  datatype Region = Region(name: string, tiltSeriesFilePattern: string,
                           movieStackFilePattern: string, movieStackFilterPattern: string)

  /**
   * The interpreter and library functions the builders call: `int(s)` and
   * `float(s)` (None where they raise), `parse.parse` of a filter pattern,
   * `str.format` of a file pattern, and the tilt angle
   * `parse_acquisition_metadata` reads from a section.
   */
  datatype Library = Library(
    parseInt: string -> Option<int>,
    parseFloat: string -> Option<real>,
    matcher: (string, string) -> Option<seq<string>>,
    format: (string, seq<string>) -> Result<string>,
    tiltAngle: ZValueSection -> Option<real>)

  datatype MovieFrame = MovieFrame(section: nat, nominalTiltAngle: Option<real>, accumulatedDose: real,
                                   width: Option<int>, height: Option<int>)

  datatype MovieStack = MovieStack(id: string, path: string, images: seq<MovieFrame>)

  datatype TiltImage = TiltImage(movieStackId: string, path: Option<string>, section: int,
                                 nominalTiltAngle: Option<real>, accumulatedDose: real,
                                 width: Option<int>, height: Option<int>)

  datatype MovieStackSeries = MovieStackSeries(id: string, stacks: seq<MovieStack>)

  datatype MovieStackCollection = MovieStackCollection(movieStacks: seq<MovieStackSeries>)

  datatype TiltSeries = TiltSeries(id: string, path: Option<string>, images: seq<TiltImage>, movieStackSeriesId: string)

  // ---------------------------------------------------------------- headers

  /**
   * `_extract_pixel_spacing`: the PixelSpacing header as a float, or None
   * when it is missing, falsy (a zero spacing included) or not convertible.
   */
  function PixelSpacing(headers: Dict, parseFloat: string -> Option<real>): (r: Option<real>)
    ensures "PixelSpacing" !in headers ==> r == None
    ensures var v := Get(headers, "PixelSpacing");
      (v.VFloat? ==> r == if v.f == 0.0 then None else Some(v.f))
      && (v.VInt? ==> r == if v.i == 0 then None else Some(v.i as real))
      && (v.VStr? ==> r == if v.s == [] then None else parseFloat(v.s))
      && (v.VList? || v.VNone? ==> r == None)
  {
    var v := Get(headers, "PixelSpacing");
    if !Truthy(v) then None
    else
      match ToFloat(v, parseFloat)
      case Ok(x) => Some(x)
      case Err(_) => None
  }

  /** `[int(x) for x in tokens]`, or None when some token is not an integer. */
  function IntsOf(tokens: seq<string>, parseInt: string -> Option<int>): (r: Option<seq<int>>)
    ensures r.Some? <==> forall k :: 0 <= k < |tokens| ==> parseInt(tokens[k]).Some?
    ensures r.Some? ==> |r.value| == |tokens| && forall k :: 0 <= k < |tokens| ==> parseInt(tokens[k]) == Some(r.value[k])
    decreases |tokens|
  {
    if tokens == [] then Some([])
    else
      match parseInt(tokens[0])
      case None => None
      case Some(x) =>
        var rest := IntsOf(tokens[1..], parseInt);
        assert forall k :: 1 <= k < |tokens| ==> tokens[1..][k - 1] == tokens[k];
        if rest.None? then None else Some([x] + rest.value)
  }

  /**
   * `_extract_image_dimensions`: the ImageSize header split on whitespace
   * into integers; None when the header is missing or falsy or a token is
   * not an integer. A truthy header that is not a string has no `split`:
   * the AttributeError is not caught.
   */
  function ImageDimensions(headers: Dict, parseInt: string -> Option<int>): (r: Result<Option<seq<int>>>)
    ensures var v := Get(headers, "ImageSize");
      (!Truthy(v) ==> r == Ok(None))
      && (Truthy(v) && !v.VStr? ==> r == Err(AttributeError("split")))
      && (v.VStr? ==> r.Ok?)
    ensures r.Ok? && r.value.Some? ==> var v := Get(headers, "ImageSize");
      v.VStr? && |r.value.value| == |Words(v.s)|
      && forall k :: 0 <= k < |Words(v.s)| ==> parseInt(Words(v.s)[k]) == Some(r.value.value[k])
    ensures r.Ok? && r.value.None? && Get(headers, "ImageSize").VStr? && Get(headers, "ImageSize").s != [] ==>
      exists k :: 0 <= k < |Words(Get(headers, "ImageSize").s)| && parseInt(Words(Get(headers, "ImageSize").s)[k]).None?
  {
    var v := Get(headers, "ImageSize");
    if !Truthy(v) then Ok(None)
    else
      var tokens :- SplitValue(v);
      Ok(IntsOf(tokens, parseInt))
  }

  /**
   * `image_dimensions[k] if image_dimensions else None`: None for missing
   * or empty dimensions, the k-th value when there is one, an IndexError
   * when the list is too short.
   */
  function Dimension(dims: Option<seq<int>>, k: nat): (r: Result<Option<int>>)
    ensures dims.None? || dims.value == [] ==> r == Ok(None)
    ensures dims.Some? && dims.value != [] ==> (r.Ok? <==> k < |dims.value|)
    ensures dims.Some? && r.Ok? && r.value.Some? ==> k < |dims.value| && r.value.value == dims.value[k]
    ensures r.Err? ==> r.error == IndexError
  {
    if dims.None? || dims.value == [] then Ok(None)
    else if k < |dims.value| then Ok(Some(dims.value[k]))
    else Err(IndexError)
  }

  // ------------------------------------------------------------------ doses

  /** `metadata["FrameDosesAndNumber"].split()`. */
  function FrameTokens(section: ZValueSection): (r: Result<seq<string>>)
    ensures "FrameDosesAndNumber" !in section.metadata ==> r == Err(KeyError("FrameDosesAndNumber"))
    ensures r.Ok? ==> section.metadata["FrameDosesAndNumber"].VStr?
                      && r.value == Words(section.metadata["FrameDosesAndNumber"].s)
  {
    var v :- Lookup(section.metadata, "FrameDosesAndNumber");
    SplitValue(v)
  }

  /**
   * The prior dose `float(metadata["PriorRecordDose"])` and the per-frame
   * dose, the float of the first FrameDosesAndNumber token, read in the
   * order both dose calculators read them.
   */
  function DoseParts(section: ZValueSection, parseFloat: string -> Option<real>): (r: Result<(real, real)>)
    ensures "PriorRecordDose" !in section.metadata ==> r == Err(KeyError("PriorRecordDose"))
    ensures r.Ok? ==>
      "PriorRecordDose" in section.metadata
      && ToFloat(section.metadata["PriorRecordDose"], parseFloat) == Ok(r.value.0)
      && FrameTokens(section).Ok? && FrameTokens(section).value != []
      && parseFloat(FrameTokens(section).value[0]) == Some(r.value.1)
    // It succeeds exactly when both floats can be read, and otherwise fails at the first read that does not.
    ensures r.Ok? <==> "PriorRecordDose" in section.metadata && ToFloat(section.metadata["PriorRecordDose"], parseFloat).Ok?
                       && FrameTokens(section).Ok? && FrameTokens(section).value != []
                       && ToFloat(VStr(FrameTokens(section).value[0]), parseFloat).Ok?
    ensures "PriorRecordDose" in section.metadata && ToFloat(section.metadata["PriorRecordDose"], parseFloat).Err? ==>
      r == Err(ToFloat(section.metadata["PriorRecordDose"], parseFloat).error)
    ensures "PriorRecordDose" in section.metadata && ToFloat(section.metadata["PriorRecordDose"], parseFloat).Ok? ==>
      (FrameTokens(section).Err? ==> r == Err(FrameTokens(section).error))
      && (FrameTokens(section) == Ok([]) ==> r == Err(IndexError))
      && (FrameTokens(section).Ok? && FrameTokens(section).value != []
          && ToFloat(VStr(FrameTokens(section).value[0]), parseFloat).Err? ==>
            r == Err(ToFloat(VStr(FrameTokens(section).value[0]), parseFloat).error))
  {
    var priorValue :- Lookup(section.metadata, "PriorRecordDose");
    var prior :- ToFloat(priorValue, parseFloat);
    var tokens :- FrameTokens(section);
    if tokens == [] then Err(IndexError)
    else
      var perFrame :- ToFloat(VStr(tokens[0]), parseFloat);
      Ok((prior, perFrame))
  }

  /**
   * `_calculate_movie_frame_accumulated_dose`: the prior dose plus the
   * per-frame dose for every frame up to and including this one.
   */
  function MovieFrameDose(section: ZValueSection, frameIndex: int, parseFloat: string -> Option<real>): (r: Result<real>)
    ensures r.Ok? <==> DoseParts(section, parseFloat).Ok?
    ensures r.Err? ==> r.error == DoseParts(section, parseFloat).error
    ensures r.Ok? ==> var (prior, perFrame) := DoseParts(section, parseFloat).value;
      r.value == prior + perFrame * (frameIndex + 1) as real
  {
    var parts :- DoseParts(section, parseFloat);
    Ok(parts.0 + parts.1 * (frameIndex + 1) as real)
  }

  /** `int(metadata["FrameDosesAndNumber"].split()[1])`: the number of frames the tilt was exposed for. */
  function TiltFrameCount(section: ZValueSection, parseInt: string -> Option<int>): (r: Result<int>)
    ensures r.Ok? ==> FrameTokens(section).Ok? && |FrameTokens(section).value| >= 2
                      && parseInt(FrameTokens(section).value[1]) == Some(r.value)
    ensures r.Ok? <==> FrameTokens(section).Ok? && |FrameTokens(section).value| >= 2
                       && parseInt(FrameTokens(section).value[1]).Some?
    ensures FrameTokens(section).Err? ==> r == Err(FrameTokens(section).error)
    ensures FrameTokens(section).Ok? && |FrameTokens(section).value| < 2 ==> r == Err(IndexError)
    ensures FrameTokens(section).Ok? && |FrameTokens(section).value| >= 2 && parseInt(FrameTokens(section).value[1]).None? ==>
      r == Err(ValueError(InvalidLiteral(FrameTokens(section).value[1])))
  {
    var tokens :- FrameTokens(section);
    if |tokens| < 2 then Err(IndexError)
    else
      match parseInt(tokens[1])
      case None => Err(ValueError(InvalidLiteral(tokens[1])))
      case Some(n) => Ok(n)
  }

  /** `_calculate_tilt_image_accumulated_dose`: the prior dose plus the per-frame dose times the frame count. */
  function TiltImageDose(section: ZValueSection, parseInt: string -> Option<int>, parseFloat: string -> Option<real>): (r: Result<real>)
    ensures r.Ok? <==> DoseParts(section, parseFloat).Ok? && TiltFrameCount(section, parseInt).Ok?
    ensures DoseParts(section, parseFloat).Err? ==> r == Err(DoseParts(section, parseFloat).error)
    ensures DoseParts(section, parseFloat).Ok? && TiltFrameCount(section, parseInt).Err? ==>
      r == Err(TiltFrameCount(section, parseInt).error)
    ensures r.Ok? ==> var (prior, perFrame) := DoseParts(section, parseFloat).value;
      r.value == prior + perFrame * TiltFrameCount(section, parseInt).value as real
  {
    var parts :- DoseParts(section, parseFloat);
    var count :- TiltFrameCount(section, parseInt);
    Ok(parts.0 + parts.1 * count as real)
  }

  /**
   * A tilt image's dose is the dose its movie reached at its last frame:
   * with n frames, the movie-frame dose at index n - 1; with no frames,
   * the prior dose alone.
   */
  lemma {:induction false} TiltDoseIsLastFrameDose(section: ZValueSection, parseInt: string -> Option<int>, parseFloat: string -> Option<real>)
    requires TiltImageDose(section, parseInt, parseFloat).Ok?
    ensures var n := TiltFrameCount(section, parseInt).value;
      (n >= 1 ==> MovieFrameDose(section, n - 1, parseFloat) == TiltImageDose(section, parseInt, parseFloat))
      && (n == 0 ==> TiltImageDose(section, parseInt, parseFloat) == Ok(DoseParts(section, parseFloat).value.0))
  {
    var n := TiltFrameCount(section, parseInt).value;
    var parts := DoseParts(section, parseFloat).value;
    var prior, perFrame := parts.0, parts.1;
    assert DoseParts(section, parseFloat) == Ok(parts) && TiltFrameCount(section, parseInt) == Ok(n);
    assert TiltImageDose(section, parseInt, parseFloat).Ok?;
    assert TiltImageDose(section, parseInt, parseFloat).value == prior + perFrame * n as real;
    if n == 0 {
      assert perFrame * n as real == 0.0;
    }
    if n >= 1 {
      assert MovieFrameDose(section, n - 1, parseFloat).Ok?;
      assert MovieFrameDose(section, n - 1, parseFloat).value == prior + perFrame * ((n - 1) + 1) as real;
    }
  }

  /** Each further frame adds the per-frame dose: frame g has (g - f) per-frame doses more than frame f. */
  lemma {:induction false} FrameDosesAccumulate(section: ZValueSection, parseFloat: string -> Option<real>, f: int, g: int)
    requires DoseParts(section, parseFloat).Ok?
    ensures MovieFrameDose(section, g, parseFloat).value - MovieFrameDose(section, f, parseFloat).value
            == DoseParts(section, parseFloat).value.1 * (g - f) as real
  {
    var (prior, perFrame) := DoseParts(section, parseFloat).value;
    assert MovieFrameDose(section, g, parseFloat).value == prior + perFrame * (g + 1) as real;
    assert MovieFrameDose(section, f, parseFloat).value == prior + perFrame * (f + 1) as real;
  }

  // ----------------------------------------------------------------- frames

  /**
   * `range(metadata.get("NumSubFrames", 0))`: a missing entry gives no
   * frames, an integer n gives max(n, 0) (a bool counts as 0 or 1), and any
   * other value is a TypeError.
   */
  function NumFrames(section: ZValueSection): (r: Result<nat>)
    ensures "NumSubFrames" !in section.metadata ==> r == Ok(0)
    ensures "NumSubFrames" in section.metadata ==> var v := section.metadata["NumSubFrames"];
      (v.VInt? ==> r == Ok(if v.i < 0 then 0 else v.i))
      && (v.VBool? ==> r == Ok(if v.b then 1 else 0))
      && (!v.VInt? && !v.VBool? ==> r == Err(TypeError))
  {
    if "NumSubFrames" !in section.metadata then Ok(0)
    else
      match section.metadata["NumSubFrames"]
      case VInt(n) => Ok(if n < 0 then 0 else n)
      case VBool(b) => Ok(if b then 1 else 0)
      case _ => Err(TypeError)
  }

  /** The frame at index f: its dose first, then its width and height. */
  function Frame(section: ZValueSection, f: nat, tiltAngle: Option<real>, dims: Option<seq<int>>,
                 parseFloat: string -> Option<real>): Result<MovieFrame>
  {
    var dose :- MovieFrameDose(section, f, parseFloat);
    var width :- Dimension(dims, 0);
    var height :- Dimension(dims, 1);
    Ok(MovieFrame(f, tiltAngle, dose, width, height))
  }

  /** The first n frames, built in order; the first failing frame ends the walk. */
  function FramesUpTo(section: ZValueSection, tiltAngle: Option<real>, dims: Option<seq<int>>,
                      parseFloat: string -> Option<real>, n: nat): Result<seq<MovieFrame>>
  {
    if n == 0 then Ok([])
    else
      var frames :- FramesUpTo(section, tiltAngle, dims, parseFloat, n - 1);
      var frame :- Frame(section, n - 1, tiltAngle, dims, parseFloat);
      Ok(frames + [frame])
  }

  /** What `_create_movie_frames` returns for a section. */
  function MovieFrames(section: ZValueSection, tiltAngle: Option<real>, dims: Option<seq<int>>,
                       parseFloat: string -> Option<real>): Result<seq<MovieFrame>>
  {
    var n :- NumFrames(section);
    FramesUpTo(section, tiltAngle, dims, parseFloat, n)
  }

  /** Whether a frame can be built does not depend on its index, and neither does the error. */
  lemma {:induction false} FrameOutcome(section: ZValueSection, f: nat, tiltAngle: Option<real>, dims: Option<seq<int>>,
                     parseFloat: string -> Option<real>)
    ensures Frame(section, f, tiltAngle, dims, parseFloat).Ok? <==>
      DoseParts(section, parseFloat).Ok? && Dimension(dims, 0).Ok? && Dimension(dims, 1).Ok?
    ensures Frame(section, f, tiltAngle, dims, parseFloat).Err? ==>
      Frame(section, f, tiltAngle, dims, parseFloat).error == Frame(section, 0, tiltAngle, dims, parseFloat).error
  {
  }

  /**
   * n frames, one per index in order, each with section f, the accumulated
   * dose of frame f and the image width and height; or the error building
   * any frame gives.
   */
  lemma {:induction false} FramesUpToShape(section: ZValueSection, tiltAngle: Option<real>, dims: Option<seq<int>>,
                                           parseFloat: string -> Option<real>, n: nat)
    ensures n > 0 ==> (FramesUpTo(section, tiltAngle, dims, parseFloat, n).Ok? <==> Frame(section, 0, tiltAngle, dims, parseFloat).Ok?)
    ensures n > 0 && Frame(section, 0, tiltAngle, dims, parseFloat).Err? ==>
      FramesUpTo(section, tiltAngle, dims, parseFloat, n) == Err(Frame(section, 0, tiltAngle, dims, parseFloat).error)
    ensures FramesUpTo(section, tiltAngle, dims, parseFloat, n).Ok? ==>
      var frames := FramesUpTo(section, tiltAngle, dims, parseFloat, n).value;
      |frames| == n
      && forall f :: 0 <= f < n ==>
           frames[f].section == f && frames[f].nominalTiltAngle == tiltAngle
           && MovieFrameDose(section, f, parseFloat) == Ok(frames[f].accumulatedDose)
           && Dimension(dims, 0) == Ok(frames[f].width) && Dimension(dims, 1) == Ok(frames[f].height)
    decreases n
  {
    if n > 0 {
      FramesUpToShape(section, tiltAngle, dims, parseFloat, n - 1);
      FrameOutcome(section, n - 1, tiltAngle, dims, parseFloat);
      FrameOutcome(section, 0, tiltAngle, dims, parseFloat);
    }
  }

  /**
   * `_create_movie_frames` yields NumSubFrames frames (none when the entry
   * is missing, without reading any dose) with sections 0, 1, ... in order,
   * the movie-frame doses, and the image width and height.
   */
  lemma {:induction false} MovieFramesShape(section: ZValueSection, tiltAngle: Option<real>, dims: Option<seq<int>>,
                         parseFloat: string -> Option<real>)
    ensures "NumSubFrames" !in section.metadata ==> MovieFrames(section, tiltAngle, dims, parseFloat) == Ok([])
    ensures NumFrames(section).Err? ==> MovieFrames(section, tiltAngle, dims, parseFloat) == Err(NumFrames(section).error)
    ensures MovieFrames(section, tiltAngle, dims, parseFloat).Ok? ==>
      var frames := MovieFrames(section, tiltAngle, dims, parseFloat).value;
      NumFrames(section) == Ok(|frames|)
      && forall f :: 0 <= f < |frames| ==>
           frames[f].section == f && frames[f].nominalTiltAngle == tiltAngle
           && MovieFrameDose(section, f, parseFloat) == Ok(frames[f].accumulatedDose)
           && Dimension(dims, 0) == Ok(frames[f].width) && Dimension(dims, 1) == Ok(frames[f].height)
  {
    if NumFrames(section).Ok? {
      FramesUpToShape(section, tiltAngle, dims, parseFloat, NumFrames(section).value);
    }
  }

  /** One more frame: the frames so far extended by frame n, or the error. */
  lemma {:induction false} FramesUpToStep(section: ZValueSection, tiltAngle: Option<real>, dims: Option<seq<int>>,
                       parseFloat: string -> Option<real>, n: nat, frames: seq<MovieFrame>)
    requires FramesUpTo(section, tiltAngle, dims, parseFloat, n) == Ok(frames)
    ensures FramesUpTo(section, tiltAngle, dims, parseFloat, n + 1)
         == match Frame(section, n, tiltAngle, dims, parseFloat)
            case Ok(frame) => Ok(frames + [frame])
            case Err(e) => Err(e)
  {
  }

  /** `_create_movie_frames`: appends one frame per index to a list. */
  method CreateMovieFrames(section: ZValueSection, tiltAngle: Option<real>, dims: Option<seq<int>>,
                           parseFloat: string -> Option<real>)
    returns (r: Result<seq<MovieFrame>>)
    ensures r == MovieFrames(section, tiltAngle, dims, parseFloat)
  {
    var numFrames := NumFrames(section);
    if numFrames.Err? {
      return Err(numFrames.error);
    }
    var n := numFrames.value;
    var frames: seq<MovieFrame> := [];
    var f: nat := 0;
    while f < n
      invariant f <= n
      invariant FramesUpTo(section, tiltAngle, dims, parseFloat, f) == Ok(frames)
    {
      FramesUpToStep(section, tiltAngle, dims, parseFloat, f, frames);
      var frame := Frame(section, f, tiltAngle, dims, parseFloat);
      if frame.Err? {
        FramesUpToShape(section, tiltAngle, dims, parseFloat, n);
        FrameOutcome(section, f, tiltAngle, dims, parseFloat);
        return Err(frame.error);
      }
      frames := frames + [frame.value];
      f := f + 1;
    }
    return Ok(frames);
  }

  // ------------------------------------------------------- stacks and images

  /** `f"{region.name}_movie_stack_{z_value:03d}"`. */
  function StackId(regionName: string, zValue: int): string {
    regionName + "_movie_stack_" + Pad3(zValue)
  }

  /** Sections with different non-negative z values get different stack ids. */
  lemma {:induction false} StackIdsDiffer(regionName: string, z1: nat, z2: nat)
    requires z1 != z2
    ensures StackId(regionName, z1) != StackId(regionName, z2)
  {
    var prefix := regionName + "_movie_stack_";
    assert StackId(regionName, z1)[|prefix|..] == Pad3(z1);
    assert StackId(regionName, z2)[|prefix|..] == Pad3(z2);
    assert DigitsToNat(Pad3(z1)) == z1 && DigitsToNat(Pad3(z2)) == z2;
  }

  /**
   * `match_mdoc_path_to_empiar` on a section's SubFramePath: the path must
   * be a string (`re.sub` raises TypeError on anything else, a missing
   * entry included).
   */
  function SectionEmpiarFile(section: ZValueSection, region: Region, files: seq<string>, lib: Library)
    : (r: Result<(string, seq<string>)>)
    ensures !Get(section.metadata, "SubFramePath").VStr? ==> r == Err(TypeError)
    ensures r.Ok? ==> r.value.0 in files
  {
    var subframePath := Get(section.metadata, "SubFramePath");
    if !subframePath.VStr? then Err(TypeError)
    else MetadataParsing.MatchedEmpiarFile(subframePath.s, region.movieStackFilterPattern, region.movieStackFilePattern,
                                           files, lib.matcher, lib.format)
  }

  /**
   * `_create_movie_stack_for_section`: the section's frames, then its
   * EMPIAR movie file, as a stack whose id carries the z value and whose
   * path is that file's URL.
   */
  function MovieStackFor(section: ZValueSection, region: Region, accessionNo: string, dims: Option<seq<int>>,
                         files: seq<string>, lib: Library): (r: Result<MovieStack>)
    ensures r.Ok? ==>
      r.value.id == StackId(region.name, section.zValue)
      && SectionEmpiarFile(section, region, files, lib).Ok?
      && r.value.path == DataUrl(accessionNo, SectionEmpiarFile(section, region, files, lib).value.0)
      && MovieFrames(section, lib.tiltAngle(section), dims, lib.parseFloat) == Ok(r.value.images)
    ensures MovieFrames(section, lib.tiltAngle(section), dims, lib.parseFloat).Err? ==>
      r == Err(MovieFrames(section, lib.tiltAngle(section), dims, lib.parseFloat).error)
    ensures r.Ok? <==> MovieFrames(section, lib.tiltAngle(section), dims, lib.parseFloat).Ok?
                       && SectionEmpiarFile(section, region, files, lib).Ok?
    ensures MovieFrames(section, lib.tiltAngle(section), dims, lib.parseFloat).Ok?
            && SectionEmpiarFile(section, region, files, lib).Err? ==>
      r == Err(SectionEmpiarFile(section, region, files, lib).error)
  {
    var frames :- MovieFrames(section, lib.tiltAngle(section), dims, lib.parseFloat);
    var (empiarPath, _) :- SectionEmpiarFile(section, region, files, lib);
    Ok(MovieStack(StackId(region.name, section.zValue), DataUrl(accessionNo, empiarPath), frames))
  }

  /** `_create_movie_stack_for_section`, building the frames with the loop above. */
  method CreateMovieStackForSection(section: ZValueSection, region: Region, accessionNo: string, dims: Option<seq<int>>,
                                    files: seq<string>, lib: Library)
    returns (r: Result<MovieStack>)
    ensures r == MovieStackFor(section, region, accessionNo, dims, files, lib)
  {
    var frames := CreateMovieFrames(section, lib.tiltAngle(section), dims, lib.parseFloat);
    if frames.Err? {
      return Err(frames.error);
    }
    var matched := SectionEmpiarFile(section, region, files, lib);
    if matched.Err? {
      return Err(matched.error);
    }
    return Ok(MovieStack(StackId(region.name, section.zValue), DataUrl(accessionNo, matched.value.0), frames.value));
  }

  /**
   * `_resolve_tilt_image_path`: the values matched from the section's
   * SubFramePath, formatted into the tilt-series file pattern, must name
   * one of the tilt-series files; the result is that file's URL.
   */
  function TiltImagePath(section: ZValueSection, region: Region, accessionNo: string, tiltSeriesPaths: seq<string>,
                         files: seq<string>, lib: Library): (r: Result<string>)
    ensures SectionEmpiarFile(section, region, files, lib).Err? ==> r == Err(SectionEmpiarFile(section, region, files, lib).error)
    ensures r.Ok? ==> exists p :: p in tiltSeriesPaths && r.value == DataUrl(accessionNo, p)
    ensures SectionEmpiarFile(section, region, files, lib).Ok? ==>
      var expected := lib.format(region.tiltSeriesFilePattern, SectionEmpiarFile(section, region, files, lib).value.1);
      (expected.Ok? && expected.value !in tiltSeriesPaths ==> r == Err(ValueError(NoTiltImageAtPath(expected.value))))
      && (expected.Ok? && expected.value in tiltSeriesPaths ==> r == Ok(DataUrl(accessionNo, expected.value)))
      && (expected.Err? ==> r == Err(expected.error))
  {
    var (_, parts) :- SectionEmpiarFile(section, region, files, lib);
    var expected :- lib.format(region.tiltSeriesFilePattern, parts);
    if expected !in tiltSeriesPaths then Err(ValueError(NoTiltImageAtPath(expected)))
    else Ok(DataUrl(accessionNo, expected))
  }

  /**
   * `_create_tilt_image_for_section`: no path of its own when the tilt
   * series is a single stack file, otherwise the resolved path; the z value
   * as section; the tilt-image dose; the image width and height; and the
   * id of the section's movie stack.
   */
  function TiltImageFor(section: ZValueSection, region: Region, accessionNo: string, movieStackId: string,
                        dims: Option<seq<int>>, isSingleStackFile: bool, tiltSeriesPaths: seq<string>,
                        files: seq<string>, lib: Library): (r: Result<TiltImage>)
    ensures r.Ok? ==>
      r.value.movieStackId == movieStackId && r.value.section == section.zValue
      && r.value.nominalTiltAngle == lib.tiltAngle(section)
      && TiltImageDose(section, lib.parseInt, lib.parseFloat) == Ok(r.value.accumulatedDose)
      && Dimension(dims, 0) == Ok(r.value.width) && Dimension(dims, 1) == Ok(r.value.height)
    ensures r.Ok? ==> (r.value.path.None? <==> isSingleStackFile)
    ensures r.Ok? && !isSingleStackFile ==> TiltImagePath(section, region, accessionNo, tiltSeriesPaths, files, lib) == Ok(r.value.path.value)
    ensures !isSingleStackFile && TiltImagePath(section, region, accessionNo, tiltSeriesPaths, files, lib).Err? ==>
      r == Err(TiltImagePath(section, region, accessionNo, tiltSeriesPaths, files, lib).error)
    // It succeeds exactly when the path (if any), the dose and both dimensions do; the first failure decides the error.
    ensures var pathOk := isSingleStackFile || TiltImagePath(section, region, accessionNo, tiltSeriesPaths, files, lib).Ok?;
      var dose := TiltImageDose(section, lib.parseInt, lib.parseFloat);
      (r.Ok? <==> pathOk && dose.Ok? && Dimension(dims, 0).Ok? && Dimension(dims, 1).Ok?)
      && (pathOk && dose.Err? ==> r == Err(dose.error))
      && (pathOk && dose.Ok? && Dimension(dims, 0).Err? ==> r == Err(Dimension(dims, 0).error))
      && (pathOk && dose.Ok? && Dimension(dims, 0).Ok? && Dimension(dims, 1).Err? ==> r == Err(Dimension(dims, 1).error))
  {
    var path :- if isSingleStackFile then Ok(None)
                else (var p :- TiltImagePath(section, region, accessionNo, tiltSeriesPaths, files, lib); Ok(Some(p)));
    var dose :- TiltImageDose(section, lib.parseInt, lib.parseFloat);
    var width :- Dimension(dims, 0);
    var height :- Dimension(dims, 1);
    Ok(TiltImage(movieStackId, path, section.zValue, lib.tiltAngle(section), dose, width, height))
  }

  /** The movie stack of one section and the tilt image that refers to it. */
  function SectionOutcome(section: ZValueSection, region: Region, accessionNo: string, dims: Option<seq<int>>,
                          isSingleStackFile: bool, tiltSeriesPaths: seq<string>, files: seq<string>,
                          lib: Library): Result<(MovieStack, TiltImage)>
  {
    var stack :- MovieStackFor(section, region, accessionNo, dims, files, lib);
    var image :- TiltImageFor(section, region, accessionNo, stack.id, dims, isSingleStackFile, tiltSeriesPaths, files, lib);
    Ok((stack, image))
  }

  /** The per-section step of the loop, with everything but the section fixed. */
  function SectionBuilder(region: Region, accessionNo: string, dims: Option<seq<int>>, isSingleStackFile: bool,
                          tiltSeriesPaths: seq<string>, files: seq<string>, lib: Library)
    : ZValueSection -> Result<(MovieStack, TiltImage)>
  {
    section => SectionOutcome(section, region, accessionNo, dims, isSingleStackFile, tiltSeriesPaths, files, lib)
  }

  /** The stacks and tilt images of the first n sections, built in order; the first failure ends the walk. */
  function BuildUpTo(sections: seq<ZValueSection>, build: ZValueSection -> Result<(MovieStack, TiltImage)>, n: nat)
    : Result<(seq<MovieStack>, seq<TiltImage>)>
    requires n <= |sections|
  {
    if n == 0 then Ok(([], []))
    else
      var built :- BuildUpTo(sections, build, n - 1);
      var pair :- build(sections[n - 1]);
      Ok((built.0 + [pair.0], built.1 + [pair.1]))
  }

  /** What `_create_movie_stacks_and_tilt_images` returns: the image dimensions are read once, before the sections. */
  function StacksAndImages(mdoc: MdocData, region: Region, accessionNo: string, isSingleStackFile: bool,
                           tiltSeriesPaths: seq<string>, files: seq<string>, lib: Library)
    : Result<(seq<MovieStack>, seq<TiltImage>)>
  {
    var dims :- ImageDimensions(mdoc.globalHeaders, lib.parseInt);
    BuildUpTo(mdoc.zSections, SectionBuilder(region, accessionNo, dims, isSingleStackFile, tiltSeriesPaths, files, lib),
              |mdoc.zSections|)
  }

  /** One stack and one tilt image per section, in section order, each pair built from its own section. */
  lemma {:induction false} BuildUpToShape(sections: seq<ZValueSection>, build: ZValueSection -> Result<(MovieStack, TiltImage)>, n: nat)
    requires n <= |sections|
    ensures BuildUpTo(sections, build, n).Ok? ==>
      var (stacks, images) := BuildUpTo(sections, build, n).value;
      |stacks| == n && |images| == n
      && forall i :: 0 <= i < n ==> build(sections[i]) == Ok((stacks[i], images[i]))
    decreases n
  {
    if n > 0 {
      BuildUpToShape(sections, build, n - 1);
    }
  }

  /** A failure at some section is the result of every longer walk. */
  lemma {:induction false} BuildErrorPersists(sections: seq<ZValueSection>, build: ZValueSection -> Result<(MovieStack, TiltImage)>,
                                              m: nat, n: nat)
    requires m <= n <= |sections|
    requires BuildUpTo(sections, build, m).Err?
    ensures BuildUpTo(sections, build, n) == BuildUpTo(sections, build, m)
    decreases n
  {
    if n > m {
      BuildErrorPersists(sections, build, m, n - 1);
    }
  }

  /** Each built pair is a movie stack for its section and a tilt image that refers to that stack. */
  lemma {:induction false} SectionOutcomeShape(section: ZValueSection, region: Region, accessionNo: string, dims: Option<seq<int>>,
                            isSingleStackFile: bool, tiltSeriesPaths: seq<string>, files: seq<string>, lib: Library,
                            stack: MovieStack, image: TiltImage)
    requires SectionBuilder(region, accessionNo, dims, isSingleStackFile, tiltSeriesPaths, files, lib)(section) == Ok((stack, image))
    ensures MovieStackFor(section, region, accessionNo, dims, files, lib) == Ok(stack)
    ensures TiltImageFor(section, region, accessionNo, stack.id, dims, isSingleStackFile, tiltSeriesPaths, files, lib) == Ok(image)
    ensures stack.id == StackId(region.name, section.zValue)
    ensures image.movieStackId == stack.id && image.section == section.zValue
    ensures image.path.None? <==> isSingleStackFile
  {
    assert SectionOutcome(section, region, accessionNo, dims, isSingleStackFile, tiltSeriesPaths, files, lib) == Ok((stack, image));
  }

  /**
   * `_create_movie_stacks_and_tilt_images` builds one stack and one tilt
   * image per section, in order; each image carries its section's z value
   * and its stack's id, and that id names the same z value.
   */
  lemma {:induction false} StacksAndImagesShape(mdoc: MdocData, region: Region, accessionNo: string, isSingleStackFile: bool,
                             tiltSeriesPaths: seq<string>, files: seq<string>, lib: Library)
    requires StacksAndImages(mdoc, region, accessionNo, isSingleStackFile, tiltSeriesPaths, files, lib).Ok?
    ensures var built := StacksAndImages(mdoc, region, accessionNo, isSingleStackFile, tiltSeriesPaths, files, lib).value;
      |built.0| == |mdoc.zSections| && |built.1| == |mdoc.zSections|
      && forall i :: 0 <= i < |mdoc.zSections| ==>
           built.0[i].id == StackId(region.name, mdoc.zSections[i].zValue)
           && built.1[i].movieStackId == built.0[i].id
           && built.1[i].section == mdoc.zSections[i].zValue
           && (built.1[i].path.None? <==> isSingleStackFile)
  {
    var dims := ImageDimensions(mdoc.globalHeaders, lib.parseInt).value;
    var build := SectionBuilder(region, accessionNo, dims, isSingleStackFile, tiltSeriesPaths, files, lib);
    var built := BuildUpTo(mdoc.zSections, build, |mdoc.zSections|).value;
    assert StacksAndImages(mdoc, region, accessionNo, isSingleStackFile, tiltSeriesPaths, files, lib).value == built;
    BuildUpToShape(mdoc.zSections, build, |mdoc.zSections|);
    forall i | 0 <= i < |mdoc.zSections|
      ensures built.0[i].id == StackId(region.name, mdoc.zSections[i].zValue)
      ensures built.1[i].movieStackId == built.0[i].id && built.1[i].section == mdoc.zSections[i].zValue
      ensures built.1[i].path.None? <==> isSingleStackFile
    {
      SectionOutcomeShape(mdoc.zSections[i], region, accessionNo, dims, isSingleStackFile, tiltSeriesPaths, files, lib,
                          built.0[i], built.1[i]);
    }
  }

  /** One more section: its stack and tilt image appended, or the error. */
  lemma {:induction false} BuildStep(sections: seq<ZValueSection>, build: ZValueSection -> Result<(MovieStack, TiltImage)>,
                  n: nat, stacks: seq<MovieStack>, images: seq<TiltImage>)
    requires n < |sections|
    requires BuildUpTo(sections, build, n) == Ok((stacks, images))
    ensures BuildUpTo(sections, build, n + 1)
            == if build(sections[n]).Err? then Err(build(sections[n]).error)
               else Ok((stacks + [build(sections[n]).value.0], images + [build(sections[n]).value.1]))
  {
  }

  /** `_create_movie_stacks_and_tilt_images`: appends a stack and a tilt image per section. */
  method CreateMovieStacksAndTiltImages(mdoc: MdocData, region: Region, accessionNo: string, isSingleStackFile: bool,
                                        tiltSeriesPaths: seq<string>, files: seq<string>, lib: Library)
    returns (r: Result<(seq<MovieStack>, seq<TiltImage>)>)
    ensures r == StacksAndImages(mdoc, region, accessionNo, isSingleStackFile, tiltSeriesPaths, files, lib)
  {
    var sections := mdoc.zSections;
    var dimensions := ImageDimensions(mdoc.globalHeaders, lib.parseInt);
    if dimensions.Err? {
      return Err(dimensions.error);
    }
    var dims := dimensions.value;
    ghost var build := SectionBuilder(region, accessionNo, dims, isSingleStackFile, tiltSeriesPaths, files, lib);
    var movieStacks: seq<MovieStack> := [];
    var tiltImages: seq<TiltImage> := [];
    var i: nat := 0;
    while i < |sections|
      invariant i <= |sections|
      invariant BuildUpTo(sections, build, i) == Ok((movieStacks, tiltImages))
    {
      BuildStep(sections, build, i, movieStacks, tiltImages);
      var built := BuildSection(sections[i], region, accessionNo, dims, isSingleStackFile, tiltSeriesPaths, files, lib);
      assert built == build(sections[i]);
      if built.Err? {
        BuildErrorPersists(sections, build, i + 1, |sections|);
        return Err(built.error);
      }
      movieStacks := movieStacks + [built.value.0];
      tiltImages := tiltImages + [built.value.1];
      i := i + 1;
    }
    return Ok((movieStacks, tiltImages));
  }

  /** The body of the section loop: build the stack, then the tilt image that refers to it. */
  method BuildSection(section: ZValueSection, region: Region, accessionNo: string, dims: Option<seq<int>>,
                      isSingleStackFile: bool, tiltSeriesPaths: seq<string>, files: seq<string>, lib: Library)
    returns (r: Result<(MovieStack, TiltImage)>)
    ensures r == SectionOutcome(section, region, accessionNo, dims, isSingleStackFile, tiltSeriesPaths, files, lib)
  {
    var stack := CreateMovieStackForSection(section, region, accessionNo, dims, files, lib);
    if stack.Err? {
      return Err(stack.error);
    }
    var image := TiltImageFor(section, region, accessionNo, stack.value.id, dims, isSingleStackFile,
                              tiltSeriesPaths, files, lib);
    if image.Err? {
      return Err(image.error);
    }
    return Ok((stack.value, image.value));
  }

  // --------------------------------------------------- collection and series

  /** `f"{region_name}_movie_stack_series"`: the id both the collection and the tilt series use. */
  function SeriesId(regionName: string): string {
    regionName + "_movie_stack_series"
  }

  /** `_create_movie_stack_collection`: every stack, in order, in exactly one series named after the region. */
  function MovieStackCollectionOf(regionName: string, movieStacks: seq<MovieStack>): (c: MovieStackCollection)
    ensures |c.movieStacks| == 1
    ensures c.movieStacks[0].id == SeriesId(regionName) && c.movieStacks[0].stacks == movieStacks
  {
    MovieStackCollection([MovieStackSeries(SeriesId(regionName), movieStacks)])
  }

  /**
   * `_create_tilt_series`: id region + "_tilt_series"; the URL of the first
   * tilt-series file as path exactly when the series is a single stack file
   * (an IndexError when that list is empty), no path otherwise; the given
   * images; and the id of the region's movie-stack series.
   */
  function TiltSeriesOf(regionName: string, accessionNo: string, tiltSeriesPaths: seq<string>, isSingleStackFile: bool,
                        images: seq<TiltImage>): (r: Result<TiltSeries>)
    ensures r.Err? <==> isSingleStackFile && tiltSeriesPaths == []
    ensures r.Err? ==> r.error == IndexError
    ensures r.Ok? ==>
      r.value.id == regionName + "_tilt_series" && r.value.images == images
      && r.value.movieStackSeriesId == SeriesId(regionName)
      && (r.value.path.Some? <==> isSingleStackFile)
      && (isSingleStackFile ==> r.value.path == Some(DataUrl(accessionNo, tiltSeriesPaths[0])))
  {
    var path :- if !isSingleStackFile then Ok(None)
                else if tiltSeriesPaths == [] then Err(IndexError)
                else Ok(Some(DataUrl(accessionNo, tiltSeriesPaths[0])));
    Ok(TiltSeries(regionName + "_tilt_series", path, images, SeriesId(regionName)))
  }

  /**
   * `create_cets_tilt_and_movie_families_with_metadata`: the accession
   * number, the tilt-series files of the region (from the file-matching
   * helper), the stacks and tilt images, and the two families built from
   * them.
   */
  function FamiliesWithMetadata(accessionId: string, region: Region, files: seq<string>,
                                matchFiles: string -> Result<seq<string>>, mdoc: MdocData, lib: Library)
    : Result<(MovieStackCollection, TiltSeries)>
  {
    var accessionNo :- AccessionNo(accessionId);
    var tiltSeriesPaths :- matchFiles(region.tiltSeriesFilePattern);
    var single := |tiltSeriesPaths| == 1;
    var (stacks, images) :- StacksAndImages(mdoc, region, accessionNo, single, tiltSeriesPaths, files, lib);
    match TiltSeriesOf(region.name, accessionNo, tiltSeriesPaths, single, images)
    case Ok(tiltSeries) => Ok((MovieStackCollectionOf(region.name, stacks), tiltSeries))
    case Err(e) => Err(e)
  }

  /**
   * The two families fit together: the tilt series names the collection's
   * only series, has one image per section, and each image refers to the
   * stack built for the same section.
   */
  lemma {:induction false} FamiliesLinked(accessionId: string, region: Region, files: seq<string>,
                       matchFiles: string -> Result<seq<string>>, mdoc: MdocData, lib: Library)
    requires FamiliesWithMetadata(accessionId, region, files, matchFiles, mdoc, lib).Ok?
    ensures var (collection, tiltSeries) := FamiliesWithMetadata(accessionId, region, files, matchFiles, mdoc, lib).value;
      |collection.movieStacks| == 1
      && tiltSeries.movieStackSeriesId == collection.movieStacks[0].id
      && |tiltSeries.images| == |mdoc.zSections| == |collection.movieStacks[0].stacks|
      && forall i :: 0 <= i < |mdoc.zSections| ==>
           tiltSeries.images[i].movieStackId == collection.movieStacks[0].stacks[i].id
           && tiltSeries.images[i].section == mdoc.zSections[i].zValue
  {
    var accessionNo := AccessionNo(accessionId).value;
    var tiltSeriesPaths := matchFiles(region.tiltSeriesFilePattern).value;
    var single := |tiltSeriesPaths| == 1;
    StacksAndImagesShape(mdoc, region, accessionNo, single, tiltSeriesPaths, files, lib);
  }
}
