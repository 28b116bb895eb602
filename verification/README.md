# cets-empiar core, modelled in Dafny

cets-empiar turns EMPIAR cryo-electron-tomography entries into CETS records (tilt series, movie stacks, alignments, tomograms, point annotations) and validates point annotations against their tomograms. This project models the computational core of that converter and validator, and proves properties of the model.

- **Frame reconciliation and bounds validation** (`PointAnnotationValidator`, `ThumbnailImageUtils`, `Thumbnail`). Given an annotation and a tomogram with named coordinate systems, the code picks the one shared frame or the first transformation that bridges the two frame sets. It then scales the points, component by component. The validator checks the points against the tomogram's closed voxel or physical box. The thumbnail path filters them by depth and projects them to thumbnail pixels. The two revisions are modelled separately, as written.
- **Frames and transformations of new annotations** (`AnnotationConversion`, `CoordinateSystemRegistry`, `EntityCoordinateSystemRegistry`, `CoordinateTransformationBuilder`, `EntityCoordinateTransformationBuilder`). This covers the fixed voxel and physical frames, the voxel-to-physical scale builder in its dict and record revisions, and the priority rules that choose an annotation's frames.
- **Metadata parsing** (`MdocSyntax`, `MetadataParsing`, `MetadataUtils`, `MetadataModels`, `SubframeSearch`, `XfParsing`). This covers the two line-by-line `.mdoc` parsers (header part, `[ZValue = n]` sections, key/value entries), value parsing, the subframe-path search, and the `.xf` alignment reader.
- **Entity builders** (`CetsAlignment`, `CetsTiltSeries`, `MovieStacks`, `TiltSeriesAndMovie`, `EmpiarFiles`, `AnnotationUtils`). This covers alignment restructuring, tilt-series and movie-stack dicts with their URLs and frames, accumulated doses, stack and series ids, and STAR-record coordinate and pixel-size extraction.

Python exceptions are modelled as `Err` values of `Result`. `int()`, `float()`, `str()`, `str.lower`, `inflection.underscore`, `re.findall` with the header key/value pattern of `parse_header_section`, `parse.parse`, `str.format` and the EMPIAR file matcher are parameters, because the model cannot see their implementations. Floats are `real`. Where the code mutates state in a loop, the model has a `method` with that loop. The method is proved equal to a specification function, and the properties are lemmas about that function. The movie-stack loop that reuses one dict object is modelled with a class, `MovieStacks.MovieStackDict`.

## Model

| member | source | states |
|---|---|---|
| CetsAlignment.ConvertTransform | cets_empiar/cets/alignment.py:11-21 | a step without "type" raises KeyError; a translation step becomes its translation and name, an affine step its matrix and name; the payload is read first, so a missing "translation" or "affine" is that KeyError, and a present payload without "name" is KeyError "name"; any other type is dropped |
| CetsAlignment.KeptIndices | cets_empiar/cets/alignment.py:11-21 | the positions of the translation and affine steps, ascending, and every such position is listed |
| CetsAlignment.ConvertSequenceShape | cets_empiar/cets/alignment.py:10-21 | a step sequence converts exactly when every step does, and then holds the conversion of each kept step, in input order; otherwise it fails with the error of the first step that fails |
| CetsAlignment.ConvertAlignment | cets_empiar/cets/alignment.py:9-24 | an alignment without "sequence" raises KeyError; otherwise it converts exactly when every step does, holding the conversion of each kept step in order, and fails with the first failing step's error |
| CetsAlignment.ConvertAlignmentsShape | cets_empiar/cets/alignment.py:8-25 | the alignments convert exactly when each does, and then output k is the conversion of input k; otherwise the error is that of the first alignment that fails |
| CetsAlignment.CetsAlignmentsOf | cets_empiar/cets/alignment.py:2-29 | KeyError without "projection_alignments"; otherwise success exactly when every alignment converts, giving a one-element list whose entry k is the conversion of alignment k, in order; on failure the error of the first alignment that fails |
| CetsAlignment.ConvertSteps | cets_empiar/cets/alignment.py:10-21 | the inner loop returns the converted step sequence, or the first step's error |
| CetsAlignment.CreateCetsAlignment | cets_empiar/cets/alignment.py:2-29 | `create_cets_alignment_from_alignment_metadata`: the nested loops return exactly CetsAlignmentsOf, errors included |
| CetsAlignment.XfLineConverts | cets_empiar/cets/alignment.py:17-21 | the alignment read from one .xf line converts to its 3x3 affine matrix followed by its translation, under the reader's names |
| CetsAlignment.XfAlignmentsConvert | cets_empiar/cets/alignment.py:2-29 | alignment metadata read from an .xf file never fails to convert, and projection alignment k is the conversion of line k's alignment |
| AnnotationConversion.AllClose | cets_empiar/empiar_to_cets/conversion/annotation.py:43 | `np.allclose` with atol and rtol 1e-5: elementwise closeness for equal lengths, broadcasting of a length-1 side, ValueError for any other pair of lengths |
| AnnotationConversion.FirstToPhysical | cets_empiar/empiar_to_cets/conversion/annotation.py:42 | the position of the first tomogram transformation whose output is the physical frame, or none when no transformation outputs it |
| AnnotationConversion.NewAnnotationFrames | cets_empiar/empiar_to_cets/conversion/annotation.py:13-58 | a given default frame decides alone (its registry entry, or ValueError when unregistered); else a pixel size gives the physical frame and either the first close tomogram scale into it (KeyError when that has no scale) or a new voxel-to-physical scale (the three-factor ValueError unless the pixel size has three values); a tomogram scale that cannot be broadcast against the pixel size is np.allclose's ValueError; else no frames |
| AnnotationConversion.TransformationsLeadIntoOwnFrame | cets_empiar/empiar_to_cets/conversion/annotation.py:33-58 | on success the annotation has at most one frame, and every transformation it gets outputs into one of its own frames |
| AnnotationConversion.IsotropicPixelSizeAccepted | cets_empiar/empiar_to_cets/conversion/annotation.py:39-56 | for a pixel size (p, p, p) the only possible failures are a matching transformation without a scale and a scale that cannot be broadcast against three values |
| CoordinateSystemRegistry.CoordinateSystems | cets_empiar/empiar_to_cets/conversion/coordinate_system.py:2-19 | exactly the voxel and physical frames, each under its own name, with axes X, Y, Z in voxel and angstrom units respectively |
| EntityCoordinateSystemRegistry.CoordinateSystems | cets_empiar/empiar_to_cets/conversion/entity_conversion/coordinate_system.py:3-20 | the same two frames; the voxel axes have type "array" and the physical axes type "space" |
| CoordinateTransformationBuilder.MakeScaleTransformation | cets_empiar/empiar_to_cets/conversion/coordinate_transformation.py:2-14 | a scale record with the given factors, input and output, named input "_to_" output "_scale_" and the factors joined by "_" |
| CoordinateTransformationBuilder.MakeCoordinateTransformation | cets_empiar/empiar_to_cets/conversion/coordinate_transformation.py:17-33 | ValueError for any kind but "scale"; IndexError with no parameters; ValueError unless the first parameter has three factors; otherwise the scale record built from it |
| EntityCoordinateTransformationBuilder.MakeScaleTransformation | cets_empiar/empiar_to_cets/conversion/entity_conversion/coordinate_transformation.py:4-16 | the Scale record with the given factors, input and output, and the same derived name |
| EntityCoordinateTransformationBuilder.MakeCoordinateTransformation | cets_empiar/empiar_to_cets/conversion/entity_conversion/coordinate_transformation.py:19-35 | the same kind check, IndexError and three-factor check, in the same order |
| EntityCoordinateTransformationBuilder.RevisionsAgree | cets_empiar/empiar_to_cets/conversion/entity_conversion/coordinate_transformation.py:19-35 | both revisions of the builder return the same transformation or the same error on every input |
| EmpiarFiles.AccessionNo | cets_empiar/empiar_to_cets/conversion/movie_stack_collection.py:43 | `split("-")[1]`: IndexError exactly when the id has no "-"; otherwise the dash-free text after the first "-" |
| EmpiarFiles.DataUrl | cets_empiar/empiar_to_cets/conversion/movie_stack_collection.py:45 | the URL starts with the EMPIAR base URL and ends with "/data/" and the path |
| EmpiarFiles.DataUrlInjective | cets_empiar/empiar_to_cets/conversion/movie_stack_collection.py:45 | within one entry, two paths with the same URL are the same path |
| MetadataParsing.ValueOfShape | cets_empiar/empiar_to_cets/parsing/metadata_parsing.py:192-222 | a value holding a space after stripping parses to a flat list with one scalar (never None) per whitespace token; any other value parses to a scalar |
| MetadataParsing.ValueWithoutSpaceIsScalar | cets_empiar/empiar_to_cets/parsing/metadata_parsing.py:212-222 | without a space the value is the stripped text parsed as int, else float, else kept as text |
| MetadataParsing.ParseValue | cets_empiar/empiar_to_cets/parsing/metadata_parsing.py:192-222 | `parse_value`: the token loop returns exactly ValueOf of the input |
| MetadataParsing.Entries | cets_empiar/empiar_to_cets/parsing/metadata_parsing.py:171-176 | one stored entry per matched pair, in order: the key stripped, spaces made underscores and passed through `parse_key`, and the value stripped and parsed |
| MetadataParsing.DictOfKeys | cets_empiar/empiar_to_cets/parsing/metadata_parsing.py:170-178 | the header dict holds exactly the keys of the stored entries |
| MetadataParsing.DictOfLastWins | cets_empiar/empiar_to_cets/parsing/metadata_parsing.py:170-178 | under each key the dict holds the value of the last pair with that key |
| MetadataParsing.Inner | cets_empiar/empiar_to_cets/parsing/metadata_parsing.py:154 | `s[1:-1]`: the text between the first and last characters, empty for texts shorter than 2 |
| MetadataParsing.HeaderSectionOf | cets_empiar/empiar_to_cets/parsing/metadata_parsing.py:148-180 | ValueError exactly when the bracketed text has no "="; {} when the rest after the first "=" holds no "="; otherwise the dict of the pairs that `re.findall` with the key/value pattern finds (the parameter `keyValuePairs`), a later pair winning |
| MetadataParsing.DescriptiveTSection | cets_empiar/empiar_to_cets/parsing/metadata_parsing.py:160-163 | a `[T = text]` line whose text has no "=" (SerialEM's descriptive line) gives {} |
| MetadataParsing.ParseEntry | cets_empiar/empiar_to_cets/parsing/metadata_parsing.py:171-176 | one pair parsed and stored as Entry says |
| MetadataParsing.StoreHeaderPairs | cets_empiar/empiar_to_cets/parsing/metadata_parsing.py:170-178 | the loop over the matches builds exactly the dict of the stored entries |
| MetadataParsing.ParseHeaderSection | cets_empiar/empiar_to_cets/parsing/metadata_parsing.py:148-180 | `parse_header_section` returns exactly HeaderSectionOf, errors included |
| MetadataParsing.ClassifyShape | cets_empiar/empiar_to_cets/parsing/metadata_parsing.py:240-270 | a stripped line is blank, a `[T =` header section, a `[ZValue = n]` marker, a key=value pair split at its first "=", or ignored, checked in that order; each carries the parsed parts |
| MetadataParsing.ClassifyMarker | cets_empiar/empiar_to_cets/parsing/metadata_parsing.py:252-257 | a line is a section marker exactly when the marker pattern matches it, and it carries the matched number |
| MetadataParsing.Classified | cets_empiar/empiar_to_cets/parsing/metadata_parsing.py:239-240 | every line of the file is read in order |
| MetadataParsing.ApplyKeepsConsistent | cets_empiar/empiar_to_cets/parsing/metadata_parsing.py:245-270 | one applied line keeps the closed sections and the open one in step with the markers seen, and fails only where its T section failed |
| MetadataParsing.FoldLinesConsistent | cets_empiar/empiar_to_cets/parsing/metadata_parsing.py:239-270 | over lines that fail only as a T section without "=", the parse state stays consistent with the markers read |
| MetadataParsing.ClassifiedMarkers | cets_empiar/empiar_to_cets/parsing/metadata_parsing.py:252-253 | the markers the reader recognises are exactly the marker lines of the file |
| MetadataParsing.ClassifyFails | cets_empiar/empiar_to_cets/parsing/metadata_parsing.py:246-247 | reading a line can fail only as a T section without "=" does |
| MetadataParsing.FoldConsistent | cets_empiar/empiar_to_cets/parsing/metadata_parsing.py:239-270 | after any prefix of the file, every section holds "z_value", the sections number the markers read, and the only failure is the unpacking ValueError |
| MetadataParsing.MdocOfShape | cets_empiar/empiar_to_cets/parsing/metadata_parsing.py:225-279 | `parse_mdoc_file`: one section per marker in file order, each with "z_value", and the file name chosen; it fails only by the unpacking ValueError or by a TypeError exactly when a header key clashes with "filename" or "z_sections" |
| MetadataParsing.TSectionMergesIntoHeader | cets_empiar/empiar_to_cets/parsing/metadata_parsing.py:246-250 | a parsed T section merges its pairs into the header, whether or not a section is open |
| MetadataParsing.KeyValueRouting | cets_empiar/empiar_to_cets/parsing/metadata_parsing.py:262-270 | a key=value line goes into the open section once a marker was seen, and into the header before that |
| MetadataParsing.MarkerOpensSection | cets_empiar/empiar_to_cets/parsing/metadata_parsing.py:252-260 | a `[ZValue = n]` line closes the open section and opens a new one holding only z_value n |
| MetadataParsing.ReadLine | cets_empiar/empiar_to_cets/parsing/metadata_parsing.py:240-262 | the per-line tests return exactly the classification of the line |
| MetadataParsing.ApplyLine | cets_empiar/empiar_to_cets/parsing/metadata_parsing.py:245-270 | the loop body's state update equals Apply on the read line |
| MetadataParsing.ReadMdocLines | cets_empiar/empiar_to_cets/parsing/metadata_parsing.py:239-270 | the loop over all lines returns exactly the fold of the read lines, stopping at the first error |
| MetadataParsing.ParseMdocFile | cets_empiar/empiar_to_cets/parsing/metadata_parsing.py:225-279 | `parse_mdoc_file` on the file's lines returns exactly MdocOf |
| MetadataParsing.SectionPaths | cets_empiar/empiar_to_cets/parsing/metadata_parsing.py:64 | the SubFramePath of every section, None where it has none |
| MetadataParsing.SearchBySubframePath | cets_empiar/empiar_to_cets/parsing/metadata_parsing.py:44-77 | `search_by_subframe_path`: the sections, in file order, that the subframe search selects |
| MetadataParsing.LastSegment | cets_empiar/empiar_to_cets/parsing/metadata_parsing.py:301-303 | the last path segment after backslash runs become "/": it holds neither separator and ends the normalised path |
| MetadataParsing.ExpectedEmpiarPath | cets_empiar/empiar_to_cets/parsing/metadata_parsing.py:301-308 | ValueError when the filter pattern does not match the last segment; otherwise success exactly when formatting the file pattern with the extracted values succeeds, giving that path and the values, and format's error when it fails |
| MetadataParsing.OnlyLastSegmentMatters | cets_empiar/empiar_to_cets/parsing/metadata_parsing.py:301-308 | two SubFramePaths with the same last segment lead to the same expected EMPIAR path |
| MetadataParsing.MatchedEmpiarFile | cets_empiar/empiar_to_cets/parsing/metadata_parsing.py:282-314 | the expected path and its values when the file list holds it; otherwise the expected-path error or a ValueError naming the path; a returned path is always in the list |
| MetadataParsing.MatchMdocPathToEmpiar | cets_empiar/empiar_to_cets/parsing/metadata_parsing.py:282-314 | `match_mdoc_path_to_empiar`: the scan of the file list returns exactly MatchedEmpiarFile |
| MdocSyntax.LeadingDigits | cets_empiar/empiar_to_cets/parsing/metadata_parsing.py:252 | the greedy `\d+` run: the longest all-digit prefix, followed by a non-digit or the end |
| MdocSyntax.MatchZValue | cets_empiar/empiar_to_cets/parsing/metadata_parsing.py:252 | a marker is matched only at the start of the line, which must begin with "[ZValue" and hold a "]" |
| MdocSyntax.ZValueRoundTrip | cets_empiar/empiar_to_cets/parsing/metadata_parsing.py:252-257 | the marker as SerialEM writes it, `[ZValue = n]`, is matched with any text after it, and reads back n |
| MdocSyntax.TLinesAreNotMarkers | cets_empiar/empiar_to_cets/parsing/metadata_parsing.py:246-253 | a line starting `[T =` is never a section marker, so the T test first and the marker test second never compete |
| MdocSyntax.Markers | cets_empiar/empiar_to_cets/parsing/metadata_parsing.py:252-260 | the numbers of the marker lines among the first n lines, in file order |
| MdocSyntax.NoMarkers | cets_empiar/empiar_to_cets/parsing/metadata_parsing.py:252-260 | there are no markers exactly when no line is a marker |
| MetadataModels.NewSection | cets_empiar/empiar_to_cets/utils/metadata_models.py:5-11 | a new section holds its number and an empty metadata dict |
| MetadataModels.SubframePaths | cets_empiar/empiar_to_cets/utils/metadata_models.py:43 | the SubFramePath entry of every section, None where a section has none |
| MetadataModels.SearchResult | cets_empiar/empiar_to_cets/utils/metadata_models.py:23-56 | the search returns at most as many sections as there are |
| MetadataModels.SearchResultShape | cets_empiar/empiar_to_cets/utils/metadata_models.py:23-56 | the result lists sections with a set SubFramePath at ascending indices; when lower-casing twice changes nothing, a section is returned exactly when its (lower-cased) path ends with the (lower-cased) search string; no sections give no result |
| MetadataModels.MdocFile.constructor | cets_empiar/empiar_to_cets/utils/metadata_models.py:14-21 | a new file has its name, empty headers and no sections |
| MetadataModels.MdocFile.SearchBySubframePath | cets_empiar/empiar_to_cets/utils/metadata_models.py:23-56 | `search_by_subframe_path`: the loop returns exactly SearchResult |
| SubframeSearch.Selected | cets_empiar/empiar_to_cets/utils/metadata_models.py:54 | the sections at the given indices, in that order |
| SubframeSearch.Search | cets_empiar/empiar_to_cets/utils/metadata_models.py:40-56 | every match index is one of the sections searched |
| SubframeSearch.SearchShape | cets_empiar/empiar_to_cets/utils/metadata_models.py:40-56 | the matches have a set path and ascend; the needle stays the search string when the search is case-sensitive or no section has been compared yet |
| SubframeSearch.SearchStep | cets_empiar/empiar_to_cets/utils/metadata_models.py:42-54 | one more section: a falsy path is skipped; otherwise the needle is lower-cased once more and the section kept when its path ends with it |
| SubframeSearch.NeedleSettles | cets_empiar/empiar_to_cets/utils/metadata_models.py:49-51 | when lower-casing twice changes nothing, the needle is the search string or its lower-case form, and the latter once any section has been compared |
| SubframeSearch.SearchKeepsExactly | cets_empiar/empiar_to_cets/utils/metadata_models.py:40-56 | when lower-casing twice changes nothing, a section is kept exactly when its path is set and its (lower-cased) string ends with the (lower-cased) search string |
| MetadataUtils.ParseValue | cets_empiar/metadata_utils.py:101-120 | the stripped text as an int exactly when `int` accepts it, else a float exactly when `float` does, else the text itself; never a list |
| MetadataUtils.ParseValueIgnoresPadding | cets_empiar/metadata_utils.py:105 | a value and its stripped form parse to the same thing |
| MetadataUtils.ParseValueAgreesWithoutSpace | cets_empiar/metadata_utils.py:101-120 | on a value without an inner space, this reader and the newer `parse_value` agree |
| MetadataUtils.ReadLegacySection | cets_empiar/metadata_utils.py:218-224 | a line opens a section exactly when it is a `[ZValue = n]` marker, and carries n |
| MetadataUtils.ReadLegacyEntry | cets_empiar/metadata_utils.py:227-233 | a line is an entry exactly when it holds "=" and does not start with "["; its key and value are the stripped halves around the first "=", the value parsed |
| MetadataUtils.TLinesDropped | cets_empiar/metadata_utils.py:212-227 | every `[T =` line is dropped: with a closing "]" by the comment test, without one because it starts with "[" |
| MetadataUtils.StepAfterHeaders | cets_empiar/metadata_utils.py:219-239 | once out of the header part, no line changes the headers or returns to the header part |
| MetadataUtils.ParsedSections | cets_empiar/metadata_utils.py:204-224 | after n lines there is one section per marker, in file order, numbered as its marker, and the reader is in the header part exactly while no marker was seen |
| MetadataUtils.StepNumbers | cets_empiar/metadata_utils.py:219-239 | a marker appends an empty section with its number and ends the header part; any other line keeps the section numbers and the mode |
| MetadataUtils.HeadersFrozen | cets_empiar/metadata_utils.py:223-239 | once the first marker is read, the headers never change again |
| MetadataUtils.EntryRouting | cets_empiar/metadata_utils.py:236-239 | an entry is stored under its key in the headers while no marker was read, and otherwise in the last section only, the other sections and the headers unchanged |
| MetadataUtils.ReadLegacyLine | cets_empiar/metadata_utils.py:205-233 | the per-line tests return exactly the line's reading |
| MetadataUtils.StoreLine | cets_empiar/metadata_utils.py:219-239 | one stored line changes the file object's headers, sections and header flag exactly as Step says, and keeps its name |
| MetadataUtils.ParseMdocFile | cets_empiar/metadata_utils.py:191-241 | `parse_mdoc_file`: a fresh file object named after the path whose headers and sections are those of the fold over the lines |
| MetadataUtils.ParsedFileShape | cets_empiar/metadata_utils.py:191-241 | the parsed file has one section per marker, numbered and ordered as the markers, and its headers are those read before the first marker |
| XfParsing.SixFloats | cets_empiar/empiar_to_cets/parsing/metadata_parsing.py:104-110 | a line's tokens give values exactly when there are six of them and `float` accepts each, and the values are those conversions in order |
| XfParsing.LineValues | cets_empiar/empiar_to_cets/parsing/metadata_parsing.py:97-110 | one reading per line of the file, line by line |
| XfParsing.XfLineIndices | cets_empiar/empiar_to_cets/parsing/metadata_parsing.py:97-113 | the indices of the lines with six numbers: ascending, each such line, and every such line |
| XfParsing.XfAlignments | cets_empiar/empiar_to_cets/parsing/metadata_parsing.py:97-139 | one alignment per line with six numbers, in line order, each built from that line's index and values |
| XfParsing.XfAlignmentsStep | cets_empiar/empiar_to_cets/parsing/metadata_parsing.py:97-139 | one more line appends its alignment when it holds six numbers and leaves the list alone otherwise |
| XfParsing.ReadXfLine | cets_empiar/empiar_to_cets/parsing/metadata_parsing.py:98-113 | the strip/blank/split/count/convert steps return exactly the line's reading, and a reading comes only from six tokens |
| XfParsing.ParseXfFile | cets_empiar/empiar_to_cets/parsing/metadata_parsing.py:80-145 | the returned dict holds under "projection_alignments" exactly the alignments of the whole file |
| XfParsing.AlignmentNamesDistinct | cets_empiar/empiar_to_cets/parsing/metadata_parsing.py:117-135 | alignments from different lines have different names |
| XfParsing.XfAlignmentShape | cets_empiar/empiar_to_cets/parsing/metadata_parsing.py:115-137 | every alignment is a sequence of an affine step into "rotated_projection_i" and a translation out of it, with a 3x3 matrix whose last row is 0 0 1 and a two-component shift |
| MovieStacks.PathName | cets_empiar/empiar_to_cets/conversion/movie_stack_collection.py:65 | `Path(pattern).name`: a suffix of the pattern with its trailing separators removed, containing no separator |
| MovieStacks.PathNameOfJoin | cets_empiar/empiar_to_cets/conversion/movie_stack_collection.py:65 | the name of "dir/name", of "dir/name/" and of a bare name is that name |
| MovieStacks.MatchingSections | cets_empiar/empiar_to_cets/conversion/movie_stack_collection.py:66 | the sections the subframe search returns for the pattern's file name, never more than the file has |
| MovieStacks.MatchedSectionIsFirstMatch | cets_empiar/empiar_to_cets/conversion/movie_stack_collection.py:65-66 | the section used is the first in file order whose truthy SubFramePath, lower-cased, ends with the lower-cased file name |
| MovieStacks.FramesForVolumeMovie | cets_empiar/empiar_to_cets/conversion/movie_stack_collection.py:60-83 | no matching section is an IndexError from `[0]`; frames come only with a readable ImageSize |
| MovieStacks.SectionFrames | cets_empiar/empiar_to_cets/conversion/movie_stack_collection.py:74-81 | a section without NumSubFrames is a KeyError |
| MovieStacks.FramesForVolumeMovieShape | cets_empiar/empiar_to_cets/conversion/movie_stack_collection.py:60-83 | the error of ImageSize, NumSubFrames or TiltAngle in that order, no frames for a count of 0 or less, otherwise one frame per subframe labelled 0, 1, ... (all different) with the section's TiltAngle and the image size |
| MovieStacks.CreateMovieFramesForVolumeMovie | cets_empiar/empiar_to_cets/conversion/movie_stack_collection.py:60-83 | the frames method returns exactly FramesForVolumeMovie on the file's headers and sections |
| MovieStacks.CreateSectionFrames | cets_empiar/empiar_to_cets/conversion/movie_stack_collection.py:72-83 | the frame loop returns exactly SectionFrames |
| MovieStacks.DataOf | cets_empiar/empiar_to_cets/conversion/movie_stack_collection.py:48 | frames are asked for exactly when a metadata object is passed |
| MovieStacks.StackDictFor | cets_empiar/empiar_to_cets/conversion/movie_stack_collection.py:35-53 | succeeds exactly when the file matcher, the accession number and (with metadata) the frames all succeed; otherwise the error of the first failing step, with no matching file a ValueError naming the pattern; on success a path exactly when one file matches, the URL of that file, and frames exactly when metadata is given |
| MovieStacks.StackDictsShape | cets_empiar/empiar_to_cets/conversion/movie_stack_collection.py:32-57 | with a fresh dict per definition: one dict per definition, in order, and an error exactly when some definition fails |
| MovieStacks.CreateMovieStackDict | cets_empiar/empiar_to_cets/conversion/movie_stack_collection.py:35-53 | one definition's steps return exactly StackDictFor |
| MovieStacks.DefinitionLoop | cets_empiar/empiar_to_cets/conversion/movie_stack_collection.py:32-57 | the loop over the definitions returns the in-order map, stopping at the first error |
| MovieStacks.CreateMovieStacks | cets_empiar/empiar_to_cets/conversion/movie_stack_collection.py:25-57 | the fresh-dict loop returns exactly StackDicts |
| MovieStacks.MovieStackDict.constructor | cets_empiar/empiar_to_cets/conversion/movie_stack_collection.py:45 | a new dict holds the path and no images |
| MovieStacks.AsWrittenOf | cets_empiar/empiar_to_cets/conversion/movie_stack_collection.py:44-55 | the entries the shared variable leaves: one per definition |
| MovieStacks.AsWrittenOfOwnDicts | cets_empiar/empiar_to_cets/conversion/movie_stack_collection.py:44-55 | when every definition matches one file, each entry is that definition's own dict |
| MovieStacks.AsWrittenOfSharedEntry | cets_empiar/empiar_to_cets/conversion/movie_stack_collection.py:44-55 | an entry whose definition matched several files still carries an earlier path, so differs from its fresh dict |
| MovieStacks.AsWrittenOfAgrees | cets_empiar/empiar_to_cets/conversion/movie_stack_collection.py:44-55 | the shared variable changes nothing exactly when every definition matches one file |
| MovieStacks.StacksAsWritten | cets_empiar/empiar_to_cets/conversion/movie_stack_collection.py:32-57 | the stacks the loop as written returns: one entry per definition |
| MovieStacks.AsWrittenAgreesIff | cets_empiar/empiar_to_cets/conversion/movie_stack_collection.py:32-57 | the loop as written equals the fresh-dict loop exactly when every definition matches one file, and fails with an unbound variable exactly when the first matches several |
| MovieStacks.AsWrittenOfStackDicts | cets_empiar/empiar_to_cets/conversion/movie_stack_collection.py:32-57 | once the first definition has a path, the loop as written fails as the fresh-dict loop does and otherwise leaves AsWrittenOf of its dicts |
| MovieStacks.StaleDictCounterexample | cets_empiar/empiar_to_cets/conversion/movie_stack_collection.py:44-55 | "a.tif" matching one file then "b_{n}.tif" matching two: the second entry repeats the first URL where a fresh dict has no path |
| MovieStacks.UnboundDictCounterexample | cets_empiar/empiar_to_cets/conversion/movie_stack_collection.py:44-55 | a first definition matching two files: the loop as written fails with an unbound variable where a fresh dict succeeds |
| MovieStacks.NewDict | cets_empiar/empiar_to_cets/conversion/movie_stack_collection.py:45-53 | a definition with a path binds a new dict with that path and its frames |
| MovieStacks.StoreInLatest | cets_empiar/empiar_to_cets/conversion/movie_stack_collection.py:48-55 | a definition without a path stores its frames in the dict the variable still holds, and every entry sharing it shows them |
| MovieStacks.StoreInDict | cets_empiar/empiar_to_cets/conversion/movie_stack_collection.py:44-55 | one iteration appends the held dict, new or old, keeping the earlier entries |
| MovieStacks.StoreStep | cets_empiar/empiar_to_cets/conversion/movie_stack_collection.py:44-55 | one iteration keeps the correspondence between the objects and the dicts computed so far |
| MovieStacks.FitsAsWritten | cets_empiar/empiar_to_cets/conversion/movie_stack_collection.py:44-55 | after the loop, entries with the same holder are one object, and each object has its holder's path and the last sharer's frames |
| MovieStacks.StoreAll | cets_empiar/empiar_to_cets/conversion/movie_stack_collection.py:32-57 | the store loop leaves one object per definition, shared by owner, with exactly the paths and frames of AsWrittenOf |
| MovieStacks.CreateMovieStacksAsWritten | cets_empiar/empiar_to_cets/conversion/movie_stack_collection.py:25-57 | the loop as written returns StacksAsWritten (same error, same paths and frames per entry), with entries of one holder being one object |
| MovieStacks.MovieStackCollection | cets_empiar/empiar_to_cets/conversion/movie_stack_collection.py:8-22 | one collection holding one series whose stacks are those of the loop as written, or that loop's error |
| MovieStacks.MovieStackCollectionIntended | cets_empiar/empiar_to_cets/conversion/movie_stack_collection.py:8-22 | the same wrapping around the fresh-dict stacks |
| MovieStacks.CollectionsAgreeIff | cets_empiar/empiar_to_cets/conversion/movie_stack_collection.py:8-57 | when every dict can be computed, the collection as written equals the intended one exactly when every definition matches one file |
| MovieStacks.CreateMovieStackCollection | cets_empiar/empiar_to_cets/conversion/movie_stack_collection.py:8-22 | the collection function returns exactly MovieStackCollection, read off the objects of the loop as written |
| MovieStacks.CreateMovieStackCollectionIntended | cets_empiar/empiar_to_cets/conversion/movie_stack_collection.py:8-22 | the intended collection is built exactly as MovieStackCollectionIntended |
| AnnotationUtils.MatchingIndices | cets_empiar/empiar_to_cets/utils/annotation_utils.py:21 | the indices of the rows whose column equals the image name: ascending, each matching, and every match |
| AnnotationUtils.MatchingRows | cets_empiar/empiar_to_cets/utils/annotation_utils.py:21 | the kept rows are never more than the rows looked at |
| AnnotationUtils.MatchingRowsCount | cets_empiar/empiar_to_cets/utils/annotation_utils.py:21 | each matching row is kept as often as the table holds it, and no other row is kept |
| AnnotationUtils.MatchingRowsInOrder | cets_empiar/empiar_to_cets/utils/annotation_utils.py:21 | the kept rows are the rows at the matching indices, in table order |
| AnnotationUtils.FilterStarTable | cets_empiar/empiar_to_cets/utils/annotation_utils.py:15-21 | a missing column is a KeyError and nothing else is; otherwise the same columns and exactly the matching rows, each as often as in the table and in table order |
| AnnotationUtils.RecordPoint | cets_empiar/empiar_to_cets/utils/annotation_utils.py:66 | a point exactly when `float` accepts x, y and z, and the point is those three conversions |
| AnnotationUtils.CompleteIndices | cets_empiar/empiar_to_cets/utils/annotation_utils.py:60-65 | the indices of the records with x, y and z present and not None: ascending, each complete, and every complete one |
| AnnotationUtils.ExtractedShape | cets_empiar/empiar_to_cets/utils/annotation_utils.py:57-68 | extraction succeeds exactly when every complete record converts, and then yields one point per complete record, in order |
| AnnotationUtils.ExtractedStep | cets_empiar/empiar_to_cets/utils/annotation_utils.py:60-66 | an incomplete record is skipped; a complete one appends its point or stops with its conversion error |
| AnnotationUtils.ExtractCoordinates | cets_empiar/empiar_to_cets/utils/annotation_utils.py:57-68 | the loop returns exactly Extracted on all the records, never more points than records |
| AnnotationUtils.PixelUnit | cets_empiar/empiar_to_cets/utils/annotation_utils.py:71-79 | None exactly when none of rlnPixelSize, rlnImagePixelSize, _pixelSize is a key; otherwise `float` of the first of them present, in that order |
| AnnotationUtils.FirstKeyValue | cets_empiar/empiar_to_cets/utils/annotation_utils.py:75-79 | the first-match loop gives None exactly when the record holds none of the keys |
| AnnotationUtils.FirstKeyValueStep | cets_empiar/empiar_to_cets/utils/annotation_utils.py:75-77 | the first candidate key present decides, and an absent key passes to the next |
| AnnotationUtils.CoordinatesAndUnits | cets_empiar/empiar_to_cets/utils/annotation_utils.py:87-98 | the extraction error first, then an IndexError for no records, then the first record's pixel-size error; otherwise the extracted points and the first record's pixel size, a truthy p as (p, p, p), 0.0 as it is, None as None |
| CetsTiltSeries.IntOf | cets_empiar/cets/tilt_series.py:44 | `int(token)` succeeds exactly when the token is an integer, with that value, and otherwise is a ValueError naming the token |
| CetsTiltSeries.UnpackTwo | cets_empiar/cets/tilt_series.py:44 | unpacking succeeds exactly when there are two integer tokens, giving them in order; otherwise a ValueError, "not enough values" for fewer than two good tokens and "too many values" after three good ones |
| CetsTiltSeries.ImageSizePair | cets_empiar/cets/tilt_series.py:44 | a KeyError without ImageSize, an AttributeError when it is not text, and otherwise width and height exactly when its split holds two integers |
| CetsTiltSeries.ProjectionImageFor | cets_empiar/cets/tilt_series.py:46-51 | a section's dict exactly when it has a TiltAngle (else KeyError), holding the z value as text, that angle and the image size |
| CetsTiltSeries.ProjectionImages | cets_empiar/cets/tilt_series.py:39-54 | the ImageSize error first; then success exactly when every section has a TiltAngle, else a KeyError for it |
| CetsTiltSeries.ProjectionImagesShape | cets_empiar/cets/tilt_series.py:43-54 | one image per section, in section order, with the z value as text, the section's TiltAngle and the ImageSize pair |
| CetsTiltSeries.SectionLabelsDiffer | cets_empiar/cets/tilt_series.py:47 | different z values give different section labels |
| CetsTiltSeries.CreateProjectionImages | cets_empiar/cets/tilt_series.py:39-54 | the section loop returns exactly ProjectionImages |
| CetsTiltSeries.TiltSeriesDictFor | cets_empiar/cets/tilt_series.py:16-34 | succeeds exactly when the file matcher, the accession number and (with metadata) the projection images all succeed; otherwise the error of the first failing step, with no matching file a ValueError naming the pattern; on success a path exactly when one file matches, the URL of that file, and images exactly when metadata is given |
| CetsTiltSeries.TiltSeriesDictsShape | cets_empiar/cets/tilt_series.py:13-36 | one dict per definition, in order, with a path exactly when it matches one file and images exactly when metadata is given; an error exactly when some definition fails |
| CetsTiltSeries.CreateTiltSeries | cets_empiar/cets/tilt_series.py:6-36 | the definition loop returns exactly TiltSeriesDicts |
| CetsTiltSeries.CreateTiltSeriesDict | cets_empiar/cets/tilt_series.py:16-34 | the loop body fills the dict key by key to exactly TiltSeriesDictFor |
| TiltSeriesAndMovie.PixelSpacing | cets_empiar/empiar_to_cets/conversion/entity_conversion/tilt_series_and_movie.py:155-166 | None for a missing or falsy PixelSpacing (a zero spacing included) and for one `float` rejects; otherwise its float value |
| TiltSeriesAndMovie.IntsOf | cets_empiar/empiar_to_cets/conversion/entity_conversion/tilt_series_and_movie.py:174 | a list exactly when every token is an integer, holding those integers in order |
| TiltSeriesAndMovie.ImageDimensions | cets_empiar/empiar_to_cets/conversion/entity_conversion/tilt_series_and_movie.py:169-180 | None for a missing or falsy ImageSize, an uncaught AttributeError for a truthy non-string, and otherwise the integers of its tokens, or None only when some token is not an integer |
| TiltSeriesAndMovie.Dimension | cets_empiar/empiar_to_cets/conversion/entity_conversion/tilt_series_and_movie.py:299-300 | None for missing or empty dimensions, the k-th value when there is one, an IndexError when the list is too short |
| TiltSeriesAndMovie.FrameTokens | cets_empiar/empiar_to_cets/conversion/entity_conversion/tilt_series_and_movie.py:271 | a KeyError without FrameDosesAndNumber; otherwise the whitespace tokens of its text |
| TiltSeriesAndMovie.DoseParts | cets_empiar/empiar_to_cets/conversion/entity_conversion/tilt_series_and_movie.py:268-272 | succeeds exactly when PriorRecordDose is present and a float, and FrameDosesAndNumber has a first token that is a float; the errors in read order are the KeyError, the prior's float error, the FrameDosesAndNumber error, IndexError for no token, and the token's float error; the value is the two floats |
| TiltSeriesAndMovie.MovieFrameDose | cets_empiar/empiar_to_cets/conversion/entity_conversion/tilt_series_and_movie.py:259-277 | fails exactly when the dose parts do, with their error; otherwise the prior dose plus the per-frame dose times (frame index + 1) |
| TiltSeriesAndMovie.TiltFrameCount | cets_empiar/empiar_to_cets/conversion/entity_conversion/tilt_series_and_movie.py:317-319 | succeeds exactly when FrameDosesAndNumber has at least two tokens and the second is an int, giving that int; otherwise its lookup error, IndexError for fewer than two tokens, or ValueError naming the token |
| TiltSeriesAndMovie.TiltImageDose | cets_empiar/empiar_to_cets/conversion/entity_conversion/tilt_series_and_movie.py:307-324 | succeeds exactly when the dose parts and the frame count do, with the dose-part error first and the count's error next; the value is the prior dose plus the per-frame dose times the frame count |
| TiltSeriesAndMovie.TiltDoseIsLastFrameDose | cets_empiar/empiar_to_cets/conversion/entity_conversion/tilt_series_and_movie.py:259-324 | a tilt image's dose equals its movie's dose at frame n - 1 for n frames, and the prior dose for none |
| TiltSeriesAndMovie.FrameDosesAccumulate | cets_empiar/empiar_to_cets/conversion/entity_conversion/tilt_series_and_movie.py:275 | frame g's dose exceeds frame f's by (g - f) per-frame doses |
| TiltSeriesAndMovie.NumFrames | cets_empiar/empiar_to_cets/conversion/entity_conversion/tilt_series_and_movie.py:286-289 | no NumSubFrames gives 0 frames, an integer n gives max(n, 0), a bool 0 or 1, anything else a TypeError |
| TiltSeriesAndMovie.FrameOutcome | cets_empiar/empiar_to_cets/conversion/entity_conversion/tilt_series_and_movie.py:292-301 | whether a frame can be built, and its error, do not depend on its index |
| TiltSeriesAndMovie.FramesUpToShape | cets_empiar/empiar_to_cets/conversion/entity_conversion/tilt_series_and_movie.py:289-304 | n frames in order, frame f with section f, the tilt angle, the dose of frame f and the image width and height; otherwise the error frame 0 gives |
| TiltSeriesAndMovie.MovieFramesShape | cets_empiar/empiar_to_cets/conversion/entity_conversion/tilt_series_and_movie.py:280-304 | no NumSubFrames gives no frames; a bad count is its error; otherwise NumSubFrames frames with sections 0, 1, ..., their doses and the image size |
| TiltSeriesAndMovie.FramesUpToStep | cets_empiar/empiar_to_cets/conversion/entity_conversion/tilt_series_and_movie.py:289-302 | one more frame appends frame n or stops with its error |
| TiltSeriesAndMovie.CreateMovieFrames | cets_empiar/empiar_to_cets/conversion/entity_conversion/tilt_series_and_movie.py:280-304 | the frame loop returns exactly MovieFrames |
| TiltSeriesAndMovie.StackIdsDiffer | cets_empiar/empiar_to_cets/conversion/entity_conversion/tilt_series_and_movie.py:250 | sections with different non-negative z values get different stack ids |
| TiltSeriesAndMovie.SectionEmpiarFile | cets_empiar/empiar_to_cets/conversion/entity_conversion/tilt_series_and_movie.py:241-247 | a SubFramePath that is not a string is a TypeError; a matched file is one of the EMPIAR files |
| TiltSeriesAndMovie.MovieStackFor | cets_empiar/empiar_to_cets/conversion/entity_conversion/tilt_series_and_movie.py:222-256 | succeeds exactly when the frames and the EMPIAR file match do, with the frames' error first and then the match error; a stack whose id carries the z value, whose path is the URL of the matched EMPIAR file and whose images are the section's frames |
| TiltSeriesAndMovie.CreateMovieStackForSection | cets_empiar/empiar_to_cets/conversion/entity_conversion/tilt_series_and_movie.py:222-256 | the method returns exactly MovieStackFor |
| TiltSeriesAndMovie.TiltImagePath | cets_empiar/empiar_to_cets/conversion/entity_conversion/tilt_series_and_movie.py:366-387 | the match error first, then format's error; the formatted expected path not among the tilt-series files is a ValueError naming it; otherwise its URL |
| TiltSeriesAndMovie.TiltImageFor | cets_empiar/empiar_to_cets/conversion/entity_conversion/tilt_series_and_movie.py:327-363 | succeeds exactly when the path (unless a single stack file), the dose and both dimensions do, failing with the first of those errors in that order; no path exactly for a single stack file, otherwise the resolved path; the stack id, the z value as section, the tilt angle, the tilt-image dose and the image size |
| TiltSeriesAndMovie.BuildUpToShape | cets_empiar/empiar_to_cets/conversion/entity_conversion/tilt_series_and_movie.py:197-217 | one stack and one tilt image per section, in order, each pair built from its own section |
| TiltSeriesAndMovie.BuildErrorPersists | cets_empiar/empiar_to_cets/conversion/entity_conversion/tilt_series_and_movie.py:197-219 | a failure at some section is the result of the whole loop |
| TiltSeriesAndMovie.SectionOutcomeShape | cets_empiar/empiar_to_cets/conversion/entity_conversion/tilt_series_and_movie.py:198-217 | each built pair is the section's movie stack and a tilt image referring to it, with the z value as section and no path exactly for a single stack file |
| TiltSeriesAndMovie.StacksAndImagesShape | cets_empiar/empiar_to_cets/conversion/entity_conversion/tilt_series_and_movie.py:183-219 | one stack and one tilt image per section, in order; each image carries its section's z value and its stack's id |
| TiltSeriesAndMovie.BuildStep | cets_empiar/empiar_to_cets/conversion/entity_conversion/tilt_series_and_movie.py:197-217 | one more section appends its stack and tilt image or stops with its error |
| TiltSeriesAndMovie.CreateMovieStacksAndTiltImages | cets_empiar/empiar_to_cets/conversion/entity_conversion/tilt_series_and_movie.py:183-219 | the section loop returns exactly StacksAndImages |
| TiltSeriesAndMovie.BuildSection | cets_empiar/empiar_to_cets/conversion/entity_conversion/tilt_series_and_movie.py:198-217 | the loop body returns exactly the section's stack and tilt image |
| TiltSeriesAndMovie.MovieStackCollectionOf | cets_empiar/empiar_to_cets/conversion/entity_conversion/tilt_series_and_movie.py:390-404 | exactly one series, with id region + "_movie_stack_series", holding every stack in order |
| TiltSeriesAndMovie.TiltSeriesOf | cets_empiar/empiar_to_cets/conversion/entity_conversion/tilt_series_and_movie.py:407-428 | an IndexError exactly for a single stack file with no paths; otherwise id region + "_tilt_series", the given images, the series id, and the first file's URL as path exactly for a single stack file |
| TiltSeriesAndMovie.FamiliesLinked | cets_empiar/empiar_to_cets/conversion/entity_conversion/tilt_series_and_movie.py:99-152 | the tilt series names the collection's only series, has one image per section, and image i refers to the stack of section i |
| ThumbnailImageUtils.CsNames | cets_empiar/thumbnails/thumbnail_image_utils.py:74-75 | a KeyError exactly when some coordinate system has no name; otherwise exactly the names present |
| ThumbnailImageUtils.CheckWithoutTransformation | cets_empiar/thumbnails/thumbnail_image_utils.py:70-82 | a name KeyError first; otherwise success exactly when one name is shared, "no common frame" exactly when none is, "multiple common frames" exactly when several are |
| ThumbnailImageUtils.FirstBridge | cets_empiar/thumbnails/thumbnail_image_utils.py:94-104 | the first transformation, in order, with one endpoint in each name set (either way round), all earlier ones passed; "no bridging transformation" exactly when every one passes; otherwise the KeyError ("input", then "output") of the first transformation the scan reaches without an endpoint |
| ThumbnailImageUtils.CheckWithTransformation | cets_empiar/thumbnails/thumbnail_image_utils.py:85-104 | a name KeyError first; then the first transformation in declared order that bridges the two name sets, all earlier ones passed; ValueError exactly when none bridges; otherwise the endpoint KeyError of the first transformation reached without one |
| ThumbnailImageUtils.ApplyTransformation | cets_empiar/thumbnails/thumbnail_image_utils.py:107-120 | a KeyError without a type, NotImplementedError for a type other than "scale"; success exactly for a scale with enough factors, giving one point per point, in order, each multiplied component by component |
| ThumbnailImageUtils.TransformedPointSet | cets_empiar/thumbnails/thumbnail_image_utils.py:123-155 | no points, then missing coordinate systems, are ValueErrors; without transformations the points come back unchanged and exactly one frame is shared; with frames on both sides and no transformations, success exactly when the shared-frame check succeeds, with its error otherwise; with transformations, the scan's error, or exactly the first bridging transformation applied to the points; never a different number of points |
| ThumbnailImageUtils.TransformedAnnotationCoordinates | cets_empiar/thumbnails/thumbnail_image_utils.py:158-166 | a KeyError without a type, NotImplementedError for a type other than "point_set_3D", and the point-set result for that type |
| ThumbnailImageUtils.KeptIndices | cets_empiar/thumbnails/thumbnail_image_utils.py:179-183 | the indices of the kept points: ascending, each kept, never more than the points |
| ThumbnailImageUtils.KeptIndicesComplete | cets_empiar/thumbnails/thumbnail_image_utils.py:179-183 | every kept point's index is among them |
| ThumbnailImageUtils.Project2D | cets_empiar/thumbnails/thumbnail_image_utils.py:179-183 | one (x, y) per kept index, in order |
| ThumbnailImageUtils.FilterByDepth | cets_empiar/thumbnails/thumbnail_image_utils.py:169-183 | exactly the points with abs(z - depth/2) <= depth * limit, z dropped, order kept, never more than the input |
| ThumbnailImageUtils.FilterByDepthKeepsExactly | cets_empiar/thumbnails/thumbnail_image_utils.py:182 | a point is kept exactly when it lies in the depth window |
| ThumbnailImageUtils.ProjectAndScale | cets_empiar/thumbnails/thumbnail_image_utils.py:186-200 | a ZeroDivisionError exactly for a zero width or height; otherwise one output per point in the window, in order, x scaled by thumbnail width / width and y by thumbnail height / height |
| Thumbnail.ProjectAndScale | cets_empiar/thumbnail.py:49-70 | a ZeroDivisionError exactly for a zero width or height, or a zero depth with points; otherwise one output per point with abs(z - depth/2) / depth <= limit, in order, scaled as (thumb[0]/width, thumb[1]/height) |
| Thumbnail.WindowsAgree | cets_empiar/thumbnail.py:58-59 | for a positive depth the older window keeps a point exactly when the newer one does |
| Thumbnail.SameWindowSameIndices | cets_empiar/thumbnail.py:59 | two windows that agree on every point keep the same indices and the same projection |
| Thumbnail.RevisionsAgree | cets_empiar/thumbnail.py:49-70 | for a positive depth the older and newer projections give the same result |
| Thumbnail.ZeroDepthDiffers | cets_empiar/thumbnail.py:58-59 | with depth 0 and one point the older projection divides by zero where the newer one succeeds |
| PointAnnotationValidator.CsNames | cets_empiar/validation/validator_models/point_annotation.py:12-15 | exactly the names of the coordinate systems that have one |
| PointAnnotationValidator.CheckWithoutTransformation | cets_empiar/validation/validator_models/point_annotation.py:17-37 | the shared name exactly when one name is shared; "no common frame" exactly when none is; "multiple common frames" exactly when several are |
| PointAnnotationValidator.TargetNameAsWritten | cets_empiar/validation/validator_models/point_annotation.py:60 | the output when the input is a tomogram frame, and otherwise the input |
| PointAnnotationValidator.AsWrittenTargetFoundIff | cets_empiar/validation/validator_models/point_annotation.py:56-60 | for a bridging transformation, the name picked as written is a tomogram frame exactly when both endpoints are |
| PointAnnotationValidator.TargetName | cets_empiar/validation/validator_models/point_annotation.py:56-60 | the intended pick: an endpoint of the transformation, the output whenever the output is a tomogram frame |
| PointAnnotationValidator.TargetNameInTomogram | cets_empiar/validation/validator_models/point_annotation.py:56-60 | the intended target of a bridging transformation is a tomogram frame, and equals the as-written pick whenever that one is |
| PointAnnotationValidator.FindBridge | cets_empiar/validation/validator_models/point_annotation.py:49-65 | a ValueError exactly when no transformation has both endpoints and bridges the name sets; otherwise the first that does, in declaration order, with the target the rule picks |
| PointAnnotationValidator.CheckWithTransformation | cets_empiar/validation/validator_models/point_annotation.py:39-65 | the early-exit scan returns exactly FindBridge with the as-written target rule |
| PointAnnotationValidator.ApplyTransformation | cets_empiar/validation/validator_models/point_annotation.py:67-85 | neither a type nor a scale is a ValueError, a kind other than "scale" NotImplementedError; success exactly for a scale with enough factors, giving one point per point, in order, each multiplied component by component |
| PointAnnotationValidator.TransformedCoordinates | cets_empiar/validation/validator_models/point_annotation.py:87-110 | without transformations, the points unchanged in the one shared frame, or that check's error; with them, "no bridging transformation" exactly when none bridges, otherwise the first bridging one applied: the scaled points in the frame the rule picks, or the application's error |
| PointAnnotationValidator.GetTransformedCoordinates | cets_empiar/validation/validator_models/point_annotation.py:87-110 | the method returns exactly TransformedCoordinates with the as-written target rule |
| PointAnnotationValidator.OutOfBounds | cets_empiar/validation/validator_models/point_annotation.py:117-125 | the (index, point) pairs of points outside the closed box, each with its own point, indices ascending, never more than the points |
| PointAnnotationValidator.OutOfBoundsListsEvery | cets_empiar/validation/validator_models/point_annotation.py:118-123 | every point outside the box is reported under its own index |
| PointAnnotationValidator.OutOfBoundsEmptyIff | cets_empiar/validation/validator_models/point_annotation.py:113-125 | the report is empty exactly when every point is inside the closed box |
| PointAnnotationValidator.CheckPointsWithinBounds | cets_empiar/validation/validator_models/point_annotation.py:112-125 | the scan returns exactly OutOfBounds over all the points |
| PointAnnotationValidator.FirstScaleTo | cets_empiar/validation/validator_models/point_annotation.py:188-194 | the first tomogram transformation whose output is the target and that has a scale, or None when there is none |
| PointAnnotationValidator.ChooseBounds | cets_empiar/validation/validator_models/point_annotation.py:175-205 | a "voxel" target (lower-cased) is checked against (0, width), (0, height), (0, depth) or skipped without dimensions; any other target, when the dimensions are known and a first matching scale s exists, is checked against the dimensions times s, or is an IndexError exactly when s has fewer than three factors; it is skipped without dimensions or without such a scale |
| PointAnnotationValidator.Shown | cets_empiar/validation/validator_models/point_annotation.py:213-216 | the indices of the first five violations, or of all of them when fewer |
| PointAnnotationValidator.HasFrame | cets_empiar/validation/validator_models/point_annotation.py:163-170 | the lookup finds the target exactly when it is one of the tomogram's frame names |
| PointAnnotationValidator.FindScaleTransformation | cets_empiar/validation/validator_models/point_annotation.py:188-194 | the scan returns exactly FirstScaleTo |
| PointAnnotationValidator.FirstScaleToIsFirst | cets_empiar/validation/validator_models/point_annotation.py:190-194 | when nothing before i matches, the first match is i if i matches and none if the list is exhausted |
| PointAnnotationValidator.SelectBounds | cets_empiar/validation/validator_models/point_annotation.py:175-205 | the inline choice returns exactly ChooseBounds |
| PointAnnotationValidator.ValidateWithTomogram | cets_empiar/validation/validator_models/point_annotation.py:127-220 | the method returns exactly Validate with the as-written target rule |
| PointAnnotationValidator.ResolvedTargetInTomogram | cets_empiar/validation/validator_models/point_annotation.py:87-110 | with the intended rule the resolved target is always a tomogram frame |
| PointAnnotationValidator.TargetLookupNeverFails | cets_empiar/validation/validator_models/point_annotation.py:163-170 | with the intended rule validation never fails at the target lookup |
| PointAnnotationValidator.AsWrittenTargetLookup | cets_empiar/validation/validator_models/point_annotation.py:100-170 | as written, once a bridging transformation has been applied, validation fails the lookup naming the picked target exactly when an endpoint of that transformation is not a tomogram frame |
| PointAnnotationValidator.AsWrittenValidateCounterexample | cets_empiar/validation/validator_models/point_annotation.py:60-170 | frame "A" only in the annotation, "B" only in the tomogram, a scale A to B: as written the lookup of "A" fails, with the intended rule validation succeeds |
| PointAnnotationValidator.ValidatedPointsInside | cets_empiar/validation/validator_models/point_annotation.py:207-220 | a validation that passes the check had frames and points, and every transformed point is inside the chosen box |
| PointAnnotationValidator.ViolationReport | cets_empiar/validation/validator_models/point_annotation.py:208-217 | a bounds failure counts at least one violation and lists the first min(total, 5) indices, ascending, each a point outside the box |
| PointAnnotationValidator.ClosedBoxBoundary | cets_empiar/validation/validator_models/point_annotation.py:120-122 | points on the faces of the box pass and a point past a face does not |
| PointAnnotationValidator.AmbiguityAndNoCommonFrame | cets_empiar/validation/validator_models/point_annotation.py:26-37 | frames A and B on both sides are ambiguous; A against B share nothing |
| PointAnnotationValidator.BridgingIsSymmetric | cets_empiar/validation/validator_models/point_annotation.py:56-58 | a transformation bridges whichever way round it is declared |
| PointAnnotationValidator.WorkedExampleResolve | cets_empiar/validation/validator_models/point_annotation.py:87-110 | (p) in "voxel" scaled by 2 into "physical" gives 2p, target "physical" |
| PointAnnotationValidator.WorkedExampleBounds | cets_empiar/validation/validator_models/point_annotation.py:185-202 | "physical" gets the 10 x 10 x 10 box scaled by 2 |
| PointAnnotationValidator.WorkedExampleWithin | cets_empiar/validation/validator_models/point_annotation.py:127-220 | (1, 2, 3) lands on (2, 4, 6), inside the box |
| PointAnnotationValidator.WorkedExampleViolation | cets_empiar/validation/validator_models/point_annotation.py:207-217 | (15, 2, 3) lands on (30, 4, 6) and is reported at index 0 |
| PointAnnotationValidator.ExampleFrames | cets_empiar/validation/validator_models/point_annotation.py:12-15 | the worked example's tomogram has frames voxel and physical, the annotation voxel |

## Left out

- MetadataParsing.MdocOf, MetadataParsing.MdocOfShape: the pydantic construction `ZValueSection(**current_section)` and `MdocFile(**header_data)` (metadata_parsing.py:255, 273, 275) is not modelled. Its type coercion, its validation errors and its dropping of undeclared fields are all absent, so the parsed file keeps the raw header and section dicts.
- TiltSeriesAndMovie.StacksAndImages, TiltSeriesAndMovie.FamiliesLinked: the builders read `.metadata` and `.global_headers`, so they are modelled on that dict-shaped record. The pydantic `MdocFile` and `ZValueSection` of metadata_parsing.py, which the type annotations name, have neither attribute. That mismatch, an AttributeError on every call, is not modelled.
- TiltSeriesAndMovie.MovieStackFor, TiltSeriesAndMovie.TiltImageFor: `metadata_parsing.parse_acquisition_metadata` does not exist in metadata_parsing.py, so these calls would raise AttributeError as written. The tilt angle it would return is the parameter `lib.tiltAngle` instead.
- MetadataParsing.HeaderSectionOf, MetadataParsing.Entries: the regular expression that `parse_header_section` hands to `re.findall` and the `inflection.underscore` key conversion are parameters of the model (`keyValuePairs`, `underscore`). Which pairs that pattern finds, and how keys are converted to snake case, are not modelled.
- MdocSyntax.MatchZValue: `\d` is taken as the ASCII digits 0-9 only. Python's `re` also matches other Unicode decimal digits.
- PyValues.Get, PyValues.Lookup: a dict key holding None and a missing key are both read as absent wherever the model uses `Option`. Code paths where `.get` and `[]` would tell them apart are therefore merged.
- TiltSeriesAndMovie.Region, MovieStacks.StackDictFor, CetsTiltSeries.TiltSeriesDictFor: the region's file and filter patterns are `Optional[str]` (yaml_parsing.py:59-62), but they are plain strings here. A pattern of None, and the errors it would cause, is not modelled.
- PointAnnotationValidator.CsNames: a coordinate system whose name is None adds nothing to the name set. Python's set would hold None, which can then be shared between the two sides.
- MovieStacks.PathName: `pathlib.Path(p).name` drops a trailing "." component (giving the component before it). The model returns "." for such a pattern. Repeated and trailing separators are handled as pathlib handles them.
- MovieStacks.FramesForVolumeMovie: the `if not metadata_section` test (movie_stack_collection.py:67-68) is not modelled. The section object found is always truthy, so that ValueError is never raised.
- MovieStacks.CreateMovieStackCollection: the objects the loop as written returns are read into values for the collection. The identity of entries that share one dict object is proved about CreateMovieStacksAsWritten, but the returned collection does not carry it.
- SubframeSearch.SearchKeepsExactly, SubframeSearch.NeedleSettles: for a case-insensitive search these are stated only for a `lower` that is idempotent on the search string, as `str.lower` is. For another `lower`, the search string lowered k times is not characterised.
- AnnotationConversion.AllClose: `np.allclose` is modelled with rtol 1e-5 over reals. NaN, infinities and float rounding are not modelled.
- The duplicate copies are modelled once each. `create_cets_alignment_from_alignment_metadata` in empiar_to_cets/conversion/alignment.py is the same code as cets/alignment.py (CetsAlignment). `parse_xf_file` in metadata_utils.py is the same line processing as in metadata_parsing.py (XfParsing), apart from printing its warnings instead of logging them.
- `create_cets_tilt_and_movie_families` and `create_cets_tilt_and_movie_families_without_metadata`: the dispatcher on `metadata is None` and the branch without metadata are not modelled. They only wire file matching into the collection and series builders modelled here.
- File, network and FTP access are not modelled: `open`, downloads, `starfile.read`, JSON reading and writing, the cache helpers, and `read_mrc_header`. Each modelled function starts from the lines, records or dicts these would produce.
- Logging is not modelled. That includes the coordinate min/max report in `get_coordinates_and_units_from_star_json` and the warnings of the validator, which the model returns as reasons for skipping the bounds check.
- Image rendering is not modelled: the tomogram projection and the PIL thumbnail drawing.
- The tomogram and annotation entity builders are not modelled. They only wire an MRC header read or a STAR download into the builders above.
- Floating point is modelled as `real`. Rounding, NaN and infinities are not modelled, and `str(float)` in transformation names is an abstract formatter.

## Findings

| source | as written | input that shows it | evidently intended | confidence | as-written member | corrected member |
|---|---|---|---|---|---|---|
| cets_empiar/validation/validator_models/point_annotation.py:60 | the target frame is the output when the input is a tomogram frame, and otherwise the input, even when the input is an annotation-only frame | annotation frames {A}, tomogram frames {B}, a scale A to B: the target is "A", which the tomogram lookup (lines 163-170) then rejects with "Target coordinate system 'A' not found in tomogram" | the target is the endpoint that is a tomogram frame, "B", into which the scale carries the points | not executed | PointAnnotationValidator.AsWrittenValidateCounterexample | PointAnnotationValidator.TargetLookupNeverFails |
| cets_empiar/empiar_to_cets/conversion/movie_stack_collection.py:44-55 | `cets_movie_stack_dict` is bound only when a definition matches exactly one file, and is otherwise the previous iteration's dict, appended again | definition "a.tif" matching one file, then "b_{n}.tif" matching two: the second entry is the first dict again, with its URL; a first definition matching two files raises UnboundLocalError | a fresh dict per definition, with a path only when exactly one file matches | not executed | MovieStacks.StaleDictCounterexample | MovieStacks.StackDictsShape |
