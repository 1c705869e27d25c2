# cloudfn core, modelled in Dafny

`cloudfn` is a Rust client library. It sends images and text to machine-learning
algorithms hosted on the Algorithmia platform and returns typed results. This
project models the pure part between the caller and the platform:

- **Source resolution** (`src/image/mod.rs`). A local file or path is staged into
  the temporary data directory `data://.my/tmp` under a fresh name: `<token>.<ext>`
  after the sniffed image format, or `<token>-<file name>` after the path. A data
  file that is already on the platform is used in place.
- **Classifier dispatch and bindings** (`src/image/classifier.rs`). A binding
  (`ClassifierAlgo`) names its algorithm, builds its request from a data URI and
  maps the decoded response to a `Classification`. There are six bindings:
  InceptionNet, DeepFace, Subreddit, Places365, RealEstate and Illustration.
  `tag` runs one binding. `classify` and `classify_with` resolve a source first.
- **Colorisation** (`src/image/colorizer.rs`). The single call is a batch of one
  and keeps the first output. The batch call resolves every source in order and
  makes one remote call. Its files follow the outputs by position.
- **Summarisation** (`src/nlp/summarizer.rs`). classifier4j expects a plain-text
  answer. summarai renames the fields of a record.

The platform is never modelled. Every remote round trip is a `pipe` function
parameter: algorithm id and request in, raw `Response` out. Turning a response
into a typed record is a `decode` parameter. Reading a response as text is an
`intoString` parameter. Local effects are the fields of `Image.Env`:
`guess_format`, `Path::file_name`, opening and reading a file, and
`DataFile::put`. The random UUID is a `SimpleUuid` token parameter. A batch takes
one token per source.

The trait `ClassifierAlgo` becomes the record `ClassifierAlgo.Algo<I, O, E>`.
Its fields are the algorithm id, `makeInput` and `fromOutput`. Each binding is a
Dafny module named after it, holding `Id`, `MakeInput`, `FromOutput` and
`Binding`. A Rust panic is a precondition stated on the value that would panic:
`output[0]` of an empty colorizer answer, and `to_tags` on an empty map.

The algorithm ids are constants, copied from the source:
`deeplearning/InceptionNet/1.0`, `deeplearning/DeepFaceRecognition/0.1`,
`deeplearning/SubredditClassifier/0.1`, `deeplearning/Places365Classifier/0.1`,
`deeplearning/RealEstateClassifier/0.2`, `deeplearning/IllustrationTagger/0.2`,
`deeplearning/ColorfulImageColorization/1.1`, `nlp/summarizer/0.1` and
`SummarAI/Summarizer/0.1`.

Files: `errors.dfy` (`Wrappers`, `Errors`), `platform.dfy` (`Platform`),
`image.dfy` (`Image`), `classifier_algo.dfy` (`ClassifierAlgo`),
`classifiers.dfy` (one module per binding), `classifier.dfy` (`Classifier`),
`colorizer.dfy` (`Colorizer`), `summarizer.dfy` (`Classifier4j`, `Summarai`,
`Summarizer`).

Three facts about the code shape the model:
- Errors have the kinds of `src/error.rs`: I/O, image, Algorithmia and a plain
  message (`bail!`).
- `to_tags` unwraps the first entry of each map, so an empty map panics. That is
  a precondition, not an error result.
- RealEstate's `num_results` has no `skip_serializing_if`, so the `numResults`
  key is serialised, as null, even when there is no count. Only Illustration's
  `tags` field is omitted when absent.

## Model

| member | source | states |
|---|---|---|
| Platform.TmpChild | src/image/mod.rs:50 | a staged file's URI is the staging directory, a slash, then the staging name |
| Platform.TmpChildName | src/image/mod.rs:50 | a file inside the staging directory yields the name it was staged under, and that name stages back to the same file |
| Platform.TmpChildNameRoundTrip | src/image/mod.rs:50 | every staged name is read back from the staged file |
| Platform.Invoke | src/image/classifier.rs:68-70 | a transport failure is the result and nothing is decoded; otherwise the result is the decoding of the response |
| Image.GetExt | src/image/mod.rs:87-99 | every one of the ten formats has a non-empty, lower-case extension |
| Image.GetExtRoundTrip | src/image/mod.rs:87-99 | each extension reads back as the format it came from |
| Image.GetExtInjective | src/image/mod.rs:87-99 | distinct formats give distinct extensions |
| Image.RenderName | src/image/mod.rs:50-64 | a staging name starts with the 32-digit token, then '.' and the format's extension, or '-' and the file name |
| Image.ParseRenderName | src/image/mod.rs:50-64 | a staging name parses back to the token and format, or the token and file name, it was built from |
| Image.RenderNameInjective | src/image/mod.rs:50-64 | the two naming rules never produce the same name, and each is injective |
| Image.ReadToEnd | src/image/mod.rs:46 | reading to the end yields the unread bytes and leaves nothing to read |
| Image.StageFile | src/image/mod.rs:42-52 | a sniffing failure is the result; otherwise the upload goes to `<token>.<ext of sniffed format>` and carries the bytes that were sniffed (the corrected behaviour) |
| Image.StageFileAsWritten | src/image/mod.rs:42-52 | as written, the exhausted handle is uploaded, so a staged file has an empty body; the target is `<token>.<ext of sniffed format>`, as in the corrected staging; a sniffing failure is the result, exactly as in the corrected staging |
| Image.AsWrittenUploadsNothing | src/image/mod.rs:44-51 | for a freshly opened non-empty image, the corrected staging uploads all its bytes and the as-written staging does not |
| Image.Stage | src/image/mod.rs:41-80 | the staging of each source kind, with the corrected file upload of `Image.StageFile`: file by format; path with a file name as `<token>-<name>` with the whole file; path without a file name like the opened file; a borrowed data file rebound to the same URI; an owned one as itself; an open failure is the result |
| Image.Commit | src/image/mod.rs:51-52 | an upload succeeds exactly when `put` does and yields its target, and a `put` failure is the result; an existing file is yielded as is |
| Image.IntoDataFile | src/image/mod.rs:37-80 | an owned data file resolves to itself; a borrowed one to a file with the same URI; a staging failure (sniff or open) is the result; a local source succeeds exactly when `put` of the staged body to the staged target does, yields that target, and otherwise fails with `put`'s error; the target's name parses back with the given token |
| Image.FileStagedByFormat | src/image/mod.rs:48-50 | a file resolves to the staging name `<token>.<get_ext(sniffed format)>` |
| Image.PathStagedByFileName | src/image/mod.rs:58-64 | a path with a file name resolves to the staging name `<token>-<file name>` |
| Image.PathWithoutFileNameFallsBack | src/image/mod.rs:60 | a path with no file name resolves exactly as the file it opens, and an open failure is the result |
| Image.DataFileResolvesToItself | src/image/mod.rs:76-80 | an owned data file resolves to itself in every environment: no sniffing and no upload |
| Image.DataFileRefRebinds | src/image/mod.rs:70-73 | a borrowed data file resolves to the client's handle for its own URI, in every environment |
| ClassifierAlgo.PredictionsToTags | src/image/classifier.rs:199-204 | `{class, prob}` predictions become tags one for one, in order, with confidence = prob |
| ClassifierAlgo.PredictionsRoundTrip | src/image/classifier.rs:199-204 | the prediction list can be read back from the tags |
| ClassifierAlgo.TagsToPredictionsRoundTrip | src/image/classifier.rs:249-254 | every tag list is the image of exactly the predictions read back from it |
| ClassifierAlgo.TagUri | src/image/classifier.rs:67-72 | the request is the binding's own, sent to its own id; a transport or decode failure is the result; success holds exactly when both steps succeed, and is then the binding's mapping of the decoded response |
| ClassifierAlgo.TagFailureSkipsMapping | src/image/classifier.rs:68-71 | when the round trip fails, the mapping is not reached: bindings differing only in their mapping give the same failure |
| ClassifierAlgo.TagTargetsBindingId | src/image/classifier.rs:68-69 | the result depends on the platform only through its answer to the one request the binding builds for this URI, sent to its own id |
| Classifier.ClassifyWith | src/image/classifier.rs:59-63 | a resolution failure is the result, with no remote call; otherwise the binding runs on the resolved file's data URI |
| Classifier.Classify | src/image/classifier.rs:53-57 | success holds exactly when resolution and the InceptionNet round trip succeed, and the result is then exactly the decoded `tags` |
| Classifier.ClassifyIsDefaultClassifyWith | src/image/classifier.rs:53-63 | `classify` is `classify_with` InceptionNet with the unit extra dropped |
| InceptionNet.MakeInput | src/image/classifier.rs:94 | the request is the data URI unchanged |
| InceptionNet.FromOutput | src/image/classifier.rs:95-97 | the tags are the response's tags, untouched |
| InceptionNet.Binding | src/image/classifier.rs:89-98 | the binding asks `deeplearning/InceptionNet/1.0`, builds its request with `MakeInput`, and maps responses with `FromOutput` |
| DeepFace.MakeInput | src/image/classifier.rs:118-120 | the request wraps the data URI as `image` |
| DeepFace.PairsToTags | src/image/classifier.rs:123 | one tag per pair, in order, with confidence = first and class = second |
| DeepFace.PairsRoundTrip | src/image/classifier.rs:123 | the pairs can be read back from the tags |
| DeepFace.TagsToPairsRoundTrip | src/image/classifier.rs:123 | every tag list is the image of the pairs read back from it |
| DeepFace.FromOutput | src/image/classifier.rs:121-126 | one tag per result pair, in order, with confidence = p.0 and class = p.1, and the results are recoverable |
| DeepFace.Binding | src/image/classifier.rs:113-127 | the binding asks `deeplearning/DeepFaceRecognition/0.1`, builds its request with `MakeInput`, and maps responses with `FromOutput` |
| Subreddit.MakeInput | src/image/classifier.rs:156-158 | the request is the data URI unchanged |
| Subreddit.FromOutput | src/image/classifier.rs:159-168 | exactly three tags; tag i carries the class and confidence of the slot of rank i (first, second, third) |
| Subreddit.FromOutputRoundTrip | src/image/classifier.rs:159-168 | the three slots can be read back from the three tags |
| Subreddit.RankOrderIgnoresConfidence | src/image/classifier.rs:161-165 | the class order is the slot order, whatever the confidences |
| Subreddit.Binding | src/image/classifier.rs:151-169 | the binding asks `deeplearning/SubredditClassifier/0.1`, builds its request with `MakeInput`, and maps responses with `FromOutput` |
| Places365.MakeInput | src/image/classifier.rs:196-198 | the request wraps the data URI as `image` |
| Places365.FromOutput | src/image/classifier.rs:199-204 | one tag per prediction, in order, confidence = prob, class = class; the predictions are recoverable |
| Places365.Binding | src/image/classifier.rs:191-205 | the binding asks `deeplearning/Places365Classifier/0.1`, builds its request with `MakeInput`, and maps responses with `FromOutput` |
| RealEstate.MakeInput | src/image/classifier.rs:243-248 | the request carries the data URI and the binding's `num_results` unchanged |
| RealEstate.WireKeys | src/image/classifier.rs:228-231 | the serialised keys are `image` and `numResults` whether or not a count is set |
| RealEstate.FromOutput | src/image/classifier.rs:249-254 | one tag per prediction, in order, confidence = prob, class = class; the predictions are recoverable |
| RealEstate.Binding | src/image/classifier.rs:238-255 | the binding asks `deeplearning/RealEstateClassifier/0.2`, builds its request with `MakeInput` from the configured count, and maps responses with `FromOutput` |
| Illustration.MakeInput | src/image/classifier.rs:305-315 | the request carries the data URI; `tags` is absent exactly when the whitelist is empty, and is otherwise the whitelist |
| Illustration.MakeInputKeepsWhitelist | src/image/classifier.rs:306-310 | the request expresses exactly the configured whitelist and never sends an explicitly empty list |
| Illustration.WireKeys | src/image/classifier.rs:277-278 | the serialised keys are `image`, plus `tags` exactly when present, and nothing else |
| Illustration.OnlyKey | src/image/classifier.rs:295 | the entry taken from a single-entry map is its only one |
| Illustration.ToTags | src/image/classifier.rs:293-298 | one tag per map, in order, and each map is exactly `{class: confidence}` of its tag |
| Illustration.ToTagsRoundTrip | src/image/classifier.rs:293-298 | the single-entry maps can be read back from the tags |
| Illustration.TagsToMapsRoundTrip | src/image/classifier.rs:293-298 | every tag list is the image of the maps read back from it |
| Illustration.ToTagsSingleton | src/image/classifier.rs:295-296 | `{k: v}` becomes `Tag{class: k, confidence: v}` |
| Illustration.FromOutput | src/image/classifier.rs:316-325 | `general` gives the tags; `character`, `copyright` and `rating` give the extra fields of the same names |
| Illustration.FromOutputRoundTrip | src/image/classifier.rs:316-325 | the mapping loses nothing and every classification comes from some well-formed response |
| Illustration.Binding | src/image/classifier.rs:300-326 | the binding asks `deeplearning/IllustrationTagger/0.2`, builds its request with `MakeInput` from the configured whitelist, and maps every well-formed response with `FromOutput` |
| Colorizer.Colorize | src/image/colorizer.rs:51-58 | a resolution failure is the result; the request is exactly `[resolved URI]`; a remote or decoding failure is the result as is; success holds exactly when the call succeeds, and the file is then the one for `output[0]` |
| Colorizer.Call | src/image/colorizer.rs:79-84 | the request goes to `deeplearning/ColorfulImageColorization/1.1`; a transport failure is the result and nothing is decoded; otherwise the result is the decoding of the response |
| Colorizer.ResolveUris | src/image/colorizer.rs:64-66 | on success the URIs match the sources one for one, in order; on failure the error is that of the first source that fails, and every earlier source resolved |
| Colorizer.ToImageFiles | src/image/colorizer.rs:71-74 | one file per output URI, in order |
| Colorizer.ColorizeBatch | src/image/colorizer.rs:62-76 | a resolution failure is the result; a remote or decoding failure of the one call is the result as is; success holds exactly when the one call with all resolved URIs succeeds, and the files then follow `output` one for one |
| Colorizer.BatchFailsBeforeRemote | src/image/colorizer.rs:64-69 | when resolution fails the result does not depend on the platform at all |
| Colorizer.ResolveStopsAtFailure | src/image/colorizer.rs:64-66 | sources after a failing one are never resolved: whatever follows, the result is the same failure |
| Colorizer.ColorizeIsBatchOfOne | src/image/colorizer.rs:50-76 | the single call is the batch call on one source, keeping its first file |
| Colorizer.ColorizerTargetsFixedId | src/image/colorizer.rs:79-82 | the single and the batch call only ask `deeplearning/ColorfulImageColorization/1.1`: platforms agreeing there give the same results |
| Classifier4j.Summarize | src/nlp/summarizer.rs:16-24 | a transport failure is the result; a textual answer `s` gives `Ok(s)`; any other answer gives the "did not output a string" error |
| Classifier4j.SummarizeTargetsId | src/nlp/summarizer.rs:17-18 | only `nlp/summarizer/0.1` is asked, with the text itself: platforms agreeing there give the same result |
| Summarizer.Summarize | src/nlp/summarizer.rs:8-10 | the default summariser is classifier4j |
| Summarai.FromOutput | src/nlp/summarizer.rs:48-51 | `summary` is `summarized_data` and `keywords` is `auto_gen_ranked_keywords`, in rank order |
| Summarai.FromOutputBijective | src/nlp/summarizer.rs:48-51 | the renaming loses nothing in either direction |
| Summarai.Summarize | src/nlp/summarizer.rs:43-52 | success holds exactly when the round trip and decoding succeed, a failure is passed on, and the summary renames the decoded record |

## Left out

- Network and storage: `pipe`, `decode`, `into_string` and `put` are parameters. The `CLIENT` static is not modelled. The `DATA_TMP` static is the constant `data://.my/tmp`.
- Platform.ClientFile: `CLIENT.file` is modelled as a handle bound to the given URI, with no network call. This is an assumption about the client, not something the crate shows. The same-URI facts about borrowed data files (`Image.DataFileRefRebinds`, `Image.Stage`, `Image.IntoDataFile`) and about the colorizer's output files rest on it.
- Image.Stage: the `File` source, and a path with no file name, use the corrected upload body of `Image.StageFile`. As written, the crate uploads the drained handle instead (see Findings). `Image.StageFileAsWritten` models that version, and it differs only in the body. `IntoDataFile`, `Classify`, `ClassifyWith`, `Colorize` and `ColorizeBatch` inherit the corrected body.
- Serde (de)serialisation: requests and responses are datatypes, not JSON. Only the key sets of the two requests with optional fields are modelled (`WireKeys`).
- `guess_format`, `Path::file_name`, `File::open`, reading files, and UUID generation. They are inputs. A read error after opening is not modelled.
- `ImageFile::save` (src/image/mod.rs:21-27) and `Deref for ImageFile`: file I/O and borrowing.
- Floating point: `f32` confidences are `real`s that are only carried through.
- Illustration.ToTags: requires every map to hold exactly one entry. The source panics on an empty map. With several entries it takes whichever entry `HashMap` iteration yields first, which is unspecified, so the model makes no claim there.
- Illustration.FromOutput: requires every tag group to hold single-entry maps, for the same reason.
- Colorizer.Colorize: requires that a successful answer has at least one output, because the source indexes `output[0]` and panics otherwise.
- `src/error.rs` and `src/lib.rs` are macro and global-state plumbing. Only the error kinds are kept.

## Findings

| source | as written | input that shows it | evidently intended | confidence | as-written member | corrected member |
|---|---|---|---|---|---|---|
| src/image/mod.rs:44-51 | `read_to_end` drains the file handle to sniff its format, and then that same handle is passed to `put`. The upload streams from a reader already at end of file. | A freshly opened, non-empty JPEG file: the staged upload carries no bytes. | Upload the bytes that were read and sniffed (`buf`). | medium, not executed; assumes `put` streams the handle from its current position | Image.StageFileAsWritten, Image.AsWrittenUploadsNothing | Image.StageFile |
