# detailsExtractor, modelled in Dafny

This is a model of the image-metadata request handler `detailsExtractor`. The handler does the following, in order:

1. It takes one uploaded image.
2. It decodes the container metadata.
3. It reads the file and parses its EXIF tags. A parser failure is absorbed.
4. It samples the dominant colour. A sampler failure is absorbed.
5. It assembles the `extractedDetails` record using JavaScript `||` defaulting.
6. It asks a text generator for a summary. A generator failure is absorbed into a fixed sentinel.
7. It inserts one row.
8. It answers with a 200 response and removes the temporary file.

A missing upload gets a 400. A throw from the decode, the read or the insert gets a 500.

Every external call is an input to the model. Each input is an `Outcome` that either returns a value or throws an error with a message and a stack. The handler is therefore a pure function. `DetailsExtractor(file, env)` returns the exit reached and the response sent, and `Handled.Effects()` lists the calls made, in order.

Modules, one file each:

- `JsValues` (js_values.dfy): JavaScript values, `ToBoolean`, `||`, member lookup and optional chaining `?.`.
- `Outcomes` (outcomes.dfy): `Option`, `Error` and `Outcome`.
- `Extraction` (extraction.dfy):
  - The three fact sources and their recovery policies.
  - The assembly of the record and the record as a snake_case object.
- `Summary` (summary.dfy): the generator reply's text path and its sentinel fallback.
- `Persistence` (persistence.dfy): the insert statement's sixteen interpolations, as written.
- `Handler` (handler.dfy): the handler, its responses, and the trace of effects.
- `Scenarios` (scenarios.dfy): one concrete PNG upload followed end to end by lemmas, once with a working generator and once with a failing one.

Two behaviours of the code are modelled as written:

- **The insert reads camelCase keys.** The statement interpolates `bitDepth`, `space`, `resolutionUnit`, `horizontalResolution`, `verticalResolution`, `dominantRGB?.R/G/B` and `hasAlpha`. The record has snake_case keys only, so these nine parameters are always `undefined`.
- **The file is removed only on the success path.** The file is unlinked only after the success response, so a decode, read or insert failure leaves it on disk.

## Model

| member | source | states |
|---|---|---|
| JsValues.Or | controllers/aiController.js:39-47 | `a \|\| b` is one of its operands. It is truthy iff either operand is. It keeps a truthy left operand and otherwise yields the right one. |
| JsValues.Chain | controllers/aiController.js:69 | An optional chain applied to a nullish value yields undefined. |
| JsValues.ChainAppend | controllers/aiController.js:69 | Following a chain in two pieces gives the same value as following it at once. |
| JsValues.ChainShortCircuits | controllers/aiController.js:69 | Once any proper prefix of an optional chain reaches null or undefined, the whole chain is undefined. |
| Extraction.ExifTags | controllers/aiController.js:23-28 | The tag map is the parser's result when it returns, and empty when it throws. ExifFailureYieldsDefaults shows what the empty map does to the record. |
| Extraction.DominantColour | controllers/aiController.js:31-35 | The colour is the sample's `dominant` when `stats()` returns, and three null channels when it throws. ColourRecovery shows how the channels reach the record. |
| Extraction.Assemble | controllers/aiController.js:37-53 | Each defaulted field keeps a truthy measurement and otherwise takes its own default: "Unknown" for format, bit depth, colour space, compression, the resolutions and density, 0 for the dimensions, "Pixels/Inch" for the unit. The record is always well formed. has_alpha is 1 iff the decoder's flag is truthy and 0 iff it is falsy. The colour channels and the file name are copied unchanged. |
| Extraction.ToObject | controllers/aiController.js:37-53 | The record object has exactly the fifteen snake_case keys of the literal. |
| Extraction.ExifFailureYieldsDefaults | controllers/aiController.js:23-28 | A throwing tag parser gives the same record as an empty tag map. The four tag fields then take "Unknown", "Pixels/Inch", "Unknown" and "Unknown". |
| Extraction.TagFieldsIndependent | controllers/aiController.js:44-47 | Each tag-derived field depends only on its own tag. The decoder fields do not depend on the tags at all. |
| Extraction.ColourRecovery | controllers/aiController.js:31-35 | A failing colour sample leaves the three channels null. A successful one copies `dominant.r`, `.g` and `.b`. |
| Summary.SummaryText | controllers/aiController.js:56-72 | The summary is always truthy. A throwing generator gives the sentinel. Any other summary is the reply's `output?.[0]?.content?.[0]?.text`. A truthy text there is taken as the summary. |
| Summary.ShapedReplySummary | controllers/aiController.js:68-69 | A reply shaped as `output[0].content[0].text` yields its text when the text is non-empty, and the sentinel when it is empty. |
| Summary.MissingOutputSummary | controllers/aiController.js:68-69 | A reply object without `output` yields the sentinel. |
| Persistence.Bind | controllers/aiController.js:75-98 | There is one parameter per column, in statement order. Each parameter is the value of that column's interpolation. |
| Persistence.InsertParameters | controllers/aiController.js:75-98 | The insert is run with exactly sixteen parameters. |
| Persistence.InsertedRow | controllers/aiController.js:81-96 | These columns of the written row hold the record's values: file_name (the original name), format, width, height, compression, density and ai_summary. These nine columns are undefined: bit_depth, color_space, resolution_unit, both resolutions, dominant_r/g/b and has_alpha. |
| Persistence.RecordLookups | controllers/aiController.js:37-53 | Looking up a snake_case key of the record object reads back the matching field. |
| Persistence.CamelCaseKeysAbsent | controllers/aiController.js:85-94 | None of the camelCase keys the statement interpolates is a key of the record, so each reads as undefined. |
| Persistence.PersistedDiffersFromReturned | controllers/aiController.js:75-106 | For every assembled record, six persisted columns always differ from the values returned in the response: bit_depth, color_space, resolution_unit, both resolutions and has_alpha. Six others always agree: file_name, format, width, height, compression and density. |
| Handler.DetailsExtractor | controllers/aiController.js:12-117 | The handler's outcome is as follows. No file means a 400 and the early exit. A success happens exactly when a file came and the decode, the read and the insert returned. A 500 happens exactly when a file came and one of those three threw. The exit agrees with the response. The steps past the read run exactly when the decode and the read succeeded. |
| Handler.Trace | controllers/aiController.js:21-108 | Every trace is non-empty. A completed trace ends with the unlink of the upload's path, and every other trace ends with its response. Every trace past the early return starts with the decode of that path. TraceExtractionSteps places the read, the tag parse, the colour sample and the generator call after the decode. TraceGeneratesBeforeInsert puts the single insert after the generator, and TraceRespondsOnce puts the response after everything except the final unlink. |
| Handler.Body | controllers/aiController.js:14-116 | Every body is an object. It has an `error` member iff the status is not 200, and a `success` member iff the status is 200. NoFileRejected, InternalErrorResponse and SuccessResponse give the three bodies in full. |
| Handler.TraceExtractionSteps | controllers/aiController.js:21-66 | Every trace that gets past the read has, in this order, the decode, the read, the tag parse, the colour sample, and the generator call with the assembled record. |
| Handler.TraceRespondsOnce | controllers/aiController.js:14-116 | Every trace sends exactly one response, the given one. Only the unlink of a completed request comes after it. |
| Handler.TraceUnlinks | controllers/aiController.js:108 | Only a completed trace unlinks the file. |
| Handler.TraceGeneratesBeforeInsert | controllers/aiController.js:56-98 | The traces that get past the read call the generator and then attempt the insert, once. The other traces do neither. |
| Handler.ExtractionStepsRun | controllers/aiController.js:21-66 | Once the file is decoded and read, the tag parser and the colour sampler are always called. They come after the read and before the generator, whatever their outcomes. |
| Handler.NoFileRejected | controllers/aiController.js:14-16 | No upload gives a 400 with `{error: "No image file uploaded"}`, and the response is the only effect. |
| Handler.RespondsOnce | controllers/aiController.js:14-116 | Each request sends exactly one response, and it is the one the handler returns. |
| Handler.CleanupOnSuccessOnly | controllers/aiController.js:101-116 | The file is unlinked iff the success response was sent. The unlink is then the last effect, right after the response. |
| Handler.GeneratorBeforeInsert | controllers/aiController.js:56-98 | The generator is called, and the insert attempted, iff the decode and the read succeeded. The insert is attempted once, after the generator. |
| Handler.FatalFailures | controllers/aiController.js:21-116 | A throwing decode, read or insert gives a 500 that carries that call's message and stack. A decode or read failure has exactly the effects made up to it. |
| Handler.InternalErrorResponse | controllers/aiController.js:109-116 | The error response has status 500 and the body `{error: "Internal server error", details, stack}`. |
| Handler.RecoverableStepsNeverAbort | controllers/aiController.js:23-72 | Changing the outcomes of the tag parser, the colour sample or the generator does not change the status, the number of effects, or the error reported. |
| Handler.GeneratorFailureStillPersists | controllers/aiController.js:56-98 | With a throwing generator the insert still runs, with the sentinel as its ai_summary. If the insert succeeds, the success response carries the sentinel. |
| Handler.SuccessResponse | controllers/aiController.js:75-108 | On success the response has status 200 and the body `{success: true, metadata, summary, message}` with the assembled record. The insert wrote that record and summary, and the unlink of the upload's path is the last effect. |
| Scenarios.PngRecord | controllers/aiController.js:37-53 | For the sample opaque 100x50 PNG with 72/72 inch tags, the whole record is pinned. It holds the measured format, dimensions, bit depth "uchar", colour space "srgb" and density 72. It has the tag resolutions "72" and unit "inches", compression "Unknown", the sampled channels 200/30/20, and has_alpha 0. |
| Scenarios.PngTagDescriptions | controllers/aiController.js:44-47 | The sample tags give the resolutions "72" and the unit "inches", and no compression. |
| Scenarios.ReplySummary | controllers/aiController.js:68-69 | The sample generator reply yields its caption. |
| Scenarios.PngWithSummary | controllers/aiController.js:12-108 | With every call working, the sample upload gets the record and the caption. The insert is the sixth effect and the unlink the eighth. |
| Scenarios.PngWithoutSummary | controllers/aiController.js:56-108 | With a throwing generator, the sample upload gets the same record with the sentinel. The insert and the unlink still happen. |

## Left out

- Image decoding and pixel statistics (`sharp`) are inputs. The decoder's result is the seven members the handler reads. A successful `stats()` is assumed to carry a `dominant` object; a result without one would make line 48 throw outside the recovery, and that path is not modelled.
- EXIF parsing (`ExifReader.load`) is an input: a tag map or a throw.
- The text generator (`AI.responses.create`) is an input: a reply value or a throw. The prompt text built with `JSON.stringify` is not modelled. The `Generate` effect records the model name and the record that the prompt embeds.
- The SQL driver (configs/db.js) is not part of this model. The insert is an input outcome. Whether the driver rejects `undefined` parameters is decided there, so the model lets the insert either return or throw for any parameters.
- The schema bootstrap, the Express app and the upload middleware are left out; they are plumbing around the handler.
- `console` logging is left out. The stack contents are carried as an opaque string.
- A throw from `fs.unlinkSync` after the response was sent is not modelled. It would reach the `catch` block and attempt a second response.
- Handler.Body: gives the object passed to `res.json`, not its JSON text. The serialisation is not modelled: it decides the key order, drops undefined members and writes NaN as null.
- JsValues.OptionalAccess: gives no named properties to strings and arrays. The handler reads only the names `description`, `output`, `content`, `text`, `R`, `G` and `B`, none of which are built in.
- JsValues.JsVal: numbers are finite reals or NaN; the infinities and the sign of zero are not distinguished.
- Persistence.InsertParameters: states only the parameter count. What each parameter holds is stated column by column by Persistence.InsertedRow.
