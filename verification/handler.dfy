/**
 The `detailsExtractor` request handler as a pure function from the request's
 upload and the outcome of each external call to the response it sends and the
 effects it performs, in order.
 */
module Handler {
  import opened JsValues
  import opened Outcomes
  import opened Extraction
  import opened Summary
  import opened Persistence

  /** The uploaded file as the upload middleware presents it. */
  datatype Upload = Upload(originalName: string, path: string)

  /** How each external call ends in this request. The read file's bytes are
      only handed to the tag parser, whose outcome is given directly, so the
      read carries no value. */
  datatype Environment = Environment(
    decode: Outcome<ImageMetadata>,   // sharp(path).metadata()
    readFile: Outcome<()>,            // fs.readFileSync(path)
    exif: Outcome<Tags>,              // ExifReader.load(buffer)
    stats: Outcome<Rgb>,              // sharp(path).stats(), its `dominant`
    generate: Outcome<JsVal>,         // AI.responses.create(...)
    insert: Outcome<()>)              // the insert statement

  /** The three responses the handler can send. */
  datatype Response =
    | NoFile
    | Extracted(metadata: Details, summary: JsVal)
    | InternalError(details: string, stack: string)

  const NoFileMessage: string := "No image file uploaded"
  const SavedMessage: string := "Image details extracted and saved successfully."
  const InternalErrorMessage: string := "Internal server error"

  /** The HTTP status each response is sent with. */
  function Status(r: Response): int {
    match r
    case NoFile => 400
    case Extracted(_, _) => 200
    case InternalError(_, _) => 500
  }

  /** The object each response passes to `res.json`. */
  function Body(r: Response): (b: JsVal)
    ensures b.Obj?
    ensures "error" in b.props <==> Status(r) != 200
    ensures "success" in b.props <==> Status(r) == 200
  {
    match r
    case NoFile => Obj(map["error" := Str(NoFileMessage)])
    case Extracted(d, summary) =>
      Obj(map[
        "success" := Bool(true),
        "metadata" := Obj(ToObject(d)),
        "summary" := summary,
        "message" := Str(SavedMessage)])
    case InternalError(details, stack) =>
      Obj(map[
        "error" := Str(InternalErrorMessage),
        "details" := Str(details),
        "stack" := Str(stack)])
  }

  /** The externally visible steps of the handler, one per attempted call. The
      insert statement is fixed; `Insert` records the values its parameters are
      bound from, and `Parameters` gives the parameters themselves. */
  datatype Effect =
    | DecodeMetadata(path: string)
    | ReadFile(path: string)
    | ParseExif
    | ComputeStats(path: string)
    | Generate(model: string, details: Details)   // the prompt embeds the record
    | Insert(originalName: string, details: Details, summary: JsVal)
    | Respond(response: Response)
    | Unlink(path: string)

  /** Where a request leaves the handler, with what the steps up to there
      produced: the early return, the three fatal throws, and the end of the
      `try` block. */
  datatype Exit =
    | Rejected
    | DecodeFailed(path: string)
    | ReadFailed(path: string)
    | InsertFailed(path: string, originalName: string, details: Details, summary: JsVal)
    | Completed(path: string, originalName: string, details: Details, summary: JsVal)

  /** The effects performed on the way to an exit, ending with the response
      sent there and, on completion, the unlink that follows it. */
  function Trace(exit: Exit, r: Response): (t: seq<Effect>)
    ensures |t| > 0
    ensures exit.Completed? ==> t[|t| - 1] == Unlink(exit.path)
    ensures !exit.Completed? ==> t[|t| - 1] == Respond(r)
    ensures !exit.Rejected? ==> t[0] == DecodeMetadata(exit.path)
  {
    match exit
    case Rejected => [Respond(r)]
    case DecodeFailed(p) => [DecodeMetadata(p), Respond(r)]
    case ReadFailed(p) => [DecodeMetadata(p), ReadFile(p), Respond(r)]
    case InsertFailed(p, name, d, summary) =>
      [DecodeMetadata(p), ReadFile(p), ParseExif, ComputeStats(p),
       Generate(Model, d), Insert(name, d, summary), Respond(r)]
    case Completed(p, name, d, summary) =>
      [DecodeMetadata(p), ReadFile(p), ParseExif, ComputeStats(p),
       Generate(Model, d), Insert(name, d, summary), Respond(r), Unlink(p)]
  }

  /** The positional parameters an insert is run with. */
  function Parameters(e: Effect): seq<JsVal>
    requires e.Insert?
  {
    InsertParameters(e.originalName, e.details, e.summary)
  }

  /** What one invocation of the handler did: where it left and what it sent. */
  datatype Handled = Handled(exit: Exit, response: Response) {
    function Effects(): seq<Effect> {
      Trace(exit, response)
    }
  }

  /** The `catch` block: a 500 response carrying the error's message and stack. */
  function Caught(exit: Exit, e: Error): Handled {
    Handled(exit, InternalError(e.message, e.stack))
  }

  /** A file came, and both its decode and its read returned: the request gets
      past the read. */
  predicate PastRead(file: Option<Upload>, env: Environment) {
    file.Some? && env.decode.Returned? && env.readFile.Returned?
  }

  /** `detailsExtractor`. */
  function DetailsExtractor(file: Option<Upload>, env: Environment): (h: Handled)
    // No file: a 400, with nothing else done.
    ensures file.None? <==> h.exit.Rejected?
    ensures file.None? ==> h.response == NoFile
    // Success exactly when a file came and the decode, read and insert did not
    // throw; the tag parser, the colour sample and the generator never matter.
    ensures h.response.Extracted? <==> PastRead(file, env) && env.insert.Returned?
    ensures h.response.InternalError? <==>
      file.Some? && (env.decode.Threw? || env.readFile.Threw? || env.insert.Threw?)
    // The exit agrees with the response sent there.
    ensures h.exit.Completed? <==> h.response.Extracted?
    ensures h.exit.DecodeFailed? || h.exit.ReadFailed? || h.exit.InsertFailed? <==> h.response.InternalError?
    // The steps past the read run exactly when the decode and the read succeeded.
    ensures h.exit.InsertFailed? || h.exit.Completed? <==> PastRead(file, env)
    ensures file.Some? && !h.exit.Rejected? ==> h.exit.path == file.value.path
  {
    match file
    case None => Handled(Rejected, NoFile)
    case Some(upload) =>
      var path := upload.path;
      match env.decode
      case Threw(e) => Caught(DecodeFailed(path), e)
      case Returned(m) =>
        match env.readFile
        case Threw(e) => Caught(ReadFailed(path), e)
        case Returned(_) =>
          var details := Assemble(upload.originalName, m, ExifTags(env.exif), DominantColour(env.stats));
          var summary := SummaryText(env.generate);
          match env.insert
          case Threw(e) => Caught(InsertFailed(path, upload.originalName, details, summary), e)
          case Returned(_) =>
            Handled(Completed(path, upload.originalName, details, summary), Extracted(details, summary))
  }

  predicate Unlinked(effects: seq<Effect>) {
    exists i :: 0 <= i < |effects| && effects[i].Unlink?
  }

  predicate Inserted(effects: seq<Effect>) {
    exists i :: 0 <= i < |effects| && effects[i].Insert?
  }

  predicate Generated(effects: seq<Effect>) {
    exists i :: 0 <= i < |effects| && effects[i].Generate?
  }

  /** In every trace exactly one response is sent, the given one, and nothing
      but the unlink of a completed request follows it. */
  lemma TraceRespondsOnce(exit: Exit, r: Response)
    ensures var t := Trace(exit, r);
      && Respond(r) in t
      && (forall i, j ::
            0 <= i < |t| && 0 <= j < |t| && t[i].Respond? && t[j].Respond? ==> i == j)
      && (exit.Completed? ==> t[|t| - 2] == Respond(r) && t[|t| - 1] == Unlink(exit.path))
      && (!exit.Completed? ==> t[|t| - 1] == Respond(r))
  {
  }

  /** Only a completed trace unlinks the file. */
  lemma TraceUnlinks(exit: Exit, r: Response)
    ensures Unlinked(Trace(exit, r)) <==> exit.Completed?
  {
    var t := Trace(exit, r);
    if exit.Completed? {
      assert t[7].Unlink?;
    }
  }

  /** The traces past the read call the generator and then attempt the insert
      once; the others do neither. */
  lemma TraceGeneratesBeforeInsert(exit: Exit, r: Response)
    ensures var t := Trace(exit, r);
      && (Generated(t) <==> exit.InsertFailed? || exit.Completed?)
      && (Inserted(t) <==> exit.InsertFailed? || exit.Completed?)
      && (forall i, j ::
            0 <= i < |t| && 0 <= j < |t| && t[i].Generate? && t[j].Insert? ==> i < j)
      && (forall i, j ::
            0 <= i < |t| && 0 <= j < |t| && t[i].Insert? && t[j].Insert? ==> i == j)
  {
    var t := Trace(exit, r);
    if exit.InsertFailed? || exit.Completed? {
      assert t[4].Generate? && t[5].Insert?;
    }
  }

  /** The traces past the read make the read, the tag parse and the colour
      sample, in that order, between the decode and the generator call. */
  lemma TraceExtractionSteps(exit: Exit, r: Response)
    requires exit.InsertFailed? || exit.Completed?
    ensures var t := Trace(exit, r);
      && t[0] == DecodeMetadata(exit.path)
      && t[1] == ReadFile(exit.path)
      && t[2] == ParseExif
      && t[3] == ComputeStats(exit.path)
      && t[4] == Generate(Model, exit.details)
  {
  }

  /** Once the file is decoded and read, the tag parser and the colour sampler
      are always called, after the read and before the generator. */
  lemma ExtractionStepsRun(file: Option<Upload>, env: Environment)
    requires PastRead(file, env)
    ensures var h := DetailsExtractor(file, env);
      var t := h.Effects();
      var p := file.value.path;
      && t[..5] == [DecodeMetadata(p), ReadFile(p), ParseExif, ComputeStats(p), Generate(Model, h.exit.details)]
  {
    var h := DetailsExtractor(file, env);
    TraceExtractionSteps(h.exit, h.response);
  }

  /** No upload: a 400 with the fixed error body, and no decode, read, parse,
      sample, generation, insert or unlink. */
  lemma NoFileRejected(env: Environment)
    ensures var h := DetailsExtractor(None, env);
      && Status(h.response) == 400
      && Body(h.response) == Obj(map["error" := Str("No image file uploaded")])
      && h.Effects() == [Respond(h.response)]
  {
  }

  /** Exactly one response is sent per request, and it is the one returned. */
  lemma RespondsOnce(file: Option<Upload>, env: Environment)
    ensures var h := DetailsExtractor(file, env);
      var t := h.Effects();
      && Respond(h.response) in t
      && forall i, j ::
           0 <= i < |t| && 0 <= j < |t| && t[i].Respond? && t[j].Respond? ==> i == j
  {
    var h := DetailsExtractor(file, env);
    TraceRespondsOnce(h.exit, h.response);
  }

  /** The temporary file is unlinked if and only if the success response was
      sent, and then as the last step, after the response; every failure
      leaves it in place. */
  lemma CleanupOnSuccessOnly(file: Option<Upload>, env: Environment)
    ensures var h := DetailsExtractor(file, env);
      var t := h.Effects();
      && (Unlinked(t) <==> h.response.Extracted?)
      && (h.response.Extracted? ==>
            t[|t| - 2] == Respond(h.response) && t[|t| - 1] == Unlink(file.value.path))
  {
    var h := DetailsExtractor(file, env);
    TraceUnlinks(h.exit, h.response);
    TraceRespondsOnce(h.exit, h.response);
  }

  /** Once the file is decoded and read, the generator is called and the insert
      is attempted once, after the generator; otherwise neither happens. */
  lemma GeneratorBeforeInsert(file: Option<Upload>, env: Environment)
    ensures var h := DetailsExtractor(file, env);
      var t := h.Effects();
      && (Generated(t) <==> PastRead(file, env))
      && (Inserted(t) <==> PastRead(file, env))
      && (forall i, j ::
            0 <= i < |t| && 0 <= j < |t| && t[i].Generate? && t[j].Insert? ==> i < j)
      && (forall i, j ::
            0 <= i < |t| && 0 <= j < |t| && t[i].Insert? && t[j].Insert? ==> i == j)
  {
    var h := DetailsExtractor(file, env);
    TraceGeneratesBeforeInsert(h.exit, h.response);
  }

  /** The fatal failures: a throwing decode, read or insert ends in a 500 that
      reports that call's error, after exactly the calls made up to it. */
  lemma FatalFailures(upload: Upload, env: Environment)
    ensures var h := DetailsExtractor(Some(upload), env);
      var p := upload.path;
      && (env.decode.Threw? ==>
            var r := InternalError(env.decode.error.message, env.decode.error.stack);
            h.response == r && h.Effects() == [DecodeMetadata(p), Respond(r)])
      && (env.decode.Returned? && env.readFile.Threw? ==>
            var r := InternalError(env.readFile.error.message, env.readFile.error.stack);
            h.response == r && h.Effects() == [DecodeMetadata(p), ReadFile(p), Respond(r)])
      && (env.decode.Returned? && env.readFile.Returned? && env.insert.Threw? ==>
            h.response == InternalError(env.insert.error.message, env.insert.error.stack))
  {
  }

  /** The 500 response's status and body. */
  lemma InternalErrorResponse(details: string, stack: string)
    ensures Status(InternalError(details, stack)) == 500
    ensures Body(InternalError(details, stack)) == Obj(map[
      "error" := Str("Internal server error"),
      "details" := Str(details),
      "stack" := Str(stack)])
  {
  }

  /** The tag parser, the colour sample and the generator cannot change where
      the request exits or which error it reports: their failures are absorbed. */
  lemma RecoverableStepsNeverAbort(file: Option<Upload>, env: Environment,
                                   exif: Outcome<Tags>, stats: Outcome<Rgb>, generate: Outcome<JsVal>)
    ensures var h := DetailsExtractor(file, env);
      var h' := DetailsExtractor(file, env.(exif := exif, stats := stats, generate := generate));
      && Status(h.response) == Status(h'.response)
      && |h.Effects()| == |h'.Effects()|
      && (h.response.InternalError? ==> h.response == h'.response)
  {
  }

  /** A failing generator still leads to the insert, with the sentinel as the
      summary parameter, and to the success response when the insert succeeds. */
  lemma GeneratorFailureStillPersists(upload: Upload, m: ImageMetadata, env: Environment)
    requires env.decode == Returned(m) && env.readFile.Returned? && env.generate.Threw?
    ensures var h := DetailsExtractor(Some(upload), env);
      var d := Assemble(upload.originalName, m, ExifTags(env.exif), DominantColour(env.stats));
      && h.Effects()[5] == Insert(upload.originalName, d, Sentinel)
      && Parameters(h.Effects()[5]) == InsertParameters(upload.originalName, d, Sentinel)
      && InsertedRow(upload.originalName, d, Sentinel).aiSummary == Sentinel
      && (env.insert.Returned? ==> h.response == Extracted(d, Sentinel))
  {
  }

  /** The success response carries the assembled record and the summary, with
      status 200 and the fixed message; the insert wrote that record and summary
      and the file was removed last. */
  lemma SuccessResponse(upload: Upload, m: ImageMetadata, env: Environment)
    requires env.decode == Returned(m) && env.readFile.Returned? && env.insert.Returned?
    ensures var h := DetailsExtractor(Some(upload), env);
      var d := Assemble(upload.originalName, m, ExifTags(env.exif), DominantColour(env.stats));
      && h.response == Extracted(d, SummaryText(env.generate))
      && h.Effects()[5] == Insert(upload.originalName, d, SummaryText(env.generate))
      && |h.Effects()| == 8
      && h.Effects()[7] == Unlink(upload.path)
      && Status(h.response) == 200
      && Body(h.response) == Obj(map[
           "success" := Bool(true),
           "metadata" := Obj(ToObject(d)),
           "summary" := SummaryText(env.generate),
           "message" := Str("Image details extracted and saved successfully.")])
  {
  }
}
