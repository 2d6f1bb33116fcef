/** The whole `convert` request: size cap, response mode, ingestion, the
    stage pipeline inside try/except, and the cleanup in `finally`. Two
    versions: `HandleAsWritten` follows the handler as written; `Handle`
    binds every temporary path before the try and uses the corrected JSON
    check, and is the one the guarantees are proved of. */
module Orchestrator {
  import opened Wrappers
  import opened Text
  import opened Formats
  import opened Http
  import opened Negotiation
  import opened Ingestion
  import opened Pipeline
  import opened TempFiles

  const FixedExtension: string := "mp3"
  const OutputExtension: string := "ogg"

  lemma WorkingExtensionsAllowed()
    ensures FixedExtension in AllowedExtensions && OutputExtension in AllowedExtensions
  {
    assert SupportedFormats["audio/mpeg"] == FixedExtension;
    assert SupportedFormats["audio/ogg"] == OutputExtension;
  }

  /** The uuid4 tokens one request draws: for its input, its repaired file
      and its output. */
  datatype Tokens = Tokens(input: string, fixed: string, output: string)

  predicate WellFormed(t: Tokens)
  {
    IsToken(t.input) && IsToken(t.fixed) && IsToken(t.output)
  }

  /** What uuid4 is relied on for: the three tokens differ and name no file
      that already exists, whatever extension the input gets. */
  predicate Fresh(t: Tokens, files: set<Path>)
    requires WellFormed(t)
  {
    WorkingExtensionsAllowed();
    && t.input != t.fixed && t.input != t.output && t.fixed != t.output
    && (forall e | e in AllowedExtensions :: StagingPath(t.input, e) !in files)
    && StagingPath(t.fixed, FixedExtension) !in files
    && StagingPath(t.output, OutputExtension) !in files
  }

  const ProcessingError: string := "Erro durante o processamento: "

  /** The response, the files existing afterwards, and the input path the
      request staged, if it got that far. */
  datatype Exit = Exit(response: Response, files: set<Path>, staged: Option<Path>)

  /** Where the temporary path variables get their values.
      AsWritten: the output path is assigned only after the repair pass
        returns.
      BeforeTry: all three are assigned before the try. */
  datatype Binding = AsWritten | BeforeTry

  /** The variables bound when `finally` runs. */
  function BoundAtFinally(binding: Binding, tools: Tools, input: Path, fixed: Path, output: Path): (env: Env)
    ensures InputPath in env && FixedPath in env
    ensures OutputPath in env <==> binding == BeforeTry || tools.fix.Succeeded?
  {
    var early := map[InputPath := input, FixedPath := fixed];
    if binding == BeforeTry || tools.fix.Succeeded? then early[OutputPath := output] else early
  }

  const CleanupOrder: seq<Local> := [InputPath, FixedPath, OutputPath]

  /** The `finally` block: the path list is evaluated first; if a variable
      is unbound the raised error replaces the pending response and no file
      is removed; otherwise every existing listed file is removed and the
      pending response goes out. */
  function Finally(env: Env, pending: Response, files: set<Path>, stuck: set<Path>, staged: Path): (x: Exit)
    requires InputPath in env && FixedPath in env
    ensures OutputPath !in env ==> x == Exit(FrameworkError(500), files, Some(staged))
    ensures OutputPath in env ==> x.response == pending && x.staged == Some(staged)
    ensures OutputPath in env ==>
              x.files == files - ({env[InputPath], env[FixedPath], env[OutputPath]} - stuck)
  {
    match EvalList(env, CleanupOrder)
    case None => Exit(FrameworkError(500), files, Some(staged))
    case Some(paths) =>
      assert CleanupOrder[0] == InputPath && CleanupOrder[1] == FixedPath && CleanupOrder[2] == OutputPath;
      assert Listed(paths) == {env[InputPath], env[FixedPath], env[OutputPath]} by {
        assert paths[0] == env[InputPath] && paths[1] == env[FixedPath] && paths[2] == env[OutputPath];
      }
      Exit(pending, RemoveExisting(paths, files, stuck).files, Some(staged))
  }

  /** The response the try/except pair leaves pending after the stages. */
  function Pending(mode: Mode, tools: Tools, outcome: Outcome): (r: Response)
    ensures outcome.Converted? ==> r == Compose(mode, tools.audio, outcome.durationMs)
    ensures outcome.Aborted? ==> r == ErrorJson(500, ProcessingError + outcome.message)
  {
    match outcome
    case Converted(ms) => Compose(mode, tools.audio, ms)
    case Aborted(_, message) => ErrorJson(500, ProcessingError + message)
  }

  /** Everything after the size check and mode selection: a refused body
      is answered without touching the file system; a staged one goes
      through the stages and the cleanup. */
  function Respond(ingested: Ingested, mode: Mode, tokens: Tokens, tools: Tools,
                   files: set<Path>, stuck: set<Path>, binding: Binding): (x: Exit)
    requires WellFormed(tokens)
    requires ingested.Staged? ==> ingested.ext in AllowedExtensions
    ensures ingested.Rejected? ==> x == Exit(ErrorJson(ingested.status, ingested.message), files, None)
    ensures ingested.Raised? ==> x == Exit(FrameworkError(ingested.status), files, None)
    ensures ingested.Staged? ==> x.staged == Some(StagingPath(tokens.input, ingested.ext))
  {
    match ingested
    case Rejected(status, message) => Exit(ErrorJson(status, message), files, None)
    case Raised(status) => Exit(FrameworkError(status), files, None)
    case Staged(ext, _) =>
      WorkingExtensionsAllowed();
      var input := StagingPath(tokens.input, ext);
      var fixed := StagingPath(tokens.fixed, FixedExtension);
      var output := StagingPath(tokens.output, OutputExtension);
      var run := RunStages(tools, fixed, output, files + {input});
      Finally(BoundAtFinally(binding, tools, input, fixed, output),
              Pending(mode, tools, run.outcome), run.files, stuck, input)
  }

  /** The handler exactly as written. Its cleanup guarantee holds only once
      the repair pass has succeeded; an ingestion refusal or raise stages
      nothing. */
  function HandleAsWritten(req: Request, decode: string -> Option<Bytes>, tokens: Tokens, tools: Tools,
                           files: set<Path>, stuck: set<Path>): (x: Exit)
    requires WellFormed(tokens)
    ensures x.response.Status() in {200, 400, 413, 415, 500}
    ensures tools.fix.Succeeded? ==> x.files - files <= stuck
    ensures x.staged.None? ==> x.files == files
    ensures x.response.FrameworkError? && x.staged.Some? ==> tools.fix.Failed? && x.staged.value in x.files
    ensures req.contentLength <= MaxContentLength ==>
              && (x.staged.Some? <==> IngestAsWritten(req, decode).Staged?)
              && (IngestAsWritten(req, decode).Rejected? ==>
                    x.response == ErrorJson(IngestAsWritten(req, decode).status, IngestAsWritten(req, decode).message))
  {
    if req.contentLength > MaxContentLength then Exit(ErrorJson(413, TooLarge), files, None)
    else Respond(IngestAsWritten(req, decode), ResponseMode(req.accept), tokens, tools, files, stuck, AsWritten)
  }

  /** The handler with both defects corrected. Every answer has one of the
      documented statuses; 413 is given exactly for an oversized body; the
      response shape of a success follows the Accept header; the framework's
      own error page appears only for unparsable JSON; every file the request
      created is gone afterwards unless its removal failed, and no file that
      existed before is touched; a client error stages nothing; within the
      size cap, a request is staged exactly when ingestion accepts it, and an
      ingestion refusal is the answer. */
  function Handle(req: Request, decode: string -> Option<Bytes>, tokens: Tokens, tools: Tools,
                  files: set<Path>, stuck: set<Path>): (x: Exit)
    requires WellFormed(tokens)
    ensures x.response.Status() in {200, 400, 413, 415, 500}
    ensures x.response == ErrorJson(413, TooLarge) <==> req.contentLength > MaxContentLength
    ensures x.response.Status() == 200 <==> x.response.Base64Json? || x.response.Attachment?
    ensures x.response.Base64Json? || x.response.Attachment? ==>
              && (x.response.Base64Json? <==> Occurs(JsonType, req.accept))
              && x.response.audio == tools.audio
    ensures x.response.FrameworkError? ==> x.response.status == 400 && req.json.Unparsable?
    ensures x.files - files <= stuck
    ensures Fresh(tokens, files) ==> files <= x.files
    ensures x.response.Status() in {400, 413, 415} ==> x.files == files && x.staged.None?
    ensures req.contentLength <= MaxContentLength ==>
              && (x.staged.Some? <==> Ingest(req, decode).Staged?)
              && (Ingest(req, decode).Rejected? ==>
                    x.response == ErrorJson(Ingest(req, decode).status, Ingest(req, decode).message))
  {
    if req.contentLength > MaxContentLength then Exit(ErrorJson(413, TooLarge), files, None)
    else
      Respond(Ingest(req, decode), ResponseMode(req.accept), tokens, tools, files, stuck, BeforeTry)
  }

  /** A staged request is answered from the stage results: 500 carrying the
      first failing stage's message, or, when every stage passes, the
      converted file in the negotiated shape with the probed duration. */
  lemma StageResultsAnswered(req: Request, decode: string -> Option<Bytes>, tokens: Tokens, tools: Tools,
                             files: set<Path>, stuck: set<Path>)
    requires WellFormed(tokens)
    requires req.contentLength <= MaxContentLength && Ingest(req, decode).Staged?
    ensures var x := Handle(req, decode, tokens, tools, files, stuck);
            match FirstFailure(tools, AllStages)
            case Some(k) =>
              x.response == ErrorJson(500, ProcessingError + FailureMessage(tools, AllStages[k]))
            case None =>
              x.response == Compose(ResponseMode(req.accept), tools.audio, tools.probe.durationMs)
  {
    var ext := Ingest(req, decode).ext;
    WorkingExtensionsAllowed();
    var fixed := StagingPath(tokens.fixed, FixedExtension);
    var output := StagingPath(tokens.output, OutputExtension);
    AbortsAtFirstFailure(tools, fixed, output, files + {StagingPath(tokens.input, ext)});
  }

  /** The input file is named after the request's input token and the
      resolved extension; outside the multipart route that extension is
      `wav`. */
  lemma StagedInputNamed(req: Request, decode: string -> Option<Bytes>, tokens: Tokens, tools: Tools,
                         files: set<Path>, stuck: set<Path>)
    requires WellFormed(tokens)
    requires req.contentLength <= MaxContentLength && Ingest(req, decode).Staged?
    ensures var ext := Ingest(req, decode).ext;
            var x := Handle(req, decode, tokens, tools, files, stuck);
            && x.staged.Some?
            && (ext != "" ==> x.staged.value == UploadFolder + "/" + tokens.input + "." + ext)
            && (ext == "" ==> x.staged.value == UploadFolder + "/" + tokens.input)
            && (RouteOf(req) != MultipartFile ==> ext == "wav")
  {
  }

  /** The Accept header only chooses the shape of a success: two requests
      that differ in it alone get the same status and leave the same files,
      and their error answers are identical. */
  lemma AcceptOnlyShapesSuccess(req: Request, accept: string, decode: string -> Option<Bytes>, tokens: Tokens,
                                tools: Tools, files: set<Path>, stuck: set<Path>)
    requires WellFormed(tokens)
    ensures var x1 := Handle(req, decode, tokens, tools, files, stuck);
            var x2 := Handle(req.(accept := accept), decode, tokens, tools, files, stuck);
            && x1.response.Status() == x2.response.Status()
            && x1.files == x2.files
            && (x1.response.Status() != 200 ==> x1.response == x2.response)
  {
    var req2 := req.(accept := accept);
    assert RouteOf(req2) == RouteOf(req);
    assert Ingest(req2, decode) == Ingest(req, decode);
  }

  /** Finding, as written: when the repair pass fails, `output_path` is still
      unbound, so `finally` raises instead of cleaning up. The client gets the
      framework's 500 instead of the error message, and the staged input
      stays on disk. */
  lemma FixFailureEscapes(req: Request, decode: string -> Option<Bytes>, tokens: Tokens, tools: Tools,
                          files: set<Path>, stuck: set<Path>)
    requires WellFormed(tokens)
    requires req.contentLength <= MaxContentLength && IngestAsWritten(req, decode).Staged?
    requires tools.fix.Failed?
    ensures var x := HandleAsWritten(req, decode, tokens, tools, files, stuck);
            var input := StagingPath(tokens.input, IngestAsWritten(req, decode).ext);
            var fixed := UploadFolder + "/" + tokens.fixed + ".mp3";
            && x.response == FrameworkError(500)
            && x.files == (if tools.fix.leftOutput then files + {input, fixed} else files + {input})
  {
    WorkingExtensionsAllowed();
    var ingested := IngestAsWritten(req, decode);
    var input := StagingPath(tokens.input, ingested.ext);
    var fixed := StagingPath(tokens.fixed, FixedExtension);
    var output := StagingPath(tokens.output, OutputExtension);
    assert fixed == UploadFolder + "/" + tokens.fixed + ".mp3";
    var run := RunStages(tools, fixed, output, files + {input});
    assert run.files == Produce(files + {input}, tools.fix, fixed);
    var env := BoundAtFinally(AsWritten, tools, input, fixed, output);
    assert OutputPath !in env;
  }

  /** The corrected handler on the same failure: the 500 carries the repair
      pass's stderr, and the cleanup runs. */
  lemma FixFailureReported(req: Request, decode: string -> Option<Bytes>, tokens: Tokens, tools: Tools,
                           files: set<Path>, stuck: set<Path>)
    requires WellFormed(tokens)
    requires req.contentLength <= MaxContentLength && Ingest(req, decode).Staged?
    requires tools.fix.Failed?
    ensures var x := Handle(req, decode, tokens, tools, files, stuck);
            && x.response == ErrorJson(500, ProcessingError + "Erro no ffmpeg (fix_audio): " + tools.fix.stderr)
            && (Fresh(tokens, files) && stuck == {} ==> x.files == files)
  {
    StageResultsAnswered(req, decode, tokens, tools, files, stuck);
  }

  /** Outside the two findings, the handler as written and the corrected
      one give the same answer and leave the same files. */
  lemma AsWrittenAgreesElsewhere(req: Request, decode: string -> Option<Bytes>, tokens: Tokens, tools: Tools,
                                 files: set<Path>, stuck: set<Path>)
    requires WellFormed(tokens)
    requires tools.fix.Succeeded?
    requires IngestAsWritten(req, decode) != Raised(500)
    ensures HandleAsWritten(req, decode, tokens, tools, files, stuck) == Handle(req, decode, tokens, tools, files, stuck)
  {
    JsonCrashCharacterized(req.json, decode);
    assert IngestAsWritten(req, decode) == Ingest(req, decode);
  }

  /** Concrete inputs for the examples: one raw byte, three tokens, and a
      repair pass that fails without writing its output. */
  const ExampleRaw: Request := Request("", OctetStream, 1, [7], Unparsable, None)
  const ExampleTokens: Tokens := Tokens("a1", "b2", "c3")
  const FailingFix: Tools := Tools(Failed("bad header", false), Succeeded, Succeeded, Measured(1000), [])

  function NoDecode(text: string): Option<Bytes>
  {
    None
  }

  /** The first finding on concrete input, as written: the framework's 500,
      and the staged input left in the upload folder. */
  lemma FixFailureExampleAsWritten()
    ensures WellFormed(ExampleTokens)
    ensures HandleAsWritten(ExampleRaw, NoDecode, ExampleTokens, FailingFix, {}, {})
         == Exit(FrameworkError(500), {"/tmp/uploads/a1.wav"}, Some("/tmp/uploads/a1.wav"))
  {
    DefaultExtensionAllowed();
    WorkingExtensionsAllowed();
    var input := StagingPath("a1", "wav");
    assert input == "/tmp/uploads/a1.wav";
    assert IngestAsWritten(ExampleRaw, NoDecode) == Staged("wav", [7]);
    var fixed := StagingPath("b2", FixedExtension);
    var output := StagingPath("c3", OutputExtension);
    assert RunStages(FailingFix, fixed, output, {input}).files == {input};
  }

  /** A concrete request showing the second finding: the JSON document
      `true` makes the handler as written raise a 500, where a 400 for a
      missing `audio` field is due. */
  lemma JsonTrueExample()
    ensures var req := ExampleRaw.(contentType := JsonType, json := Parsed(JBool(true)));
            && HandleAsWritten(req, NoDecode, ExampleTokens, FailingFix, {}, {}) == Exit(FrameworkError(500), {}, None)
            && Handle(req, NoDecode, ExampleTokens, FailingFix, {}, {}) == Exit(ErrorJson(400, NoAudio), {}, None)
  {
  }
}
