/** How `convert` turns a request body into one staged input file, or
    refuses it. Four routes are tried in a fixed order: raw bytes, base64 in
    JSON, a multipart `file` part, and refusal. */
module Ingestion {
  import opened Wrappers
  import opened Text
  import opened Formats
  import opened Http
  import opened Negotiation

  const NoData: string := "Nenhum dado fornecido"
  const NoAudio: string := "Nenhum dado de áudio fornecido"
  const BadBase64: string := "Erro ao decodificar áudio base64"
  const NoFileSelected: string := "Nenhum arquivo selecionado"
  const UnsupportedFormat: string := "Formato de arquivo não suportado"
  const UnsupportedContentType: string := "Tipo de conteúdo não suportado"

  /** The extension given to raw and JSON bodies, which carry no codec hint. */
  const DefaultExtension: string := "wav"

  lemma DefaultExtensionAllowed()
    ensures DefaultExtension in AllowedExtensions
  {
    assert SupportedFormats["audio/wav"] == DefaultExtension;
  }

  datatype Route = RawStream | JsonBase64 | MultipartFile | Unsupported

  /** The branch `convert` takes. The content type is compared for exact
      equality, so a type carrying parameters matches neither of the first
      two. */
  function RouteOf(req: Request): Route
  {
    if req.contentType == OctetStream then RawStream
    else if req.contentType == JsonType then JsonBase64
    else if req.file.Some? then MultipartFile
    else Unsupported
  }

  /** Result of ingestion.
      Staged: one input file is written with this extension and content.
      Rejected: the handler returns `{"error": message}` with this status.
      Raised: an exception leaves the handler before anything is staged; the
        framework answers with this status. */
  datatype Ingested =
    | Staged(ext: string, data: Bytes)
    | Rejected(status: nat, message: string)
    | Raised(status: nat)

  /** The raw branch: a non-empty body is staged whole. */
  function IngestRaw(body: Bytes): (r: Ingested)
    ensures r.Staged? <==> |body| > 0
    ensures r.Staged? ==> r == Staged(DefaultExtension, body)
    ensures r.Rejected? ==> r == Rejected(400, NoData)
  {
    if |body| == 0 then Rejected(400, NoData) else Staged(DefaultExtension, body)
  }

  /** Python truthiness of a parsed JSON value. */
  predicate Truthy(v: JsonValue)
  {
    match v
    case JNull => false
    case JBool(b) => b
    case JNumber(n) => n != 0
    case JString(s) => |s| > 0
    case JArray(items) => |items| > 0
    case JObject(fields) => |fields| > 0
  }

  /** The outcome of a Python expression that may raise an exception. */
  datatype Py<+T> = Value(v: T) | Raises

  /** `key in v`: a key of an object, an element of a list, a substring of a
      string; membership in a number or boolean raises. */
  function PyContains(v: JsonValue, key: string): (r: Py<bool>)
    ensures r.Raises? <==> v.JNull? || v.JBool? || v.JNumber?
    ensures v.JObject? ==> r == Value(key in v.fields)
    ensures v.JString? ==> (r == Value(true) <==> Occurs(key, v.s))
  {
    match v
    case JObject(fields) => Value(key in fields)
    case JArray(items) => Value(JString(key) in items)
    case JString(s) =>
      SearchFindsOccurrence(key, s);
      Value(Search(key, s))
    case _ => Raises
  }

  /** `v[key]` with a string key: only an object can be indexed so. */
  function PySubscript(v: JsonValue, key: string): Py<JsonValue>
  {
    match v
    case JObject(fields) => if key in fields then Value(fields[key]) else Raises
    case _ => Raises
  }

  /** `base64.b64decode(a)` inside the handler's try: only a string can be
      decoded, every other value raises and is answered with 400, as is
      text the decoder rejects. */
  function DecodeAudio(a: JsonValue, decode: string -> Option<Bytes>): (r: Ingested)
    ensures r.Staged? <==> a.JString? && decode(a.s).Some?
    ensures r.Staged? ==> r == Staged(DefaultExtension, decode(a.s).value)
    ensures !r.Staged? ==> r == Rejected(400, BadBase64)
  {
    match a
    case JString(text) =>
      (match decode(text)
       case Some(audio) => Staged(DefaultExtension, audio)
       case None => Rejected(400, BadBase64))
    case _ => Rejected(400, BadBase64)
  }

  /** The JSON branch as written: `not json_data or 'audio' not in json_data`
      decides the 400, then `json_data['audio']` is decoded. Membership and
      indexing run outside the try, so on a truthy non-object document they
      raise to the framework. */
  function IngestJsonAsWritten(doc: JsonDoc, decode: string -> Option<Bytes>): (r: Ingested)
  {
    match doc
    case Unparsable => Raised(400)
    case Parsed(v) =>
      if !Truthy(v) then Rejected(400, NoAudio)
      else match PyContains(v, "audio")
        case Raises => Raised(500)
        case Value(present) =>
          if !present then Rejected(400, NoAudio)
          else match PySubscript(v, "audio")
            case Raises => Raised(500)
            case Value(a) => DecodeAudio(a, decode)
  }

  /** The JSON branch as evidently intended: a document that is not an
      object holding `audio` is a client error. */
  function IngestJson(doc: JsonDoc, decode: string -> Option<Bytes>): (r: Ingested)
    ensures r.Raised? <==> doc.Unparsable?
    ensures r.Raised? ==> r.status == 400
    ensures doc.Parsed? && !(doc.value.JObject? && "audio" in doc.value.fields) ==> r == Rejected(400, NoAudio)
    ensures doc.Parsed? && doc.value.JObject? && "audio" in doc.value.fields
            ==> r == DecodeAudio(doc.value.fields["audio"], decode)
  {
    match doc
    case Unparsable => Raised(400)
    case Parsed(v) =>
      if v.JObject? && "audio" in v.fields then DecodeAudio(v.fields["audio"], decode)
      else Rejected(400, NoAudio)
  }

  /** The multipart branch: an empty file name is refused; a mapped part
      type gives the extension; otherwise the file name's own extension is
      used if it passes `allowed_file`, and the upload is refused with 415
      if it does not. */
  function IngestUpload(part: FilePart): (r: Ingested)
    ensures !r.Raised?
    ensures r.Staged? ==> r.ext in AllowedExtensions && r.data == part.data
    ensures part.filename == "" ==> r == Rejected(400, NoFileSelected)
    ensures r.Rejected? && part.filename != "" ==> r == Rejected(415, UnsupportedFormat)
  {
    if part.filename == "" then Rejected(400, NoFileSelected)
    else
      var ext := GetExtension(part.contentType);
      if ext != "" then Staged(ext, part.data)
      else if AllowedFile(part.filename) then Staged(FilenameExtension(part.filename), part.data)
      else Rejected(415, UnsupportedFormat)
  }

  /** A part type found in the table (other than the byte-stream type)
      decides the extension whatever the file is called. */
  lemma MappedTypeWins(part: FilePart)
    requires part.filename != ""
    requires part.contentType in SupportedFormats && part.contentType != OctetStream
    ensures IngestUpload(part) == Staged(SupportedFormats[part.contentType], part.data)
  {
  }

  /** For an unmapped or byte-stream part type the file name decides:
      `stem.ext` is staged under the lower-cased `ext` when that is a table
      extension and refused with 415 otherwise. */
  lemma FilenameFallback(part: FilePart, stem: string, ext: string)
    requires part.filename == stem + "." + ext && '.' !in ext
    requires part.contentType !in SupportedFormats || part.contentType == OctetStream
    ensures Lower(ext) in AllowedExtensions ==> IngestUpload(part) == Staged(Lower(ext), part.data)
    ensures Lower(ext) !in AllowedExtensions ==> IngestUpload(part) == Rejected(415, UnsupportedFormat)
  {
    AllowedFileOf(stem, ext);
  }

  /** Without a mapped type, a file name with no dot is refused. */
  lemma DotlessUploadRefused(part: FilePart)
    requires part.filename != "" && '.' !in part.filename
    requires part.contentType !in SupportedFormats || part.contentType == OctetStream
    ensures IngestUpload(part) == Rejected(415, UnsupportedFormat)
  {
    DotlessNotAllowed(part.filename);
  }

  /** Shared dispatch over the four routes. */
  function Dispatch(req: Request, json: Ingested): Ingested
  {
    match RouteOf(req)
    case RawStream => IngestRaw(req.body)
    case JsonBase64 => json
    case MultipartFile => IngestUpload(req.file.value)
    case Unsupported => Rejected(415, UnsupportedContentType)
  }

  /** Ingestion exactly as the handler is written: a staged file still has
      a table extension, but a truthy non-object JSON document can raise a
      500 before anything is staged. */
  function IngestAsWritten(req: Request, decode: string -> Option<Bytes>): (r: Ingested)
    ensures r.Staged? ==> r.ext in AllowedExtensions
    ensures r.Raised? ==> RouteOf(req) == JsonBase64 && (r.status == 400 <==> req.json.Unparsable?)
    ensures RouteOf(req) == RawStream ==>
              && (r.Staged? <==> |req.body| > 0)
              && (r.Staged? ==> r == Staged(DefaultExtension, req.body))
              && (!r.Staged? ==> r == Rejected(400, NoData))
    ensures RouteOf(req) == JsonBase64 ==> r == IngestJsonAsWritten(req.json, decode)
    ensures RouteOf(req) == MultipartFile ==> r == IngestUpload(req.file.value)
    ensures RouteOf(req) == Unsupported ==> r == Rejected(415, UnsupportedContentType)
  {
    DefaultExtensionAllowed();
    Dispatch(req, IngestJsonAsWritten(req.json, decode))
  }

  /** Ingestion with the JSON branch corrected: each route runs its own
      branch (a non-empty raw body is staged whole), it never raises a 500, a
      staged file always has a table extension (`wav` outside the multipart
      route), client errors are 400 or 415, and 415 for the content type is
      given exactly when no route applies. */
  function Ingest(req: Request, decode: string -> Option<Bytes>): (r: Ingested)
    ensures r.Staged? ==> r.ext in AllowedExtensions
    ensures r.Staged? && RouteOf(req) != MultipartFile ==> r.ext == DefaultExtension
    ensures r.Rejected? ==> r.status == 400 || r.status == 415
    ensures r.Rejected? && r.status == 415 ==> RouteOf(req) == MultipartFile || RouteOf(req) == Unsupported
    ensures r.Raised? ==> r.status == 400 && RouteOf(req) == JsonBase64 && req.json.Unparsable?
    ensures r == Rejected(415, UnsupportedContentType) <==> RouteOf(req) == Unsupported
    ensures RouteOf(req) == RawStream ==>
              && (r.Staged? <==> |req.body| > 0)
              && (r.Staged? ==> r == Staged(DefaultExtension, req.body))
              && (!r.Staged? ==> r == Rejected(400, NoData))
    ensures RouteOf(req) == JsonBase64 ==> r == IngestJson(req.json, decode)
    ensures RouteOf(req) == MultipartFile ==> r == IngestUpload(req.file.value)
  {
    DefaultExtensionAllowed();
    Dispatch(req, IngestJson(req.json, decode))
  }

  /** The two JSON branches differ only where the written one raises a 500:
      a truthy boolean or number, a string containing `audio`, or a list
      holding the string `audio`. */
  lemma {:induction false} JsonCrashCharacterized(doc: JsonDoc, decode: string -> Option<Bytes>)
    ensures IngestJsonAsWritten(doc, decode) != IngestJson(doc, decode)
            <==> IngestJsonAsWritten(doc, decode) == Raised(500)
    ensures IngestJsonAsWritten(doc, decode) == Raised(500)
            <==> doc.Parsed? && match doc.value
                                case JBool(b) => b
                                case JNumber(n) => n != 0
                                case JString(s) => Occurs("audio", s)
                                case JArray(items) => JString("audio") in items
                                case _ => false
  {
    match doc
    case Unparsable =>
    case Parsed(v) =>
      match v
      case JString(s) =>
        SearchFindsOccurrence("audio", s);
        if Occurs("audio", s) {
          var i: nat :| MatchesAt("audio", s, i);
          assert |s| > 0;
        }
      case JArray(items) =>
        if JString("audio") in items {
          assert |items| > 0;
        }
      case JObject(fields) =>
        if "audio" in fields {
          assert |fields| > 0;
        }
      case _ =>
  }

  /** The multipart example of a text upload: refused with 415. */
  lemma TextUploadRefused(req: Request, decode: string -> Option<Bytes>)
    requires req.contentType != OctetStream && req.contentType != JsonType
    requires req.file == Some(FilePart("test.txt", "text/plain", req.body))
    ensures Ingest(req, decode) == Rejected(415, UnsupportedFormat)
  {
    assert "test.txt" == "test" + "." + "txt";
    assert Lower("txt") == "txt";
    AllowedExtensionsListed();
    assert "txt" !in AllowedExtensions;
    assert "text/plain" !in SupportedFormats;
    FilenameFallback(req.file.value, "test", "txt");
  }

  /** A JSON body sent with a charset parameter does not take the JSON route:
      without a file part it is refused as an unsupported content type. */
  lemma JsonWithParametersRefused(req: Request, decode: string -> Option<Bytes>)
    requires req.contentType == "application/json; charset=utf-8" && req.file.None?
    ensures Ingest(req, decode) == Rejected(415, UnsupportedContentType)
  {
  }
}
