/** The request the `convert` endpoint sees once the web framework has parsed
    it, and the responses it can produce. */
module Http {
  import opened Wrappers

  newtype byte = x: int | 0 <= x < 256

  type Bytes = seq<byte>

  /** The body cap configured for the application: 20 MiB. */
  const MaxContentLength: nat := 20 * 1024 * 1024

  /** A parsed JSON document. Numbers are kept as integers. */
  datatype JsonValue =
    | JNull
    | JBool(b: bool)
    | JNumber(n: int)
    | JString(s: string)
    | JArray(items: seq<JsonValue>)
    | JObject(fields: map<string, JsonValue>)

  /** What the framework's JSON parser makes of the body. */
  datatype JsonDoc = Unparsable | Parsed(value: JsonValue)

  /** The multipart part named `file`: client file name, the part's own
      content type, and its bytes. */
  datatype FilePart = FilePart(filename: string, contentType: string, data: Bytes)

  /** One POST to /convert. A missing header is the empty string. `json` is
      the parser's view of `body`; `file` is the `file` entry of the parsed
      multipart form, when there is one. */
  datatype Request = Request(
    accept: string,
    contentType: string,
    contentLength: nat,
    body: Bytes,
    json: JsonDoc,
    file: Option<FilePart>)

  /** A reply of the endpoint.
      ErrorJson: `{"error": message}` with the given status, built by the
        handler itself (or by the 413 handler).
      FrameworkError: an exception escaped the handler and the framework
        answered with its own error page.
      Base64Json: 200 with `{"base64Audio": ..., "duration_ms": ...}`; the
        audio is carried as bytes, its base64 text is not modelled.
      Attachment: 200 with the converted file as a download, its name, media
        type and the `Duration` header. */
  datatype Response =
    | ErrorJson(status: nat, message: string)
    | FrameworkError(status: nat)
    | Base64Json(audio: Bytes, durationMs: nat)
    | Attachment(audio: Bytes, downloadName: string, mimeType: string, durationHeader: string)
  {
    function Status(): nat
    {
      match this
      case ErrorJson(status, _) => status
      case FrameworkError(status) => status
      case _ => 200
    }
  }

  /** The message of the 413 answer given when the body exceeds the cap. */
  const TooLarge: string := "Arquivo muito grande"
}
