# audiocore-api `/convert` — a Dafny model

This project models the request handling of the audio conversion service in
`app/app.py`. The service is a single POST endpoint, `/convert`. It accepts
audio in one of three ways:

- raw bytes (`application/octet-stream`);
- base64 text in a JSON object (`application/json`, field `audio`);
- a multipart upload with a `file` part.

It stages the audio as a temporary file. It then runs four external tools in
order:

1. an ffmpeg repair pass to MP3;
2. an ffmpeg transcode to Opus;
3. an opustags rewrite;
4. an ffprobe duration probe.

It answers with the converted file, either as an attachment or as base64 in
JSON, and removes its temporary files in a `finally` block.

The model separates this logic from Flask and from the external tools:

- `Wrappers`: the optional value used throughout.
- `Text`: the Python string operations the handler relies on. These are
  `rsplit('.', 1)`, ASCII `lower()`, the substring test `in`, and `str(int)`.
- `Formats`: the `SUPPORTED_FORMATS` table, `ALLOWED_EXTENSIONS`,
  `allowed_file` and `get_extension`. It also covers `generate_temp_filename`,
  including what werkzeug's `secure_filename` does to the names it is given.
- `Http`: the parsed request record, the parsed JSON document, the response
  kinds and the 20 MiB body cap.
- `Negotiation`: the response mode chosen from the `Accept` header, and the
  200 responses for each mode.
- `Ingestion`: the four-way content-type dispatch, with the 400 and 415
  refusals. The JSON branch follows Python's semantics for every kind of JSON
  value.
- `Pipeline`: the four stages, each modelled as an oracle `Succeeded |
  Failed(stderr)`. The first failure aborts the rest.
- `TempFiles`: evaluating the list of path variables in the `finally` block,
  and the loop that removes each existing file. A failed removal is logged
  and skipped.
- `Orchestrator`: the whole handler, with the file system modelled as a set
  of paths. `HandleAsWritten` follows the code as written. `Handle` fixes the
  two defects listed under Findings, and the guarantees are proved about it.

## Behaviour worth noting

- A request with no recognised content type and no file part gets 415
  "Tipo de conteúdo não suportado".
- The multipart route has no final fallback extension: an unmapped part type
  whose file name is not allowed gets 415.
- Cleanup does not always run; the first finding shows when it is skipped.
- A JSON body that is `null`, `false`, `0`, or an empty string, list or
  object counts as "no audio" and gets 400.
- JSON the framework cannot parse gets the framework's own 400 page.

## Model

| member | source | states |
|---|---|---|
| `Text.RSplitOnce` | app/app.py:51 | `rsplit(sep, 1)` gives nothing exactly when the separator is absent; otherwise the string is head + sep + tail, with no separator in the tail |
| `Text.RSplitOnceOf` | app/app.py:189 | for a string built as head + sep + tail with a separator-free tail, splitting at the last separator gives back exactly head and tail |
| `Text.SearchFindsOccurrence` | app/app.py:133 | the left-to-right scan answers true exactly when the needle occurs at some position of the text, which is what Python's `in` means on strings |
| `Text.Decimal` | app/app.py:229 | `str(duration_ms)` is non-empty and all digits, and starts with `0` only for zero itself |
| `Text.DecimalRoundTrip` | app/app.py:229 | reading the `Duration` header's digits back gives the same number of milliseconds |
| `Formats.AllowedExtensionsListed` | app/app.py:27-47 | the set of allowed extensions is exactly the eleven codec extensions plus the empty one, which comes from the byte-stream entry |
| `Formats.AllowedExtensionsArePlain` | app/app.py:27-47 | every allowed extension consists only of ASCII lower-case letters and digits, so in particular it contains no dot |
| `Formats.GetExtension` | app/app.py:53-54 | the result is always an allowed extension, and it is empty exactly for MIME types missing from the table and for `application/octet-stream` |
| `Formats.FilenameExtension` | app/app.py:189 | the extension of an allowed file name is exactly the lower-cased text after the dot that has no dot after it; it is an allowed extension and is already lower-case |
| `Formats.DotlessNotAllowed` | app/app.py:49-51 | a file name without a dot never passes `allowed_file` |
| `Formats.AllowedFileOf` | app/app.py:49-51 | a name `stem.ext` with a dot-free `ext` passes `allowed_file` exactly when the lower-cased `ext` is allowed; the extension used is then that lower-cased `ext` |
| `Formats.TrailingDotAllowed` | app/app.py:43-51 | because the byte-stream type maps to '', any name ending in a dot passes `allowed_file`, and its extension is empty |
| `Formats.SecureTempName` | app/app.py:56-57 | sanitising `token.ext` leaves it unchanged, except that an empty extension loses its trailing dot |
| `Formats.TempFilename` | app/app.py:56-57 | the temporary name is `token.ext`, or just the token when the extension is empty |
| `Formats.StagingPathToken` | app/app.py:149-150 | the token can be read back from a staging path: it is the part of the file name before the first dot |
| `Formats.StagingPathsDistinct` | app/app.py:56-57 | staging paths built from different tokens never coincide, whatever their extensions |
| `Negotiation.ResponseMode` | app/app.py:132-136 | the mode is base64 exactly when the Accept header contains `application/json` anywhere; otherwise, including when the header is absent, it is binary |
| `Negotiation.Compose` | app/app.py:216-229 | a success is a JSON body in base64 mode and an attachment in binary mode; the attachment is named `converted_audio.ogg`, has type `audio/ogg`, and its Duration header reads back as the duration |
| `Ingestion.PyContains` | app/app.py:158 | `'audio' in doc` raises exactly for null, boolean and number documents; for an object it tests the keys, and for a string it tests for a substring |
| `Ingestion.IngestJson` | app/app.py:155-173 | corrected JSON branch: unparsable JSON is the framework's 400; a document that is not an object with `audio` gets 400 "Nenhum dado de áudio fornecido"; otherwise the field is decoded |
| `Ingestion.IngestUpload` | app/app.py:175-197 | an upload never raises; an empty file name gets 400; any other refusal is 415 "Formato de arquivo não suportado"; a staged upload keeps the part's bytes and has an allowed extension |
| `Ingestion.MappedTypeWins` | app/app.py:185-186 | a part type found in the table, other than the byte-stream type, sets the extension whatever the file name is |
| `Ingestion.FilenameFallback` | app/app.py:185-193 | for an unmapped or byte-stream part type, `stem.ext` is staged under the lower-cased `ext` if that is allowed, and gets 415 otherwise |
| `Ingestion.DotlessUploadRefused` | app/app.py:186-193 | without a mapped part type, a file name with no dot gets 415 |
| `Ingestion.IngestAsWritten` | app/app.py:142-202 | ingestion as written, route by route: a raw body is staged whole as `wav` exactly when it is non-empty, and otherwise gets 400 "Nenhum dado fornecido"; the JSON route runs the as-written JSON branch; a file part runs the upload branch; anything else gets 415 "Tipo de conteúdo não suportado". A staged file has an allowed extension. Any raise comes from the JSON route, and it is a 400 exactly when the JSON is unparsable |
| `Ingestion.Ingest` | app/app.py:142-202 | corrected ingestion, route by route: a raw body is staged whole as `wav` exactly when it is non-empty, and otherwise gets 400 "Nenhum dado fornecido"; the JSON route runs the corrected JSON branch; a file part runs the upload branch. 415 "Tipo de conteúdo não suportado" is given exactly when no route applies. A staged file has an allowed extension, `wav` outside multipart; refusals are only 400 or 415; a raise happens only for unparsable JSON |
| `Ingestion.JsonCrashCharacterized` | app/app.py:157-162 | the JSON branch as written differs from the corrected one only by raising a 500, and it does so exactly for a truthy boolean or number, a string containing `audio`, or a list holding `"audio"` |
| `Ingestion.TextUploadRefused` | app/app.py:185-193 | a multipart upload of `test.txt` with type `text/plain` gets 415 |
| `Ingestion.JsonWithParametersRefused` | app/app.py:139-202 | `application/json; charset=utf-8` does not take the JSON route, because the comparison is exact; with no file part it gets 415 |
| `Pipeline.RunStages` | app/app.py:204-214 | stages run in the order fix, convert, tag, probe, as a prefix of that order; every stage before the last one run passed; the run is converted exactly when all four pass; an abort names the failing stage with its tool's message; only the repair and transcode outputs are added to the files |
| `Pipeline.FirstFailure` | app/app.py:204-214 | reference definition: the position of the first failing stage, with every earlier stage passing, or none when all pass |
| `Pipeline.AbortsAtFirstFailure` | app/app.py:204-214 | the pipeline aborts exactly at the first failing stage in order, after running just that many stages, and converts when none fails |
| `TempFiles.EvalList` | app/app.py:239 | evaluating a list of variables succeeds exactly when all of them are bound, and then gives their values in order |
| `TempFiles.RemoveExisting` | app/app.py:239-246 | the cleanup loop removes every listed existing path except those whose removal fails; a failure does not stop the later removals; unlisted files are untouched; exactly the existing stuck paths are warned about |
| `Orchestrator.BoundAtFinally` | app/app.py:205-210 | the input and repaired paths are bound when `finally` runs; the output path is bound only if the repair pass returned, unless the paths are bound before the try |
| `Orchestrator.Finally` | app/app.py:237-246 | if a path variable is unbound, the raised error replaces the pending response and nothing is removed; otherwise the pending response is sent and the three temporary paths are removed, except stuck ones |
| `Orchestrator.Respond` | app/app.py:142-246 | a refused or raised ingestion is answered without touching the files; a staged one is recorded under the input token's path |
| `Orchestrator.HandleAsWritten` | app/app.py:124-246 | the handler as written guarantees cleanup only when the repair pass succeeded; a framework 500 after staging means the repair pass failed and the input file is still there; within the size cap, a request is staged exactly when ingestion accepts it, and an ingestion refusal is the answer |
| `Orchestrator.Handle` | app/app.py:124-246 | corrected handler: statuses are only 200, 400, 413, 415 or 500; 413 exactly for an oversized body; a success's shape follows Accept and carries the converted bytes; nothing the request created survives except stuck files; pre-existing files are kept; client errors stage nothing; within the size cap, a request is staged exactly when ingestion accepts it, and an ingestion refusal is sent as the answer |
| `Orchestrator.StageResultsAnswered` | app/app.py:204-235 | a staged request gets 500 with "Erro durante o processamento: " and the first failing stage's message, or, when all stages pass, the composed success |
| `Orchestrator.StagedInputNamed` | app/app.py:148-197 | the input file of a staged request is the upload folder plus the input token and the resolved extension; the extension is `wav` outside multipart |
| `Orchestrator.AcceptOnlyShapesSuccess` | app/app.py:132-136 | changing only the Accept header changes neither the status nor the files left, and leaves error answers identical |
| `Orchestrator.FixFailureEscapes` | app/app.py:205-239 | as written, a failed repair pass on a staged request produces the framework's 500, and nothing is removed: the staged input stays on disk, and so does the partial repaired file if ffmpeg left one |
| `Orchestrator.FixFailureReported` | app/app.py:204-246 | corrected, the same failure produces a 500 that carries the repair pass's stderr; with fresh tokens and no failed removal, the files are left exactly as before |
| `Orchestrator.AsWrittenAgreesElsewhere` | app/app.py:130-246 | when the repair pass succeeds and the JSON branch does not raise a 500, the handler as written and the corrected handler give identical results |
| `Orchestrator.FixFailureExampleAsWritten` | app/app.py:207-239 | concrete case: one raw byte and a repair pass that fails give the framework's 500, and `/tmp/uploads/a1.wav` stays on disk |
| `Orchestrator.JsonTrueExample` | app/app.py:155-162 | concrete case: the JSON document `true` gets the framework's 500 as written, and 400 "Nenhum dado de áudio fornecido" when corrected |

## Left out

- The argument lists of ffmpeg, opustags and ffprobe are not modelled. This
  includes bitrates, sample rates, codecs and the vendor tag. Each tool is an
  oracle outcome, because the tools are external programs.
- The duration is not parsed from text or rounded with `round`. The probe
  oracle gives the rounded milliseconds as a natural number, or the parser's
  error message, because this part is floating point.
- Base64 decoding is the partial oracle `decode`, and base64 encoding of the
  reply is not modelled. `Base64Json` carries the raw bytes. The codec is
  library code.
- Flask and werkzeug request parsing is not modelled. The request record
  holds the results: the JSON parser's result and the multipart `file` part.
  The point at which the framework enforces the size cap is also left out;
  the model checks the cap before dispatch.
- `uuid.uuid4()` is not modelled. The three tokens are parameters.
  `Orchestrator.Fresh` states what the handler relies on: the tokens differ
  and no file with those names exists yet.
- `Formats.TempFilename`: defined only for table extensions and uuid-shaped
  tokens, because those are the only arguments the handler passes. For them,
  `secure_filename` only strips leading and trailing `.` and `_`. Unicode
  normalisation and the separator handling of `secure_filename` are not
  modelled.
- `str.lower()` is modelled for ASCII letters only. Unicode case mapping is
  not modelled.
- JSON numbers are modelled as integers. Only their truthiness matters, and
  floats are left out.
- These I/O errors are left out:
  - writing the staged input (this raises outside the try);
  - reading the output in base64 mode (this falls into the generic 500);
  - the streaming of `send_file` after the file is removed.
- Logging, creation of the upload folder, and concurrency between requests
  are not modelled. Requests share only the token namespace, which is covered
  by `Fresh`.
- `Orchestrator.Handle`: the promise that pre-existing files are kept holds
  only under `Fresh`. If the tokens collide, the cleanup can remove a file
  the request did not create.

## Findings

| source | as written | input that shows it | evidently intended | confidence | as-written member | corrected member |
|---|---|---|---|---|---|---|
| app/app.py:205-239 | `output_path` is assigned only after `fix_audio` returns, but the `finally` block always evaluates `[input_path, fixed_input_path, output_path]`. When the repair pass fails, this raises UnboundLocalError, which replaces the 500 JSON reply and skips all removals | a raw body of one byte, and an ffmpeg repair pass that exits non-zero | a 500 JSON reply carrying the ffmpeg stderr, with every temporary file removed | high; not executed | `Orchestrator.FixFailureEscapes` | `Orchestrator.FixFailureReported` |
| app/app.py:157-162 | `'audio' not in json_data` and `json_data['audio']` run outside any try. On a truthy JSON value that is not an object they raise TypeError, and the framework answers 500 | a JSON body `true`, `5`, `"audio"` or `["audio"]` | 400 "Nenhum dado de áudio fornecido" for any document that is not an object with `audio` | medium; not executed | `Ingestion.JsonCrashCharacterized` | `Ingestion.IngestJson` |
