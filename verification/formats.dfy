/** The MIME-type table, the extension checks built on it, and the names
    under which request files are staged in the upload folder. */
module Formats {
  import opened Text

  type Path = string

  const OctetStream: string := "application/octet-stream"

  /** Supported input MIME types and the extension a staged file gets. The
      generic byte-stream type maps to the empty extension. */
  const SupportedFormats: map<string, string> := map[
    "audio/mpeg" := "mp3",
    "audio/wav" := "wav",
    "audio/x-wav" := "wav",
    "audio/aac" := "aac",
    "audio/x-aac" := "aac",
    "audio/flac" := "flac",
    "audio/x-flac" := "flac",
    "audio/ogg" := "ogg",
    "audio/opus" := "opus",
    "audio/webm" := "webm",
    "video/webm" := "webm",
    "audio/3gpp" := "3gp",
    "audio/3gpp2" := "3g2",
    "audio/mp4" := "m4a",
    "video/mp4" := "mp4",
    OctetStream := ""
  ]

  /** Every extension the table produces, the empty one included. */
  const AllowedExtensions: set<string> := SupportedFormats.Values

  /** The extensions spelled out; the empty extension is among them because
      of the byte-stream entry. */
  lemma AllowedExtensionsListed()
    ensures AllowedExtensions
         == {"mp3", "wav", "aac", "flac", "ogg", "opus", "webm", "3gp", "3g2", "m4a", "mp4", ""}
  {
    var listed := {"mp3", "wav", "aac", "flac", "ogg", "opus", "webm", "3gp", "3g2", "m4a", "mp4", ""};
    assert SupportedFormats["audio/mpeg"] == "mp3";
    assert SupportedFormats["audio/wav"] == "wav";
    assert SupportedFormats["audio/aac"] == "aac";
    assert SupportedFormats["audio/flac"] == "flac";
    assert SupportedFormats["audio/ogg"] == "ogg";
    assert SupportedFormats["audio/opus"] == "opus";
    assert SupportedFormats["audio/webm"] == "webm";
    assert SupportedFormats["audio/3gpp"] == "3gp";
    assert SupportedFormats["audio/3gpp2"] == "3g2";
    assert SupportedFormats["audio/mp4"] == "m4a";
    assert SupportedFormats["video/mp4"] == "mp4";
    assert SupportedFormats[OctetStream] == "";
    assert listed <= AllowedExtensions;
    assert AllowedExtensions <= listed;
  }

  /** An extension from the table: ASCII lower-case letters and digits only. */
  predicate IsPlainExtension(ext: string)
  {
    forall i | 0 <= i < |ext| :: 'a' <= ext[i] <= 'z' || '0' <= ext[i] <= '9'
  }

  lemma AllowedExtensionsArePlain(ext: string)
    requires ext in AllowedExtensions
    ensures IsPlainExtension(ext)
  {
    AllowedExtensionsListed();
  }

  /** `get_extension`: the table's extension for a MIME type, '' when the
      type is not in the table. */
  function GetExtension(mimeType: string): (ext: string)
    ensures ext in AllowedExtensions
    ensures ext == "" <==> mimeType !in SupportedFormats || mimeType == OctetStream
    ensures ext != "" ==> SupportedFormats[mimeType] == ext
  {
    assert SupportedFormats[OctetStream] == "";
    if mimeType in SupportedFormats then SupportedFormats[mimeType] else ""
  }

  /** `allowed_file`: the name has a dot and the lower-cased text after its
      last dot is one of the table's extensions. */
  function AllowedFile(filename: string): bool
  {
    match RSplitOnce(filename, '.')
    case None => false
    case Some(parts) => Lower(parts.1) in AllowedExtensions
  }

  /** The extension taken from a file name: the lower-cased text after its
      last dot. It is described here by position, independently of the
      split: there is a dot with no dot after it, and the extension is what
      follows that dot, lower-cased; lower-casing it again changes nothing. */
  function FilenameExtension(filename: string): (ext: string)
    requires AllowedFile(filename)
    ensures ext in AllowedExtensions
    ensures exists k | 0 <= k < |filename| :: LastDotAt(filename, k) && ext == Lower(filename[k + 1..])
    ensures Lower(ext) == ext
  {
    var parts := RSplitOnce(filename, '.').value;
    var k := |parts.0|;
    assert filename[k + 1..] == parts.1;
    assert LastDotAt(filename, k);
    AllowedExtensionsArePlain(Lower(parts.1));
    LowerOfPlain(Lower(parts.1));
    Lower(parts.1)
  }

  /** Position `k` of `name` holds its last dot. */
  predicate LastDotAt(name: string, k: nat)
  {
    k < |name| && name[k] == '.' && '.' !in name[k + 1..]
  }

  /** Lower-casing a table extension leaves it unchanged. */
  lemma LowerOfPlain(ext: string)
    requires IsPlainExtension(ext)
    ensures Lower(ext) == ext
  {
  }

  /** A name with no dot is never allowed. */
  lemma DotlessNotAllowed(filename: string)
    requires '.' !in filename
    ensures !AllowedFile(filename)
  {
  }

  /** Every dotted name is `stem.ext` with a dot-free `ext`, and it is allowed
      exactly when `ext`, lower-cased, is a table extension; the extension
      taken from it is then that lower-cased `ext`. */
  lemma AllowedFileOf(stem: string, ext: string)
    requires '.' !in ext
    ensures AllowedFile(stem + "." + ext) <==> Lower(ext) in AllowedExtensions
    ensures AllowedFile(stem + "." + ext) ==> FilenameExtension(stem + "." + ext) == Lower(ext)
  {
    RSplitOnceOf(stem, '.', ext);
  }

  /** Because the byte-stream entry maps to '', a name ending in a dot passes
      the check, and its extension is empty. */
  lemma TrailingDotAllowed(stem: string)
    ensures AllowedFile(stem + ".")
    ensures FilenameExtension(stem + ".") == ""
  {
    assert SupportedFormats[OctetStream] == "";
    assert stem + "." == stem + "." + "";
    AllowedFileOf(stem, "");
  }

  predicate IsHexDigit(c: char)
  {
    '0' <= c <= '9' || 'a' <= c <= 'f'
  }

  /** The text of a `uuid.uuid4()`: lower-case hex digits and hyphens,
      beginning and ending with a hex digit. */
  predicate IsToken(t: string)
  {
    && |t| > 0
    && IsHexDigit(t[0])
    && IsHexDigit(t[|t| - 1])
    && forall i | 0 <= i < |t| :: IsHexDigit(t[i]) || t[i] == '-'
  }

  predicate IsStripped(c: char)
  {
    c == '.' || c == '_'
  }

  function StripEnd(s: string): string
  {
    if |s| > 0 && IsStripped(s[|s| - 1]) then StripEnd(s[..|s| - 1]) else s
  }

  function StripStart(s: string): string
  {
    if |s| > 0 && IsStripped(s[0]) then StripStart(s[1..]) else s
  }

  /** werkzeug's `secure_filename` on a name made only of ASCII letters,
      digits, '-', '.' and '_': it removes leading and trailing dots and
      underscores and keeps the rest. */
  function SecureFilename(name: string): string
  {
    StripStart(StripEnd(name))
  }

  /** On `token.ext` the sanitizer changes nothing, except that an empty
      extension leaves a trailing dot, which it strips. */
  lemma SecureTempName(token: string, ext: string)
    requires IsToken(token) && ext in AllowedExtensions
    ensures SecureFilename(token + "." + ext) == if ext == "" then token else token + "." + ext
  {
    AllowedExtensionsArePlain(ext);
    var raw := token + "." + ext;
    if ext == "" {
      assert raw[..|raw| - 1] == token;
      assert StripEnd(raw) == StripEnd(token) == token;
    } else {
      assert raw[|raw| - 1] == ext[|ext| - 1];
      assert StripEnd(raw) == raw;
    }
    assert StripEnd(raw)[0] == token[0];
  }

  /** `generate_temp_filename`: a fresh token, a dot and the extension, made
      safe by the sanitizer. */
  function TempFilename(token: string, ext: string): (name: string)
    requires IsToken(token) && ext in AllowedExtensions
    ensures ext != "" ==> name == token + "." + ext
    ensures ext == "" ==> name == token
  {
    SecureTempName(token, ext);
    SecureFilename(token + "." + ext)
  }

  const UploadFolder: string := "/tmp/uploads"

  /** `os.path.join(UPLOAD_FOLDER, generate_temp_filename(ext))`. */
  function StagingPath(token: string, ext: string): Path
    requires IsToken(token) && ext in AllowedExtensions
  {
    UploadFolder + "/" + TempFilename(token, ext)
  }

  /** The part of a file name before its first dot. */
  function TokenPart(name: string): string
  {
    if |name| == 0 || name[0] == '.' then [] else [name[0]] + TokenPart(name[1..])
  }

  lemma {:induction false} TokenPartOf(token: string, rest: string)
    requires '.' !in token
    requires rest == [] || rest[0] == '.'
    ensures TokenPart(token + rest) == token
  {
    if |token| > 0 {
      assert (token + rest)[1..] == token[1..] + rest;
      TokenPartOf(token[1..], rest);
    } else {
      assert token + rest == rest;
    }
  }

  /** The token a staged file was named after is recoverable from its path. */
  lemma StagingPathToken(token: string, ext: string)
    requires IsToken(token) && ext in AllowedExtensions
    ensures TokenPart(StagingPath(token, ext)[|UploadFolder| + 1..]) == token
  {
    var name := TempFilename(token, ext);
    assert StagingPath(token, ext)[|UploadFolder| + 1..] == name;
    assert '.' !in token by {
      forall i | 0 <= i < |token| ensures token[i] != '.' {
        assert IsHexDigit(token[i]) || token[i] == '-';
      }
    }
    if ext == "" {
      assert name == token + [];
      TokenPartOf(token, []);
    } else {
      assert name == token + ("." + ext);
      TokenPartOf(token, "." + ext);
    }
  }

  /** Two staging paths made from different tokens never coincide, whatever
      their extensions. */
  lemma StagingPathsDistinct(t1: string, e1: string, t2: string, e2: string)
    requires IsToken(t1) && e1 in AllowedExtensions
    requires IsToken(t2) && e2 in AllowedExtensions
    requires t1 != t2
    ensures StagingPath(t1, e1) != StagingPath(t2, e2)
  {
    StagingPathToken(t1, e1);
    StagingPathToken(t2, e2);
  }
}
