/** Response-mode selection from the `Accept` header, and how a finished
    conversion is packaged for each mode. */
module Negotiation {
  import opened Text
  import opened Http

  datatype Mode = Binary | Base64

  const JsonType: string := "application/json"

  /** The mode is base64-in-JSON exactly when the `Accept` header contains
      the text `application/json` anywhere; every other header, the absent
      one included, selects the binary attachment. */
  function ResponseMode(accept: string): (mode: Mode)
    ensures mode == Base64 <==> Occurs(JsonType, accept)
  {
    SearchFindsOccurrence(JsonType, accept);
    if Search(JsonType, accept) then Base64 else Binary
  }

  const DownloadName: string := "converted_audio.ogg"
  const OggType: string := "audio/ogg"

  /** The 200 response for a converted file and its duration. In binary mode
      the duration travels as a decimal header that reads back as the same
      number. */
  function Compose(mode: Mode, audio: Bytes, durationMs: nat): (r: Response)
    ensures r.Status() == 200
    ensures r.Base64Json? <==> mode == Base64
    ensures r.Base64Json? ==> r.audio == audio && r.durationMs == durationMs
    ensures r.Attachment? ==> r.audio == audio && r.downloadName == DownloadName && r.mimeType == OggType
    ensures r.Attachment? ==> AllDigits(r.durationHeader) && DecimalValue(r.durationHeader) == durationMs
  {
    match mode
    case Base64 => Base64Json(audio, durationMs)
    case Binary =>
      DecimalRoundTrip(durationMs);
      Attachment(audio, DownloadName, OggType, Decimal(durationMs))
  }
}
