/** The audio-journal route (app/api/audio-journal+api.ts): reads the audio from a form or a JSON
    body, asks the model for a transcript and a mood score, and checks what comes back. Reading the
    request, the model call and `JSON.parse` are inputs. */
module AudioJournalApi {
  import opened Common
  import Text
  import AudioJournalService

  /** The form's `audio` entry: missing (or another falsy value), a file whose bytes were read as
      base64 together with its `type`, or a value without `arrayBuffer`. */
  datatype FormAudio = NoFile | FileData(base64: string, fileType: string) | NotAFile

  /** What reading the body gives on each path: the value, or a thrown error's description. */
  datatype FormRead = Form(audio: FormAudio) | FormThrew(details: string)
  datatype JsonRead = JsonObject(audioBase64: Option<string>, mimeType: Option<string>) | JsonThrew(details: string)

  /** A JSON value as the validation looks at it. */
  datatype JsonValue = JString(s: string) | JNumber(n: real) | JOther

  /** `JSON.parse` of the candidate text: an object with its two fields, or a parse error. */
  datatype ParsedReply = ParsedObject(transcript: JsonValue, moodScore: JsonValue) | ParseFailed

  /** How the model call ends: its text, or a thrown error's description. */
  datatype ModelOutcome = ModelText(text: string) | ModelThrew(details: string)

  /** The HTTP response: its status and its JSON body. */
  datatype Reply = Reply(status: int, body: AudioJournalService.AudioJournalResponse)

  /** The audio to transcribe and its MIME type. */
  datatype Upload = Upload(audioBase64: string, mimeType: string)

  /** Reading the request ends with the upload or with an early reply. */
  datatype ReadResult = Read(upload: Upload) | Early(reply: Reply)

  const DEFAULT_MIME: string := "audio/mp3"
  const MULTIPART: string := "multipart/form-data"
  const JSON_TYPE: string := "application/json"
  const MISSING_KEY: string := "Server not configured: missing GOOGLE_API_KEY"
  const PARSE_FAILED: string := "Failed to parse AI response"

  function Failure(status: int, error: string, details: Option<string>): (r: Reply)
    ensures r.status == status && !r.body.success && r.body.error == Some(error) && r.body.details == details
    ensures r.body.transcript.None? && r.body.moodScore.None?
  {
    Reply(status, AudioJournalService.AudioJournalResponse(false, None, None, Some(error), details))
  }

  /** A thrown error anywhere in the route. */
  function InternalError(details: string): Reply
  {
    Failure(500, "Internal server error", Some(details))
  }

  /** `x || 'audio/mp3'`. */
  function MimeOrDefault(m: Option<string>): (mime: string)
    ensures m.Some? && m.value != [] ==> mime == m.value
    ensures m.None? || m.value == [] ==> mime == DEFAULT_MIME
  {
    if m.Some? && m.value != [] then m.value else DEFAULT_MIME
  }

  /** The content-type dispatch: the header lower-cased (empty when absent); a multipart body
      gives the file's bytes and type, a JSON body its two fields, anything else a 400. */
  function ReadRequest(contentType: Option<string>, form: FormRead, json: JsonRead): (r: ReadResult)
    ensures r.Early? ==> r.reply.status in {400, 500} && !r.reply.body.success
    ensures var ct := Text.ToLower(contentType.GetOr(""));
      && (Text.Includes(ct, MULTIPART) ==>
            match form
            case FormThrew(d) => r == Early(InternalError(d))
            case Form(NoFile) => r == Early(Failure(400, "No audio file provided", None))
            case Form(NotAFile) => r == Early(Failure(400, "Invalid audio file format", None))
            case Form(FileData(b, t)) => r == Read(Upload(b, MimeOrDefault(Some(t)))))
      && (!Text.Includes(ct, MULTIPART) && Text.Includes(ct, JSON_TYPE) ==>
            match json
            case JsonThrew(d) => r == Early(InternalError(d))
            case JsonObject(b, m) => r == Read(Upload(b.GetOr(""), MimeOrDefault(m))))
      && (!Text.Includes(ct, MULTIPART) && !Text.Includes(ct, JSON_TYPE) ==>
            r == Early(Failure(400, "Unsupported content type. Use multipart/form-data or application/json", None)))
  {
    var ct := Text.ToLower(contentType.GetOr(""));
    if Text.Includes(ct, MULTIPART) then
      match form
      case FormThrew(d) => Early(InternalError(d))
      case Form(NoFile) => Early(Failure(400, "No audio file provided", None))
      case Form(NotAFile) => Early(Failure(400, "Invalid audio file format", None))
      case Form(FileData(b, t)) => Read(Upload(b, MimeOrDefault(Some(t))))
    else if Text.Includes(ct, JSON_TYPE) then
      match json
      case JsonThrew(d) => Early(InternalError(d))
      case JsonObject(b, m) => Read(Upload(b.GetOr(""), MimeOrDefault(m)))
    else Early(Failure(400, "Unsupported content type. Use multipart/form-data or application/json", None))
  }

  /** The header is matched without regard to case. */
  lemma ContentTypeIgnoresCase(contentType: string, form: FormRead, json: JsonRead)
    ensures ReadRequest(Some(Text.ToLower(contentType)), form, json) == ReadRequest(Some(contentType), form, json)
  {
    Text.ToLowerIdempotent(contentType);
  }

  /** The text `/\{[\s\S]*\}/` matches: from the first '{' to the last '}' after it. */
  function JsonCandidate(text: string): (r: Option<string>)
    ensures r.None? <==> forall i, j :: 0 <= i < j < |text| && text[i] == '{' ==> text[j] != '}'
    ensures r.Some? ==>
      exists i, j :: 0 <= i < j < |text| && r.value == text[i..j + 1]
        && text[i] == '{' && '{' !in text[..i] && text[j] == '}' && '}' !in text[j + 1..]
  {
    var i := Text.IndexOf(text, '{');
    var j := Text.LastIndexOf(text, '}');
    if i >= 0 && j > i then
      assert text[i..j + 1] == text[i..j + 1];
      Some(text[i..j + 1])
    else
      NoBraceAfterFirst(text, i, j);
      None
  }

  /** When the last '}' does not follow the first '{', no '}' follows any '{'. */
  lemma NoBraceAfterFirst(text: string, i: int, j: int)
    requires i == Text.IndexOf(text, '{') && j == Text.LastIndexOf(text, '}')
    requires !(i >= 0 && j > i)
    ensures forall a, b :: 0 <= a < b < |text| && text[a] == '{' ==> text[b] != '}'
  {
    forall a, b | 0 <= a < b < |text| && text[a] == '{'
      ensures text[b] != '}'
    {
      assert text[..a + 1][a] == '{';
      assert i <= a;
      assert text[b..][0] == text[b];
    }
  }

  /** The checks on the parsed reply: a string transcript and a number score in [1, 10]. */
  function Validate(parsed: ParsedReply, responseText: string): (r: Reply)
    ensures parsed.ParseFailed? ==> r == Failure(500, PARSE_FAILED, Some(responseText))
    ensures r.status in {200, 500}
    ensures r.body.success <==> r.status == 200
    ensures r.status == 200 <==>
      parsed.ParsedObject? && parsed.transcript.JString? && parsed.moodScore.JNumber?
      && 1.0 <= parsed.moodScore.n <= 10.0
    ensures r.status == 200 ==>
      r.body.success && r.body.transcript == Some(parsed.transcript.s) && r.body.moodScore == Some(parsed.moodScore.n)
      && r.body.error.None?
  {
    match parsed
    case ParseFailed => Failure(500, PARSE_FAILED, Some(responseText))
    case ParsedObject(transcript, moodScore) =>
      if !transcript.JString? then Failure(500, "Invalid transcript in AI response", None)
      else if !moodScore.JNumber? || moodScore.n < 1.0 || moodScore.n > 10.0 then
        Failure(500, "Invalid mood score in AI response", None)
      else Reply(200, AudioJournalService.AudioJournalResponse(true, Some(transcript.s), Some(moodScore.n), None, None))
  }

  /** POST: reads the audio, rejects an empty one (400) and a missing API key (500), calls the
      model, extracts the JSON object from its text and validates it. */
  function Post(contentType: Option<string>, form: FormRead, json: JsonRead, apiKey: Option<string>,
                model: Upload -> ModelOutcome, parse: string -> ParsedReply): (r: Reply)
    ensures r.status in {200, 400, 500}
    ensures r.body.success <==> r.status == 200
    ensures ReadRequest(contentType, form, json).Early? ==> r == ReadRequest(contentType, form, json).reply
    ensures ReadRequest(contentType, form, json).Read? && ReadRequest(contentType, form, json).upload.audioBase64 == [] ==>
              r == Failure(400, "No audio data provided", None)
    ensures r.status == 200 ==>
      && ReadRequest(contentType, form, json).Read?
      && ReadRequest(contentType, form, json).upload.audioBase64 != []
      && apiKey.Some? && apiKey.value != []
    ensures var req := ReadRequest(contentType, form, json);
      req.Read? && req.upload.audioBase64 != [] && (apiKey.None? || apiKey.value == []) ==>
        r == Failure(500, MISSING_KEY, None)
    ensures var req := ReadRequest(contentType, form, json);
      req.Read? && req.upload.audioBase64 != [] && apiKey.Some? && apiKey.value != [] ==>
        match model(req.upload)
        case ModelThrew(d) => r == InternalError(d)
        case ModelText(text) =>
          && (JsonCandidate(text).None? ==> r == Failure(500, PARSE_FAILED, Some(text)))
          && (JsonCandidate(text).Some? ==> r == Validate(parse(JsonCandidate(text).value), text))
  {
    match ReadRequest(contentType, form, json)
    case Early(reply) => reply
    case Read(upload) =>
      if upload.audioBase64 == [] then Failure(400, "No audio data provided", None)
      else if apiKey.None? || apiKey.value == [] then
        Failure(500, MISSING_KEY, None)
      else
        match model(upload)
        case ModelThrew(d) => InternalError(d)
        case ModelText(text) =>
          match JsonCandidate(text)
          case None => Failure(500, PARSE_FAILED, Some(text))
          case Some(candidate) => Validate(parse(candidate), text)
  }

  /** A successful reply carries a transcript and a mood score in [1, 10]: what the client
      then stores with the journal entry. */
  lemma SuccessHasScoreInRange(contentType: Option<string>, form: FormRead, json: JsonRead, apiKey: Option<string>,
                               model: Upload -> ModelOutcome, parse: string -> ParsedReply)
    requires Post(contentType, form, json, apiKey, model, parse).status == 200
    ensures var b := Post(contentType, form, json, apiKey, model, parse).body;
      b.success && b.transcript.Some? && b.moodScore.Some? && 1.0 <= b.moodScore.value <= 10.0
  {
    var req := ReadRequest(contentType, form, json);
    match model(req.upload)
    case ModelText(text) =>
      var candidate := JsonCandidate(text);
      if candidate.Some? {
        assert Post(contentType, form, json, apiKey, model, parse) == Validate(parse(candidate.value), text);
      }
    case ModelThrew(_) =>
  }
}
