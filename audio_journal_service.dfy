/** The client side of audio journaling (app/services/audioJournalService.ts): the MIME type chosen
    from the file extension and the reply built when anything fails. Reading the file and the HTTP
    call are inputs giving their outcome. */
module AudioJournalService {
  import opened Common
  import Text

  /** `audioUri.split('.').pop()?.toLowerCase()`: the text after the last '.', lower-cased. */
  function Extension(audioUri: string): (ext: string)
    ensures '.' !in ext && |ext| <= |audioUri|
    ensures '.' !in audioUri ==> ext == Text.ToLower(audioUri)
  {
    Text.ToLower(Text.AfterLast(audioUri, '.'))
  }

  /** The MIME types the service sends. */
  const MP3: string := "audio/mp3"
  const MP4: string := "audio/mp4"
  const WAV: string := "audio/wav"
  const OGG: string := "audio/ogg"

  /** The if-chain from an extension to a MIME type, audio/mp3 by default. */
  function MimeForExtension(ext: string): (mime: string)
    ensures mime in {MP3, MP4, WAV, OGG}
    ensures mime == MP4 <==> ext == "m4a"
    ensures mime == WAV <==> ext == "wav"
    ensures mime == OGG <==> ext == "ogg"
    ensures mime == MP3 <==> ext !in {"m4a", "wav", "ogg"}
  {
    if ext == "m4a" then MP4
    else if ext == "wav" then WAV
    else if ext == "ogg" then OGG
    else MP3
  }

  /** The MIME type processAudioJournal sends for a file. */
  function MimeTypeOf(audioUri: string): string
  {
    MimeForExtension(Extension(audioUri))
  }

  /** Lower-casing keeps every '.' where it is, so it commutes with taking the text after the
      last '.'. */
  lemma AfterLastLower(s: string)
    ensures Text.AfterLast(Text.ToLower(s), '.') == Text.ToLower(Text.AfterLast(s, '.'))
  {
    LastIndexOfLower(s);
    var k := Text.LastIndexOf(s, '.');
    if k >= 0 {
      Text.ToLowerSlice(s, k + 1, |s|);
    }
  }

  /** Lower-casing does not move the last '.'. */
  lemma {:induction false} LastIndexOfLower(s: string)
    ensures Text.LastIndexOf(Text.ToLower(s), '.') == Text.LastIndexOf(s, '.')
    decreases |s|
  {
    if s != [] {
      var l := Text.ToLower(s);
      assert Text.ToLower(s[..|s| - 1]) == l[..|l| - 1];
      LastIndexOfLower(s[..|s| - 1]);
    }
  }

  /** Extensions are matched without regard to case. */
  lemma MimeTypeIgnoresCase(audioUri: string)
    ensures MimeTypeOf(Text.ToLower(audioUri)) == MimeTypeOf(audioUri)
  {
    AfterLastLower(audioUri);
    Text.ToLowerIdempotent(Text.AfterLast(audioUri, '.'));
  }

  /** Only the text after the last '.' matters. */
  lemma MimeTypeOfName(name: string, ext: string)
    requires '.' !in ext
    ensures MimeTypeOf(name + ['.'] + ext) == MimeForExtension(Text.ToLower(ext))
  {
    var s := name + ['.'] + ext;
    assert s[|name|] == '.';
    assert Text.LastIndexOf(s, '.') == |name| by {
      assert s[|name| + 1..] == ext;
    }
    assert s[|name| + 1..] == ext;
  }

  // ---------------------------------------------------------------- processAudioJournal

  /** The JSON body sent to the audio-journal route. */
  datatype AudioRequest = AudioRequest(audioBase64: string, mimeType: string)

  /** The reply the caller receives. */
  datatype AudioJournalResponse = AudioJournalResponse(
    success: bool,
    transcript: Option<string>,
    moodScore: Option<real>,
    error: Option<string>,
    details: Option<string>)

  /** A thrown value: an Error with its message, or anything else. */
  datatype Thrown = ErrorWithMessage(message: string) | NotAnError

  /** The outcome of reading the file as base64, and of posting the request and decoding the JSON reply. */
  datatype ReadOutcome = ReadOk(base64: string) | ReadFailed(thrown: Thrown)
  datatype PostOutcome = Replied(body: AudioJournalResponse) | PostFailed(thrown: Thrown)

  /** The reply built from a caught failure. */
  function FailureResponse(thrown: Thrown): (r: AudioJournalResponse)
    ensures !r.success && r.error == Some("Failed to process audio journal")
    ensures r.transcript.None? && r.moodScore.None?
    ensures thrown.ErrorWithMessage? ==> r.details == Some(thrown.message)
    ensures thrown.NotAnError? ==> r.details == Some("Unknown error")
  {
    AudioJournalResponse(false, None, None, Some("Failed to process audio journal"),
      Some(match thrown case ErrorWithMessage(m) => m case NotAnError => "Unknown error"))
  }

  /** processAudioJournal: reads the file, posts it with the MIME type of its extension and
      returns the decoded reply as is; any failure gives the failure reply. */
  function ProcessAudioJournal(audioUri: string, read: ReadOutcome, post: AudioRequest -> PostOutcome)
    : (r: AudioJournalResponse)
    ensures read.ReadFailed? ==> r == FailureResponse(read.thrown)
    ensures read.ReadOk? ==>
      var sent := AudioRequest(read.base64, MimeTypeOf(audioUri));
      match post(sent)
      case Replied(body) => r == body
      case PostFailed(thrown) => r == FailureResponse(thrown)
  {
    match read
    case ReadFailed(thrown) => FailureResponse(thrown)
    case ReadOk(base64) =>
      match post(AudioRequest(base64, MimeTypeOf(audioUri)))
      case Replied(body) => body
      case PostFailed(thrown) => FailureResponse(thrown)
  }

  /** Whatever fails, the caller gets success=false with the fixed error text. */
  lemma FailureIsUnsuccessful(audioUri: string, read: ReadOutcome, post: AudioRequest -> PostOutcome)
    requires read.ReadFailed? || post(AudioRequest(read.base64, MimeTypeOf(audioUri))).PostFailed?
    ensures var r := ProcessAudioJournal(audioUri, read, post);
      !r.success && r.error == Some("Failed to process audio journal")
  {
  }
}
