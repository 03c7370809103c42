/**
 * The pure parts of `transcribe_audio`: the fixed request it sends to the OpenAI
 * transcription endpoint, the mapping of a non-success HTTP status to an error
 * message, and the trim-plus-deny-list filter applied to a successful transcript.
 * The HTTP exchange itself is an input (`Reply`).
 */
module Transcription {
  import opened Wrappers
  import opened Text

  /** The multipart request: the file part's name and MIME type, and the text fields. */
  datatype Form = Form(fileName: string, mime: string, fields: seq<(string, string)>)

  const Endpoint := "https://api.openai.com/v1/audio/transcriptions"

  /** The form for an audio path whose last component is `fileName` (absent or non-UTF-8: `None`). */
  function RequestForm(fileName: Option<string>): (f: Form)
    ensures f.fields == [("model", "whisper-1"), ("language", "en")]
    ensures f.fileName == (if fileName.Some? then fileName.value else "audio.wav")
    ensures f.mime == "audio/wav"
  {
    Form(
      match fileName case Some(n) => n case None => "audio.wav",
      "audio/wav",
      [("model", "whisper-1"), ("language", "en")])
  }

  /** The `Authorization` header value sent with the request. */
  function AuthorizationHeader(apiKey: string): (h: string)
    ensures StartsWith(h, "Bearer ") && h[7..] == apiKey
  {
    "Bearer " + apiKey
  }

  /**
   * What the exchange produced. `TransportFailed` carries an error message already
   * formatted by the step that failed (client build, file read, MIME, send).
   * `Answered` carries the status code, its canonical reason phrase if it has one,
   * the body text (empty when it cannot be read) and the outcome of decoding the
   * `text` field of a JSON body.
   */
  datatype Reply =
    | TransportFailed(message: string)
    | Answered(status: nat, reason: Option<string>, body: string, decoded: Result<string>)

  predicate IsSuccess(status: nat) {
    200 <= status <= 299
  }

  const QuotaMessage := "OpenAI quota exceeded" + " - check your billing at platform.openai.com"
  const InvalidKeyMessage := "Invalid OpenAI API key"
  /** The message exactly as the source spells it: an em dash that was mis-decoded into three characters. */
  const NoSpeechMessage := "No speech detected " + "\U{00E2}\U{20AC}\U{201D}" + " hold the key longer and speak clearly"

  /** How `StatusCode` displays: the number, a space, and the reason phrase. */
  function StatusText(status: nat, reason: Option<string>): string {
    NatToString(status) + " " + (match reason case Some(r) => r case None => "<unknown status code>")
  }

  /**
   * The error message for a non-success status: quota exhaustion (status 429 or the
   * `insufficient_quota` marker in the body) first, then an invalid key (401), and
   * otherwise a message quoting the status and the raw body.
   */
  function ClassifyFailure(status: nat, reason: Option<string>, body: string): (msg: string)
    ensures status == 429 || Contains(body, "insufficient_quota") ==> msg == QuotaMessage
    ensures status == 401 && !Contains(body, "insufficient_quota") ==> msg == InvalidKeyMessage
    ensures status != 429 && status != 401 && !Contains(body, "insufficient_quota") ==>
      StartsWith(msg, "API error (" + NatToString(status) + " ")
      && |body| <= |msg| && msg[|msg| - |body|..] == body
  {
    if status == 429 || Contains(body, "insufficient_quota") then QuotaMessage
    else if status == 401 then InvalidKeyMessage
    else "API error (" + StatusText(status, reason) + "): " + body
  }

  /** Example: the quota marker in the body wins over a 401 status. */
  lemma ClassifyExampleQuota()
    ensures ClassifyFailure(401, Some("Unauthorized"), "code: " + "insufficient_quota") == QuotaMessage
  {
    var body := "code: " + "insufficient_quota";
    assert body[6..] == "insufficient_quota";
    assert OccursAt(body, "insufficient_quota", 6);
  }

  /** Example: a 401 without the marker is an invalid key. */
  lemma ClassifyExampleInvalidKey()
    ensures ClassifyFailure(401, Some("Unauthorized"), "") == InvalidKeyMessage
  {
  }

  /** The phrases Whisper produces on silence. */
  const Hallucinations: seq<string> :=
    ["you", "thank you", "thank you.", "thanks for watching.", "thanks for watching", "subscribe."]

  predicate IsHallucination(text: string) {
    exists i | 0 <= i < |Hallucinations| :: EqIgnoreAsciiCase(text, Hallucinations[i])
  }

  /** Trim the transcript and reject it when it is one of the deny-listed phrases. */
  function FilterText(raw: string): (r: Result<string>)
    ensures r.Ok? <==> !IsHallucination(Trim(raw))
    ensures r.Ok? ==> r.value == Trim(raw)
    ensures r.Err? ==> r.error == NoSpeechMessage
  {
    var text := Trim(raw);
    if IsHallucination(text) then Err(NoSpeechMessage) else Ok(text)
  }

  /** The result of `transcribe_audio` for a given exchange. */
  function Transcribe(reply: Reply): Result<string> {
    match reply
    case TransportFailed(message) => Err(message)
    case Answered(status, reason, body, decoded) =>
      if !IsSuccess(status) then Err(ClassifyFailure(status, reason, body))
      else
        match decoded
        case Err(e) => Err("Failed to parse response: " + e)
        case Ok(text) => FilterText(text)
  }

  /**
   * A successful result comes only from a success status with a decoded transcript;
   * it is that transcript trimmed, so it has no whitespace at either end, and it is
   * not a deny-listed phrase.
   */
  lemma OkIsTrimmedTranscript(reply: Reply)
    requires Transcribe(reply).Ok?
    ensures reply.Answered? && IsSuccess(reply.status) && reply.decoded.Ok?
    ensures Transcribe(reply).value == Trim(reply.decoded.value)
    ensures !IsHallucination(Transcribe(reply).value)
    ensures var t := Transcribe(reply).value; t == [] || (!IsWhitespace(t[0]) && !IsWhitespace(t[|t| - 1]))
  {
    var raw := reply.decoded.value;
    assert Transcribe(reply) == FilterText(raw);
  }

  /**
   * A non-success status is classified and never reaches the filter: the error is the
   * classification, which is never the no-speech message.
   */
  lemma FailureNeverFiltered(status: nat, reason: Option<string>, body: string, decoded: Result<string>)
    requires !IsSuccess(status)
    ensures Transcribe(Answered(status, reason, body, decoded)) == Err(ClassifyFailure(status, reason, body))
    ensures ClassifyFailure(status, reason, body) != NoSpeechMessage
  {
    var msg := ClassifyFailure(status, reason, body);
    assert NoSpeechMessage[0] == 'N';
    if status == 429 || Contains(body, "insufficient_quota") {
      assert msg[0] == 'O';
    } else if status == 401 {
      assert msg[0] == 'I';
    } else {
      assert msg[..11] == "API error (";
      assert msg[0] == 'A';
    }
  }

  /** A success status with a deny-listed transcript, whatever its case and surrounding whitespace, is rejected. */
  lemma HallucinationRejected(status: nat, reason: Option<string>, body: string, raw: string)
    requires IsSuccess(status) && IsHallucination(Trim(raw))
    ensures Transcribe(Answered(status, reason, body, Ok(raw))) == Err(NoSpeechMessage)
  {
  }

  /**
   * A deny-listed phrase in any ASCII case, with any whitespace around it, is
   * rejected.
   */
  lemma HallucinationIgnoresCaseAndSpace(i: nat, pre: string, v: string, post: string)
    requires i < |Hallucinations| && EqIgnoreAsciiCase(v, Hallucinations[i])
    requires forall k :: 0 <= k < |pre| ==> IsWhitespace(pre[k])
    requires forall k :: 0 <= k < |post| ==> IsWhitespace(post[k])
    ensures FilterText(pre + v + post) == Err(NoSpeechMessage)
  {
    var h := Hallucinations[i];
    assert AsciiLower(v[0]) == AsciiLower(h[0]);
    assert AsciiLower(v[|v| - 1]) == AsciiLower(h[|h| - 1]);
    TrimSurrounded(pre, v, post);
    assert EqIgnoreAsciiCase(Trim(pre + v + post), Hallucinations[i]);
  }

  /** Example: case and surrounding whitespace are ignored. */
  lemma FilterExampleSpaced()
    ensures FilterText("  " + "Thank You." + " \n") == Err(NoSpeechMessage)
  {
    assert EqIgnoreAsciiCase("Thank You.", Hallucinations[2]);
    HallucinationIgnoresCaseAndSpace(2, "  ", "Thank You.", " \n");
  }

  /** Example: an upper-case phrase is rejected. */
  lemma FilterExampleUpper()
    ensures FilterText("YOU") == Err(NoSpeechMessage)
  {
    assert EqIgnoreAsciiCase("YOU", Hallucinations[0]);
    HallucinationIgnoresCaseAndSpace(0, "", "YOU", "");
    assert "" + "YOU" + "" == "YOU";
  }

  /** Example: a phrase followed by another word passes. */
  lemma FilterExamplePasses()
    ensures FilterText("you know") == Ok("you know")
  {
    PhrasePlusWordsPasses(0, "know");
    assert Hallucinations[0] + " " + "know" == "you know";
  }

  /**
   * The filter is exact: a deny-listed phrase followed by a space and further words
   * is returned as the transcript.
   */
  lemma PhrasePlusWordsPasses(i: nat, words: string)
    requires i < |Hallucinations|
    requires words != [] && !IsWhitespace(words[|words| - 1])
    ensures FilterText(Hallucinations[i] + " " + words) == Ok(Hallucinations[i] + " " + words)
  {
    var h := Hallucinations[i];
    var t := h + " " + words;
    assert t[0] == h[0];
    assert t[|t| - 1] == words[|words| - 1];
    TrimOfTrimmed(t);
    forall j | 0 <= j < |Hallucinations|
      ensures !EqIgnoreAsciiCase(t, Hallucinations[j])
    {
      var g := Hallucinations[j];
      if |g| == |t| {
        assert t[|h|] == ' ';
        if i == 1 || i == 2 {
          assert AsciiLower(t[5]) != AsciiLower(g[5]);
        } else {
          assert AsciiLower(t[0]) != AsciiLower(g[0]);
        }
      }
    }
  }
}
