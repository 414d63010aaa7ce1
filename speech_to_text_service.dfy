/** SpeechToTextService: `transcribe` (configuration and input guards, the
    call to the speech provider, then the scan of its answer) and
    `getGeminiResponse` (key guard, request URL and payload, the call to the
    generation provider, and the extraction of the generated text). */
module SpeechToTextService {
  import opened Wrappers
  import opened JavaLang
  import opened Json
  import opened TranscriptScan

  /** A Java `byte`. */
  type JavaByte = b: int | -128 <= b < 128

  /** The service's configured fields (`wit.ai.token`, `wit.ai.api.url`,
      `gemini.api.url`); the token may be missing. */
  datatype Config = Config(witAiToken: Option<string>, witAiApiUrl: string, geminiApiUrl: string)

  /** What `restTemplate.exchange` does with a request: it throws (a transport
      failure, or a 4xx/5xx reply under the default error handler), or it
      returns a status code and a body. */
  datatype HttpOutcome = Thrown(message: string) | Reply(status: nat, body: string)

  /** `response.getStatusCode().is2xxSuccessful()` */
  predicate IsSuccessReply(outcome: HttpOutcome) {
    outcome.Reply? && 200 <= outcome.status < 300
  }

  /** The IOException a provider call turns into, for the provider named
      `api` ("Wit.ai Speech API" or "Gemini API"); None for a 2xx reply. */
  function ProviderError(api: string, outcome: HttpOutcome): (r: Option<Exception>)
    ensures r.None? <==> IsSuccessReply(outcome)
    ensures r.Some? ==> r.value.IOException?
    ensures r.Some? && outcome.Thrown? ==> r.value.message == api + " error: " + outcome.message
    ensures r.Some? && outcome.Reply? ==>
      r.value.message == api + " error: HTTP " + Decimal(outcome.status) + " - " + outcome.body
  {
    match outcome
    case Thrown(m) => Some(IOException(api + " error: " + m))
    case Reply(status, body) =>
      if 200 <= status < 300 then None
      else Some(IOException(api + " error: HTTP " + Decimal(status) + " - " + body))
  }

  /** The request transcribe sends: the raw audio, typed `audio/wav`, with
      the trimmed token as a bearer credential. */
  datatype WitRequest = WitRequest(url: string, authorization: string, contentType: string, body: seq<JavaByte>)

  function WitRequestFor(config: Config, audio: seq<JavaByte>): (req: WitRequest)
    requires !IsBlank(config.witAiToken)
    ensures req.body == audio && req.url == config.witAiApiUrl
    ensures req.authorization == "Bearer " + Trim(config.witAiToken.value)
    ensures req.contentType == "audio/wav"
    ensures |req.authorization| >= 7 && req.authorization[..7] == "Bearer " && Trim(req.authorization[7..]) == req.authorization[7..]
  {
    var token := Trim(config.witAiToken.value);
    TrimIdempotent(token);
    WitRequest(config.witAiApiUrl, "Bearer " + token, "audio/wav", audio)
  }

  /** trim leaves an already trimmed string alone. */
  lemma TrimIdempotent(s: string)
    requires s == [] || (!IsTrimmed(s[0]) && !IsTrimmed(s[|s| - 1]))
    ensures Trim(s) == s
  {
    if s != [] {
      assert TrimStart(s) == 0;
    }
  }

  /** `transcribe(audioData)`. The token is checked before the audio, and
      neither failing guard depends on the provider; otherwise a provider
      failure is an IOException, and a 2xx body yields the selection over the
      objects it holds: the first final text, else the last text, else "". */
  method Transcribe(config: Config, audioData: Option<seq<JavaByte>>,
                    send: WitRequest -> HttpOutcome, decode: Decoder)
    returns (r: Result<string, Exception>)
    ensures IsBlank(config.witAiToken) ==>
      r == Failure(IllegalStateException("Wit.ai token is not configured"))
    ensures !IsBlank(config.witAiToken) && (audioData.None? || audioData.value == []) ==>
      r == Failure(IllegalArgumentException("Audio data is empty"))
    ensures !IsBlank(config.witAiToken) && audioData.Some? && audioData.value != [] ==>
      var outcome := send(WitRequestFor(config, audioData.value));
      r == match ProviderError("Wit.ai Speech API", outcome)
           case Some(e) => Failure(e)
           case None => Success(Select("", Updates(outcome.body, 0, decode)))
  {
    if IsBlank(config.witAiToken) {
      return Failure(IllegalStateException("Wit.ai token is not configured"));
    }
    if audioData.None? || audioData.value == [] {
      return Failure(IllegalArgumentException("Audio data is empty"));
    }
    var response := send(WitRequestFor(config, audioData.value));
    var error := ProviderError("Wit.ai Speech API", response);
    if error.Some? {
      return Failure(error.value);
    }
    var transcript := ExtractTranscript(response.body, decode);
    return Success(transcript);
  }

  /** The fixed text around the prompt in the generation payload. */
  const PayloadPrefix: string := "{\"contents\":[{\"parts\":[{\"text\":\""
  const PayloadSuffix: string := "\"}]}]}"

  /** `prompt.replace("\"", "\\\"")`: a backslash goes before every quote and
      every other char is copied. */
  function EscapeQuotes(p: string): (r: string)
    ensures |r| == |p| + Count(p, '"')
    ensures r != [] ==> r[0] != '"'
    ensures forall i :: 0 <= i < |r| && r[i] == '"' ==> 0 < i && r[i - 1] == '\\'
  {
    if p == [] then []
    else (if p[0] == '"' then "\\\"" else [p[0]]) + EscapeQuotes(p[1..])
  }

  /** Undoes EscapeQuotes: drops the backslash of every `\"` pair. */
  function UnescapeQuotes(r: string): string {
    if r == [] then []
    else if |r| >= 2 && r[0] == '\\' && r[1] == '"' then ['"'] + UnescapeQuotes(r[2..])
    else [r[0]] + UnescapeQuotes(r[1..])
  }

  /** Escaping loses nothing: the prompt can be read back from it. */
  lemma {:induction false} UnescapeEscape(p: string)
    ensures UnescapeQuotes(EscapeQuotes(p)) == p
  {
    if p != [] {
      var rest := EscapeQuotes(p[1..]);
      UnescapeEscape(p[1..]);
      if p[0] == '"' {
        assert EscapeQuotes(p) == "\\\"" + rest;
        assert EscapeQuotes(p)[2..] == rest;
      } else {
        assert EscapeQuotes(p) == [p[0]] + rest;
        assert EscapeQuotes(p)[1..] == rest;
      }
    }
  }

  /** The request getGeminiResponse sends. */
  datatype GeminiRequest = GeminiRequest(url: string, contentType: string, payload: string)

  /** The guard and request construction of getGeminiResponse: the key is
      checked first; the URL carries the trimmed key as a query parameter;
      the payload is one message whose text is the escaped prompt. */
  function GeminiRequestFor(geminiApiUrl: string, prompt: string, apiKey: Option<string>): (r: Result<GeminiRequest, Exception>)
    ensures r.Failure? <==> IsBlank(apiKey)
    ensures r.Failure? ==> r.error == IllegalStateException("Gemini API key is not configured")
    ensures r.Success? ==> r.value.url == geminiApiUrl + "?key=" + Trim(apiKey.value)
    ensures r.Success? ==> r.value.contentType == "application/json"
    ensures r.Success? ==>
      var n := |r.value.payload|;
      && n == |PayloadPrefix| + |prompt| + Count(prompt, '"') + |PayloadSuffix|
      && r.value.payload[..|PayloadPrefix|] == PayloadPrefix
      && r.value.payload[n - |PayloadSuffix|..] == PayloadSuffix
      && UnescapeQuotes(r.value.payload[|PayloadPrefix|..n - |PayloadSuffix|]) == prompt
  {
    if IsBlank(apiKey) then Failure(IllegalStateException("Gemini API key is not configured"))
    else
      var payload := PayloadPrefix + EscapeQuotes(prompt) + PayloadSuffix;
      UnescapeEscape(prompt);
      assert payload[|PayloadPrefix|..|payload| - |PayloadSuffix|] == EscapeQuotes(prompt);
      Success(GeminiRequest(geminiApiUrl + "?key=" + Trim(apiKey.value), "application/json", payload))
  }

  /** The path the generated text is read from: candidates[0].content.parts[0]. */
  const FirstPartPath: seq<Step> := [Key("candidates"), Index(0), Key("content"), Key("parts"), Index(0)]

  /** Following FirstPartPath one step at a time. */
  lemma LookupFirstPart(obj: map<string, Json>)
    ensures Lookup(JObject(obj), FirstPartPath) ==
      if "candidates" in obj && obj["candidates"].JArray? && |obj["candidates"].items| > 0
      then Lookup(obj["candidates"].items[0], FirstPartPath[2..])
      else None
    ensures forall v :: (Lookup(v, FirstPartPath[2..]) ==
      if v.JObject? && "content" in v.members
      then Lookup(v.members["content"], FirstPartPath[3..])
      else None)
    ensures forall v :: (Lookup(v, FirstPartPath[3..]) ==
      if v.JObject? && "parts" in v.members && v.members["parts"].JArray? && |v.members["parts"].items| > 0
      then Some(v.members["parts"].items[0])
      else None)
  {
    assert FirstPartPath[1..][1..] == FirstPartPath[2..];
    assert FirstPartPath[2..][1..] == FirstPartPath[3..];
    var last: seq<Step> := [Index(0)];
    assert FirstPartPath[3..][1..] == last;
    assert last[1..] == [];
    forall v: Json
      ensures Lookup(v, FirstPartPath[3..]) ==
        if v.JObject? && "parts" in v.members && v.members["parts"].JArray? && |v.members["parts"].items| > 0
        then Some(v.members["parts"].items[0])
        else None
    {
      if v.JObject? && "parts" in v.members {
        var parts := v.members["parts"];
        assert Lookup(v, FirstPartPath[3..]) == Lookup(parts, last);
        if parts.JArray? && |parts.items| > 0 {
          assert Lookup(parts, last) == Lookup(parts.items[0], []);
        }
      }
    }
  }

  /** The extraction at the end of getGeminiResponse: "" without a
      `candidates` member; otherwise the `text` of candidates[0].content.parts[0]
      ("" when that part has none), and a JSONException when any step of
      the path is missing or of the wrong kind. */
  function CandidateText(obj: map<string, Json>, render: Json -> string): (r: Result<string, Exception>)
    ensures "candidates" !in obj ==> r == Success("")
    ensures "candidates" in obj ==>
      (r.Success? <==> Lookup(JObject(obj), FirstPartPath).Some? && Lookup(JObject(obj), FirstPartPath).value.JObject?)
    ensures "candidates" in obj && r.Success? ==>
      r.value == OptString(Lookup(JObject(obj), FirstPartPath).value.members, "text", "", render)
    ensures r.Failure? ==> r.error.JSONException?
  {
    LookupFirstPart(obj);
    if "candidates" !in obj then Success("")
    else
      var candidates :- GetArray(obj, "candidates");
      var first :- GetFirstObject(candidates);
      var content :- GetObject(first, "content");
      var parts :- GetArray(content, "parts");
      var part :- GetFirstObject(parts);
      Success(OptString(part, "text", "", render))
  }

  /** `getGeminiResponse(prompt, apiKey)`. `parse` is `new JSONObject(body)`,
      giving the members or the JSONException's message. The exception class
      tells the cause: IllegalStateException exactly for a blank key,
      IOException exactly for a provider failure, JSONException for a body of
      the wrong shape. */
  function GetGeminiResponse(config: Config, prompt: string, apiKey: Option<string>,
                             send: GeminiRequest -> HttpOutcome,
                             parse: string -> Result<map<string, Json>, string>,
                             render: Json -> string): (r: Result<string, Exception>)
    ensures r.Failure? && r.error.IllegalStateException? <==> IsBlank(apiKey)
    ensures IsBlank(apiKey) ==> r == Failure(IllegalStateException("Gemini API key is not configured"))
    ensures !IsBlank(apiKey) ==>
      var outcome := send(GeminiRequestFor(config.geminiApiUrl, prompt, apiKey).value);
      && (r.Failure? && r.error.IOException? <==> !IsSuccessReply(outcome))
      && (!IsSuccessReply(outcome) ==> r == Failure(ProviderError("Gemini API", outcome).value))
      && (IsSuccessReply(outcome) && parse(outcome.body).Failure? ==>
            r == Failure(JSONException(parse(outcome.body).error)))
      && (IsSuccessReply(outcome) && parse(outcome.body).Success? ==>
            r == CandidateText(parse(outcome.body).value, render))
  {
    var request :- GeminiRequestFor(config.geminiApiUrl, prompt, apiKey);
    var outcome := send(request);
    match ProviderError("Gemini API", outcome)
    case Some(e) => Failure(e)
    case None =>
      match parse(outcome.body)
      case Failure(m) => Failure(JSONException(m))
      case Success(obj) => CandidateText(obj, render)
  }
}
