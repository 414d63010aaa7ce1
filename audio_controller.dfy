/** AudioController.transcribeAudio: the decision from the upload and the
    two service calls to the HTTP status and body. */
module AudioController {
  import opened Wrappers
  import opened JavaLang
  import opened Json
  import opened SpeechToTextService

  /** The reply: status code and plain-text body. */
  datatype Response = Response(status: nat, body: string)

  /** The multipart upload as the controller reads it: `file.isEmpty()`, and
      `file.getBytes()`, which may throw. */
  datatype Upload = Upload(isEmpty: bool, bytes: Result<seq<JavaByte>, Exception>)

  /** `speechToTextService.transcribe(audioData)`; its result may be null. */
  type TranscribeCall = seq<JavaByte> -> Result<Option<string>, Exception>

  /** `speechToTextService.getGeminiResponse(transcript, geminiApiKey)` */
  type GenerateCall = (string, Option<string>) -> Result<string, Exception>

  const ProcessingErrorPrefix: string := "Error processing audio file: "
  const GenerationErrorPrefix: string := "Error generating Gemini response: "

  /** The two catch clauses: an IOException is reported as a processing
      error and every other exception as a generation error, whichever call
      threw it. */
  function ErrorResponse(e: Exception): (resp: Response)
    ensures resp.status == 500
    ensures IsIOException(e) ==> resp.body == ProcessingErrorPrefix + e.message
    ensures !IsIOException(e) ==> resp.body == GenerationErrorPrefix + e.message
  {
    if IsIOException(e) then Response(500, ProcessingErrorPrefix + e.message)
    else Response(500, GenerationErrorPrefix + e.message)
  }

  /** `transcribeAudio(file)`. An empty upload is refused before any call;
      a blank or null transcript gets the fixed 200 reply without calling
      generation; otherwise generation gets the untrimmed transcript and the
      configured key, and its text is the 200 body verbatim. Any exception
      on the way is a 500. */
  function TranscribeAudio(file: Upload, geminiApiKey: Option<string>,
                           transcribe: TranscribeCall, generate: GenerateCall): (resp: Response)
    ensures resp.status == 200 || resp.status == 400 || resp.status == 500
    ensures resp.status == 400 <==> file.isEmpty
    ensures file.isEmpty ==> resp == Response(400, "No file uploaded")
    ensures !file.isEmpty && file.bytes.Failure? ==> resp == ErrorResponse(file.bytes.error)
    ensures !file.isEmpty && file.bytes.Success? ==>
      match transcribe(file.bytes.value)
      case Failure(e) => resp == ErrorResponse(e)
      case Success(transcript) =>
        if IsBlank(transcript) then resp == Response(200, "Could not transcribe audio.")
        else match generate(transcript.value, geminiApiKey)
          case Failure(e) => resp == ErrorResponse(e)
          case Success(text) => resp == Response(200, text)
  {
    if file.isEmpty then Response(400, "No file uploaded")
    else match file.bytes
      case Failure(e) => ErrorResponse(e)
      case Success(audioData) =>
        match transcribe(audioData)
        case Failure(e) => ErrorResponse(e)
        case Success(transcript) =>
          if transcript.None? || Trim(transcript.value) == [] then Response(200, "Could not transcribe audio.")
          else match generate(transcript.value, geminiApiKey)
            case Failure(e) => ErrorResponse(e)
            case Success(text) => Response(200, text)
  }

  /** Whatever the services would do, an empty upload gets the same reply:
      neither is called. */
  lemma EmptyUploadCallsNoService(file: Upload, key: Option<string>,
                                  t1: TranscribeCall, t2: TranscribeCall,
                                  g1: GenerateCall, g2: GenerateCall)
    requires file.isEmpty
    ensures TranscribeAudio(file, key, t1, g1) == TranscribeAudio(file, key, t2, g2)
  {
  }

  /** A 500 body always starts with one of the two fixed prefixes, and the
      prefix says only whether the exception was an IOException. */
  lemma ServerErrorBody(file: Upload, key: Option<string>, transcribe: TranscribeCall, generate: GenerateCall)
    requires TranscribeAudio(file, key, transcribe, generate).status == 500
    ensures var body := TranscribeAudio(file, key, transcribe, generate).body;
      (|body| >= |ProcessingErrorPrefix| && body[..|ProcessingErrorPrefix|] == ProcessingErrorPrefix) ||
      (|body| >= |GenerationErrorPrefix| && body[..|GenerationErrorPrefix|] == GenerationErrorPrefix)
  {
    var resp := TranscribeAudio(file, key, transcribe, generate);
    var e: Exception :|
      resp == ErrorResponse(e);
    assert (ProcessingErrorPrefix + e.message)[..|ProcessingErrorPrefix|] == ProcessingErrorPrefix;
    assert (GenerationErrorPrefix + e.message)[..|GenerationErrorPrefix|] == GenerationErrorPrefix;
  }

  /** The wording does not follow the failing stage: a provider failure in
      generation is reported as an audio processing error. */
  lemma GenerationFailureReportedAsProcessing(file: Upload, key: Option<string>, transcribe: TranscribeCall,
                                              generate: GenerateCall, m: string)
    requires !file.isEmpty && file.bytes.Success?
    requires transcribe(file.bytes.value).Success? && !IsBlank(transcribe(file.bytes.value).value)
    requires generate(transcribe(file.bytes.value).value.value, key) == Failure(IOException(m))
    ensures TranscribeAudio(file, key, transcribe, generate) == Response(500, ProcessingErrorPrefix + m)
  {
  }

  /** ... and a missing speech token, raised by transcribe before any call,
      is reported as a generation error. */
  lemma MissingTokenReportedAsGeneration(file: Upload, key: Option<string>, transcribe: TranscribeCall,
                                         generate: GenerateCall)
    requires !file.isEmpty && file.bytes.Success?
    requires transcribe(file.bytes.value) == Failure(IllegalStateException("Wit.ai token is not configured"))
    ensures TranscribeAudio(file, key, transcribe, generate) ==
      Response(500, GenerationErrorPrefix + "Wit.ai token is not configured")
  {
  }

  /** Wired to the modelled getGeminiResponse, a blank Gemini key turns a
      usable transcript into a 500 that names the key. */
  lemma BlankGeminiKeyReply(file: Upload, key: Option<string>, transcribe: TranscribeCall,
                            config: Config, send: GeminiRequest -> HttpOutcome,
                            parse: string -> Result<map<string, Json>, string>, render: Json -> string)
    requires !file.isEmpty && file.bytes.Success?
    requires transcribe(file.bytes.value).Success? && !IsBlank(transcribe(file.bytes.value).value)
    requires IsBlank(key)
    ensures TranscribeAudio(file, key, transcribe,
                            (t, k) => GetGeminiResponse(config, t, k, send, parse, render)) ==
      Response(500, GenerationErrorPrefix + "Gemini API key is not configured")
  {
  }
}
