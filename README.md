# Voice assistant core, modelled in Dafny

The voice assistant records speech in the browser and encodes it as a WAV
file (`encodeWAV` in `frontend/src/App.js`). It uploads the file to a Spring
controller (`AudioController.transcribeAudio`). The controller sends the
audio to the Wit.ai speech API and reads a transcript out of its reply
(`SpeechToTextService.transcribe`). It then passes the transcript to the
Gemini generation API (`SpeechToTextService.getGeminiResponse`) and returns
the generated text.

This project models the logic in that path and proves properties of it:

- `TranscriptScan` holds the tolerant scanner over the Wit.ai reply. The reply is a run of JSON objects written back to back.
  - The scan finds each `{` and walks to its matching `}`, counting brace depth outside quoted regions. A quote toggles the quoted state, and escapes are not recognised.
  - Each slice goes to an abstract decoder (`text`, `is_final`).
  - The scan keeps the latest non-empty text and stops at the first object whose text is non-empty and `is_final` is true.
  - The loop is written as the method `ExtractTranscript`.
  - It is proved equal to a recursive specification (`ScanFrom`) and to a loop-free selection over the stream of decoded objects (`Select` over `Updates`).
- `SpeechToTextService` holds the guards and request construction of both service calls:
  - the token guard before the audio guard;
  - the provider error messages;
  - the Gemini key guard, URL and quote-escaping payload;
  - the extraction of `candidates[0].content.parts[0].text`, over a small JSON datatype (`Json`).
- `AudioController` holds the decision from the upload and the two service outcomes to an HTTP status and body. An IOException is reported as "Error processing audio file: …" and every other exception as "Error generating Gemini response: …". This holds whichever call raised it, so the wording does not name the stage that failed.
- `WavEncoder` holds `encodeWAV` and `writeString`, following the RIFF WAVE form of the Microsoft/IBM "Multimedia Programming Interface and Data Specifications 1.0".
  - The buffer is an `array` of bytes, filled in place by the same sequence of `setUint8`/`setUint16`/`setUint32`/`setInt16` writes as the source.
  - Each write method states the bytes it stores and that every other byte is unchanged.
  - `EncodeWav` is proved to produce exactly `WavBytes(a)`. It is the 44-byte canonical PCM header followed by the interleaved little-endian int16 samples.
  - Lemmas read every header field and every sample back out of those bytes.
- `JavaLang` and `Json` hold the parts of `java.lang` and `org.json` the backend relies on:
  - exception classes;
  - `String.trim` (chars up to U+0020);
  - `Integer.toString`;
  - `optString` and the throwing getters.

Calls into code outside the model are function-typed parameters:

- the HTTP exchange (`send`);
- the JSON object decoder of the scan (`decode`);
- `new JSONObject(body)` (`parse`);
- org.json's rendering of array and object values by `optString` (`render`); booleans and numbers are rendered by the model itself;
- the two service calls seen from the controller (`transcribe`, `generate`).

## Model

| member | source | states |
|---|---|---|
| SpeechToTextService.Transcribe | backend/src/main/java/com/sai/voiceassistant/SpeechToTextService.java:23-83 | A blank or null token fails with IllegalStateException "Wit.ai token is not configured", even when the audio is empty as well. Otherwise null or empty audio fails with IllegalArgumentException "Audio data is empty". Neither guard depends on the provider. A provider failure is its Wit.ai IOException. A 2xx body yields the selection over the decoded objects. |
| SpeechToTextService.WitRequestFor | backend/src/main/java/com/sai/voiceassistant/SpeechToTextService.java:30-34 | The request goes to the configured URL with the audio as its body. Its Authorization is exactly "Bearer " + the trimmed token, so nothing in the token is left to trim, and its content type is `audio/wav`. |
| SpeechToTextService.ProviderError | backend/src/main/java/com/sai/voiceassistant/SpeechToTextService.java:36-43 | There is no error exactly for a 2xx reply; otherwise the result is an IOException. A thrown call gives "<api> error: <message>". A non-2xx reply gives "<api> error: HTTP <decimal status> - <body>". |
| SpeechToTextService.EscapeQuotes | backend/src/main/java/com/sai/voiceassistant/SpeechToTextService.java:92 | The escaped prompt is longer than the prompt by its number of quotes. Every quote in it is preceded by a backslash, and it does not start with a quote. |
| SpeechToTextService.UnescapeEscape | backend/src/main/java/com/sai/voiceassistant/SpeechToTextService.java:92 | The escaping loses nothing: undoing the `\"` pairs gives back the prompt. |
| SpeechToTextService.GeminiRequestFor | backend/src/main/java/com/sai/voiceassistant/SpeechToTextService.java:86-92 | It fails exactly when the key is null or blank, with IllegalStateException "Gemini API key is not configured". Otherwise the URL is the configured URL + "?key=" + the trimmed key, and the content type is JSON. The payload is the fixed prefix, then the escaped prompt (its length is the prompt's plus its quotes, and it reads back as the prompt), then the fixed suffix. |
| SpeechToTextService.CandidateText | backend/src/main/java/com/sai/voiceassistant/SpeechToTextService.java:103-112 | With no `candidates` member the result is "". Otherwise it succeeds exactly when the path candidates[0].content.parts[0] leads to an object, and then gives that object's optString("text", ""). Every failure is a JSONException. |
| SpeechToTextService.LookupFirstPart | backend/src/main/java/com/sai/voiceassistant/SpeechToTextService.java:105-109 | It follows the path candidates[0].content.parts[0] one step at a time, each step requiring a member or element of the right kind. |
| SpeechToTextService.GetGeminiResponse | backend/src/main/java/com/sai/voiceassistant/SpeechToTextService.java:85-113 | The failure is an IllegalStateException exactly for a blank key. Otherwise it is an IOException exactly when the provider call fails (with the Gemini error message). It is a JSONException when the body does not parse, and otherwise the result is the candidate extraction of the parsed body. |
| SpeechToTextService.TrimIdempotent | backend/src/main/java/com/sai/voiceassistant/SpeechToTextService.java:32 | Trimming a string that starts and ends with a kept character changes nothing. |
| AudioController.TranscribeAudio | backend/src/main/java/com/sai/voiceassistant/AudioController.java:26-43 | The status is always 200, 400 or 500, and it is 400 exactly for an empty upload, with "No file uploaded". A null or blank transcript gives 200 "Could not transcribe audio." without calling generation. Otherwise generation gets the untrimmed transcript and the key, and its text is the 200 body verbatim. Every exception becomes the 500 of its class. |
| AudioController.ErrorResponse | backend/src/main/java/com/sai/voiceassistant/AudioController.java:38-42 | The status is 500. An IOException gives "Error processing audio file: " + message, and every other exception gives "Error generating Gemini response: " + message. |
| AudioController.EmptyUploadCallsNoService | backend/src/main/java/com/sai/voiceassistant/AudioController.java:27-28 | An empty upload gets the same reply whatever the two services would do, so neither is called. |
| AudioController.ServerErrorBody | backend/src/main/java/com/sai/voiceassistant/AudioController.java:38-42 | Every 500 body starts with one of the two fixed prefixes. |
| AudioController.GenerationFailureReportedAsProcessing | backend/src/main/java/com/sai/voiceassistant/AudioController.java:36-39 | An IOException raised by the generation call is reported as "Error processing audio file: …". |
| AudioController.MissingTokenReportedAsGeneration | backend/src/main/java/com/sai/voiceassistant/AudioController.java:32-41 | The speech token guard, raised by transcribe before any call, is reported as "Error generating Gemini response: Wit.ai token is not configured". |
| AudioController.BlankGeminiKeyReply | backend/src/main/java/com/sai/voiceassistant/AudioController.java:36-41 | With the modelled getGeminiResponse as the generation call, a blank key turns a usable transcript into 500 "Error generating Gemini response: Gemini API key is not configured". |
| TranscriptScan.ExtractTranscript | backend/src/main/java/com/sai/voiceassistant/SpeechToTextService.java:44-82 | The loop as written returns the recursive scan ScanFrom(respStr, 0, ""). Equivalently it returns the first final text of the decoded object stream, else its last non-empty text, else "". |
| TranscriptScan.ScanSelects | backend/src/main/java/com/sai/voiceassistant/SpeechToTextService.java:45-82 | The scan from any index and transcript equals the selection over the objects from that index on: first final text, else last text, else the transcript so far. |
| TranscriptScan.ScanEmptyIffNoText | backend/src/main/java/com/sai/voiceassistant/SpeechToTextService.java:45-82 | In both directions, the transcript is "" exactly when no decoded object has non-empty text. |
| TranscriptScan.FinalIgnoresRest | backend/src/main/java/com/sai/voiceassistant/SpeechToTextService.java:68-72 | Once the scan reaches a final object, appending any text to the reply leaves its result unchanged: content after the final object is never inspected. |
| TranscriptScan.FirstFinal | backend/src/main/java/com/sai/voiceassistant/SpeechToTextService.java:68-72 | It finds the first decoded object with non-empty text and is_final true: no earlier one qualifies, and None means none does. |
| TranscriptScan.LastText | backend/src/main/java/com/sai/voiceassistant/SpeechToTextService.java:67-69 | It finds the last decoded object with non-empty text: no later one has text, and None means none does. |
| TranscriptScan.NextOpen | backend/src/main/java/com/sai/voiceassistant/SpeechToTextService.java:48-49 | indexOf('{', idx): a found index is at or after idx and holds '{'. |
| TranscriptScan.NextOpenFirst | backend/src/main/java/com/sai/voiceassistant/SpeechToTextService.java:48-49 | No '{' stands between idx and the index found, nor anywhere after idx when none is found. |
| TranscriptScan.InStringIsQuoteParity | backend/src/main/java/com/sai/voiceassistant/SpeechToTextService.java:52-55 | The in-string flag after reading s[start..k] is exactly the parity of the quotes read, since escapes are not recognised. |
| TranscriptScan.QuotedBraceIgnored | backend/src/main/java/com/sai/voiceassistant/SpeechToTextService.java:55-59 | A brace read after an odd number of quotes does not change the depth. |
| TranscriptScan.CloseFrom | backend/src/main/java/com/sai/voiceassistant/SpeechToTextService.java:53-62 | A found index holds depth 0 past the start, the inner loop's break condition. |
| TranscriptScan.MatchClose | backend/src/main/java/com/sai/voiceassistant/SpeechToTextService.java:50-63 | The match of the '{' at start lies past start, inside the input, and has depth 0 over s[start..end]. |
| TranscriptScan.MatchCloseFirst | backend/src/main/java/com/sai/voiceassistant/SpeechToTextService.java:53-63 | The match is the first index past start where the depth is 0. With no match, the depth is never 0 past start before the input ends (the unbalanced trailing object). |
| TranscriptScan.MatchIsClosingBrace | backend/src/main/java/com/sai/voiceassistant/SpeechToTextService.java:53-64 | The matching index holds a '}', and the depth stays at least 1 from the '{' up to it, so the slice s[start..end] inclusive is a whole object. |
| TranscriptScan.NextObject | backend/src/main/java/com/sai/voiceassistant/SpeechToTextService.java:47-64 | One outer iteration. When it finds an object, its start is indexOf('{', idx) and its end is that brace's match, with idx <= start < end < length. It returns None exactly when idx is past the end, no '{' is left, or that '{' is never closed. |
| TranscriptScan.Spans | backend/src/main/java/com/sai/voiceassistant/SpeechToTextService.java:47-81 | The objects cut out from idx on lie at or after idx and inside the input. |
| TranscriptScan.SpansMatched | backend/src/main/java/com/sai/voiceassistant/SpeechToTextService.java:48-64 | Each object cut out starts at a '{' and ends at that brace's match. |
| TranscriptScan.SpansOrdered | backend/src/main/java/com/sai/voiceassistant/SpeechToTextService.java:77 | The objects come in order without overlap, because scanning resumes at end + 1, so an object nested in another is never cut out on its own. |
| TranscriptScan.SpansGaps | backend/src/main/java/com/sai/voiceassistant/SpeechToTextService.java:48 | No '{' stands in the text skipped before the first object or between two consecutive objects. |
| TranscriptScan.SpansStop | backend/src/main/java/com/sai/voiceassistant/SpeechToTextService.java:47-49 | After the last object listed, the outer loop finds no further object, so the list is complete. |
| TranscriptScan.UpdatesAt | backend/src/main/java/com/sai/voiceassistant/SpeechToTextService.java:64-66 | There is one decoded update per object, and update i is the decoder applied to the text of object i, braces included. |
| TranscriptScan.NestingPrefix | backend/src/main/java/com/sai/voiceassistant/SpeechToTextService.java:53-62 | The inner loop's state depends only on the characters read so far. |
| TranscriptScan.NextObjectPrefix | backend/src/main/java/com/sai/voiceassistant/SpeechToTextService.java:48-62 | An object found in a reply is found unchanged when more text is appended. |
| WavEncoder.EncodeWav | frontend/src/App.js:55-88 | It returns a fresh buffer of 44 + 2 * samples bytes whose contents are exactly the canonical header followed by the interleaved samples. |
| WavEncoder.WriteHeader | frontend/src/App.js:64-76 | Bytes 0-43 hold the header of the recording, and every byte from 44 on is unchanged. |
| WavEncoder.WriteRiffDescriptor | frontend/src/App.js:64-66 | Bytes 0-11 hold "RIFF", the little-endian size 36 + data size, and "WAVE", and the rest is unchanged. |
| WavEncoder.WriteFmtChunk | frontend/src/App.js:67-74 | Bytes 12-35 hold the `fmt ` chunk, and bytes 0-11 and 36 on are unchanged. |
| WavEncoder.WriteDataChunkHead | frontend/src/App.js:75-76 | Bytes 36-43 hold "data" and the little-endian data size, and the rest is unchanged. |
| WavEncoder.WriteSamples | frontend/src/App.js:78-86 | The header bytes are unchanged. From byte 44 on the buffer holds every sample as a little-endian int16, frame by frame and channel by channel, and the final offset equals the buffer length. |
| WavEncoder.WriteString | frontend/src/App.js:89-93 | Bytes offset to offset + length hold the char codes cut to 8 bits, and no other byte changes. |
| WavEncoder.SetUint16 | frontend/src/App.js:69-74 | The two bytes at the offset hold the value, low byte first, and no other byte changes. |
| WavEncoder.SetUint32 | frontend/src/App.js:65-76 | The four bytes at the offset hold the value, least significant byte first, and no other byte changes. |
| WavEncoder.SetInt16 | frontend/src/App.js:84 | The two bytes at the offset hold the two's complement of the sample, low byte first, and no other byte changes. |
| WavEncoder.WavHeaderFields | frontend/src/App.js:60-76 | The file of a recording has length 44 + 2 * samples. "RIFF", "WAVE", "fmt " and "data" sit at 0, 8, 12 and 36. It holds 36 + 2 * samples (the length minus 8) at 4, 16 at 16, 1 (PCM) at 20, and the channel count at 22. It holds the sample rate at 24, sampleRate * numChannels * 2 at 28, numChannels * 2 at 32, 16 at 34 and 2 * samples at 40. |
| WavEncoder.WavSampleAt | frontend/src/App.js:78-85 | Channel ch of frame i reads back, as a little-endian int16, at 44 + 2 * (i * numChannels + ch). |
| WavEncoder.HeaderLayout | frontend/src/App.js:64-76 | Every identifier and numeric field of the 44 header bytes reads back at its offset as the value written. |
| WavEncoder.WavLength | frontend/src/App.js:60-61 | The file is 44 bytes of header plus two bytes per sample, and it starts with the header. |
| WavEncoder.LE32RoundTrip | frontend/src/App.js:65 | A 32-bit little-endian field reads back as the value written. |
| WavEncoder.LE16RoundTrip | frontend/src/App.js:69 | A 16-bit little-endian field reads back as the value written. |
| WavEncoder.Int16RoundTrip | frontend/src/App.js:84 | A sample written as a little-endian int16 reads back as itself. |
| WavEncoder.InterleavedAt | frontend/src/App.js:79-85 | Channel ch of frame i sits at index i * numChannels + ch of the interleaved samples. |
| WavEncoder.PcmBytesAt | frontend/src/App.js:84-85 | A run of samples takes two bytes each, and sample k occupies bytes 2k and 2k + 1. |
| JavaLang.Trim | backend/src/main/java/com/sai/voiceassistant/AudioController.java:33 | String.trim returns the slice between the first and past the last char above U+0020. It starts and ends with such a char when non-empty. |
| JavaLang.TrimEmptyIff | backend/src/main/java/com/sai/voiceassistant/AudioController.java:33 | A string trims to empty exactly when each of its chars is at most U+0020. |
| JavaLang.Decimal | backend/src/main/java/com/sai/voiceassistant/SpeechToTextService.java:42 | `"HTTP " + code` renders the status as a non-empty run of decimal digits with no leading zero. |
| JavaLang.DecimalRoundTrip | backend/src/main/java/com/sai/voiceassistant/SpeechToTextService.java:42 | Reading the rendered digits back gives the status code. |
| Json.OptString | backend/src/main/java/com/sai/voiceassistant/SpeechToTextService.java:110 | optString gives the default for a missing or JSON-null member and the string itself for a string member. It gives "true"/"false" for a boolean, a number's text for a number, and org.json's rendering for an array or object. |
| Json.GetArray | backend/src/main/java/com/sai/voiceassistant/SpeechToTextService.java:105 | getJSONArray succeeds exactly for an array member and returns its items; otherwise it throws a JSONException. |
| Json.GetObject | backend/src/main/java/com/sai/voiceassistant/SpeechToTextService.java:107 | getJSONObject succeeds exactly for an object member and returns its members; otherwise it throws a JSONException. |
| Json.GetFirstObject | backend/src/main/java/com/sai/voiceassistant/SpeechToTextService.java:106 | getJSONObject(0) succeeds exactly when element 0 exists and is an object; otherwise it throws a JSONException. |

## Left out

- The HTTP exchanges through RestTemplate, their HTTP headers and media types, Spring wiring, `@Value` defaults, CORS and multipart parsing are left out. A call is a function parameter. Its outcome is "threw with a message" or "replied with a status and a body", and the request it is given records URL, credential/content type and body.
- Null values the code never tests are left out:
  - A null 2xx body fails at `respStr.length()` in transcribe (SpeechToTextService.java:47) and at `new JSONObject` in getGeminiResponse (:103), and a null prompt fails at `prompt.replace` (:92). Each throws a NullPointerException or JSONException, which the controller reports as "Error generating Gemini response: …".
  - A null exception message and a null body of a non-2xx reply are printed as "null" by string concatenation.
- The JSON object parsing of `org.json` is an abstract parameter. Two abstractions follow:
  - the scan's decoder gives `text` and `is_final` or nothing;
  - `new JSONObject(body)` gives the members or an error message.
  - The rendering of arrays and objects by `optString` is a parameter too.
- The texts of JSONException messages follow org.json's wording only approximately. Only the exception class is relied on.
- `optBoolean("is_final", false)` coercion rules (such as the string "true") are part of the abstract decoder.
- The float clamping and scaling of samples in `encodeWAV` (App.js:81-83) is floating-point arithmetic. Samples are taken as already quantised int16 values.
- WavEncoder.EncodeWav: requires that the header fields fit their widths instead of modelling DataView's ToUint16/ToUint32 wrap-around. The requirements are that block align is below 2^16, and that sample rate, byte rate and 36 + data size are below 2^32.
- WavEncoder.WriteString: models `charCodeAt` as the Dafny char code cut to 8 bits. The tags written are ASCII, where a UTF-16 code unit and a Dafny char agree.
- The sample rate of a recording is a natural number. A fractional rate, which ToUint32 would truncate, is not modelled.
- The React UI is left out, as are the browser's recording, decoding and upload (MediaRecorder, getUserMedia, decodeAudioData, `fetch` and its response handling): they are asynchronous browser I/O.
- SpeechToTextServiceTest expects a `googleApiKey` field and a "Google API key is not configured" message. AudioControllerTest expects the transcript as the 200 body. Neither matches the main source, so the model follows the code: the field is the Gemini key, and the body is the generation result.
