# AI quiz tool: configuration, chat gateway and speech recognizer

This project models the service layer of a desktop assistant in Dafny and proves properties of
the model. The assistant answers questions through a chat service (OpenAI, Claude or an
OpenAI-compatible "generic" endpoint) and transcribes questions spoken into the microphone
through a speech service (Azure, Google or Baidu). Three classes make up the modelled core:

- `ConfigManager` holds the settings. Each getter reads a dotted path with a fallback: an older
  `openai.*` path for the OpenAI settings, then a built-in default. Each setter rebinds one
  path.
- `AIService` picks the configured chat provider without regard to case and refuses a blank
  key or URL before sending anything. It builds the JSON body by hand, escaping the user's
  text, sends one POST and reads the answer or the error from the reply's JSON tree.
- `SpeechRecognitionService` keeps a recording flag, the microphone line and the captured
  bytes. On stop it sends the captured audio to the configured speech service and reads the
  transcript. Azure receives the raw bytes, Google the base64 text, and Baidu the base64
  text, its byte count and an access token obtained by a first request.

Files, one module each:

- `wrappers.dfy`: Option and Result.
- `java_lang.dfy`: Java `int`, `trim`, ASCII `toLowerCase`, decimal text of an `int`,
  `Integer.parseInt`, `(int)` narrowing.
- `json_tree.dfy`: Jackson trees and the accessors `has`, `get`, `size`, `asText`, `asInt`.
- `json_text.dfy`: JSON documents as the core writes them, and their compact rendering.
- `http.dfy`: POST requests, outcomes and the exchange record.
- `base64.dfy`: the base64 alphabet and padding of section 4 of RFC 4648.
- `config.dfy`: `ConfigManager`'s accessors, and a `ConfigManager` class whose setters
  reassign its map.
- `ai_service.dfy`: `AIService`.
- `speech.dfy`: recognition, credentials, and a `SpeechRecognitionService` class for the
  recorder.

Modelling choices:

- The network is a function from request to outcome. Each gateway returns its result together
  with the list of requests it issued, so "nothing is sent before the credential check" reads
  `sent == []`.
- The microphone is given as the outcome of acquiring it and the sequence of chunks its reads
  deliver.
- The configuration is a map from paths to values. `ConfPath` names, as data, the paths the
  getters read. `Config.PathTextInjective` proves that distinct paths have distinct dotted
  texts, so keying by `ConfPath` loses nothing.
- A Typesafe getter that throws is an `Err`.
- Chat failures carry the exact Chinese message the source composes. Where the text comes
  from outside the core, as with Typesafe's messages or a `NullPointerException`'s message,
  the model gives `None` instead.

## Model

Source paths below are relative to the repository root.

| member | source | states |
|---|---|---|
| Config.LegacyPathOf | src/main/java/com/aiquiztool/config/ConfigManager.java:269-312 | exactly the five OpenAI getters fall back to a second path; that path is one of the older `openai.*` paths |
| Config.LegacyPathDropsAi | src/main/java/com/aiquiztool/config/ConfigManager.java:269-312 | each OpenAI getter's fallback path is its own path with the leading `ai.` removed |
| Config.DefaultOf | src/main/java/com/aiquiztool/config/ConfigManager.java:261-495 | every default a getter falls back to has the type the getter returns |
| Config.Lookup | src/main/java/com/aiquiztool/config/ConfigManager.java:269-272 | a lookup that succeeds with anything but its default returns a value of the requested type |
| Config.Get | src/main/java/com/aiquiztool/config/ConfigManager.java:261-543 | whatever a getter returns without error has the getter's declared type |
| Config.PathTextInjective | src/main/java/com/aiquiztool/config/ConfigManager.java:261-543 | no two paths the accessors use share a dotted text; in particular no setter path is a legacy path |
| Config.SetThenGet | src/main/java/com/aiquiztool/config/ConfigManager.java:269-276 | after a setter, its getter returns the value set, whatever the legacy path holds |
| Config.LookupPresent | src/main/java/com/aiquiztool/config/ConfigManager.java:269-272 | a lookup whose own path holds a value of its type returns that value, ignoring legacy path and default |
| Config.SetLeavesOthers | src/main/java/com/aiquiztool/config/ConfigManager.java:265-543 | a setter changes the result of no other getter |
| Config.LookupIgnoresOtherPaths | src/main/java/com/aiquiztool/config/ConfigManager.java:269-272 | a lookup reads its own path and its legacy path and nothing else |
| Config.SetTwice | src/main/java/com/aiquiztool/config/ConfigManager.java:274-276 | setting a key twice leaves only the second value |
| Config.DefaultsWhenAbsent | src/main/java/com/aiquiztool/config/ConfigManager.java:261-543 | with its paths absent a getter returns its default, or fails as missing when it has none |
| Config.OpenaiLegacyFallback | src/main/java/com/aiquiztool/config/ConfigManager.java:269-312 | an OpenAI getter reads `ai.openai.*` when present, else `openai.*` when present, else its default |
| Config.DefaultFile | src/main/java/com/aiquiztool/config/ConfigManager.java:67-162 | the default file binds the path of every key to its file value and binds no legacy path |
| Config.DefaultFileAgreesWithGetters | src/main/java/com/aiquiztool/config/ConfigManager.java:74-146 | every getter succeeds on the default file and returns the file's value; where a getter has its own default, the file holds that same value |
| Config.FileValueFits | src/main/java/com/aiquiztool/config/ConfigManager.java:74-146 | each file value has its getter's type and equals the getter's default where there is one |
| Config.ConfigManager.constructor | src/main/java/com/aiquiztool/config/ConfigManager.java:28-30 | the manager starts from the loaded configuration |
| Config.ConfigManager.Write | src/main/java/com/aiquiztool/config/ConfigManager.java:265-543 | a setter replaces the map by the old one with the key's path rebound; the key's getter then returns the value and every other getter returns what it returned before |
| Config.ConfigManager.SetModel | src/main/java/com/aiquiztool/config/ConfigManager.java:315 | `setModel` writes `ai.openai.model` |
| Config.ConfigManager.SetMaxTokens | src/main/java/com/aiquiztool/config/ConfigManager.java:317 | `setMaxTokens` writes `ai.openai.max-tokens` |
| Config.ConfigManager.SetTemperature | src/main/java/com/aiquiztool/config/ConfigManager.java:319 | `setTemperature` writes `ai.openai.temperature` |
| Config.ConfigManager.Read | src/main/java/com/aiquiztool/config/ConfigManager.java:261-543 | definition: a getter on the manager's current map; what a setter does to it is stated by Config.ConfigManager.Write |
| AIService.ReplaceConcat | src/main/java/com/aiquiztool/service/AIService.java:205-211 | a one-character `replace` distributes over concatenation |
| AIService.ReplaceAbsent | src/main/java/com/aiquiztool/service/AIService.java:205-211 | `replace` of a character the text lacks returns the text |
| AIService.EscapeJsonConcat | src/main/java/com/aiquiztool/service/AIService.java:205-211 | the chain of seven replacements distributes over concatenation |
| AIService.EscapeJsonOneChar | src/main/java/com/aiquiztool/service/AIService.java:205-211 | on one character the chain yields that character's escape: no replacement re-escapes what an earlier one produced |
| AIService.EscapeJsonIsMap | src/main/java/com/aiquiztool/service/AIService.java:200-212 | `escapeJson` equals a single left-to-right per-character escape |
| AIService.UnescapeEscapeMap | src/main/java/com/aiquiztool/service/AIService.java:205-211 | reading the per-character escapes back gives the text |
| AIService.EscapeJsonRoundTrip | src/main/java/com/aiquiztool/service/AIService.java:200-212 | undoing the two-character escapes of section 7 of RFC 8259 on `escapeJson`'s output gives its input back |
| AIService.EscapeJsonUnchanged | src/main/java/com/aiquiztool/service/AIService.java:205-211 | a text with none of the seven escaped characters is returned unchanged |
| AIService.EscapeMapNoControls | src/main/java/com/aiquiztool/service/AIService.java:207-211 | the escape leaves no raw backspace, form feed, newline, carriage return or tab |
| AIService.EscapeMapOtherControls | src/main/java/com/aiquiztool/service/AIService.java:205-211 | each other control character survives as often as it occurs |
| AIService.EscapeJsonControls | src/main/java/com/aiquiztool/service/AIService.java:200-212 | `escapeJson`'s output holds none of the five escaped control characters and every other control character as often as the input |
| AIService.OpenAIBodyLayout | src/main/java/com/aiquiztool/service/AIService.java:150-169 | the OpenAI body is the compact text of an object with `model`, `messages` (system then user message, the user text escaped), `max_tokens`, `temperature` and `stream: false`, in that order |
| AIService.ClaudeBodyLayout | src/main/java/com/aiquiztool/service/AIService.java:255-272 | the Claude body is the compact text of an object with `model`, `max_tokens`, `temperature` and `messages`, whose only message has the user role |
| AIService.DispatchIgnoresCase | src/main/java/com/aiquiztool/service/AIService.java:35-48 | a chat provider is selected exactly when the configured name spells it in any mix of cases |
| AIService.ChoiceContentIsPath | src/main/java/com/aiquiztool/service/AIService.java:180-189 | the OpenAI answer is the text at `choices[0].message.content`, or "cannot parse" when nothing is there |
| AIService.ContentTextIsPath | src/main/java/com/aiquiztool/service/AIService.java:277-302 | the Claude answer is the text at `content[0].text`, or "cannot parse" when nothing is there |
| AIService.ParseReplySpec | src/main/java/com/aiquiztool/service/AIService.java:171-195 | with an `error` member the reply fails with `error.message`, or with a null dereference when that is absent, whatever else it holds; otherwise it yields the text at the answer path or fails as unparseable |
| AIService.ProviderSendsAtMostOne | src/main/java/com/aiquiztool/service/AIService.java:50-71 | a provider sends its single request exactly when its five settings read and neither key nor URL is blank |
| AIService.GetResponseSendsAtMostOne | src/main/java/com/aiquiztool/service/AIService.java:35-117 | at most one request is sent, and only the configured provider's request built from the configured settings, after both credential checks passed |
| AIService.BlankCredentialSendsNothing | src/main/java/com/aiquiztool/service/AIService.java:57-63 | a blank key or URL fails with the provider's configuration error and no request, the key checked first |
| AIService.UnknownProviderSendsNothing | src/main/java/com/aiquiztool/service/AIService.java:45-46 | an unknown provider fails under its configured spelling with no request |
| AIService.NothingSentMeansNoNetwork | src/main/java/com/aiquiztool/service/AIService.java:35-117 | when nothing is sent the result does not depend on the network |
| AIService.ChatRequestWire | src/main/java/com/aiquiztool/service/AIService.java:119-250 | every chat request goes to the configured URL as JSON text; OpenAI and generic carry a bearer token and the OpenAI body, Claude carries `x-api-key`, the API version header and its own body |
| AIService.TestConnectionSpec | src/main/java/com/aiquiztool/service/AIService.java:307-316 | the connection test sends what `getResponse` sends, fails exactly as it fails, and is true exactly when the answer holds a character above the space |
| Speech.SpeechDispatchIgnoresCase | src/main/java/com/aiquiztool/service/SpeechRecognitionService.java:113-127 | a speech provider is selected exactly when the configured name spells it in any mix of cases |
| Speech.IsAvailable | src/main/java/com/aiquiztool/service/SpeechRecognitionService.java:361-378 | disabled speech is unavailable; available implies enabled speech and a known provider |
| Speech.CredentialTestMirrorsRecognizer | src/main/java/com/aiquiztool/service/SpeechRecognitionService.java:361-378 | the credential test of `isAvailable` is false exactly when the provider's recognizer answers its configuration text without any request |
| Speech.AzureCredentialTest | src/main/java/com/aiquiztool/service/SpeechRecognitionService.java:132-140 | Azure: an empty subscription key is exactly the case answered without request |
| Speech.GoogleCredentialTest | src/main/java/com/aiquiztool/service/SpeechRecognitionService.java:182-190 | Google: an empty API key is exactly the case answered without request |
| Speech.BaiduCredentialTest | src/main/java/com/aiquiztool/service/SpeechRecognitionService.java:241-249 | Baidu: an empty API key or secret is exactly the case answered without request |
| Speech.AvailableMirrorsCredentialCheck | src/main/java/com/aiquiztool/service/SpeechRecognitionService.java:361-378 | for enabled speech and a known provider, `isAvailable` is false exactly when recognition stops at the credential check with the provider's text and no request |
| Speech.GoogleBodyLayout | src/main/java/com/aiquiztool/service/SpeechRecognitionService.java:194-199 | the Google body is the compact text of `{config: {encoding, sampleRateHertz, languageCode}, audio: {content}}` |
| Speech.BaiduBodyLayout | src/main/java/com/aiquiztool/service/SpeechRecognitionService.java:259-265 | the Baidu body is the compact text of an object with `format`, `rate`, `channel`, `cuid`, `token`, `speech` and `len`, in that order |
| Speech.GoogleRequestCarriesAudio | src/main/java/com/aiquiztool/service/SpeechRecognitionService.java:193-206 | the Google request's `audio.content` decodes back to the recorded bytes and has four characters per three bytes, rounded up |
| Speech.BaiduRequestCarriesAudio | src/main/java/com/aiquiztool/service/SpeechRecognitionService.java:258-272 | the Baidu request's `speech` decodes back to the recorded bytes, and its `len` reads back as their number, not the length of `speech` |
| Speech.AccessToken | src/main/java/com/aiquiztool/service/SpeechRecognitionService.java:306-331 | a token is obtained exactly from a 2xx JSON reply that has `access_token`, and it is that member's `asText` |
| Speech.ReplyOf | src/main/java/com/aiquiztool/service/SpeechRecognitionService.java:152-175 | a non-2xx reply answers the failure prefix and the reason phrase; a network failure is caught |
| Speech.GoogleTranscriptSpec | src/main/java/com/aiquiztool/service/SpeechRecognitionService.java:218-228 | the transcript at `results[0].alternatives[0].transcript` when there is one; otherwise the no-speech text or a null dereference, the latter only when `results` is non-empty |
| Speech.GoogleNoSpeechCases | src/main/java/com/aiquiztool/service/SpeechRecognitionService.java:218-228 | the no-speech text when `results` is missing or empty, or when its first element has no non-empty `alternatives`; a null dereference when a non-empty `results` is not an array |
| Speech.GoogleAlternativesNotArray | src/main/java/com/aiquiztool/service/SpeechRecognitionService.java:220-221 | a null dereference when a non-empty `alternatives` is not an array |
| Speech.GoogleMissingTranscript | src/main/java/com/aiquiztool/service/SpeechRecognitionService.java:221 | a null dereference when the first alternative has no `transcript` |
| Speech.BaiduResultSpec | src/main/java/com/aiquiztool/service/SpeechRecognitionService.java:284-293 | `result[0]` when `err_no` reads 0 and it is there; a null dereference when `err_no` reads 0 and `result` is non-empty but not an array; when `err_no` is missing or not 0, or `result` is missing or empty, `err_msg` after the failure prefix, or a null dereference without one |
| Speech.AzureTextSpec | src/main/java/com/aiquiztool/service/SpeechRecognitionService.java:162-169 | the Azure reply is read without failing: the text of `DisplayText` when present, otherwise the no-speech text |
| Speech.AzureSendsRawAudio | src/main/java/com/aiquiztool/service/SpeechRecognitionService.java:135-155 | past the key check, Azure sends one request carrying the recorded bytes unchanged and the key in `Ocp-Apim-Subscription-Key`, and answers what it reads from that request's reply |
| Speech.UnknownSpeechProviderSendsNothing | src/main/java/com/aiquiztool/service/SpeechRecognitionService.java:113-127 | an unknown speech provider is answered with the unsupported text and no request |
| Speech.BaiduTokenFirst | src/main/java/com/aiquiztool/service/SpeechRecognitionService.java:252-255 | Baidu's first request is the token request; without a token it answers the token failure text and sends nothing more |
| Speech.BaiduRequestCarriesToken | src/main/java/com/aiquiztool/service/SpeechRecognitionService.java:252-275 | with a token, exactly two requests are sent: the token request, then the recognition request carrying the token |
| Speech.FormatFor | src/main/java/com/aiquiztool/service/SpeechRecognitionService.java:46-54 | the constructor's format exists exactly when the sample rate can be read, and carries that rate; its fixed fields are stated by Speech.DefaultSampleFormat and Speech.FormatFollowsStoredRate |
| Speech.DefaultSampleFormat | src/main/java/com/aiquiztool/service/SpeechRecognitionService.java:46-54 | with the shipped configuration the format is 16000 Hz, 16-bit, mono, signed, little-endian |
| Speech.FormatFollowsStoredRate | src/main/java/com/aiquiztool/service/SpeechRecognitionService.java:46-54 | whatever rate is stored, the format has that rate and is 16-bit, mono, signed, little-endian |
| Speech.CapturedBound | src/main/java/com/aiquiztool/service/SpeechRecognitionService.java:102-111 | reads of at most 4096 bytes capture at most 4096 bytes per read |
| Speech.CapturedStep | src/main/java/com/aiquiztool/service/SpeechRecognitionService.java:106-108 | each read's bytes are appended after those of the reads before it |
| Speech.ReadChunk | src/main/java/com/aiquiztool/service/SpeechRecognitionService.java:106 | a read fills the front of the buffer with the delivered bytes, keeps the rest, and returns their count |
| Speech.SpeechRecognitionService.constructor | src/main/java/com/aiquiztool/service/SpeechRecognitionService.java:29-54 | the recorder's format is the one `initializeAudioFormat` computes from the configuration; a new recorder is idle with no line; its buffer is the empty sequence, where the source holds `null` until the first start, a difference no operation can observe because only a successful start and the capture loop touch the buffer |
| Speech.SpeechRecognitionService.StartRecording | src/main/java/com/aiquiztool/service/SpeechRecognitionService.java:56-83 | refused while recording; an unsupported or unavailable microphone leaves the recorder idle with its buffer; otherwise the line runs, the buffer is fresh and empty, and the flag is set |
| Speech.SpeechRecognitionService.CaptureLoop | src/main/java/com/aiquiztool/service/SpeechRecognitionService.java:102-111 | while recording, the buffer grows by exactly the bytes the reads delivered, at most one chunk per read |
| Speech.SpeechRecognitionService.StopRecording | src/main/java/com/aiquiztool/service/SpeechRecognitionService.java:85-100 | idle: an empty answer and no change; recording: flag cleared, line closed, and exactly the captured bytes handed to recognition |
| Speech.RecordingSession | src/main/java/com/aiquiztool/service/SpeechRecognitionService.java:34-127 | constructing fails, before any request, when the sample rate cannot be read; otherwise start, capture and stop on the new recorder recognize exactly the bytes the reads delivered |
| Base64.EncodeLength | src/main/java/com/aiquiztool/service/SpeechRecognitionService.java:193 | the base64 text has four characters for every three bytes, rounded up |
| Base64.DecodeEncode | src/main/java/com/aiquiztool/service/SpeechRecognitionService.java:258 | decoding the base64 text gives the bytes back |
| JavaLang.DropLeading | src/main/java/com/aiquiztool/service/AIService.java:57 | `trim` drops exactly the leading characters up to the space |
| JavaLang.DropTrailing | src/main/java/com/aiquiztool/service/AIService.java:57 | `trim` drops exactly the trailing characters up to the space |
| JavaLang.BlankIffAllTrimmed | src/main/java/com/aiquiztool/service/AIService.java:57 | a text trims to empty exactly when all its characters are at most the space |
| JavaLang.LowerAsciiMatches | src/main/java/com/aiquiztool/service/AIService.java:38 | `toLowerCase` yields a lower-case word exactly when the text spells it in any mix of cases |
| JavaLang.IntText | src/main/java/com/aiquiztool/service/AIService.java:159 | the decimal text of an `int` is non-empty and begins and ends with a visible character |
| JavaLang.ParseIntText | src/main/java/com/aiquiztool/service/SpeechRecognitionService.java:264 | `Integer.parseInt` reads back the decimal text of every `int` |
| JavaLang.Wrap32 | src/main/java/com/aiquiztool/service/SpeechRecognitionService.java:284 | the `(int)` narrowing keeps the value modulo 2^32 and leaves every `int` unchanged |
| JsonTree.AsIntReadsBack | src/main/java/com/aiquiztool/service/SpeechRecognitionService.java:284 | `asInt` reads back an `int` written as a number or as its text, and `asText` writes it as its decimal text |
| Config.PathOf | src/main/java/com/aiquiztool/config/ConfigManager.java:261-543 | definition: the dotted path each getter reads first and each setter writes; that distinct paths have distinct texts is Config.PathTextInjective |
| Config.Set | src/main/java/com/aiquiztool/config/ConfigManager.java:265-543 | definition: `config.withValue` on the key's own path; its meaning is stated by Config.SetThenGet, Config.SetLeavesOthers and Config.SetTwice |
| Config.GetString | src/main/java/com/aiquiztool/config/ConfigManager.java:261-543 | definition: a string getter; that it returns what a setter stored is Config.SetThenGet, and what it returns without one is Config.DefaultsWhenAbsent |
| Config.GetInt | src/main/java/com/aiquiztool/config/ConfigManager.java:296-298 | definition: an `int` getter, read through Config.Get and stated by the same lemmas |
| Config.GetDouble | src/main/java/com/aiquiztool/config/ConfigManager.java:305-307 | definition: a `double` getter, read through Config.Get and stated by the same lemmas |
| Config.GetBool | src/main/java/com/aiquiztool/config/ConfigManager.java:401-403 | definition: `isSpeechEnabled`, read through Config.Get and stated by the same lemmas |
| Config.GetModel | src/main/java/com/aiquiztool/config/ConfigManager.java:314 | definition: `getModel` is `getOpenaiModel`; stated by Config.AliasesRoundTrip |
| Config.GetMaxTokens | src/main/java/com/aiquiztool/config/ConfigManager.java:316 | definition: `getMaxTokens` is `getOpenaiMaxTokens`; stated by Config.AliasesRoundTrip |
| Config.GetTemperature | src/main/java/com/aiquiztool/config/ConfigManager.java:318 | definition: `getTemperature` is `getOpenaiTemperature`; stated by Config.AliasesRoundTrip |
| Config.AliasesRoundTrip | src/main/java/com/aiquiztool/config/ConfigManager.java:314-319 | what `setModel`, `setMaxTokens` and `setTemperature` store, `getModel`, `getMaxTokens` and `getTemperature` return |
| AIService.Replace | src/main/java/com/aiquiztool/service/AIService.java:205-211 | definition: a one-character `replace`; stated by AIService.ReplaceConcat and AIService.ReplaceAbsent |
| AIService.EscapeJson | src/main/java/com/aiquiztool/service/AIService.java:200-212 | definition: `null` to the empty text, otherwise the seven replacements in order; stated by AIService.EscapeJsonIsMap, AIService.EscapeJsonRoundTrip and AIService.EscapeJsonControls |
| AIService.OpenAIBody | src/main/java/com/aiquiztool/service/AIService.java:150-169 | definition: the `append` calls of `buildRequestBody`; stated by AIService.OpenAIBodyLayout |
| AIService.ClaudeBody | src/main/java/com/aiquiztool/service/AIService.java:255-272 | definition: the `append` calls of `buildClaudeRequestBody`; stated by AIService.ClaudeBodyLayout |
| AIService.ProviderOf | src/main/java/com/aiquiztool/service/AIService.java:38-46 | definition: the `switch` on the lower-cased provider name; stated by AIService.DispatchIgnoresCase |
| AIService.ReadSettings | src/main/java/com/aiquiztool/service/AIService.java:50-55 | definition: the five settings a provider reads, in source order; used by AIService.ProviderSendsAtMostOne |
| AIService.WireOf | src/main/java/com/aiquiztool/service/AIService.java:96-117 | definition: the generic provider speaks the OpenAI format; stated by AIService.ChatRequestWire |
| AIService.ChoiceContent | src/main/java/com/aiquiztool/service/AIService.java:180-189 | definition: the OpenAI answer reading; stated by AIService.ChoiceContentIsPath |
| AIService.ContentText | src/main/java/com/aiquiztool/service/AIService.java:277-302 | definition: the Claude answer reading; stated by AIService.ContentTextIsPath |
| AIService.ParseReply | src/main/java/com/aiquiztool/service/AIService.java:171-195 | definition: `parseResponse` and `parseClaudeResponse`; stated by AIService.ParseReplySpec |
| AIService.Headers | src/main/java/com/aiquiztool/service/AIService.java:128-133 | definition: the headers `callOpenAIAPI` adds, and those `callClaudeAPI` adds; stated by AIService.ChatRequestWire |
| AIService.ChatRequest | src/main/java/com/aiquiztool/service/AIService.java:119-133 | definition: the POST a provider sends; stated by AIService.ChatRequestWire |
| AIService.CallResult | src/main/java/com/aiquiztool/service/AIService.java:136-147 | definition: a network failure, a non-2xx status with its body, or the parsed reply; contributes to AIService.GetResponseSendsAtMostOne and AIService.TestConnectionSpec |
| AIService.ParseFailureText | src/main/java/com/aiquiztool/service/AIService.java:171-195 | definition: the messages `parseResponse` and `parseClaudeResponse` throw |
| AIService.CallFailureText | src/main/java/com/aiquiztool/service/AIService.java:136-147 | definition: the messages `callOpenAIAPI` and `callClaudeAPI` throw |
| AIService.Message | src/main/java/com/aiquiztool/service/AIService.java:35-117 | definition: the message of the exception `getResponse` throws, with its provider prefix |
| AIService.ProviderResponse | src/main/java/com/aiquiztool/service/AIService.java:50-117 | definition: settings, the two credential checks, one request; stated by AIService.ProviderSendsAtMostOne and AIService.BlankCredentialSendsNothing |
| AIService.GetResponse | src/main/java/com/aiquiztool/service/AIService.java:35-48 | definition: dispatch on the configured provider; stated by AIService.GetResponseSendsAtMostOne, AIService.UnknownProviderSendsNothing and AIService.NothingSentMeansNoNetwork |
| AIService.TestConnection | src/main/java/com/aiquiztool/service/AIService.java:307-316 | definition: a fixed message, then not blank; stated by AIService.TestConnectionSpec |
| Speech.Shown | src/main/java/com/aiquiztool/service/SpeechRecognitionService.java:172-175 | definition: the text a recognizer's future completes with, a caught exception shown after its prefix |
| Speech.SpeechProviderOf | src/main/java/com/aiquiztool/service/SpeechRecognitionService.java:116-125 | definition: the `switch` on the lower-cased provider name; stated by Speech.SpeechDispatchIgnoresCase |
| Speech.CredentialsPresent | src/main/java/com/aiquiztool/service/SpeechRecognitionService.java:367-377 | definition: the credential test of `isAvailable`; stated by Speech.CredentialTestMirrorsRecognizer |
| Speech.AzureUrl | src/main/java/com/aiquiztool/service/SpeechRecognitionService.java:142-147 | definition: the Azure endpoint for the region, with the language as query |
| Speech.AzureRequest | src/main/java/com/aiquiztool/service/SpeechRecognitionService.java:144-151 | definition: the Azure POST; stated by Speech.AzureSendsRawAudio |
| Speech.GoogleBody | src/main/java/com/aiquiztool/service/SpeechRecognitionService.java:194-199 | definition: the Google format string; stated by Speech.GoogleBodyLayout |
| Speech.GoogleRequest | src/main/java/com/aiquiztool/service/SpeechRecognitionService.java:193-208 | definition: the Google POST; stated by Speech.GoogleRequestCarriesAudio |
| Speech.TokenRequest | src/main/java/com/aiquiztool/service/SpeechRecognitionService.java:306-318 | definition: the Baidu token POST with its three form fields; stated by Speech.BaiduTokenFirst |
| Speech.BaiduBody | src/main/java/com/aiquiztool/service/SpeechRecognitionService.java:259-265 | definition: the Baidu format string; stated by Speech.BaiduBodyLayout |
| Speech.BaiduRequest | src/main/java/com/aiquiztool/service/SpeechRecognitionService.java:258-272 | definition: the Baidu recognition POST; stated by Speech.BaiduRequestCarriesAudio and Speech.BaiduRequestCarriesToken |
| Speech.AzureText | src/main/java/com/aiquiztool/service/SpeechRecognitionService.java:162-169 | definition: Azure's `DisplayText` reading; stated by Speech.AzureTextSpec |
| Speech.GoogleTranscript | src/main/java/com/aiquiztool/service/SpeechRecognitionService.java:218-228 | definition: Google's transcript reading; stated by Speech.GoogleTranscriptSpec, Speech.GoogleNoSpeechCases, Speech.GoogleAlternativesNotArray and Speech.GoogleMissingTranscript |
| Speech.BaiduResult | src/main/java/com/aiquiztool/service/SpeechRecognitionService.java:284-293 | definition: Baidu's result reading; stated by Speech.BaiduResultSpec |
| Speech.AzureSteps | src/main/java/com/aiquiztool/service/SpeechRecognitionService.java:132-177 | definition: `recognizeWithAzure`; stated by Speech.AzureCredentialTest and Speech.AzureSendsRawAudio |
| Speech.GoogleSteps | src/main/java/com/aiquiztool/service/SpeechRecognitionService.java:182-236 | definition: `recognizeWithGoogle`; stated by Speech.GoogleCredentialTest |
| Speech.RecognizeWithBaidu | src/main/java/com/aiquiztool/service/SpeechRecognitionService.java:241-301 | definition: `recognizeWithBaidu` up to its key check; stated by Speech.BaiduCredentialTest and Speech.BaiduTokenFirst |
| Speech.BaiduWithKeys | src/main/java/com/aiquiztool/service/SpeechRecognitionService.java:250-295 | definition: the token request, then the recognition request; stated by Speech.BaiduTokenFirst and Speech.BaiduRequestCarriesToken |
| Speech.Recognize | src/main/java/com/aiquiztool/service/SpeechRecognitionService.java:117-124 | definition: the recognizer of a provider; stated by Speech.CredentialTestMirrorsRecognizer |
| Speech.RecognizeAudio | src/main/java/com/aiquiztool/service/SpeechRecognitionService.java:113-127 | definition: `recognizeAudio`; stated by Speech.UnknownSpeechProviderSendsNothing and Speech.AvailableMirrorsCredentialCheck |

## Left out

- Reading and writing the configuration file is not modelled: `initializeConfig`, `saveConfig`, `resetToDefault` and `getConfigFilePath` are file I/O. `createDefaultConfig` is modelled only through the values it writes (`Config.DefaultFile`).
- HOCON parsing, and Typesafe Config's coercions between numbers, strings and booleans, are not modelled: a value of another type is a type error. Typesafe's exception messages are given as `None`.
- The singleton `getInstance` and its synchronisation are left out.
- Doubles are kept as the text `Double.toString` writes for them. The core never computes with them.
- `toLowerCase` is modelled on ASCII letters. That is exact for the provider names in every locale except those with special casing rules, such as Turkish.
- `%d` is modelled as ASCII decimal digits. Locales with other digits are not modelled.
- The message of a `NullPointerException` is JVM text. It is given as `None`, and a caught null dereference shows no text.
- Threads are not modelled: the `CompletableFuture`s, the recording thread, the unsynchronised `isRecording` flag, OkHttp timeouts and `cleanup`. The recording loop is one sequential method over the chunks the reads deliver.
- `javax.sound` is not modelled. The microphone is given as the outcome of acquiring it; `saveAudioToFile` and `getAvailableAudioDevices` are left out.
- Speech.SpeechRecognitionService.StopRecording: the captured bytes stay in the buffer after stop, as in the source. A later start replaces them. The model keeps that behaviour, not a discarding of the buffer.
- No separate "stopping" state exists. The recorder has only the flag and the line.
- The sample rate is given to `AudioFormat` as a float. Its rounding above 2^24 is not modelled.
- `AIService`: a non-2xx reply with no body, where the source writes "未知错误", is not modelled. The reply body is always text.
- URL validation by OkHttp is not modelled.
- AIService.ProviderSendsAtMostOne: OkHttp's header-value validation is not modelled. `addHeader` throws before sending when a value holds a character other than tab or printable ASCII, so a key with such a character, sent as `Bearer <key>` or `x-api-key`, sends nothing in the source; the model sends the request. The same holds for AIService.GetResponseSendsAtMostOne and AIService.ChatRequestWire.
- Speech.AzureSendsRawAudio: OkHttp's header-value validation is not modelled. A subscription key with a character other than tab or printable ASCII throws in `addHeader`, answering `语音识别出错: ` and OkHttp's message without a request; the model sends the request.
- `AIService.getUsageStats` returns a fixed informational string and is left out.
- `readTree` on an empty body yields a missing node. The model has no such node; it behaves as an object without members, on which every accessor the core uses gives the same results.
- JSON object member order and duplicate names in replies are not modelled: the tree's members are a map. Hand-built request bodies keep their member order.
- The model, the language code and the Baidu token are written into the bodies unescaped, as in the source.
- JsonTree.TextAsInt: text holding anything but an optional sign and digits is read as 0. Jackson parses it as a double and truncates.
- Speech.IsAvailable: its own contract states only the disabled and unknown-provider branches. The credential branch is stated by Speech.AvailableMirrorsCredentialCheck.
- Speech.ReplyOf: its own contract states only the failure branches. The reply trees are stated by Speech.AzureTextSpec, Speech.GoogleTranscriptSpec, Speech.GoogleNoSpeechCases, Speech.GoogleAlternativesNotArray, Speech.GoogleMissingTranscript and Speech.BaiduResultSpec.
- Numbers in replies are integers, or doubles given by the text `Double.toString` writes for them and their value truncated toward zero (`JsonTree.Json`'s `JDouble`). That text is not computed from the number, and the float, decimal and `BigDecimal` nodes that Jackson builds only when configured to are not modelled.
- Logging through slf4j is output only and is left out. Each `logger` call is dropped; no modelled result depends on one.
