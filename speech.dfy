/**
 * `SpeechRecognitionService`: a recorder whose state is a recording flag, the microphone line
 * and the bytes captured so far, and a recognizer that sends the captured audio to the
 * configured speech service and reads the transcript from its reply. The microphone is given
 * as the outcome of acquiring it and the bytes each read delivers; the network is a function
 * from request to outcome, and each recognizer returns the requests it issued.
 */
module Speech {
  import opened Wrappers
  import opened JavaLang
  import opened JsonTree
  import opened JsonText
  import opened Http
  import opened Config
  import Base64

  // ---------------------------------------------------------------------------------------
  // Results
  // ---------------------------------------------------------------------------------------

  /** An exception caught by a recognizer's `catch (Exception e)`. */
  datatype Fault =
    | ConfigFault(error: ConfigError) // a configuration read threw
    | NetworkFault(detail: string)    // `execute()` or reading the body threw
    | ParseFault(detail: string)      // `readTree` threw
    | NullFault                       // a `get` found nothing and its result was dereferenced

  /** What a recognizer's future completes with: a text it returns, or a caught exception. */
  datatype Recognition = Said(text: string) | Caught(fault: Fault)

  const NoSpeechText: string := "未识别到语音内容"
  const UnsupportedSpeechText: string := "不支持的语音识别提供商"
  const TokenFailureText: string := "获取百度访问令牌失败"
  const FailedPrefix: string := "语音识别失败: "

  /**
   * The string the future completes with. A caught exception shows as its message after a
   * fixed prefix; `None` where that message is composed outside the core (by the
   * configuration library, or by the JVM for a null dereference).
   */
  function Shown(r: Recognition): Option<string> {
    match r
    case Said(text) => Some(text)
    case Caught(NetworkFault(detail)) => Some("语音识别出错: " + detail)
    case Caught(ParseFault(detail)) => Some("语音识别出错: " + detail)
    case Caught(_) => None
  }

  // ---------------------------------------------------------------------------------------
  // Providers and credentials
  // ---------------------------------------------------------------------------------------

  datatype SpeechProvider = Azure | Google | Baidu

  function SpeechProviderName(p: SpeechProvider): string {
    match p
    case Azure => "azure"
    case Google => "google"
    case Baidu => "baidu"
  }

  /** The `switch` on `provider.toLowerCase()`. */
  function SpeechProviderOf(name: string): Option<SpeechProvider> {
    var lower := LowerAscii(name);
    if lower == "azure" then Some(Azure)
    else if lower == "google" then Some(Google)
    else if lower == "baidu" then Some(Baidu)
    else None
  }

  /** A speech provider is selected exactly when the configured name spells it in any case. */
  lemma SpeechDispatchIgnoresCase(name: string, p: SpeechProvider)
    ensures SpeechProviderOf(name) == Some(p) <==> EqualsIgnoringCase(name, SpeechProviderName(p))
  {
    LowerAsciiMatches(name, "azure");
    LowerAsciiMatches(name, "google");
    LowerAsciiMatches(name, "baidu");
  }

  /** The text a recognizer returns when its credentials are empty. */
  function MissingCredentialText(p: SpeechProvider): string {
    match p
    case Azure => "请在设置中配置Azure订阅密钥"
    case Google => "请在设置中配置Google API密钥"
    case Baidu => "请在设置中配置百度API密钥"
  }

  /** The settings a recognizer reads before its credential check, in the order it reads them. */
  function CheckedKeys(p: SpeechProvider): seq<Key> {
    match p
    case Azure => [AzureSubscriptionKey, AzureRegion]
    case Google => [GoogleApiKey, GoogleEndpoint]
    case Baidu => [BaiduApiKey, BaiduSecretKey]
  }

  /** Every setting read before the credential check can be read. */
  predicate CheckedKeysRead(c: Conf, p: SpeechProvider) {
    forall i :: 0 <= i < |CheckedKeys(p)| ==> Get(c, CheckedKeys(p)[i]).Ok?
  }

  /**
   * The credential test of `isAvailable`: the provider's credentials are non-empty; Baidu's
   * secret is read only when its API key is non-empty.
   */
  function CredentialsPresent(c: Conf, p: SpeechProvider): Result<bool, ConfigError> {
    match p
    case Azure =>
      var key :- GetString(c, AzureSubscriptionKey);
      Ok(key != [])
    case Google =>
      var key :- GetString(c, GoogleApiKey);
      Ok(key != [])
    case Baidu =>
      var apiKey :- GetString(c, BaiduApiKey);
      if apiKey == [] then Ok(false)
      else
        var secret :- GetString(c, BaiduSecretKey);
        Ok(secret != [])
  }

  /** `isAvailable`: speech is enabled, the provider is known and its credentials are present. */
  function IsAvailable(c: Conf): (r: Result<bool, ConfigError>)
    ensures GetBool(c, SpeechEnabled) == Ok(false) ==> r == Ok(false)
    ensures r == Ok(true) ==>
      GetBool(c, SpeechEnabled) == Ok(true) && GetString(c, SpeechProvider).Ok? &&
      SpeechProviderOf(GetString(c, SpeechProvider).value).Some?
  {
    var enabled :- GetBool(c, SpeechEnabled);
    if !enabled then Ok(false)
    else
      var name :- GetString(c, SpeechProvider);
      match SpeechProviderOf(name)
      case None => Ok(false)
      case Some(p) => CredentialsPresent(c, p)
  }

  // ---------------------------------------------------------------------------------------
  // Requests
  // ---------------------------------------------------------------------------------------

  function AzureUrl(region: string, language: string): string {
    "https://" + region + ".stt.speech.microsoft.com/speech/recognition/conversation/cognitiveservices/v1"
    + "?language=" + language
  }

  /** The Azure request: the raw audio, the key in `Ocp-Apim-Subscription-Key`. */
  function AzureRequest(key: string, region: string, language: string, audio: seq<byte>): Request {
    Post(AzureUrl(region, language),
      [("Ocp-Apim-Subscription-Key", key), ("Content-Type", "audio/wav")],
      Bytes("audio/wav", audio))
  }

  /**
   * The Google body, the audio in base64; the number is the sample rate. The text is the
   * format string of the source, grouped member by member.
   */
  function GoogleBody(rate: string, language: string, speech: string): string {
    "{"
    + ("\"config\":" + ("{"
        + ("\"encoding\":\"LINEAR16\""
        + ("," + (("\"sampleRateHertz\":" + rate)
        + ("," + ("\"languageCode\":\"" + language + "\"")))))
        + "}")
    + ("," + ("\"audio\":" + ("{" + ("\"content\":\"" + speech + "\"") + "}"))))
    + "}"
  }

  /** The document the Google body writes. */
  function GoogleDoc(rate: string, language: string, speech: string): Doc {
    DObject([
      Member("config", DObject([
        Member("encoding", DString("LINEAR16")),
        Member("sampleRateHertz", DNumber(rate)),
        Member("languageCode", DString(language))])),
      Member("audio", DObject([Member("content", DString(speech))]))])
  }

  /** The Google request: the key in the query string of the configured endpoint. */
  function GoogleRequest(endpoint: string, key: string, rate: Int32, language: string, audio: seq<byte>): Request {
    Post(endpoint + "?key=" + key,
      [("Content-Type", "application/json")],
      Text("application/json", GoogleBody(IntText(rate), language, Base64.Encode(audio))))
  }

  /** The token request: a client-credentials grant carrying the API key and the secret. */
  function TokenRequest(apiKey: string, secret: string): Request {
    Post("https://aip.baidubce.com/oauth/2.0/token", [],
      Form([("grant_type", "client_credentials"), ("client_id", apiKey), ("client_secret", secret)]))
  }

  /** The Baidu body: the audio in base64 under `speech`, its length in bytes under `len`. */
  function BaiduBody(rate: string, token: string, speech: string, len: string): string {
    "{"
    + ("\"format\":\"wav\""
    + ("," + (("\"rate\":" + rate)
    + ("," + ("\"channel\":1"
    + ("," + ("\"cuid\":\"aiquiztool\""
    + ("," + (("\"token\":\"" + token + "\"")
    + ("," + (("\"speech\":\"" + speech + "\"")
    + ("," + ("\"len\":" + len)))))))))))))
    + "}"
  }

  /** The document the Baidu body writes. */
  function BaiduDoc(rate: string, token: string, speech: string, len: string): Doc {
    DObject([
      Member("format", DString("wav")),
      Member("rate", DNumber(rate)),
      Member("channel", DNumber("1")),
      Member("cuid", DString("aiquiztool")),
      Member("token", DString(token)),
      Member("speech", DString(speech)),
      Member("len", DNumber(len))])
  }

  function BaiduRequest(rate: Int32, token: string, audio: seq<byte>): Request {
    Post("https://vop.baidu.com/server_api",
      [("Content-Type", "application/json")],
      Text("application/json", BaiduBody(IntText(rate), token, Base64.Encode(audio), IntText(|audio|))))
  }
  /** The Google body is the compact text of its document, member for member. */
  lemma GoogleBodyLayout(rate: string, language: string, speech: string)
    ensures GoogleBody(rate, language, speech) == Render(GoogleDoc(rate, language, speech))
  {
    var encoding := Member("encoding", DString("LINEAR16"));
    var sampleRate := Member("sampleRateHertz", DNumber(rate));
    var languageCode := Member("languageCode", DString(language));
    var content := Member("content", DString(speech));
    EncodingMember();
    NumberMemberAs("sampleRateHertz", "\"sampleRateHertz\":", rate);
    StringMemberAs("languageCode", "\"languageCode\":\"", language);
    StringMemberAs("content", "\"content\":\"", speech);
    ObjectOfThree(encoding, sampleRate, languageCode);
    ObjectOfOne(content);
    var config := Member("config", DObject([encoding, sampleRate, languageCode]));
    var audioMember := Member("audio", DObject([content]));
    MemberAs("config", "\"config\":", config.value);
    MemberAs("audio", "\"audio\":", audioMember.value);
    ObjectOfTwo(config, audioMember);
  }

  /** The constant member of the Google `config` object. */
  lemma EncodingMember()
    ensures RenderMember(Member("encoding", DString("LINEAR16"))) == "\"encoding\":\"LINEAR16\""
  {
  }

  /** The Baidu body is the compact text of its document, member for member. */
  lemma BaiduBodyLayout(rate: string, token: string, speech: string, len: string)
    ensures BaiduBody(rate, token, speech, len) == Render(BaiduDoc(rate, token, speech, len))
  {
    FormatMember();
    ChannelMember();
    CuidMember();
    NumberMemberAs("rate", "\"rate\":", rate);
    StringMemberAs("token", "\"token\":\"", token);
    StringMemberAs("speech", "\"speech\":\"", speech);
    NumberMemberAs("len", "\"len\":", len);
    ObjectOfSeven(BaiduDoc(rate, token, speech, len).members);
  }

  /** The constant members of the Baidu body. */
  lemma FormatMember()
    ensures RenderMember(Member("format", DString("wav"))) == "\"format\":\"wav\""
  {
  }

  lemma ChannelMember()
    ensures RenderMember(Member("channel", DNumber("1"))) == "\"channel\":1"
  {
  }

  lemma CuidMember()
    ensures RenderMember(Member("cuid", DString("aiquiztool"))) == "\"cuid\":\"aiquiztool\""
  {
  }

  /**
   * The Google request carries, under `audio.content`, a text that decodes back to the
   * recorded bytes, four characters for every three of them.
   */
  lemma GoogleRequestCarriesAudio(endpoint: string, key: string, rate: Int32, language: string, audio: seq<byte>)
    ensures var speech := Base64.Encode(audio);
      && GoogleRequest(endpoint, key, rate, language, audio).body
         == Text("application/json", Render(GoogleDoc(IntText(rate), language, speech)))
      && Base64.Decode(speech) == Some(audio)
      && |speech| == 4 * ((|audio| + 2) / 3)
  {
    GoogleBodyLayout(IntText(rate), language, Base64.Encode(audio));
    Base64.DecodeEncode(audio);
    Base64.EncodeLength(audio);
  }

  /**
   * The Baidu request carries the audio twice over: under `speech` a text that decodes back to
   * the recorded bytes, and under `len` the number of those bytes, not of the characters of
   * `speech`.
   */
  lemma BaiduRequestCarriesAudio(rate: Int32, token: string, audio: seq<byte>)
    requires |audio| <= IntMax
    ensures var speech, len := Base64.Encode(audio), IntText(|audio|);
      && BaiduRequest(rate, token, audio).body
         == Text("application/json", Render(BaiduDoc(IntText(rate), token, speech, len)))
      && Base64.Decode(speech) == Some(audio)
      && ParseInt(len) == Some(|audio|)
      && |speech| == 4 * ((|audio| + 2) / 3)
  {
    BaiduBodyLayout(IntText(rate), token, Base64.Encode(audio), IntText(|audio|));
    Base64.DecodeEncode(audio);
    Base64.EncodeLength(audio);
    ParseIntText(|audio|);
  }


  // ---------------------------------------------------------------------------------------
  // Replies
  // ---------------------------------------------------------------------------------------

  /**
   * `getBaiduAccessToken`: the `access_token` of a successful JSON reply; every other
   * outcome, including the exceptions it catches, is `null`.
   */
  function AccessToken(outcome: Outcome): (r: Option<string>)
    ensures r.Some? <==>
      outcome.Reply? && IsSuccessful(outcome.code) && outcome.payload.Tree? && Has(outcome.payload.json, "access_token")
    ensures r.Some? ==> r.value == AsText(Field(outcome.payload.json, "access_token").value)
  {
    match outcome
    case Reply(code, _, _, Tree(root)) =>
      if IsSuccessful(code) then
        match Field(root, "access_token")
        case Some(t) => Some(AsText(t))
        case None => None
      else None
    case _ => None
  }

  /** Azure's answer: `DisplayText`. */
  function AzureText(root: Json): Recognition {
    match Field(root, "DisplayText")
    case Some(t) => Said(AsText(t))
    case None => Said(NoSpeechText)
  }

  /**
   * Reading Azure's reply never fails: the text of `DisplayText` when the reply has one,
   * otherwise the no-speech text.
   */
  lemma AzureTextSpec(root: Json)
    ensures Path(root, [Name("DisplayText")]).Some? ==>
      AzureText(root) == Said(AsText(Path(root, [Name("DisplayText")]).value))
    ensures Path(root, [Name("DisplayText")]).None? ==> AzureText(root) == Said(NoSpeechText)
  {
    PathCons(root, Name("DisplayText"), []);
  }

  /** Google's answer: `results[0].alternatives[0].transcript`, sizes checked on the way. */
  function GoogleTranscript(root: Json): Recognition {
    var results := Field(root, "results");
    if results.Some? && Size(results.value) > 0 then
      match Element(results.value, 0)
      case None => Caught(NullFault)
      case Some(first) =>
        var alternatives := Field(first, "alternatives");
        if alternatives.Some? && Size(alternatives.value) > 0 then
          match Element(alternatives.value, 0)
          case None => Caught(NullFault)
          case Some(best) =>
            match Field(best, "transcript")
            case None => Caught(NullFault)
            case Some(t) => Said(AsText(t))
        else Said(NoSpeechText)
    else Said(NoSpeechText)
  }

  /** `err_no` is present and reads as 0. */
  predicate BaiduSucceeded(root: Json) {
    Has(root, "err_no") && AsInt(Field(root, "err_no").value) == 0
  }

  /** Baidu's answer: `result[0]` on success, otherwise its `err_msg`. */
  function BaiduResult(root: Json): Recognition {
    var result := Field(root, "result");
    if BaiduSucceeded(root) && result.Some? && Size(result.value) > 0 then
      match Element(result.value, 0)
      case None => Caught(NullFault)
      case Some(t) => Said(AsText(t))
    else
      match Field(root, "err_msg")
      case None => Caught(NullFault)
      case Some(m) => Said(FailedPrefix + AsText(m))
  }

  /** What a recognizer makes of the outcome of its recognition request. */
  function ReplyOf(p: SpeechProvider, outcome: Outcome): (r: Recognition)
    ensures outcome.Reply? && !IsSuccessful(outcome.code) ==> r == Said(FailedPrefix + outcome.reason)
    ensures outcome.IOFailure? ==> r == Caught(NetworkFault(outcome.detail))
  {
    match outcome
    case IOFailure(detail) => Caught(NetworkFault(detail))
    case Reply(code, reason, _, payload) =>
      if !IsSuccessful(code) then Said(FailedPrefix + reason)
      else
        match payload
        case NotJson(detail) => Caught(ParseFault(detail))
        case Tree(root) =>
          match p
          case Azure => AzureText(root)
          case Google => GoogleTranscript(root)
          case Baidu => BaiduResult(root)
  }

  const GooglePath: seq<Step> := [Name("results"), Index(0), Name("alternatives"), Index(0), Name("transcript")]

  /**
   * Reading Google's reply: the transcript at `results[0].alternatives[0].transcript` when
   * there is one; otherwise the no-speech text, or a null dereference when a non-empty
   * `results` or `alternatives` is not an array, or the first alternative has no transcript.
   */
  lemma GoogleTranscriptSpec(root: Json)
    ensures Path(root, GooglePath).Some? ==> GoogleTranscript(root) == Said(AsText(Path(root, GooglePath).value))
    ensures Path(root, GooglePath).None? ==> GoogleTranscript(root) in {Said(NoSpeechText), Caught(NullFault)}
    ensures GoogleTranscript(root) == Caught(NullFault) ==>
      Has(root, "results") && Size(Field(root, "results").value) > 0
  {
    var a, b, c, d := Index(0), Name("alternatives"), Index(0), Name("transcript");
    PathCons(root, Name("results"), [a, b, c, d]);
    if Field(root, "results").Some? {
      var results := Field(root, "results").value;
      PathCons(results, a, [b, c, d]);
      if Element(results, 0).Some? {
        var first := Element(results, 0).value;
        PathCons(first, b, [c, d]);
        if Field(first, "alternatives").Some? {
          var alternatives := Field(first, "alternatives").value;
          PathCons(alternatives, c, [d]);
          if Element(alternatives, 0).Some? {
            PathCons(Element(alternatives, 0).value, d, []);
          }
        }
      }
    }
  }

  const FirstResultPath: seq<Step> := [Name("results"), Index(0)]
  const AlternativesPath: seq<Step> := [Name("results"), Index(0), Name("alternatives")]
  const BestAlternativePath: seq<Step> := [Name("results"), Index(0), Name("alternatives"), Index(0)]

  /**
   * Which of the two answers a reply without a transcript gets: the no-speech text when
   * `results` is missing or empty, or when its first element has no non-empty
   * `alternatives`; a null dereference when a non-empty `results` is not an array.
   */
  lemma GoogleNoSpeechCases(root: Json)
    ensures !(Has(root, "results") && Size(Field(root, "results").value) > 0) ==>
      GoogleTranscript(root) == Said(NoSpeechText)
    ensures Has(root, "results") && Size(Field(root, "results").value) > 0 && Path(root, FirstResultPath).None?
      ==> GoogleTranscript(root) == Caught(NullFault)
    ensures Path(root, FirstResultPath).Some?
      && !(Has(Path(root, FirstResultPath).value, "alternatives")
           && Size(Field(Path(root, FirstResultPath).value, "alternatives").value) > 0)
      ==> GoogleTranscript(root) == Said(NoSpeechText)
  {
    PathCons(root, Name("results"), [Index(0)]);
    if Field(root, "results").Some? {
      PathCons(Field(root, "results").value, Index(0), []);
    }
  }

  /** A null dereference when a non-empty `alternatives` is not an array. */
  lemma GoogleAlternativesNotArray(root: Json)
    ensures Path(root, AlternativesPath).Some? && Size(Path(root, AlternativesPath).value) > 0
      && Path(root, BestAlternativePath).None?
      ==> GoogleTranscript(root) == Caught(NullFault)
  {
    var a, b, c := Index(0), Name("alternatives"), Index(0);
    PathCons(root, Name("results"), [a, b, c]);
    PathCons(root, Name("results"), [a, b]);
    if Field(root, "results").Some? {
      var results := Field(root, "results").value;
      PathCons(results, a, [b, c]);
      PathCons(results, a, [b]);
      if Element(results, 0).Some? {
        var first := Element(results, 0).value;
        PathCons(first, b, [c]);
        PathCons(first, b, []);
        if Field(first, "alternatives").Some? {
          PathCons(Field(first, "alternatives").value, c, []);
        }
      }
    }
  }

  /** A null dereference when the first alternative has no `transcript`. */
  lemma GoogleMissingTranscript(root: Json)
    ensures Path(root, BestAlternativePath).Some? && Path(root, GooglePath).None?
      ==> GoogleTranscript(root) == Caught(NullFault)
  {
    var a, b, c, d := Index(0), Name("alternatives"), Index(0), Name("transcript");
    PathCons(root, Name("results"), [a, b, c, d]);
    PathCons(root, Name("results"), [a, b, c]);
    if Field(root, "results").Some? {
      var results := Field(root, "results").value;
      PathCons(results, a, [b, c, d]);
      PathCons(results, a, [b, c]);
      if Element(results, 0).Some? {
        var first := Element(results, 0).value;
        PathCons(first, b, [c, d]);
        PathCons(first, b, [c]);
        if Field(first, "alternatives").Some? {
          var alternatives := Field(first, "alternatives").value;
          PathCons(alternatives, c, [d]);
          PathCons(alternatives, c, []);
          if Element(alternatives, 0).Some? {
            PathCons(Element(alternatives, 0).value, d, []);
          }
        }
      }
    }
  }

  /**
   * Reading Baidu's reply: the first recognised text when `err_no` reads as 0 and `result`
   * is a non-empty array; a null dereference when `err_no` reads as 0 and `result` is
   * non-empty but not an array; when `err_no` is missing or not 0, or `result` is missing or
   * empty, the reply's `err_msg` after the failure prefix, or a null dereference when there
   * is no `err_msg`.
   */
  lemma BaiduResultSpec(root: Json)
    ensures BaiduSucceeded(root) && Path(root, [Name("result"), Index(0)]).Some? ==>
      BaiduResult(root) == Said(AsText(Path(root, [Name("result"), Index(0)]).value))
    ensures BaiduSucceeded(root) && Has(root, "result") && Size(Field(root, "result").value) > 0
      && Path(root, [Name("result"), Index(0)]).None?
      ==> BaiduResult(root) == Caught(NullFault)
    ensures !(BaiduSucceeded(root) && Has(root, "result") && Size(Field(root, "result").value) > 0) ==>
      BaiduResult(root) == match Path(root, [Name("err_msg")])
        case None => Caught(NullFault)
        case Some(m) => Said(FailedPrefix + AsText(m))
  {
    PathCons(root, Name("result"), [Index(0)]);
    if Field(root, "result").Some? {
      PathCons(Field(root, "result").value, Index(0), []);
    }
    PathCons(root, Name("err_msg"), []);
  }

  // ---------------------------------------------------------------------------------------
  // Recognizers
  // ---------------------------------------------------------------------------------------

  /** A configuration read that throws inside a recognizer's `try`, before any request. */
  function Catching(x: Result<Exchange<Recognition>, ConfigError>): Exchange<Recognition> {
    match x
    case Ok(e) => e
    case Err(error) => Exchange(Caught(ConfigFault(error)), [])
  }

  /** `recognizeWithAzure`: key and region, the key check, then the language and one request. */
  function AzureSteps(c: Conf, audio: seq<byte>, net: Request -> Outcome): Result<Exchange<Recognition>, ConfigError> {
    var key :- GetString(c, AzureSubscriptionKey);
    var region :- GetString(c, AzureRegion);
    if key == [] then Ok(Exchange(Said(MissingCredentialText(Azure)), []))
    else
      var language :- GetString(c, SpeechLanguage);
      var request := AzureRequest(key, region, language, audio);
      Ok(Exchange(ReplyOf(Azure, net(request)), [request]))
  }

  /**
   * Past its key check, the Azure recognizer sends one request: the recorded bytes as they
   * are, the key in its header; what it answers is what it makes of the reply to it.
   */
  lemma AzureSendsRawAudio(c: Conf, key: string, region: string, language: string, audio: seq<byte>,
                           net: Request -> Outcome)
    requires GetString(c, AzureSubscriptionKey) == Ok(key) && key != []
    requires GetString(c, AzureRegion) == Ok(region)
    requires GetString(c, SpeechLanguage) == Ok(language)
    ensures var request := AzureRequest(key, region, language, audio);
      && Recognize(Azure, c, audio, net) == Exchange(ReplyOf(Azure, net(request)), [request])
      && request.body == Bytes("audio/wav", audio)
      && ("Ocp-Apim-Subscription-Key", key) in request.headers
  {
    var request := AzureRequest(key, region, language, audio);
    assert request.headers[0] == ("Ocp-Apim-Subscription-Key", key);
  }

  /** `recognizeWithGoogle`: key and endpoint, the key check, then rate, language and one request. */
  function GoogleSteps(c: Conf, audio: seq<byte>, net: Request -> Outcome): Result<Exchange<Recognition>, ConfigError> {
    var key :- GetString(c, GoogleApiKey);
    var endpoint :- GetString(c, GoogleEndpoint);
    if key == [] then Ok(Exchange(Said(MissingCredentialText(Google)), []))
    else
      var rate :- GetInt(c, SpeechSampleRate);
      var language :- GetString(c, SpeechLanguage);
      var request := GoogleRequest(endpoint, key, rate, language, audio);
      Ok(Exchange(ReplyOf(Google, net(request)), [request]))
  }

  /**
   * `recognizeWithBaidu`: both keys, the key check, then the token request and what follows
   * it.
   */
  function RecognizeWithBaidu(c: Conf, audio: seq<byte>, net: Request -> Outcome): Exchange<Recognition> {
    match GetString(c, BaiduApiKey)
    case Err(e) => Exchange(Caught(ConfigFault(e)), [])
    case Ok(apiKey) =>
      match GetString(c, BaiduSecretKey)
      case Err(e) => Exchange(Caught(ConfigFault(e)), [])
      case Ok(secret) =>
        if apiKey == [] || secret == [] then Exchange(Said(MissingCredentialText(Baidu)), [])
        else BaiduWithKeys(c, apiKey, secret, audio, net)
  }

  /** Only with a token are the sample rate read and the recognition request sent. */
  function BaiduWithKeys(c: Conf, apiKey: string, secret: string, audio: seq<byte>, net: Request -> Outcome)
    : Exchange<Recognition>
  {
    var tokenRequest := TokenRequest(apiKey, secret);
    match AccessToken(net(tokenRequest))
    case None => Exchange(Said(TokenFailureText), [tokenRequest])
    case Some(token) =>
      match GetInt(c, SpeechSampleRate)
      case Err(e) => Exchange(Caught(ConfigFault(e)), [tokenRequest])
      case Ok(rate) =>
        var request := BaiduRequest(rate, token, audio);
        Exchange(ReplyOf(Baidu, net(request)), [tokenRequest, request])
  }

  function Recognize(p: SpeechProvider, c: Conf, audio: seq<byte>, net: Request -> Outcome): Exchange<Recognition> {
    match p
    case Azure => Catching(AzureSteps(c, audio, net))
    case Google => Catching(GoogleSteps(c, audio, net))
    case Baidu => RecognizeWithBaidu(c, audio, net)
  }

  /**
   * `recognizeAudio`: the provider read outside any `try` (its failure is thrown to the
   * caller), and an unknown provider answered with a fixed text.
   */
  function RecognizeAudio(c: Conf, audio: seq<byte>, net: Request -> Outcome): Exchange<Result<Recognition, ConfigError>> {
    match GetString(c, SpeechProvider)
    case Err(e) => Exchange(Err(e), [])
    case Ok(name) =>
      match SpeechProviderOf(name)
      case None => Exchange(Ok(Said(UnsupportedSpeechText)), [])
      case Some(p) =>
        var x := Recognize(p, c, audio, net);
        Exchange(Ok(x.result), x.sent)
  }

  /** An unknown provider is answered with the unsupported-provider text and no request. */
  lemma UnknownSpeechProviderSendsNothing(c: Conf, audio: seq<byte>, net: Request -> Outcome)
    requires GetString(c, SpeechProvider).Ok? && SpeechProviderOf(GetString(c, SpeechProvider).value).None?
    ensures RecognizeAudio(c, audio, net) == Exchange(Ok(Said(UnsupportedSpeechText)), [])
  {
  }

  lemma GetStringOfGet(c: Conf, k: Key)
    requires KindOf(k) == StringKind && Get(c, k).Ok?
    ensures GetString(c, k).Ok?
  {
  }

  /**
   * The credential test mirrors the recognizer's short-circuit: when the settings read before
   * the check can be read, the credentials are absent exactly when recognition answers the
   * provider's configuration text without a request.
   */
  lemma CredentialTestMirrorsRecognizer(c: Conf, p: SpeechProvider, audio: seq<byte>, net: Request -> Outcome)
    requires CheckedKeysRead(c, p)
    ensures CredentialsPresent(c, p).Ok?
    ensures CredentialsPresent(c, p) == Ok(false) <==>
      Recognize(p, c, audio, net) == Exchange(Said(MissingCredentialText(p)), [])
  {
    GetStringOfGet(c, CheckedKeys(p)[0]);
    GetStringOfGet(c, CheckedKeys(p)[1]);
    match p
    case Azure => AzureCredentialTest(c, audio, net);
    case Google => GoogleCredentialTest(c, audio, net);
    case Baidu => BaiduCredentialTest(c, audio, net);
  }

  lemma AzureCredentialTest(c: Conf, audio: seq<byte>, net: Request -> Outcome)
    requires GetString(c, AzureSubscriptionKey).Ok? && GetString(c, AzureRegion).Ok?
    ensures CredentialsPresent(c, Azure) == Ok(false) <==>
      Recognize(Azure, c, audio, net) == Exchange(Said(MissingCredentialText(Azure)), [])
  {
  }

  lemma GoogleCredentialTest(c: Conf, audio: seq<byte>, net: Request -> Outcome)
    requires GetString(c, GoogleApiKey).Ok? && GetString(c, GoogleEndpoint).Ok?
    ensures CredentialsPresent(c, Google) == Ok(false) <==>
      Recognize(Google, c, audio, net) == Exchange(Said(MissingCredentialText(Google)), [])
  {
  }

  lemma BaiduCredentialTest(c: Conf, audio: seq<byte>, net: Request -> Outcome)
    requires GetString(c, BaiduApiKey).Ok? && GetString(c, BaiduSecretKey).Ok?
    ensures CredentialsPresent(c, Baidu) == Ok(false) <==>
      Recognize(Baidu, c, audio, net) == Exchange(Said(MissingCredentialText(Baidu)), [])
  {
    if CredentialsPresent(c, Baidu) == Ok(true) {
      assert Recognize(Baidu, c, audio, net).sent != [];
    }
  }

  /**
   * `isAvailable` mirrors the credential checks: for an enabled, known provider whose checked
   * settings can be read, it is false exactly when recognition stops at its credential check,
   * answering the provider's configuration text without a request.
   */
  lemma AvailableMirrorsCredentialCheck(c: Conf, p: SpeechProvider, audio: seq<byte>, net: Request -> Outcome)
    requires GetBool(c, SpeechEnabled) == Ok(true)
    requires GetString(c, SpeechProvider).Ok? && SpeechProviderOf(GetString(c, SpeechProvider).value) == Some(p)
    requires CheckedKeysRead(c, p)
    ensures IsAvailable(c).Ok?
    ensures IsAvailable(c) == Ok(false) <==>
      RecognizeAudio(c, audio, net) == Exchange(Ok(Said(MissingCredentialText(p))), [])
  {
    CredentialTestMirrorsRecognizer(c, p, audio, net);
  }

  /**
   * Baidu asks for its token first; without a token it answers the token failure text and
   * sends nothing more.
   */
  lemma BaiduTokenFirst(c: Conf, apiKey: string, secret: string, audio: seq<byte>, net: Request -> Outcome)
    requires GetString(c, BaiduApiKey) == Ok(apiKey) && apiKey != []
    requires GetString(c, BaiduSecretKey) == Ok(secret) && secret != []
    ensures RecognizeWithBaidu(c, audio, net).sent != []
    ensures RecognizeWithBaidu(c, audio, net).sent[0] == TokenRequest(apiKey, secret)
    ensures AccessToken(net(TokenRequest(apiKey, secret))).None? ==>
      RecognizeWithBaidu(c, audio, net) == Exchange(Said(TokenFailureText), [TokenRequest(apiKey, secret)])
  {
  }

  /** With a token, the recognition request follows the token request and carries the token. */
  lemma BaiduRequestCarriesToken(c: Conf, apiKey: string, secret: string, token: string, rate: Int32,
                                 audio: seq<byte>, net: Request -> Outcome)
    requires GetString(c, BaiduApiKey) == Ok(apiKey) && apiKey != []
    requires GetString(c, BaiduSecretKey) == Ok(secret) && secret != []
    requires AccessToken(net(TokenRequest(apiKey, secret))) == Some(token)
    requires GetInt(c, SpeechSampleRate) == Ok(rate)
    ensures RecognizeWithBaidu(c, audio, net).sent == [TokenRequest(apiKey, secret), BaiduRequest(rate, token, audio)]
  {
  }

  // ---------------------------------------------------------------------------------------
  // Recording
  // ---------------------------------------------------------------------------------------

  const ChunkSize: nat := 4096

  /** `initializeAudioFormat`'s format: the configured rate, 16-bit signed mono, little-endian. */
  datatype AudioFormat = AudioFormat(sampleRate: Int32, sampleSizeInBits: nat, channels: nat, signed: bool, bigEndian: bool)

  /** The format the constructor computes; constructing the service throws when this fails. */
  function FormatFor(c: Conf): (r: Result<AudioFormat, ConfigError>)
    ensures r.Ok? <==> GetInt(c, SpeechSampleRate).Ok?
    ensures r.Ok? ==> r.value.sampleRate == GetInt(c, SpeechSampleRate).value
  {
    var rate :- GetInt(c, SpeechSampleRate);
    Ok(AudioFormat(rate, 16, 1, true, false))
  }

  /** With the shipped configuration the recorder captures 16 kHz, 16-bit signed mono, little-endian. */
  lemma DefaultSampleFormat()
    ensures FormatFor(DefaultFile()) == Ok(AudioFormat(16000, 16, 1, true, false))
  {
    DefaultFileAgreesWithGetters(SpeechSampleRate);
    ShippedRate();
    FormatOfStoredRate(DefaultFile(), 16000);
  }

  /** Whatever rate is stored is captured, always 16-bit signed mono, little-endian. */
  lemma FormatFollowsStoredRate(c: Conf, rate: Int32)
    ensures FormatFor(Set(c, SpeechSampleRate, VInt(rate))) == Ok(AudioFormat(rate, 16, 1, true, false))
  {
    SetThenGet(c, SpeechSampleRate, VInt(rate));
    FormatOfStoredRate(Set(c, SpeechSampleRate, VInt(rate)), rate);
  }

  lemma ShippedRate()
    ensures FileValue(SpeechSampleRate) == VInt(16000)
  {
  }

  lemma FormatOfStoredRate(c: Conf, rate: Int32)
    requires Get(c, SpeechSampleRate) == Ok(VInt(rate))
    ensures FormatFor(c) == Ok(AudioFormat(rate, 16, 1, true, false))
  {
  }

  /** `targetDataLine`: none yet, a line that is not running, or the running line. */
  datatype LineState = NoLine | Closed | Running

  /**
   * Acquiring the microphone: the line is not supported, or it is unavailable (with or
   * without a line having been obtained before opening it failed), or it opens and starts.
   */
  datatype Device = Unsupported | Unavailable(obtained: bool) | Ready

  /** The exceptions `startRecording` throws. */
  datatype StartError = AlreadyRecording | UnsupportedFormat | MicrophoneUnavailable

  function StartErrorMessage(e: StartError): string {
    match e
    case AlreadyRecording => "录音已在进行中"
    case UnsupportedFormat => "不支持的音频格式"
    case MicrophoneUnavailable => "无法访问麦克风，请检查设备权限"
  }

  predicate ChunksFit(chunks: seq<seq<byte>>) {
    forall i :: 0 <= i < |chunks| ==> |chunks[i]| <= ChunkSize
  }

  /** The bytes a run of reads delivers, in order. */
  function Captured(chunks: seq<seq<byte>>): seq<byte> {
    if chunks == [] then [] else Captured(chunks[..|chunks| - 1]) + chunks[|chunks| - 1]
  }

  /** Reads of at most one chunk each capture at most one chunk per read. */
  lemma {:induction false} CapturedBound(chunks: seq<seq<byte>>)
    requires ChunksFit(chunks)
    ensures |Captured(chunks)| <= ChunkSize * |chunks|
  {
    if chunks != [] {
      CapturedBound(chunks[..|chunks| - 1]);
    }
  }

  /** Each read's bytes follow those of the reads before it. */
  lemma CapturedStep(chunks: seq<seq<byte>>, i: nat)
    requires i < |chunks|
    ensures Captured(chunks[..i + 1]) == Captured(chunks[..i]) + chunks[i]
  {
    assert chunks[..i + 1][..i] == chunks[..i];
  }

  /**
   * `TargetDataLine.read(buffer, 0, buffer.length)`, the device delivering `chunk`: the
   * chunk lands at the front of the buffer, the rest of the buffer keeps its old bytes, and
   * the count of bytes delivered is returned.
   */
  method ReadChunk(buffer: array<byte>, chunk: seq<byte>) returns (bytesRead: int)
    requires |chunk| <= buffer.Length
    modifies buffer
    ensures bytesRead == |chunk|
    ensures buffer[..bytesRead] == chunk && buffer[bytesRead..] == old(buffer[bytesRead..])
  {
    var k := 0;
    while k < |chunk|
      invariant 0 <= k <= |chunk|
      invariant buffer[..k] == chunk[..k]
      invariant buffer[k..] == old(buffer[k..])
    {
      buffer[k] := chunk[k];
      k := k + 1;
    }
    bytesRead := k;
  }

  class SpeechRecognitionService {
    const format: AudioFormat
    var isRecording: bool
    var line: LineState
    var audioBuffer: seq<byte>

    /** The recording flag is set exactly while the line runs. */
    predicate Valid()
      reads this
    {
      isRecording <==> line == Running
    }

    /**
     * The service for configuration `c`: its format is the one `initializeAudioFormat`
     * computes. When the sample rate cannot be read the source constructor throws, and no
     * service exists; that case is `FormatFor(c)`'s error.
     */
    constructor(c: Conf)
      requires FormatFor(c).Ok?
      ensures format == FormatFor(c).value && !isRecording && line == NoLine && audioBuffer == []
      ensures Valid()
    {
      format := FormatFor(c).value;
      isRecording := false;
      line := NoLine;
      audioBuffer := [];
    }

    /**
     * `startRecording`: refused while recording; an unsupported or unavailable microphone
     * leaves the recorder idle; otherwise a fresh, empty buffer and the flag set.
     */
    method StartRecording(device: Device) returns (error: Option<StartError>)
      requires Valid()
      modifies this
      ensures Valid()
      ensures old(isRecording) ==>
        error == Some(AlreadyRecording) && isRecording && line == old(line) && audioBuffer == old(audioBuffer)
      ensures !old(isRecording) && device.Unsupported? ==>
        error == Some(UnsupportedFormat) && !isRecording && line == old(line) && audioBuffer == old(audioBuffer)
      ensures !old(isRecording) && device.Unavailable? ==>
        error == Some(MicrophoneUnavailable) && !isRecording && audioBuffer == old(audioBuffer) &&
        line == (if device.obtained then Closed else old(line))
      ensures !old(isRecording) && device.Ready? ==>
        error == None && isRecording && line == Running && audioBuffer == []
    {
      if isRecording {
        return Some(AlreadyRecording);
      }
      match device
      case Unsupported =>
        return Some(UnsupportedFormat);
      case Unavailable(obtained) =>
        if obtained {
          line := Closed;
        }
        return Some(MicrophoneUnavailable);
      case Ready =>
        line := Running;
        audioBuffer := [];
        isRecording := true;
        return None;
    }

    /**
     * `recordAudio`: while recording, each read of up to one chunk into the reused chunk
     * buffer appends the bytes it delivered, and only those, to `audioBuffer`.
     */
    method CaptureLoop(chunks: seq<seq<byte>>)
      requires ChunksFit(chunks)
      modifies this
      ensures isRecording == old(isRecording) && line == old(line)
      ensures audioBuffer == old(audioBuffer) + (if isRecording && line != NoLine then Captured(chunks) else [])
      ensures |old(audioBuffer)| <= |audioBuffer| <= |old(audioBuffer)| + ChunkSize * |chunks|
    {
      var buffer := new byte[ChunkSize];
      var i := 0;
      while i < |chunks| && isRecording && line != NoLine
        invariant 0 <= i <= |chunks|
        invariant isRecording == old(isRecording) && line == old(line)
        invariant i > 0 ==> isRecording && line != NoLine
        invariant audioBuffer == old(audioBuffer) + Captured(chunks[..i])
        invariant |audioBuffer| <= |old(audioBuffer)| + ChunkSize * i
      {
        var bytesRead := ReadChunk(buffer, chunks[i]);
        if bytesRead > 0 {
          audioBuffer := audioBuffer + buffer[..bytesRead];
        }
        CapturedStep(chunks, i);
        i := i + 1;
      }
      if isRecording && line != NoLine {
        assert chunks[..|chunks|] == chunks;
      }
    }

    /**
     * `stopRecording`: while idle, an empty answer and nothing else; otherwise the flag is
     * cleared, the line closed, and exactly the captured bytes handed to recognition.
     */
    method StopRecording(c: Conf, net: Request -> Outcome) returns (r: Exchange<Result<Recognition, ConfigError>>)
      requires Valid()
      modifies this
      ensures Valid()
      ensures !old(isRecording) ==>
        r == Exchange(Ok(Said("")), []) && !isRecording && line == old(line) && audioBuffer == old(audioBuffer)
      ensures old(isRecording) ==>
        !isRecording && line == Closed && audioBuffer == old(audioBuffer) &&
        r == RecognizeAudio(c, old(audioBuffer), net)
    {
      if !isRecording {
        return Exchange(Ok(Said("")), []);
      }
      isRecording := false;
      if line != NoLine {
        line := Closed;
      }
      r := RecognizeAudio(c, audioBuffer, net);
    }
  }

  /**
   * A whole session on a fresh recorder, start, capture and stop, hands recognition
   * exactly the bytes the reads delivered.
   */
  method RecordingSession(chunks: seq<seq<byte>>, c: Conf, net: Request -> Outcome)
    returns (r: Exchange<Result<Recognition, ConfigError>>)
    requires ChunksFit(chunks)
    ensures FormatFor(c).Err? ==> r == Exchange(Err(FormatFor(c).error), [])
    ensures FormatFor(c).Ok? ==> r == RecognizeAudio(c, Captured(chunks), net)
  {
    if FormatFor(c).Err? {
      return Exchange(Err(FormatFor(c).error), []);
    }
    var service := new SpeechRecognitionService(c);
    assert service.format.sampleRate == GetInt(c, SpeechSampleRate).value;
    var error := service.StartRecording(Ready);
    assert service.isRecording && service.line == Running && service.audioBuffer == [];
    service.CaptureLoop(chunks);
    assert service.audioBuffer == [] + Captured(chunks) == Captured(chunks);
    var audio := service.audioBuffer;
    r := service.StopRecording(c, net);
    assert r == RecognizeAudio(c, audio, net);
  }
}
