/**
 * The accessor layer of `ConfigManager`: the configuration is a map from dotted paths to
 * values, every getter is a lookup with a fallback, and every setter replaces the map by one
 * with a single path rebound. Reading and writing the configuration file is not modelled.
 */
module Config {
  import opened Wrappers
  import opened JavaLang

  /** A configuration value, as Typesafe Config holds it. */
  datatype Value = VString(s: string) | VInt(n: int) | VDouble(d: Double) | VBool(b: bool) | VNull

  /** The type a getter reads its path as. */
  datatype Kind = StringKind | IntKind | DoubleKind | BoolKind

  /**
   * A path the accessors read: the path of a key, or one of the five paths of the older
   * `openai` section. `PathText` gives its dotted text; distinct paths have distinct texts.
   */
  datatype ConfPath = At(key: Key) | Legacy(legacy: LegacyKey)

  datatype LegacyKey = LegacyApiKey | LegacyApiUrl | LegacyModel | LegacyMaxTokens | LegacyTemperature

  /** The configuration: each path the accessors read, bound to its value when present. */
  type Conf = map<ConfPath, Value>

  /** The exceptions Typesafe Config throws from a getter. */
  datatype ConfigError = Missing(path: ConfPath) | WrongType(path: ConfPath, expected: Kind)

  /** One constructor per getter/setter pair of `ConfigManager`. */
  datatype Key =
    | AiProvider
    | OpenaiApiKey | OpenaiApiUrl | OpenaiModel | OpenaiMaxTokens | OpenaiTemperature
    | ClaudeApiKey | ClaudeApiUrl | ClaudeModel | ClaudeMaxTokens | ClaudeTemperature
    | GenericApiKey | GenericApiUrl | GenericModel | GenericMaxTokens | GenericTemperature
    | SpeechEnabled | SpeechLanguage | SpeechSampleRate | SpeechProvider
    | AzureSubscriptionKey | AzureRegion | AzureEndpoint
    | GoogleApiKey | GoogleEndpoint
    | BaiduAppId | BaiduApiKey | BaiduSecretKey
    | UiTheme | UiFontSize | UiWindowWidth | UiWindowHeight
    | LoggingLevel | LoggingFile

  /** The dotted text of the path a key's getter reads first and its setter writes. */
  function PathOf(k: Key): string {
    match k
    case AiProvider => "ai.provider"
    case OpenaiApiKey => "ai.openai.api-key"
    case OpenaiApiUrl => "ai.openai.api-url"
    case OpenaiModel => "ai.openai.model"
    case OpenaiMaxTokens => "ai.openai.max-tokens"
    case OpenaiTemperature => "ai.openai.temperature"
    case ClaudeApiKey => "ai.claude.api-key"
    case ClaudeApiUrl => "ai.claude.api-url"
    case ClaudeModel => "ai.claude.model"
    case ClaudeMaxTokens => "ai.claude.max-tokens"
    case ClaudeTemperature => "ai.claude.temperature"
    case GenericApiKey => "ai.generic.api-key"
    case GenericApiUrl => "ai.generic.api-url"
    case GenericModel => "ai.generic.model"
    case GenericMaxTokens => "ai.generic.max-tokens"
    case GenericTemperature => "ai.generic.temperature"
    case SpeechEnabled => "speech.enabled"
    case SpeechLanguage => "speech.language"
    case SpeechSampleRate => "speech.sample-rate"
    case SpeechProvider => "speech.provider"
    case AzureSubscriptionKey => "speech.azure.subscription-key"
    case AzureRegion => "speech.azure.region"
    case AzureEndpoint => "speech.azure.endpoint"
    case GoogleApiKey => "speech.google.api-key"
    case GoogleEndpoint => "speech.google.endpoint"
    case BaiduAppId => "speech.baidu.app-id"
    case BaiduApiKey => "speech.baidu.api-key"
    case BaiduSecretKey => "speech.baidu.secret-key"
    case UiTheme => "ui.theme"
    case UiFontSize => "ui.font-size"
    case UiWindowWidth => "ui.window-width"
    case UiWindowHeight => "ui.window-height"
    case LoggingLevel => "logging.level"
    case LoggingFile => "logging.file"
  }

  /** The pre-`ai` path an OpenAI getter falls back to; no other key has one. */
  function LegacyPathOf(k: Key): (r: Option<ConfPath>)
    ensures r.Some? ==> r.value.Legacy?
    ensures r.Some? <==> k in {OpenaiApiKey, OpenaiApiUrl, OpenaiModel, OpenaiMaxTokens, OpenaiTemperature}
  {
    match k
    case OpenaiApiKey => Some(Legacy(LegacyApiKey))
    case OpenaiApiUrl => Some(Legacy(LegacyApiUrl))
    case OpenaiModel => Some(Legacy(LegacyModel))
    case OpenaiMaxTokens => Some(Legacy(LegacyMaxTokens))
    case OpenaiTemperature => Some(Legacy(LegacyTemperature))
    case _ => None
  }

  /** The dotted text of a path. */
  function PathText(p: ConfPath): string {
    match p
    case At(k) => PathOf(k)
    case Legacy(LegacyApiKey) => "openai.api-key"
    case Legacy(LegacyApiUrl) => "openai.api-url"
    case Legacy(LegacyModel) => "openai.model"
    case Legacy(LegacyMaxTokens) => "openai.max-tokens"
    case Legacy(LegacyTemperature) => "openai.temperature"
  }

  /** Each fall-back path is its key's own path without the leading `ai.`. */
  lemma LegacyPathDropsAi(k: Key)
    requires LegacyPathOf(k).Some?
    ensures "ai." + PathText(LegacyPathOf(k).value) == PathText(At(k))
  {
    match k
    case OpenaiApiKey => ApiKeyFallbackText();
    case OpenaiApiUrl => ApiUrlFallbackText();
    case OpenaiModel => ModelFallbackText();
    case OpenaiMaxTokens => MaxTokensFallbackText();
    case OpenaiTemperature => TemperatureFallbackText();
  }

  lemma ApiKeyFallbackText()
    ensures "ai." + PathText(Legacy(LegacyApiKey)) == PathOf(OpenaiApiKey)
  {
  }

  lemma ApiUrlFallbackText()
    ensures "ai." + PathText(Legacy(LegacyApiUrl)) == PathOf(OpenaiApiUrl)
  {
  }

  lemma ModelFallbackText()
    ensures "ai." + PathText(Legacy(LegacyModel)) == PathOf(OpenaiModel)
  {
  }

  lemma MaxTokensFallbackText()
    ensures "ai." + PathText(Legacy(LegacyMaxTokens)) == PathOf(OpenaiMaxTokens)
  {
  }

  lemma TemperatureFallbackText()
    ensures "ai." + PathText(Legacy(LegacyTemperature)) == PathOf(OpenaiTemperature)
  {
  }

  function KindOf(k: Key): Kind {
    match k
    case OpenaiMaxTokens | ClaudeMaxTokens | GenericMaxTokens | SpeechSampleRate
      | UiFontSize | UiWindowWidth | UiWindowHeight => IntKind
    case OpenaiTemperature | ClaudeTemperature | GenericTemperature => DoubleKind
    case SpeechEnabled => BoolKind
    case _ => StringKind
  }

  /** The value a getter returns when its path is absent; `None` where the getter has no default. */
  function DefaultOf(k: Key): (r: Option<Value>)
    ensures r.Some? ==> HasKind(r.value, KindOf(k))
  {
    match k
    case AiProvider => Some(VString("openai"))
    case OpenaiApiKey | ClaudeApiKey | GenericApiKey | GenericApiUrl => Some(VString(""))
    case OpenaiApiUrl => Some(VString("https://api.openai.com/v1/chat/completions"))
    case OpenaiModel | GenericModel => Some(VString("gpt-3.5-turbo"))
    case OpenaiMaxTokens | ClaudeMaxTokens | GenericMaxTokens => Some(VInt(1000))
    case OpenaiTemperature | ClaudeTemperature | GenericTemperature => Some(VDouble(Double("0.7")))
    case ClaudeApiUrl => Some(VString("https://api.anthropic.com/v1/messages"))
    case ClaudeModel => Some(VString("claude-3-sonnet-20240229"))
    case SpeechProvider => Some(VString("azure"))
    case AzureSubscriptionKey | GoogleApiKey | BaiduAppId | BaiduApiKey | BaiduSecretKey => Some(VString(""))
    case AzureRegion => Some(VString("eastasia"))
    case AzureEndpoint => Some(VString("https://eastasia.api.cognitive.microsoft.com/"))
    case GoogleEndpoint => Some(VString("https://speech.googleapis.com/v1/speech:recognize"))
    case _ => None
  }

  /** A value that a getter of this kind returns without error. */
  predicate HasKind(v: Value, kind: Kind) {
    match kind
    case StringKind => v.VString?
    case IntKind => v.VInt? && IntMin <= v.n <= IntMax
    case DoubleKind => v.VDouble?
    case BoolKind => v.VBool?
  }

  /** `config.hasPath(p)`, which is false for a path bound to null. */
  predicate HasPath(c: Conf, p: ConfPath) {
    p in c && c[p] != VNull
  }

  /** `config.getString(p)` and its siblings: the value, or the exception they throw. */
  function ReadAs(c: Conf, p: ConfPath, kind: Kind): (r: Result<Value, ConfigError>)
    ensures r.Ok? <==> HasPath(c, p) && HasKind(c[p], kind)
    ensures r.Ok? ==> r.value == c[p]
    ensures r.Err? && !HasPath(c, p) ==> r.error == Missing(p)
  {
    if !HasPath(c, p) then Err(Missing(p))
    else if HasKind(c[p], kind) then Ok(c[p])
    else Err(WrongType(p, kind))
  }

  /**
   * A lookup with fallbacks: with no default, the path itself; with one, the path when
   * present, else the legacy path when there is one and it is present, else the default.
   */
  function Lookup(c: Conf, p: ConfPath, legacy: Option<ConfPath>, default: Option<Value>, kind: Kind)
    : (r: Result<Value, ConfigError>)
    ensures r.Ok? && (default.None? || r.value != default.value) ==> HasKind(r.value, kind)
  {
    match default
    case None => ReadAs(c, p, kind)
    case Some(d) =>
      if HasPath(c, p) then ReadAs(c, p, kind)
      else if legacy.Some? && HasPath(c, legacy.value) then ReadAs(c, legacy.value, kind)
      else Ok(d)
  }

  /** The getter of key `k`: its path, then its legacy path, then its default. */
  function Get(c: Conf, k: Key): (r: Result<Value, ConfigError>)
    ensures r.Ok? ==> HasKind(r.value, KindOf(k))
  {
    Lookup(c, At(k), LegacyPathOf(k), DefaultOf(k), KindOf(k))
  }

  /**
   * `getString`, `getInt`, `getDouble` and `getBool` on a key's getter: the value the getter
   * reads; applied to a key whose getter reads another type they fail, as Typesafe Config's
   * getters do on a value of another type.
   */
  function GetString(c: Conf, k: Key): Result<string, ConfigError> {
    var v :- Get(c, k);
    if v.VString? then Ok(v.s) else Err(WrongType(At(k), StringKind))
  }

  function GetInt(c: Conf, k: Key): Result<Int32, ConfigError> {
    var v :- Get(c, k);
    if v.VInt? then Ok(v.n) else Err(WrongType(At(k), IntKind))
  }

  function GetDouble(c: Conf, k: Key): Result<Double, ConfigError> {
    var v :- Get(c, k);
    if v.VDouble? then Ok(v.d) else Err(WrongType(At(k), DoubleKind))
  }

  function GetBool(c: Conf, k: Key): Result<bool, ConfigError> {
    var v :- Get(c, k);
    if v.VBool? then Ok(v.b) else Err(WrongType(At(k), BoolKind))
  }

  /** `getModel`, `getMaxTokens` and `getTemperature` read the OpenAI settings. */
  function GetModel(c: Conf): Result<string, ConfigError> {
    GetString(c, OpenaiModel)
  }

  function GetMaxTokens(c: Conf): Result<Int32, ConfigError> {
    GetInt(c, OpenaiMaxTokens)
  }

  function GetTemperature(c: Conf): Result<Double, ConfigError> {
    GetDouble(c, OpenaiTemperature)
  }

  /**
   * What `setModel`, `setMaxTokens` and `setTemperature` store, `getModel`, `getMaxTokens`
   * and `getTemperature` return.
   */
  lemma AliasesRoundTrip(c: Conf, model: string, maxTokens: Int32, temperature: Double)
    ensures GetModel(Set(c, OpenaiModel, VString(model))) == Ok(model)
    ensures GetMaxTokens(Set(c, OpenaiMaxTokens, VInt(maxTokens))) == Ok(maxTokens)
    ensures GetTemperature(Set(c, OpenaiTemperature, VDouble(temperature))) == Ok(temperature)
  {
    SetThenGet(c, OpenaiModel, VString(model));
    SetThenGet(c, OpenaiMaxTokens, VInt(maxTokens));
    SetThenGet(c, OpenaiTemperature, VDouble(temperature));
  }

  /** The setter of key `k`: `config.withValue(path, value)` on the key's own path. */
  function Set(c: Conf, k: Key, v: Value): Conf
    requires HasKind(v, KindOf(k))
  {
    c[At(k) := v]
  }

  /** The top-level section of a key's path. */
  datatype Section = AiSection | SpeechSection | UiSection | LoggingSection

  function SectionOf(k: Key): Section {
    match k
    case AiProvider | OpenaiApiKey | OpenaiApiUrl | OpenaiModel | OpenaiMaxTokens | OpenaiTemperature
      | ClaudeApiKey | ClaudeApiUrl | ClaudeModel | ClaudeMaxTokens | ClaudeTemperature
      | GenericApiKey | GenericApiUrl | GenericModel | GenericMaxTokens | GenericTemperature => AiSection
    case UiTheme | UiFontSize | UiWindowWidth | UiWindowHeight => UiSection
    case LoggingLevel | LoggingFile => LoggingSection
    case _ => SpeechSection
  }

  /** The first letter of a section's name. */
  function Initial(s: Section): char {
    match s
    case AiSection => 'a'
    case SpeechSection => 's'
    case UiSection => 'u'
    case LoggingSection => 'l'
  }

  /** A key's path begins with its section's name. */
  lemma PathInitial(k: Key)
    ensures |PathOf(k)| > 0 && PathOf(k)[0] == Initial(SectionOf(k))
  {
  }

  /** A legacy path begins with `openai`. */
  lemma LegacyInitial(l: LegacyKey)
    ensures |PathText(Legacy(l))| > 0 && PathText(Legacy(l))[0] == 'o'
  {
  }

  lemma AiPathsDistinct(k: Key, k': Key)
    requires SectionOf(k) == SectionOf(k') == AiSection
    ensures PathOf(k) == PathOf(k') ==> k == k'
  {
    AiGroupAt(k);
    AiGroupAt(k');
    if AiGroup(k) == AiGroup(k') {
      AiGroupPathsDistinct(k, k');
    }
  }

  /** The letter after `ai.` in a key of the `ai` section: `p`, `o`, `c` or `g`. */
  function AiGroup(k: Key): char {
    match k
    case OpenaiApiKey | OpenaiApiUrl | OpenaiModel | OpenaiMaxTokens | OpenaiTemperature => 'o'
    case ClaudeApiKey | ClaudeApiUrl | ClaudeModel | ClaudeMaxTokens | ClaudeTemperature => 'c'
    case GenericApiKey | GenericApiUrl | GenericModel | GenericMaxTokens | GenericTemperature => 'g'
    case _ => 'p'
  }

  lemma AiGroupAt(k: Key)
    requires SectionOf(k) == AiSection
    ensures |PathOf(k)| > 3 && PathOf(k)[3] == AiGroup(k)
  {
  }

  lemma AiGroupPathsDistinct(k: Key, k': Key)
    requires SectionOf(k) == SectionOf(k') == AiSection && AiGroup(k) == AiGroup(k')
    ensures PathOf(k) == PathOf(k') ==> k == k'
  {
  }

  lemma SpeechPathsDistinct(k: Key, k': Key)
    requires SectionOf(k) == SectionOf(k') == SpeechSection
    ensures PathOf(k) == PathOf(k') ==> k == k'
  {
  }

  lemma UiAndLoggingPathsDistinct(k: Key, k': Key)
    requires SectionOf(k) == SectionOf(k') && SectionOf(k) != AiSection && SectionOf(k) != SpeechSection
    ensures PathOf(k) == PathOf(k') ==> k == k'
  {
  }

  lemma LegacyPathsDistinct(l: LegacyKey, l': LegacyKey)
    ensures PathText(Legacy(l)) == PathText(Legacy(l')) ==> l == l'
  {
  }

  /**
   * No two paths share a dotted text, so keying the map by paths loses nothing; in
   * particular no setter writes a legacy path.
   */
  lemma PathTextInjective(p: ConfPath, q: ConfPath)
    ensures PathText(p) == PathText(q) ==> p == q
  {
    match p {
      case At(k) =>
        PathInitial(k);
        match q {
          case At(k') =>
            PathInitial(k');
            if SectionOf(k) == SectionOf(k') {
              match SectionOf(k) {
                case AiSection => AiPathsDistinct(k, k');
                case SpeechSection => SpeechPathsDistinct(k, k');
                case _ => UiAndLoggingPathsDistinct(k, k');
              }
            }
          case Legacy(l) => LegacyInitial(l);
        }
      case Legacy(l) =>
        LegacyInitial(l);
        match q {
          case At(k') => PathInitial(k');
          case Legacy(l') => LegacyPathsDistinct(l, l');
        }
    }
  }

  /** After `setK(v)`, `getK()` returns `v`, whatever the legacy path holds. */
  lemma SetThenGet(c: Conf, k: Key, v: Value)
    requires HasKind(v, KindOf(k))
    ensures Get(Set(c, k, v), k) == Ok(v)
  {
    LookupPresent(c[At(k) := v], At(k), LegacyPathOf(k), DefaultOf(k), KindOf(k));
  }

  /** A lookup whose own path holds a value of its type returns that value. */
  lemma LookupPresent(c: Conf, p: ConfPath, legacy: Option<ConfPath>, default: Option<Value>, kind: Kind)
    requires p in c && HasKind(c[p], kind)
    ensures Lookup(c, p, legacy, default, kind) == Ok(c[p])
  {
  }

  /** A setter changes no other getter's result. */
  lemma SetLeavesOthers(c: Conf, k: Key, v: Value, k': Key)
    requires HasKind(v, KindOf(k))
    requires k' != k
    ensures Get(Set(c, k, v), k') == Get(c, k')
  {
    LookupIgnoresOtherPaths(c, At(k), v, At(k'), LegacyPathOf(k'), DefaultOf(k'), KindOf(k'));
  }

  /** A lookup reads its path and its legacy path, and nothing else. */
  lemma LookupIgnoresOtherPaths(c: Conf, q: ConfPath, v: Value, p: ConfPath, legacy: Option<ConfPath>,
                                default: Option<Value>, kind: Kind)
    requires q != p
    requires legacy.Some? ==> legacy.value != q
    ensures Lookup(c[q := v], p, legacy, default, kind) == Lookup(c, p, legacy, default, kind)
  {
  }

  /** Setting a key twice keeps only the second value. */
  lemma SetTwice(c: Conf, k: Key, v: Value, w: Value)
    requires HasKind(v, KindOf(k)) && HasKind(w, KindOf(k))
    ensures Set(Set(c, k, v), k, w) == Set(c, k, w)
  {
  }

  /** Getters with a default never fail on a configuration that lacks their paths. */
  lemma DefaultsWhenAbsent(c: Conf, k: Key)
    requires !HasPath(c, At(k))
    requires LegacyPathOf(k).Some? ==> !HasPath(c, LegacyPathOf(k).value)
    ensures DefaultOf(k).Some? ==> Get(c, k) == Ok(DefaultOf(k).value)
    ensures DefaultOf(k).None? ==> Get(c, k) == Err(Missing(At(k)))
  {
  }

  /** An OpenAI getter reads its legacy path only when the `ai.openai` path is absent. */
  lemma OpenaiLegacyFallback(c: Conf, k: Key)
    requires LegacyPathOf(k).Some?
    ensures HasPath(c, At(k)) ==> Get(c, k) == ReadAs(c, At(k), KindOf(k))
    ensures !HasPath(c, At(k)) && HasPath(c, LegacyPathOf(k).value) ==>
      Get(c, k) == ReadAs(c, LegacyPathOf(k).value, KindOf(k))
    ensures !HasPath(c, At(k)) && !HasPath(c, LegacyPathOf(k).value) ==>
      Get(c, k) == Ok(DefaultOf(k).value)
  {
  }

  /** Every key. */
  const AllKeys: set<Key> := {
    AiProvider,
    OpenaiApiKey, OpenaiApiUrl, OpenaiModel, OpenaiMaxTokens, OpenaiTemperature,
    ClaudeApiKey, ClaudeApiUrl, ClaudeModel, ClaudeMaxTokens, ClaudeTemperature,
    GenericApiKey, GenericApiUrl, GenericModel, GenericMaxTokens, GenericTemperature,
    SpeechEnabled, SpeechLanguage, SpeechSampleRate, SpeechProvider,
    AzureSubscriptionKey, AzureRegion, AzureEndpoint,
    GoogleApiKey, GoogleEndpoint,
    BaiduAppId, BaiduApiKey, BaiduSecretKey,
    UiTheme, UiFontSize, UiWindowWidth, UiWindowHeight,
    LoggingLevel, LoggingFile
  }

  /** The value the default configuration file binds to a key's path. */
  function FileValue(k: Key): Value {
    match k
    case AiProvider => VString("openai")
    case OpenaiApiKey | ClaudeApiKey | GenericApiKey | GenericApiUrl => VString("")
    case OpenaiApiUrl => VString("https://api.openai.com/v1/chat/completions")
    case OpenaiModel | GenericModel => VString("gpt-3.5-turbo")
    case OpenaiMaxTokens | ClaudeMaxTokens | GenericMaxTokens => VInt(1000)
    case OpenaiTemperature | ClaudeTemperature | GenericTemperature => VDouble(Double("0.7"))
    case ClaudeApiUrl => VString("https://api.anthropic.com/v1/messages")
    case ClaudeModel => VString("claude-3-sonnet-20240229")
    case SpeechEnabled => VBool(false)
    case SpeechProvider => VString("azure")
    case SpeechLanguage => VString("zh-CN")
    case SpeechSampleRate => VInt(16000)
    case AzureSubscriptionKey | GoogleApiKey | BaiduAppId | BaiduApiKey | BaiduSecretKey => VString("")
    case AzureRegion => VString("eastasia")
    case AzureEndpoint => VString("https://eastasia.api.cognitive.microsoft.com/")
    case GoogleEndpoint => VString("https://speech.googleapis.com/v1/speech:recognize")
    case UiTheme => VString("light")
    case UiFontSize => VInt(12)
    case UiWindowWidth => VInt(500)
    case UiWindowHeight => VInt(400)
    case LoggingLevel => VString("INFO")
    case LoggingFile => VString("aiquiztool.log")
  }

  /** The configuration the default file holds once parsed: every key's path and nothing else. */
  function DefaultFile(): (c: Conf)
    ensures forall k :: At(k) in c && c[At(k)] == FileValue(k)
    ensures forall p :: p in c ==> p.At?
  {
    AllKeysListed();
    map k | k in AllKeys :: At(k) := FileValue(k)
  }

  lemma AllKeysListed()
    ensures forall k :: k in AllKeys
  {
    forall k ensures k in AllKeys {
      match k
      case AiProvider =>
      case OpenaiApiKey =>
      case OpenaiApiUrl =>
      case OpenaiModel =>
      case OpenaiMaxTokens =>
      case OpenaiTemperature =>
      case ClaudeApiKey =>
      case ClaudeApiUrl =>
      case ClaudeModel =>
      case ClaudeMaxTokens =>
      case ClaudeTemperature =>
      case GenericApiKey =>
      case GenericApiUrl =>
      case GenericModel =>
      case GenericMaxTokens =>
      case GenericTemperature =>
      case SpeechEnabled =>
      case SpeechLanguage =>
      case SpeechSampleRate =>
      case SpeechProvider =>
      case AzureSubscriptionKey =>
      case AzureRegion =>
      case AzureEndpoint =>
      case GoogleApiKey =>
      case GoogleEndpoint =>
      case BaiduAppId =>
      case BaiduApiKey =>
      case BaiduSecretKey =>
      case UiTheme =>
      case UiFontSize =>
      case UiWindowWidth =>
      case UiWindowHeight =>
      case LoggingLevel =>
      case LoggingFile =>
    }
  }

  /**
   * Every getter succeeds on the default file, and where a getter has its own default,
   * the file holds that same value.
   */
  lemma DefaultFileAgreesWithGetters(k: Key)
    ensures Get(DefaultFile(), k) == Ok(FileValue(k))
    ensures DefaultOf(k).Some? ==> DefaultOf(k).value == FileValue(k)
  {
    var c := DefaultFile();
    assert At(k) in c && c[At(k)] == FileValue(k);
    FileValueFits(k);
    LookupPresent(c, At(k), LegacyPathOf(k), DefaultOf(k), KindOf(k));
  }

  /** Each value in the default file has its getter's type and agrees with its getter's default. */
  lemma FileValueFits(k: Key)
    ensures HasKind(FileValue(k), KindOf(k))
    ensures DefaultOf(k).Some? ==> DefaultOf(k).value == FileValue(k)
  {
  }

  /** The configuration object; each setter replaces its map. */
  class ConfigManager {
    var config: Conf

    constructor (loaded: Conf)
      ensures config == loaded
    {
      config := loaded;
    }

    /** The getter of key `k` on the current map. */
    function Read(k: Key): Result<Value, ConfigError>
      reads this
    {
      Get(config, k)
    }

    /** The setter of key `k`. */
    method Write(k: Key, v: Value)
      requires HasKind(v, KindOf(k))
      modifies this
      ensures config == Set(old(config), k, v)
      ensures Read(k) == Ok(v)
      ensures forall k' :: k' != k ==> Read(k') == old(Read(k'))
    {
      config := Set(config, k, v);
      SetThenGet(old(config), k, v);
      forall k' | k' != k
        ensures Read(k') == old(Read(k'))
      {
        SetLeavesOthers(old(config), k, v, k');
      }
    }

    /** `setModel`, `setMaxTokens` and `setTemperature` write the OpenAI settings. */
    method SetModel(model: string)
      modifies this
      ensures config == Set(old(config), OpenaiModel, VString(model))
    {
      Write(OpenaiModel, VString(model));
    }

    method SetMaxTokens(maxTokens: Int32)
      modifies this
      ensures config == Set(old(config), OpenaiMaxTokens, VInt(maxTokens))
    {
      Write(OpenaiMaxTokens, VInt(maxTokens));
    }

    method SetTemperature(temperature: Double)
      modifies this
      ensures config == Set(old(config), OpenaiTemperature, VDouble(temperature))
    {
      Write(OpenaiTemperature, VDouble(temperature));
    }
  }
}
