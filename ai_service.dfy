/**
 * `AIService`: a chat request is dispatched on the configured provider, guarded by a
 * credential check, sent as a hand-built JSON text, and its answer is read back from the
 * JSON tree of the reply. The network is a function from request to outcome; each operation
 * returns the requests it issued beside its result.
 */
module AIService {
  import opened Wrappers
  import opened JavaLang
  import opened JsonTree
  import opened Http
  import opened Config
  import opened JsonText

  // ---------------------------------------------------------------------------------------
  // escapeJson
  // ---------------------------------------------------------------------------------------

  const Backspace: char := '\U{0008}'
  const FormFeed: char := '\U{000C}'

  /** `s.replace(c, t)` for a one-character target: every occurrence of `c`, left to right. */
  function Replace(s: string, c: char, t: string): string {
    if s == [] then [] else (if s[0] == c then t else [s[0]]) + Replace(s[1..], c, t)
  }

  /**
   * `escapeJson`: `null` becomes the empty text; otherwise seven `replace` calls, the
   * backslash first, then the quote, backspace, form feed, newline, carriage return and tab.
   */
  function EscapeJson(text: Option<string>): string {
    match text
    case None => ""
    case Some(t) =>
      var t1 := Replace(t, '\\', "\\\\");
      var t2 := Replace(t1, '"', "\\\"");
      var t3 := Replace(t2, Backspace, "\\b");
      var t4 := Replace(t3, FormFeed, "\\f");
      var t5 := Replace(t4, '\n', "\\n");
      var t6 := Replace(t5, '\r', "\\r");
      Replace(t6, '\t', "\\t")
  }

  /** The letter that follows a backslash in the escape of `c`, for the seven escaped characters. */
  function EscapeLetter(c: char): Option<char> {
    if c == '\\' then Some('\\')
    else if c == '"' then Some('"')
    else if c == Backspace then Some('b')
    else if c == FormFeed then Some('f')
    else if c == '\n' then Some('n')
    else if c == '\r' then Some('r')
    else if c == '\t' then Some('t')
    else None
  }

  /** The character a two-character escape `\x` stands for (section 7 of RFC 8259, in part). */
  function UnescapeLetter(x: char): Option<char> {
    if x == '\\' then Some('\\')
    else if x == '"' then Some('"')
    else if x == 'b' then Some(Backspace)
    else if x == 'f' then Some(FormFeed)
    else if x == 'n' then Some('\n')
    else if x == 'r' then Some('\r')
    else if x == 't' then Some('\t')
    else None
  }

  /** The per-character escape: a backslash and the letter, or the character itself. */
  function EscapeChar(c: char): string {
    match EscapeLetter(c)
    case Some(x) => ['\\', x]
    case None => [c]
  }

  /** The escape written as one pass over the text, character by character. */
  function EscapeMap(s: string): string {
    if s == [] then [] else EscapeChar(s[0]) + EscapeMap(s[1..])
  }

  /** Reading the escapes back: a backslash must start one of the seven two-character escapes. */
  function Unescape(s: string): Option<string> {
    if s == [] then Some([])
    else if s[0] == '\\' then
      if |s| >= 2 && UnescapeLetter(s[1]).Some? then
        var rest :- Unescape(s[2..]);
        Some([UnescapeLetter(s[1]).value] + rest)
      else None
    else
      var rest :- Unescape(s[1..]);
      Some([s[0]] + rest)
  }

  lemma {:induction false} ReplaceConcat(a: string, b: string, c: char, t: string)
    ensures Replace(a + b, c, t) == Replace(a, c, t) + Replace(b, c, t)
  {
    if a == [] {
      assert a + b == b;
    } else {
      assert (a + b)[0] == a[0];
      assert (a + b)[1..] == a[1..] + b;
      ReplaceConcat(a[1..], b, c, t);
    }
  }

  lemma {:induction false} ReplaceAbsent(s: string, c: char, t: string)
    requires c !in s
    ensures Replace(s, c, t) == s
  {
    if s != [] {
      assert s[0] in s;
      assert forall i :: 1 <= i < |s| ==> s[1..][i - 1] == s[i];
      ReplaceAbsent(s[1..], c, t);
      assert [s[0]] + s[1..] == s;
    }
  }

  lemma ReplaceOne(x: char, c: char, t: string)
    ensures Replace([x], c, t) == (if x == c then t else [x])
  {
    assert [x][1..] == [];
  }

  /** The seven replacements split over a concatenation. */
  lemma EscapeJsonConcat(a: string, b: string)
    ensures EscapeJson(Some(a + b)) == EscapeJson(Some(a)) + EscapeJson(Some(b))
  {
    ReplaceConcat(a, b, '\\', "\\\\");
    var a1, b1 := Replace(a, '\\', "\\\\"), Replace(b, '\\', "\\\\");
    ReplaceConcat(a1, b1, '"', "\\\"");
    var a2, b2 := Replace(a1, '"', "\\\""), Replace(b1, '"', "\\\"");
    ReplaceConcat(a2, b2, Backspace, "\\b");
    var a3, b3 := Replace(a2, Backspace, "\\b"), Replace(b2, Backspace, "\\b");
    ReplaceConcat(a3, b3, FormFeed, "\\f");
    var a4, b4 := Replace(a3, FormFeed, "\\f"), Replace(b3, FormFeed, "\\f");
    ReplaceConcat(a4, b4, '\n', "\\n");
    var a5, b5 := Replace(a4, '\n', "\\n"), Replace(b4, '\n', "\\n");
    ReplaceConcat(a5, b5, '\r', "\\r");
    var a6, b6 := Replace(a5, '\r', "\\r"), Replace(b5, '\r', "\\r");
    ReplaceConcat(a6, b6, '\t', "\\t");
  }

  /**
   * On one character the seven replacements give its escape: the backslash is replaced
   * before any replacement introduces one, and no escape holds a later target.
   */
  lemma EscapeJsonOneChar(x: char)
    ensures EscapeJson(Some([x])) == EscapeChar(x)
  {
    var t1 := Replace([x], '\\', "\\\\");
    ReplaceOne(x, '\\', "\\\\");
    var t2 := Replace(t1, '"', "\\\"");
    if x == '\\' { ReplaceAbsent(t1, '"', "\\\""); } else { ReplaceOne(x, '"', "\\\""); }
    var t3 := Replace(t2, Backspace, "\\b");
    if x == '\\' || x == '"' { ReplaceAbsent(t2, Backspace, "\\b"); } else { ReplaceOne(x, Backspace, "\\b"); }
    var t4 := Replace(t3, FormFeed, "\\f");
    if x == '\\' || x == '"' || x == Backspace {
      ReplaceAbsent(t3, FormFeed, "\\f");
    } else {
      ReplaceOne(x, FormFeed, "\\f");
    }
    var t5 := Replace(t4, '\n', "\\n");
    if x == '\\' || x == '"' || x == Backspace || x == FormFeed {
      ReplaceAbsent(t4, '\n', "\\n");
    } else {
      ReplaceOne(x, '\n', "\\n");
    }
    var t6 := Replace(t5, '\r', "\\r");
    if x == '\\' || x == '"' || x == Backspace || x == FormFeed || x == '\n' {
      ReplaceAbsent(t5, '\r', "\\r");
    } else {
      ReplaceOne(x, '\r', "\\r");
    }
    if x == '\\' || x == '"' || x == Backspace || x == FormFeed || x == '\n' || x == '\r' {
      ReplaceAbsent(t6, '\t', "\\t");
    } else {
      ReplaceOne(x, '\t', "\\t");
    }
  }

  /** The chained `replace` calls equal the single per-character map. */
  lemma {:induction false} EscapeJsonIsMap(s: string)
    ensures EscapeJson(Some(s)) == EscapeMap(s)
  {
    if s != [] {
      assert s == [s[0]] + s[1..];
      EscapeJsonConcat([s[0]], s[1..]);
      EscapeJsonOneChar(s[0]);
      EscapeJsonIsMap(s[1..]);
    }
  }

  lemma {:induction false} UnescapeEscapeMap(s: string)
    ensures Unescape(EscapeMap(s)) == Some(s)
  {
    if s != [] {
      var e, tail := EscapeChar(s[0]), EscapeMap(s[1..]);
      UnescapeEscapeMap(s[1..]);
      assert EscapeMap(s) == e + tail;
      match EscapeLetter(s[0])
      case Some(x) =>
        assert (e + tail)[0] == '\\' && (e + tail)[1] == x;
        assert (e + tail)[2..] == tail;
        assert UnescapeLetter(x) == Some(s[0]);
        assert [s[0]] + s[1..] == s;
      case None =>
        assert (e + tail)[0] == s[0] != '\\';
        assert (e + tail)[1..] == tail;
        assert [s[0]] + s[1..] == s;
    }
  }

  /** Undoing the seven escapes gives the text back. */
  lemma EscapeJsonRoundTrip(s: string)
    ensures Unescape(EscapeJson(Some(s))) == Some(s)
  {
    EscapeJsonIsMap(s);
    UnescapeEscapeMap(s);
  }

  /** A text holding none of the seven characters is returned unchanged. */
  lemma {:induction false} EscapeJsonUnchanged(s: string)
    requires forall i :: 0 <= i < |s| ==> EscapeLetter(s[i]).None?
    ensures EscapeJson(Some(s)) == s
  {
    EscapeMapUnchanged(s);
    EscapeJsonIsMap(s);
  }

  lemma {:induction false} EscapeMapUnchanged(s: string)
    requires forall i :: 0 <= i < |s| ==> EscapeLetter(s[i]).None?
    ensures EscapeMap(s) == s
  {
    if s != [] {
      assert forall i :: 0 <= i < |s| - 1 ==> s[1..][i] == s[i + 1];
      EscapeMapUnchanged(s[1..]);
      assert [s[0]] + s[1..] == s;
    }
  }

  /** The five control characters with a letter escape. */
  predicate IsEscapedControl(c: char) {
    c == Backspace || c == FormFeed || c == '\n' || c == '\r' || c == '\t'
  }

  lemma EscapeCharControls(x: char)
    ensures forall c :: c in EscapeChar(x) ==> !IsEscapedControl(c)
    ensures forall c :: c < ' ' && EscapeLetter(c).None? ==> multiset(EscapeChar(x))[c] == multiset([x])[c]
  {
  }

  lemma {:induction false} EscapeMapNoControls(s: string)
    ensures forall c :: c in EscapeMap(s) ==> !IsEscapedControl(c)
  {
    if s != [] {
      EscapeMapNoControls(s[1..]);
      EscapeCharControls(s[0]);
      assert EscapeMap(s) == EscapeChar(s[0]) + EscapeMap(s[1..]);
    }
  }

  lemma CountConcat(a: string, b: string, c: char)
    ensures multiset(a + b)[c] == multiset(a)[c] + multiset(b)[c]
  {
  }

  /** One character's escape holds a control character without a letter as often as it. */
  lemma EscapeCharCount(x: char, c: char)
    requires c < ' ' && EscapeLetter(c).None?
    ensures multiset(EscapeChar(x))[c] == multiset([x])[c]
  {
    EscapeCharControls(x);
  }

  lemma {:induction false} EscapeMapOtherControls(s: string, c: char)
    requires c < ' ' && EscapeLetter(c).None?
    ensures multiset(EscapeMap(s))[c] == multiset(s)[c]
  {
    if s != [] {
      EscapeMapOtherControls(s[1..], c);
      EscapeCharCount(s[0], c);
      CountConcat(EscapeChar(s[0]), EscapeMap(s[1..]), c);
      CountConcat([s[0]], s[1..], c);
      assert [s[0]] + s[1..] == s;
    }
  }

  /**
   * The output holds no raw backspace, form feed, newline, carriage return or tab, and every
   * other control character passes through as often as it occurs.
   */
  lemma EscapeJsonControls(s: string)
    ensures forall c :: c in EscapeJson(Some(s)) ==> !IsEscapedControl(c)
    ensures forall c :: c < ' ' && EscapeLetter(c).None? ==>
      multiset(EscapeJson(Some(s)))[c] == multiset(s)[c]
  {
    EscapeJsonIsMap(s);
    EscapeMapNoControls(s);
    forall c | c < ' ' && EscapeLetter(c).None?
      ensures multiset(EscapeJson(Some(s)))[c] == multiset(s)[c]
    {
      EscapeMapOtherControls(s, c);
    }
  }

  // ---------------------------------------------------------------------------------------
  // Request bodies
  // ---------------------------------------------------------------------------------------

  const SystemPrompt: string := "你是一个有用的AI助手，请用中文回答问题。"

  /**
   * `buildRequestBody`: the OpenAI chat body, also sent for the generic provider. Each
   * parenthesised group is one line of `append` calls.
   */
  function OpenAIBody(message: Option<string>, model: string, maxTokens: Int32, temperature: Double): string {
    "{"
    + ("\"model\":\"" + model + "\",")
    + "\"messages\":["
    + ("{\"role\":\"system\",\"content\":\"" + SystemPrompt + "\"},")
    + ("{\"role\":\"user\",\"content\":\"" + EscapeJson(message) + "\"}")
    + "],"
    + ("\"max_tokens\":" + IntText(maxTokens) + ",")
    + ("\"temperature\":" + temperature.text + ",")
    + "\"stream\":false"
    + "}"
  }

  /** `buildClaudeRequestBody`: the Anthropic messages body. */
  function ClaudeBody(message: Option<string>, model: string, maxTokens: Int32, temperature: Double): string {
    "{"
    + ("\"model\":\"" + model + "\",")
    + ("\"max_tokens\":" + IntText(maxTokens) + ",")
    + ("\"temperature\":" + temperature.text + ",")
    + "\"messages\":["
    + ("{\"role\":\"user\",\"content\":\"" + EscapeJson(message) + "\"}")
    + "]"
    + "}"
  }

  /** One chat message: its role, then its content. */
  function ChatMessage(role: string, content: string): Doc {
    DObject([Member("role", DString(role)), Member("content", DString(content))])
  }

  /** The OpenAI body as a document: the members in the order they are written. */
  function OpenAIDoc(message: Option<string>, model: string, maxTokens: Int32, temperature: Double): Doc {
    DObject([
      Member("model", DString(model)),
      Member("messages", DArray([ChatMessage("system", SystemPrompt), ChatMessage("user", EscapeJson(message))])),
      Member("max_tokens", DNumber(IntText(maxTokens))),
      Member("temperature", DNumber(temperature.text)),
      Member("stream", DBool(false))])
  }

  /** The Claude body as a document. */
  function ClaudeDoc(message: Option<string>, model: string, maxTokens: Int32, temperature: Double): Doc {
    DObject([
      Member("model", DString(model)),
      Member("max_tokens", DNumber(IntText(maxTokens))),
      Member("temperature", DNumber(temperature.text)),
      Member("messages", DArray([ChatMessage("user", EscapeJson(message))]))])
  }

  /** The roles of the messages in a `messages` array, in order. */
  function Roles(messages: seq<Doc>): seq<string> {
    if messages == [] then []
    else
      var first := messages[0];
      var role := if first.DObject? && |first.members| > 0 && first.members[0].value.DString?
        then [first.members[0].value.quoted] else [];
      role + Roles(messages[1..])
  }

  lemma RenderChatMessage(role: string, content: string)
    ensures Render(ChatMessage(role, content))
      == "{\"role\":\"" + role + "\",\"content\":\"" + content + "\"}"
  {
    TwoStringMembers("role", role, "content", content);
    assert "{" + ("\"" + "role" + "\":" + ("\"" + role + "\"")) + ("," + ("\"" + "content" + "\":" + ("\"" + content + "\""))) + "}"
      == "{\"role\":\"" + role + "\",\"content\":\"" + content + "\"}";
  }

  /**
   * Five rendered members, comma-separated inside braces, written line by line; the second
   * member spans four lines.
   */
  lemma Assemble5(p1: string, q1: string, q2: string, q3: string, q4: string, p3: string, p4: string, p5: string,
                  t1: string, t2: string, t3: string, t4: string, t5: string)
    requires p1 == t1 + "," && q1 + q2 + q3 + q4 == t2 + "," && p3 == t3 + "," && p4 == t4 + "," && p5 == t5
    ensures "{" + p1 + q1 + q2 + q3 + q4 + p3 + p4 + p5 + "}"
      == "{" + (t1 + ("," + (t2 + ("," + (t3 + ("," + (t4 + ("," + t5)))))))) + "}"
  {
    assert "{" + p1 + q1 + q2 + q3 + q4 == "{" + p1 + (q1 + q2 + q3 + q4);
  }

  lemma Assemble4(p1: string, p2: string, p3: string, p4: string,
                  t1: string, t2: string, t3: string, t4: string)
    requires p1 == t1 + "," && p2 == t2 + "," && p3 == t3 + "," && p4 == t4
    ensures "{" + p1 + p2 + p3 + p4 + "}" == "{" + (t1 + ("," + (t2 + ("," + (t3 + ("," + t4)))))) + "}"
  {
  }

  /** The OpenAI layout over the texts its members carry. */
  lemma OpenAILayout(model: string, sp: string, escaped: string, n: string, t: string)
    ensures "{"
    + ("\"model\":\"" + model + "\",")
    + "\"messages\":["
    + ("{\"role\":\"system\",\"content\":\"" + sp + "\"},")
    + ("{\"role\":\"user\",\"content\":\"" + escaped + "\"}")
    + "],"
    + ("\"max_tokens\":" + n + ",")
    + ("\"temperature\":" + t + ",")
    + "\"stream\":false"
    + "}"
    == Render(DObject([
      Member("model", DString(model)),
      Member("messages", DArray([ChatMessage("system", sp), ChatMessage("user", escaped)])),
      Member("max_tokens", DNumber(n)),
      Member("temperature", DNumber(t)),
      Member("stream", DBool(false))]))
  {
    var sys, user := ChatMessage("system", sp), ChatMessage("user", escaped);
    var m1, m2 := Member("model", DString(model)), Member("messages", DArray([sys, user]));
    var m3, m4 := Member("max_tokens", DNumber(n)), Member("temperature", DNumber(t));
    var m5 := Member("stream", DBool(false));
    StringMemberLine("model", model);
    NumberMemberLine("max_tokens", n);
    NumberMemberLine("temperature", t);
    assert RenderMember(m5) == "\"stream\":false";
    OpenAIMessagesMember(sp, escaped);
    RenderFiveMembers(m1, m2, m3, m4, m5);
    Assemble5(
      "\"model\":\"" + model + "\",",
      "\"messages\":[", "{\"role\":\"system\",\"content\":\"" + sp + "\"},",
      "{\"role\":\"user\",\"content\":\"" + escaped + "\"}", "],",
      "\"max_tokens\":" + n + ",",
      "\"temperature\":" + t + ",",
      "\"stream\":false",
      RenderMember(m1), RenderMember(m2), RenderMember(m3), RenderMember(m4), RenderMember(m5));
  }

  /** The four `messages` lines of the OpenAI body are the `messages` member and its comma. */
  lemma OpenAIMessagesMember(sp: string, escaped: string)
    ensures "\"messages\":[" + ("{\"role\":\"system\",\"content\":\"" + sp + "\"},")
        + ("{\"role\":\"user\",\"content\":\"" + escaped + "\"}") + "],"
      == RenderMember(Member("messages", DArray([ChatMessage("system", sp), ChatMessage("user", escaped)]))) + ","
  {
    var sys, user := ChatMessage("system", sp), ChatMessage("user", escaped);
    RenderChatMessage("system", sp);
    RenderChatMessage("user", escaped);
    assert [sys, user][1..] == [user];
    assert RenderItems([user]) == Render(user);
    assert RenderItems([sys, user]) == Render(sys) + ("," + Render(user));
    MessagesLine(sp, escaped, Render(sys), Render(user));
  }

  lemma RenderFiveMembers(m1: Member, m2: Member, m3: Member, m4: Member, m5: Member)
    ensures RenderMembers([m1, m2, m3, m4, m5]) == RenderMember(m1) + ("," + (RenderMember(m2) + ("," +
      (RenderMember(m3) + ("," + (RenderMember(m4) + ("," + RenderMember(m5))))))))
  {
    RenderMembersCons(m4, [m5]);
    RenderMembersCons(m3, [m4, m5]);
    RenderMembersCons(m2, [m3, m4, m5]);
    RenderMembersCons(m1, [m2, m3, m4, m5]);
    assert [m4] + [m5] == [m4, m5];
    assert [m3] + [m4, m5] == [m3, m4, m5];
    assert [m2] + [m3, m4, m5] == [m2, m3, m4, m5];
    assert [m1] + [m2, m3, m4, m5] == [m1, m2, m3, m4, m5];
  }

  /**
   * The OpenAI body is the compact rendering of an object whose members are, in order,
   * `model`, `messages` (a fixed system message, then one user message holding the escaped
   * text), `max_tokens`, `temperature` and `stream: false`.
   */
  lemma OpenAIBodyLayout(message: Option<string>, model: string, maxTokens: Int32, temperature: Double)
    ensures OpenAIBody(message, model, maxTokens, temperature) == Render(OpenAIDoc(message, model, maxTokens, temperature))
    ensures Roles(OpenAIDoc(message, model, maxTokens, temperature).members[1].value.items) == ["system", "user"]
  {
    OpenAILayout(model, SystemPrompt, EscapeJson(message), IntText(maxTokens), temperature.text);
    var sys, user := ChatMessage("system", SystemPrompt), ChatMessage("user", EscapeJson(message));
    assert [sys, user][1..] == [user];
    assert [user][1..] == [];
    assert Roles([user]) == ["user"];
    assert Roles([sys, user]) == ["system"] + Roles([user]);
  }

  /** The `messages` lines of the OpenAI body render the two-message array. */
  lemma MessagesLine(sp: string, escaped: string, s: string, u: string)
    requires s == "{\"role\":\"" + "system" + "\",\"content\":\"" + sp + "\"}"
    requires u == "{\"role\":\"" + "user" + "\",\"content\":\"" + escaped + "\"}"
    ensures "\"messages\":[" + ("{\"role\":\"system\",\"content\":\"" + sp + "\"},")
        + ("{\"role\":\"user\",\"content\":\"" + escaped + "\"}") + "],"
      == "\"" + "messages" + "\":" + ("[" + (s + ("," + u)) + "]") + ","
  {
  }

  /** The Claude layout over the texts its members carry. */
  lemma ClaudeLayout(model: string, escaped: string, n: string, t: string)
    ensures "{"
    + ("\"model\":\"" + model + "\",")
    + ("\"max_tokens\":" + n + ",")
    + ("\"temperature\":" + t + ",")
    + "\"messages\":["
    + ("{\"role\":\"user\",\"content\":\"" + escaped + "\"}")
    + "]"
    + "}"
    == Render(DObject([
      Member("model", DString(model)),
      Member("max_tokens", DNumber(n)),
      Member("temperature", DNumber(t)),
      Member("messages", DArray([ChatMessage("user", escaped)]))]))
  {
    var m1, m2 := Member("model", DString(model)), Member("max_tokens", DNumber(n));
    var m3, m4 := Member("temperature", DNumber(t)), Member("messages", DArray([ChatMessage("user", escaped)]));
    StringMemberLine("model", model);
    NumberMemberLine("max_tokens", n);
    NumberMemberLine("temperature", t);
    ClaudeMessagesMember(escaped);
    RenderFourMembers(m1, m2, m3, m4);
    Assemble4(
      "\"model\":\"" + model + "\",",
      "\"max_tokens\":" + n + ",",
      "\"temperature\":" + t + ",",
      "\"messages\":[" + ("{\"role\":\"user\",\"content\":\"" + escaped + "\"}") + "]",
      RenderMember(m1), RenderMember(m2), RenderMember(m3), RenderMember(m4));
  }

  /** The two `messages` lines of the Claude body are its `messages` member. */
  lemma ClaudeMessagesMember(escaped: string)
    ensures "\"messages\":[" + ("{\"role\":\"user\",\"content\":\"" + escaped + "\"}") + "]"
      == RenderMember(Member("messages", DArray([ChatMessage("user", escaped)])))
  {
    var user := ChatMessage("user", escaped);
    RenderChatMessage("user", escaped);
    assert RenderItems([user]) == Render(user);
    ClaudeMessagesLine(escaped, Render(user));
  }

  lemma RenderFourMembers(m1: Member, m2: Member, m3: Member, m4: Member)
    ensures RenderMembers([m1, m2, m3, m4]) == RenderMember(m1) + ("," + (RenderMember(m2) + ("," +
      (RenderMember(m3) + ("," + RenderMember(m4))))))
  {
    assert RenderMembers([m4]) == RenderMember(m4);
    RenderMembersCons(m3, [m4]);
    RenderMembersCons(m2, [m3, m4]);
    RenderMembersCons(m1, [m2, m3, m4]);
    assert [m3] + [m4] == [m3, m4];
    assert [m2] + [m3, m4] == [m2, m3, m4];
    assert [m1] + [m2, m3, m4] == [m1, m2, m3, m4];
  }

  /**
   * The Claude body is the compact rendering of an object whose members are, in order,
   * `model`, `max_tokens`, `temperature` and `messages`; its only message has the user role,
   * so it carries no system message.
   */
  lemma ClaudeBodyLayout(message: Option<string>, model: string, maxTokens: Int32, temperature: Double)
    ensures ClaudeBody(message, model, maxTokens, temperature) == Render(ClaudeDoc(message, model, maxTokens, temperature))
    ensures Roles(ClaudeDoc(message, model, maxTokens, temperature).members[3].value.items) == ["user"]
  {
    ClaudeLayout(model, EscapeJson(message), IntText(maxTokens), temperature.text);
    assert [ChatMessage("user", EscapeJson(message))][1..] == [];
  }

  lemma ClaudeMessagesLine(escaped: string, u: string)
    requires u == "{\"role\":\"" + "user" + "\",\"content\":\"" + escaped + "\"}"
    ensures "\"messages\":[" + ("{\"role\":\"user\",\"content\":\"" + escaped + "\"}") + "]"
      == "\"" + "messages" + "\":" + ("[" + u + "]")
  {
  }

  // ---------------------------------------------------------------------------------------
  // Provider dispatch, settings and credentials
  // ---------------------------------------------------------------------------------------

  datatype ChatProvider = OpenAI | Claude | Generic

  function ProviderName(p: ChatProvider): string {
    match p
    case OpenAI => "openai"
    case Claude => "claude"
    case Generic => "generic"
  }

  /** The `switch` on `provider.toLowerCase()`. */
  function ProviderOf(name: string): Option<ChatProvider> {
    var lower := LowerAscii(name);
    if lower == "openai" then Some(OpenAI)
    else if lower == "claude" then Some(Claude)
    else if lower == "generic" then Some(Generic)
    else None
  }

  /** A provider is selected exactly when the configured name spells it in any mix of cases. */
  lemma DispatchIgnoresCase(name: string, p: ChatProvider)
    ensures ProviderOf(name) == Some(p) <==> EqualsIgnoringCase(name, ProviderName(p))
  {
    LowerAsciiMatches(name, "openai");
    LowerAsciiMatches(name, "claude");
    LowerAsciiMatches(name, "generic");
  }

  /** The five settings a provider's `get…Response` reads. */
  datatype ChatSettings = ChatSettings(key: string, url: string, model: string, maxTokens: Int32, temperature: Double)

  /** Reading the five settings in the order the source reads them; the first failure wins. */
  function ReadFive(c: Conf, apiKey: Key, apiUrl: Key, model: Key, maxTokens: Key, temperature: Key)
    : Result<ChatSettings, ConfigError>
  {
    var key :- GetString(c, apiKey);
    var url :- GetString(c, apiUrl);
    var m :- GetString(c, model);
    var n :- GetInt(c, maxTokens);
    var t :- GetDouble(c, temperature);
    Ok(ChatSettings(key, url, m, n, t))
  }

  function ReadSettings(c: Conf, p: ChatProvider): Result<ChatSettings, ConfigError> {
    match p
    case OpenAI => ReadFive(c, OpenaiApiKey, OpenaiApiUrl, OpenaiModel, OpenaiMaxTokens, OpenaiTemperature)
    case Claude => ReadFive(c, ClaudeApiKey, ClaudeApiUrl, ClaudeModel, ClaudeMaxTokens, ClaudeTemperature)
    case Generic => ReadFive(c, GenericApiKey, GenericApiUrl, GenericModel, GenericMaxTokens, GenericTemperature)
  }

  // ---------------------------------------------------------------------------------------
  // Errors
  // ---------------------------------------------------------------------------------------

  /** The wire format a provider speaks: the generic provider speaks OpenAI's. */
  datatype Wire = OpenAIWire | ClaudeWire

  function WireOf(p: ChatProvider): Wire {
    if p == Claude then ClaudeWire else OpenAIWire
  }

  /** Why a successful reply yielded no answer. */
  datatype ParseFailure =
    | Malformed(detail: string)    // `readTree` threw; `detail` is the parser's message
    | ServiceError(message: string) // the reply carried `error.message`
    | ErrorWithoutMessage           // `error` without `message`: a NullPointerException
    | NoAnswer                      // nothing at the answer's place

  /** Why `callOpenAIAPI` or `callClaudeAPI` failed. */
  datatype CallFailure =
    | NetworkFailure(detail: string)
    | HttpFailure(code: int, body: string)
    | ParseFailed(failure: ParseFailure)

  /** The exceptions `getResponse` throws. */
  datatype ChatError =
    | ConfigFailure(error: ConfigError)
    | UnsupportedProvider(name: string)
    | MissingKey(provider: ChatProvider)
    | MissingUrl(provider: ChatProvider)
    | CallFailed(provider: ChatProvider, failure: CallFailure)

  function ParseFailureText(w: Wire, f: ParseFailure): Option<string> {
    match f
    case Malformed(detail) => Some(detail)
    case ServiceError(m) => Some((if w == ClaudeWire then "Claude API返回错误: " else "API返回错误: ") + m)
    case ErrorWithoutMessage => None
    case NoAnswer => Some(if w == ClaudeWire then "无法解析Claude API响应" else "无法解析API响应")
  }

  function CallFailureText(w: Wire, f: CallFailure): Option<string> {
    match f
    case NetworkFailure(detail) => Some("网络请求失败: " + detail)
    case HttpFailure(code, body) =>
      Some((if w == ClaudeWire then "Claude API请求失败: " else "API请求失败: ") + IntText(code) + " - " + body)
    case ParseFailed(pf) =>
      var inner :- ParseFailureText(w, pf);
      Some((if w == ClaudeWire then "解析Claude API响应失败: " else "解析API响应失败: ") + inner)
  }

  /**
   * The message of the exception `getResponse` throws; `None` where the text is composed
   * outside the core (by the configuration library, or by the JVM for a null dereference).
   */
  function Message(e: ChatError): Option<string> {
    match e
    case ConfigFailure(_) => None
    case UnsupportedProvider(name) => Some("不支持的AI服务提供商: " + name)
    case MissingKey(p) =>
      Some(match p
        case OpenAI => "OpenAI API Key未配置，请在设置中配置"
        case Claude => "Claude API Key未配置，请在设置中配置"
        case Generic => "通用API Key未配置，请在设置中配置")
    case MissingUrl(p) =>
      Some(match p
        case OpenAI => "OpenAI API URL未配置，请在设置中配置"
        case Claude => "Claude API URL未配置，请在设置中配置"
        case Generic => "通用API URL未配置，请在设置中配置")
    case CallFailed(p, f) =>
      var inner :- CallFailureText(WireOf(p), f);
      Some((match p
        case OpenAI => "获取OpenAI回复失败: "
        case Claude => "获取Claude回复失败: "
        case Generic => "获取通用API回复失败: ") + inner)
  }

  // ---------------------------------------------------------------------------------------
  // Requests and replies
  // ---------------------------------------------------------------------------------------

  const JsonMediaType: string := "application/json; charset=utf-8"

  /** The headers `callOpenAIAPI` and `callClaudeAPI` add, in order. */
  function Headers(w: Wire, key: string): seq<(string, string)> {
    match w
    case OpenAIWire => [("Authorization", "Bearer " + key), ("Content-Type", "application/json")]
    case ClaudeWire => [("x-api-key", key), ("Content-Type", "application/json"), ("anthropic-version", "2023-06-01")]
  }

  /** The POST a provider sends for a message. */
  function ChatRequest(p: ChatProvider, message: Option<string>, s: ChatSettings): Request {
    var body := match WireOf(p)
      case OpenAIWire => OpenAIBody(message, s.model, s.maxTokens, s.temperature)
      case ClaudeWire => ClaudeBody(message, s.model, s.maxTokens, s.temperature);
    Post(s.url, Headers(WireOf(p), s.key), Text(JsonMediaType, body))
  }

  /** `parseResponse`'s reading of a tree without `error`: `choices[0].message.content`. */
  function ChoiceContent(root: Json): Result<string, ParseFailure> {
    var choices := Field(root, "choices");
    if choices.Some? && choices.value.JArray? && Size(choices.value) > 0 then
      var message := Field(Element(choices.value, 0).value, "message");
      if message.Some? && Has(message.value, "content") then Ok(AsText(Field(message.value, "content").value))
      else Err(NoAnswer)
    else Err(NoAnswer)
  }

  /** `parseClaudeResponse`'s reading of a tree without `error`: `content[0].text`. */
  function ContentText(root: Json): Result<string, ParseFailure> {
    var content := Field(root, "content");
    if content.Some? && content.value.JArray? && Size(content.value) > 0 then
      var first := Element(content.value, 0).value;
      if Has(first, "text") then Ok(AsText(Field(first, "text").value)) else Err(NoAnswer)
    else Err(NoAnswer)
  }

  /** `parseResponse` and `parseClaudeResponse`: an `error` member wins over any answer. */
  function ParseReply(w: Wire, payload: Payload): Result<string, ParseFailure> {
    match payload
    case NotJson(detail) => Err(Malformed(detail))
    case Tree(root) =>
      if Has(root, "error") then
        match Field(Field(root, "error").value, "message")
        case Some(m) => Err(ServiceError(AsText(m)))
        case None => Err(ErrorWithoutMessage)
      else if w == OpenAIWire then ChoiceContent(root)
      else ContentText(root)
  }

  /** Where each wire format carries its answer and its error message. */
  function AnswerPath(w: Wire): seq<Step> {
    match w
    case OpenAIWire => [Name("choices"), Index(0), Name("message"), Name("content")]
    case ClaudeWire => [Name("content"), Index(0), Name("text")]
  }

  const ErrorMessagePath: seq<Step> := [Name("error"), Name("message")]

  lemma ChoiceContentIsPath(root: Json)
    ensures ChoiceContent(root) == match Path(root, AnswerPath(OpenAIWire))
      case Some(v) => Ok(AsText(v))
      case None => Err(NoAnswer)
  {
    PathCons(root, Name("choices"), [Index(0), Name("message"), Name("content")]);
    if Field(root, "choices").Some? {
      var choices := Field(root, "choices").value;
      PathCons(choices, Index(0), [Name("message"), Name("content")]);
      if Element(choices, 0).Some? {
        var first := Element(choices, 0).value;
        PathCons(first, Name("message"), [Name("content")]);
        if Field(first, "message").Some? {
          PathCons(Field(first, "message").value, Name("content"), []);
        }
      }
    }
  }

  lemma ContentTextIsPath(root: Json)
    ensures ContentText(root) == match Path(root, AnswerPath(ClaudeWire))
      case Some(v) => Ok(AsText(v))
      case None => Err(NoAnswer)
  {
    PathCons(root, Name("content"), [Index(0), Name("text")]);
    if Field(root, "content").Some? {
      var content := Field(root, "content").value;
      PathCons(content, Index(0), [Name("text")]);
      if Element(content, 0).Some? {
        PathCons(Element(content, 0).value, Name("text"), []);
      }
    }
  }

  /**
   * Reading a reply tree: with an `error` member the result is the service's error (its
   * `message`, or a null dereference when that is absent), whatever else the reply holds;
   * without one, it is the text of the node at the wire format's answer path, or "cannot
   * parse" when no node is there.
   */
  lemma ParseReplySpec(w: Wire, root: Json)
    ensures Has(root, "error") ==> ParseReply(w, Tree(root)) == match Path(root, ErrorMessagePath)
      case Some(m) => Err(ServiceError(AsText(m)))
      case None => Err(ErrorWithoutMessage)
    ensures !Has(root, "error") ==> ParseReply(w, Tree(root)) == match Path(root, AnswerPath(w))
      case Some(v) => Ok(AsText(v))
      case None => Err(NoAnswer)
  {
    PathCons(root, Name("error"), [Name("message")]);
    if Field(root, "error").Some? {
      PathCons(Field(root, "error").value, Name("message"), []);
    }
    ChoiceContentIsPath(root);
    ContentTextIsPath(root);
  }

  /** What `callOpenAIAPI` and `callClaudeAPI` make of the outcome of their one request. */
  function CallResult(w: Wire, outcome: Outcome): Result<string, CallFailure> {
    match outcome
    case IOFailure(detail) => Err(NetworkFailure(detail))
    case Reply(code, _, text, payload) =>
      if !IsSuccessful(code) then Err(HttpFailure(code, text))
      else
        match ParseReply(w, payload)
        case Ok(answer) => Ok(answer)
        case Err(f) => Err(ParseFailed(f))
  }

  // ---------------------------------------------------------------------------------------
  // getResponse and testConnection
  // ---------------------------------------------------------------------------------------

  /** `get…Response` for a provider: settings, the two credential checks, then one request. */
  function ProviderResponse(c: Conf, p: ChatProvider, message: Option<string>, net: Request -> Outcome)
    : Exchange<Result<string, ChatError>>
  {
    match ReadSettings(c, p)
    case Err(e) => Exchange(Err(ConfigFailure(e)), [])
    case Ok(s) =>
      if IsBlank(s.key) then Exchange(Err(MissingKey(p)), [])
      else if IsBlank(s.url) then Exchange(Err(MissingUrl(p)), [])
      else
        var request := ChatRequest(p, message, s);
        var result := match CallResult(WireOf(p), net(request))
          case Ok(answer) => Ok(answer)
          case Err(f) => Err(CallFailed(p, f));
        Exchange(result, [request])
  }

  /** `getResponse`: the configured provider, matched without regard to case. */
  function GetResponse(c: Conf, message: Option<string>, net: Request -> Outcome)
    : Exchange<Result<string, ChatError>>
  {
    match GetString(c, AiProvider)
    case Err(e) => Exchange(Err(ConfigFailure(e)), [])
    case Ok(name) =>
      match ProviderOf(name)
      case None => Exchange(Err(UnsupportedProvider(name)), [])
      case Some(p) => ProviderResponse(c, p, message, net)
  }

  const TestMessage: string := "你好，请回复'连接成功'"

  /** `testConnection`: a fixed message; true when the answer is not blank; failures rethrown. */
  function TestConnection(c: Conf, net: Request -> Outcome): Exchange<Result<bool, ChatError>> {
    var reply := GetResponse(c, Some(TestMessage), net);
    var result := match reply.result
      case Ok(answer) => Ok(!IsBlank(answer))
      case Err(e) => Err(e);
    Exchange(result, reply.sent)
  }

  /** A provider sends its one request exactly when its settings read and neither credential is blank. */
  lemma ProviderSendsAtMostOne(c: Conf, p: ChatProvider, message: Option<string>, net: Request -> Outcome)
    ensures var x := ProviderResponse(c, p, message, net);
      if ReadSettings(c, p).Ok? && !IsBlank(ReadSettings(c, p).value.key) && !IsBlank(ReadSettings(c, p).value.url)
      then x.sent == [ChatRequest(p, message, ReadSettings(c, p).value)]
      else x.sent == []
  {
  }

  /**
   * At most one request is sent; when one is, it is the configured provider's request for the
   * message and the configured settings, sent only after both credentials were found non-blank.
   */
  lemma GetResponseSendsAtMostOne(c: Conf, message: Option<string>, net: Request -> Outcome)
    ensures |GetResponse(c, message, net).sent| <= 1
    ensures GetResponse(c, message, net).sent != [] ==>
      GetString(c, AiProvider).Ok? && ProviderOf(GetString(c, AiProvider).value).Some? &&
      var p := ProviderOf(GetString(c, AiProvider).value).value;
      ReadSettings(c, p).Ok? && !IsBlank(ReadSettings(c, p).value.key) && !IsBlank(ReadSettings(c, p).value.url) &&
      GetResponse(c, message, net).sent == [ChatRequest(p, message, ReadSettings(c, p).value)]
  {
    if GetString(c, AiProvider).Ok? && ProviderOf(GetString(c, AiProvider).value).Some? {
      ProviderSendsAtMostOne(c, ProviderOf(GetString(c, AiProvider).value).value, message, net);
    }
  }

  /**
   * A blank key or a blank URL fails with the provider's configuration message before any
   * request is built; the key is checked first.
   */
  lemma BlankCredentialSendsNothing(c: Conf, p: ChatProvider, message: Option<string>, net: Request -> Outcome)
    requires GetString(c, AiProvider).Ok? && ProviderOf(GetString(c, AiProvider).value) == Some(p)
    requires ReadSettings(c, p).Ok?
    requires IsBlank(ReadSettings(c, p).value.key) || IsBlank(ReadSettings(c, p).value.url)
    ensures GetResponse(c, message, net).sent == []
    ensures GetResponse(c, message, net).result ==
      Err(if IsBlank(ReadSettings(c, p).value.key) then MissingKey(p) else MissingUrl(p))
  {
  }

  /** An unknown provider is rejected under its configured spelling, with no request. */
  lemma UnknownProviderSendsNothing(c: Conf, message: Option<string>, net: Request -> Outcome)
    requires GetString(c, AiProvider).Ok? && ProviderOf(GetString(c, AiProvider).value).None?
    ensures GetResponse(c, message, net) == Exchange(Err(UnsupportedProvider(GetString(c, AiProvider).value)), [])
  {
  }

  /** When no request is sent, the result does not depend on the network at all. */
  lemma NothingSentMeansNoNetwork(c: Conf, message: Option<string>, net: Request -> Outcome, other: Request -> Outcome)
    requires GetResponse(c, message, net).sent == []
    ensures GetResponse(c, message, other) == GetResponse(c, message, net)
  {
  }

  /**
   * OpenAI and the generic provider send the OpenAI body with a bearer token; Claude sends its
   * own body with the key in `x-api-key` and the API version header. Every request goes to
   * the configured URL as a JSON text.
   */
  lemma ChatRequestWire(p: ChatProvider, message: Option<string>, s: ChatSettings)
    ensures ChatRequest(p, message, s).url == s.url
    ensures ChatRequest(p, message, s).body.Text? && ChatRequest(p, message, s).body.mediaType == JsonMediaType
    ensures p != Claude ==>
      ChatRequest(p, message, s).headers[0] == ("Authorization", "Bearer " + s.key) &&
      ChatRequest(p, message, s).body.text == Render(OpenAIDoc(message, s.model, s.maxTokens, s.temperature))
    ensures p == Claude ==>
      ("x-api-key", s.key) in ChatRequest(p, message, s).headers &&
      ("anthropic-version", "2023-06-01") in ChatRequest(p, message, s).headers &&
      ChatRequest(p, message, s).body.text == Render(ClaudeDoc(message, s.model, s.maxTokens, s.temperature))
  {
    OpenAIBodyLayout(message, s.model, s.maxTokens, s.temperature);
    ClaudeBodyLayout(message, s.model, s.maxTokens, s.temperature);
  }

  /**
   * The connection test answers true exactly when the reply holds a character above the
   * space, false when it is all white space, and fails exactly as `getResponse` fails.
   */
  lemma TestConnectionSpec(c: Conf, net: Request -> Outcome)
    ensures TestConnection(c, net).sent == GetResponse(c, Some(TestMessage), net).sent
    ensures TestConnection(c, net).result.Err? <==> GetResponse(c, Some(TestMessage), net).result.Err?
    ensures TestConnection(c, net).result.Err? ==>
      TestConnection(c, net).result.error == GetResponse(c, Some(TestMessage), net).result.error
    ensures TestConnection(c, net).result == Ok(true) <==>
      GetResponse(c, Some(TestMessage), net).result.Ok? &&
      exists i :: 0 <= i < |GetResponse(c, Some(TestMessage), net).result.value| &&
        !IsTrimmed(GetResponse(c, Some(TestMessage), net).result.value[i])
  {
    var reply := GetResponse(c, Some(TestMessage), net);
    if reply.result.Ok? {
      BlankIffAllTrimmed(reply.result.value);
    }
  }
}
