/**
 * The JSON trees that Jackson's `ObjectMapper.readTree` returns, and the `JsonNode`
 * accessors the core uses on them: `has`, `get(name)`, `get(index)`, `size`, `asText`
 * and `asInt`. A Java `null` returned by `get` is `None`.
 */
module JsonTree {
  import opened Wrappers
  import opened JavaLang

  datatype Json =
    | JNull
    | JBool(b: bool)
    | JNum(n: int)                     // an integral number: `IntNode`, `LongNode`, `BigIntegerNode`
    | JDouble(shown: string, whole: int) // a `DoubleNode`: its `Double.toString` text, its value truncated toward zero
    | JStr(s: string)
    | JArray(items: seq<Json>)
    | JObject(fields: map<string, Json>)

  /** `node.get(name)`: the member of an object; any other node has none. */
  function Field(j: Json, name: string): (r: Option<Json>)
    ensures r.Some? <==> j.JObject? && name in j.fields
    ensures r.Some? ==> r.value == j.fields[name]
  {
    if j.JObject? && name in j.fields then Some(j.fields[name]) else None
  }

  /** `node.has(name)`, which Jackson defines as `get(name) != null`. */
  predicate Has(j: Json, name: string) {
    Field(j, name).Some?
  }

  /** `node.get(index)`: an element of an array; an object or a value node has none. */
  function Element(j: Json, i: int): (r: Option<Json>)
    ensures r.Some? <==> j.JArray? && 0 <= i < |j.items|
    ensures r.Some? ==> r.value == j.items[i]
  {
    if j.JArray? && 0 <= i < |j.items| then Some(j.items[i]) else None
  }

  /** `node.size()`: elements of an array, members of an object, 0 for a value node. */
  function Size(j: Json): nat {
    match j
    case JArray(items) => |items|
    case JObject(fields) => |fields|
    case _ => 0
  }

  /** One step into a tree: a member by name or an element by position. */
  datatype Step = Name(name: string) | Index(index: nat)

  /** One `get`: a member by name, or an array element by index. */
  function Take(j: Json, s: Step): Option<Json> {
    match s
    case Name(n) => Field(j, n)
    case Index(i) => Element(j, i)
  }

  /**
   * The node reached by following `steps` from `j`, taking each step with `get`; `None` as
   * soon as a step meets no node.
   */
  function Path(j: Json, steps: seq<Step>): Option<Json>
    decreases |steps|
  {
    if steps == [] then Some(j)
    else
      match Take(j, steps[0])
      case None => None
      case Some(child) => Path(child, steps[1..])
  }

  /** Following a path is taking its first step, then following the rest from there. */
  lemma PathCons(j: Json, s: Step, rest: seq<Step>)
    ensures Path(j, [s] + rest) ==
      match Take(j, s)
      case None => None
      case Some(child) => Path(child, rest)
  {
    assert ([s] + rest)[0] == s && ([s] + rest)[1..] == rest;
  }

  /** `node.asText()`: the text of a value node, "" for an array or an object. */
  function AsText(j: Json): string {
    match j
    case JNull => "null"
    case JBool(b) => if b then "true" else "false"
    case JNum(n) => IntText(n)
    case JDouble(shown, _) => shown
    case JStr(s) => s
    case _ => ""
  }

  /**
   * Jackson's `NumberInput.parseAsInt(text, 0)`: trim, drop one leading plus sign, and
   * when only digits follow an optional minus sign, `Integer.parseInt`, with 0 when that fails.
   * Text holding any other character is parsed by Jackson as a double and truncated; the
   * model reads such text as 0.
   */
  function TextAsInt(s: string): Int32 {
    var t := Trim(s);
    if t == [] then 0
    else
      var u := if t[0] == '+' then t[1..] else t;
      var from := if t[0] == '-' then 1 else 0;
      if AllDigits(u[from..]) then
        match ParseInt(u)
        case Some(v) => v
        case None => 0
      else 0
  }

  /** Java's `(int)` cast of a double: truncated toward zero, then held to the `int` range. */
  function Saturate32(whole: int): Int32 {
    if whole < IntMin then IntMin else if whole > IntMax then IntMax else whole
  }

  /**
   * `node.asInt()`: an integral number narrowed to `int`, a double cast to `int`, a boolean as
   * 1 or 0, text parsed, otherwise 0.
   */
  function AsInt(j: Json): Int32 {
    match j
    case JNum(n) => Wrap32(n)
    case JDouble(_, whole) => Saturate32(whole)
    case JBool(b) => if b then 1 else 0
    case JStr(s) => TextAsInt(s)
    case _ => 0
  }

  /** `asInt` reads back a 32-bit integer whether it is sent as a number or as its decimal text. */
  lemma AsIntReadsBack(n: Int32)
    ensures AsInt(JNum(n)) == n
    ensures AsInt(JStr(IntText(n))) == n
    ensures AsText(JNum(n)) == IntText(n)
  {
    var t := IntText(n);
    TrimOfUntrimmed(t);
    ParseIntText(n);
    if n < 0 {
      assert t[1..] == NatText(-(n as int));
    }
  }
}
