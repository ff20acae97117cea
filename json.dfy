/**
 * JSON values (RFC 8259) as JavaScript sees them after `JSON.parse`, the
 * property lookups and conversions the client applies to them, and the one
 * serialisation the server performs itself: `JSON.stringify({ text })`.
 * Numbers are integers in this model.
 */
module Json {
  import opened Optional
  import JsStrings

  datatype Json =
    | JNull
    | JBool(b: bool)
    | JNum(n: int)
    | JStr(s: string)
    | JArr(items: seq<Json>)
    | JObj(fields: map<string, Json>)

  /** `v[key]` for an own property of an object; `None` stands for `undefined`. */
  function Get(v: Json, key: string): (r: Option<Json>)
    ensures r.Some? <==> v.JObj? && key in v.fields
  {
    if v.JObj? && key in v.fields then Some(v.fields[key]) else None
  }

  /** JavaScript truthiness of a present value. */
  predicate Truthy(v: Json) {
    match v
    case JNull => false
    case JBool(b) => b
    case JNum(n) => n != 0
    case JStr(s) => s != ""
    case JArr(_) => true
    case JObj(_) => true
  }

  /** `String(v)`: what `+` and `new Error(v)` turn a value into. */
  function ToJsString(v: Json): string
    decreases v
  {
    match v
    case JNull => "null"
    case JBool(b) => if b then "true" else "false"
    case JNum(n) => JsStrings.IntToString(n)
    case JStr(s) => s
    case JObj(_) => "[object Object]"
    case JArr(items) =>
      // Array.prototype.join(","): null elements become empty strings
      JoinWithComma(seq(|items|, i requires 0 <= i < |items| =>
        if items[i].JNull? then "" else ToJsString(items[i])))
  }

  function JoinWithComma(parts: seq<string>): string {
    if |parts| == 0 then "" else if |parts| == 1 then parts[0]
    else parts[0] + "," + JoinWithComma(parts[1..])
  }

  // ---- JSON.stringify of a string (ECMAScript QuoteJSONString) ----

  function HexDigit(d: nat): (c: char)
    requires d < 16
    ensures c != '\n'
  {
    "0123456789abcdef"[d]
  }

  /** The JSON text of one character inside a string literal. */
  function EscapeChar(c: char): (r: string)
    ensures '\n' !in r
    ensures |r| >= 1
  {
    if c == '\U{8}' then "\\b"
    else if c == '\t' then "\\t"
    else if c == '\n' then "\\n"
    else if c == '\U{C}' then "\\f"
    else if c == '\r' then "\\r"
    else if c == '"' then "\\\""
    else if c == '\\' then "\\\\"
    else if (c as int) < 0x20 then
      "\\u00" + [HexDigit((c as int) / 16), HexDigit((c as int) % 16)]
    else [c]
  }

  /** The escaped body of a JSON string literal: never holds a raw line feed. */
  function Escaped(s: string): (r: string)
    ensures '\n' !in r
    ensures |r| >= |s|
  {
    if s == [] then [] else EscapeChar(s[0]) + Escaped(s[1..])
  }

  /** `JSON.stringify(s)` for a string. */
  function Quote(s: string): string {
    "\"" + Escaped(s) + "\""
  }

  /** The value `JSON.parse` gives back for `{ text }`. */
  function TextObject(t: string): Json {
    JObj(map["text" := JStr(t)])
  }

  /** `JSON.stringify({ text })`, as written by the chat route. */
  function StringifyText(t: string): (r: string)
    ensures '\n' !in r
    ensures r != [] && r[0] == '{'
  {
    "{\"text\":" + Quote(t) + "}"
  }
}
