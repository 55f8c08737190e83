/** JSON values as JavaScript code sees them after `JSON.parse`, the few
    operations the application applies to them (property reads, truthiness,
    `typeof … === 'object'`, `String(…)`, `Array.prototype.join`), and
    `JSON.stringify` of the one record the application writes to storage. */
module Json {
  import opened Js
  import opened Numbers

  /** Numbers are integers here (see the README); an object keeps its members
      in source order, and a key written twice is read at its last occurrence. */
  datatype Json =
    | JNull
    | JBool(b: bool)
    | JNum(n: int)
    | JStr(s: string)
    | JArr(elems: seq<Json>)
    | JObj(members: seq<(string, Json)>)

  function Lookup(ms: seq<(string, Json)>, key: string): (r: Option<Json>)
    ensures r.Some? <==> exists i :: 0 <= i < |ms| && ms[i].0 == key
    ensures ms != [] && ms[|ms| - 1].0 == key ==> r == Some(ms[|ms| - 1].1)
  {
    if ms == [] then None
    else if ms[|ms| - 1].0 == key then Some(ms[|ms| - 1].1)
    else
      var r := Lookup(ms[..|ms| - 1], key);
      assert forall i :: 0 <= i < |ms| - 1 ==> ms[..|ms| - 1][i] == ms[i];
      r
  }

  /** `v[key]`, None standing for `undefined`. None of the keys the application
      reads (detail, error, message, code, details, loc, msg, username) is a
      built-in property of strings or arrays, so only objects have them. */
  function Get(v: Json, key: string): Option<Json> {
    if v.JObj? then Lookup(v.members, key) else None
  }

  /** `key in v`, for a value that is an object or an array. */
  predicate Has(v: Json, key: string) {
    Get(v, key).Some?
  }

  /** `!!v`. */
  predicate Truthy(v: Json) {
    match v
    case JNull => false
    case JBool(b) => b
    case JNum(n) => n != 0
    case JStr(s) => s != ""
    case JArr(_) => true
    case JObj(_) => true
  }

  /** `v && typeof v === 'object'`: arrays and objects. */
  predicate IsObjectLike(v: Json) {
    v.JArr? || v.JObj?
  }

  /** `parts.join(sep)`. */
  function Join(parts: seq<string>, sep: string): (r: string)
    ensures parts == [] ==> r == ""
    ensures |parts| == 1 ==> r == parts[0]
    ensures |parts| >= 2 ==> r == parts[0] + sep + Join(parts[1..], sep)
  {
    if parts == [] then ""
    else if |parts| == 1 then parts[0]
    else parts[0] + sep + Join(parts[1..], sep)
  }

  /** `String(v)`. */
  function ToJsString(v: Json): string
    decreases v, 1
  {
    match v
    case JNull => "null"
    case JBool(b) => if b then "true" else "false"
    case JNum(n) => IntToString(n)
    case JStr(s) => s
    case JArr(xs) => ArrayJoin(xs, ",")
    case JObj(_) => "[object Object]"
  }

  /** `xs.join(sep)` on an array of values: `null` elements become the empty
      string, the others are converted with `String`. */
  function ArrayJoin(xs: seq<Json>, sep: string): string
    decreases JArr(xs), 0
  {
    Join(seq(|xs|, i requires 0 <= i < |xs| => if xs[i].JNull? then "" else ToJsString(xs[i])), sep)
  }

  // ---------------------------------------------------------------------------
  // JSON.stringify of a string, and a decoder for JSON string literals

  function HexDigit(d: nat): char
    requires d < 16
  {
    if d < 10 then ('0' as int + d) as char else ('a' as int + d - 10) as char
  }

  function HexValue(c: char): Option<nat> {
    if '0' <= c <= '9' then Some(c as int - '0' as int)
    else if 'a' <= c <= 'f' then Some(c as int - 'a' as int + 10)
    else if 'A' <= c <= 'F' then Some(c as int - 'A' as int + 10)
    else None
  }

  /** How `JSON.stringify` writes one character inside a string literal. */
  function EscapeChar(c: char): string {
    if c == '"' then "\\\""
    else if c == '\\' then "\\\\"
    else if c == '\U{0008}' then "\\b"
    else if c == '\t' then "\\t"
    else if c == '\n' then "\\n"
    else if c == '\U{000C}' then "\\f"
    else if c == '\r' then "\\r"
    else if c < ' ' then ['\\', 'u', '0', '0', HexDigit(c as int / 16), HexDigit(c as int % 16)]
    else [c]
  }

  function Escape(s: string): string {
    if s == [] then "" else EscapeChar(s[0]) + Escape(s[1..])
  }

  /** `JSON.stringify(s)` for a string. */
  function Quote(s: string): string {
    "\"" + Escape(s) + "\""
  }

  function SimpleUnescape(e: char): Option<char> {
    if e == '"' then Some('"')
    else if e == '\\' then Some('\\')
    else if e == '/' then Some('/')
    else if e == 'b' then Some('\U{0008}')
    else if e == 't' then Some('\t')
    else if e == 'n' then Some('\n')
    else if e == 'f' then Some('\U{000C}')
    else if e == 'r' then Some('\r')
    else None
  }

  /** Value of a `\uXXXX` escape, when it names a character on its own (a
      surrogate half does not). */
  function UnicodeEscape(h: string): Option<char>
    requires |h| == 4
  {
    match (HexValue(h[0]), HexValue(h[1]), HexValue(h[2]), HexValue(h[3]))
    case (Some(a), Some(b), Some(c), Some(d)) =>
      var v := ((a * 16 + b) * 16 + c) * 16 + d;
      if 0xD800 <= v <= 0xDFFF then None else Some(v as char)
    case _ => None
  }

  /** Decodes the text between the quotes of a JSON string literal. */
  function Unescape(t: string): Option<string>
    decreases |t|
  {
    if t == [] then Some("")
    else if t[0] == '\\' then
      if |t| >= 2 && SimpleUnescape(t[1]).Some? then
        Prepend(SimpleUnescape(t[1]).value, Unescape(t[2..]))
      else if |t| >= 6 && t[1] == 'u' && UnicodeEscape(t[2..6]).Some? then
        Prepend(UnicodeEscape(t[2..6]).value, Unescape(t[6..]))
      else None
    else if t[0] == '"' || t[0] < ' ' then None
    else Prepend(t[0], Unescape(t[1..]))
  }

  function Prepend(c: char, r: Option<string>): Option<string> {
    match r
    case Some(s) => Some([c] + s)
    case None => None
  }

  lemma UnescapeChar(c: char, rest: string)
    ensures Unescape(EscapeChar(c) + rest) == Prepend(c, Unescape(rest))
  {
    var t := EscapeChar(c) + rest;
    if c < ' ' && c != '\U{0008}' && c != '\t' && c != '\n' && c != '\U{000C}' && c != '\r' {
      var hi, lo := c as int / 16, c as int % 16;
      assert t[2..6] == ['0', '0', HexDigit(hi), HexDigit(lo)];
      assert HexValue(HexDigit(hi)) == Some(hi);
      assert HexValue(HexDigit(lo)) == Some(lo);
      assert UnicodeEscape(t[2..6]) == Some(c);
      assert t[6..] == rest;
    } else if c == '"' || c == '\\' || c < ' ' {
      assert t[2..] == rest;
    } else {
      assert t[1..] == rest;
    }
  }

  /** Decoding inverts `JSON.stringify` on every string. */
  lemma {:induction false} UnescapeEscape(s: string)
    ensures Unescape(Escape(s)) == Some(s)
  {
    if s != [] {
      UnescapeChar(s[0], Escape(s[1..]));
      UnescapeEscape(s[1..]);
      assert [s[0]] + s[1..] == s;
    }
  }

  // ---------------------------------------------------------------------------
  // The `{ username }` record kept in storage

  const UserPrefix: string := "{\"username\":"

  /** The object `{ username }`. */
  function UserObject(username: string): Json {
    JObj([("username", JStr(username))])
  }

  /** `JSON.stringify({ username })`. */
  function StringifyUser(username: string): string {
    UserPrefix + Quote(username) + "}"
  }

  /** A parser for the canonical spelling `StringifyUser` produces; any other
      text is reported as a syntax error. It stands in for `JSON.parse` where a
      concrete parser is needed. */
  function ParseUserRecord(text: string): Option<Json> {
    var p := |UserPrefix|;
    if |text| >= p + 3 && text[..p] == UserPrefix && text[p] == '"'
       && text[|text| - 2..] == "\"}" then
      match Unescape(text[p + 1..|text| - 2])
      case Some(name) => Some(UserObject(name))
      case None => None
    else None
  }

  /** The canonical parser reads back exactly the record that was written. */
  lemma ParseStringifyUser(username: string)
    ensures ParseUserRecord(StringifyUser(username)) == Some(UserObject(username))
  {
    var text := StringifyUser(username);
    var p := |UserPrefix|;
    assert text[..p] == UserPrefix;
    assert text[p + 1..|text| - 2] == Escape(username);
    UnescapeEscape(username);
  }
}
