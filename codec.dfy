/**
 * JSON text.  `json.loads` is a parameter of the model (a partial parser);
 * `json.dumps` is written out, in the form the code calls it:
 * `ensure_ascii=False`, default separators `", "` and `": "`, no indentation.
 * Python's own float rendering, the `str()` of a list or dict and the
 * indented and the ASCII-only forms of `json.dumps` are left abstract as
 * parameters too.
 */
module Codec {
  import opened Json
  import opened Python

  datatype Codec = Codec(
    parse: string -> Option<Json>,      // json.loads; None where it raises JSONDecodeError
    floatRepr: real -> string,          // repr(float)
    containerText: Json -> string,      // str(v) of a list or a dict
    indented: Json -> string,           // json.dumps(v, ensure_ascii=False, indent=2)
    asciiText: Json -> string)          // json.dumps(v), which escapes every non-ASCII character

  /** Python renders a float without line breaks. */
  ghost predicate FloatsOnOneLine(c: Codec) {
    forall r :: '\n' !in c.floatRepr(r)
  }

  /**
   * The parser reads back whatever `json.dumps` writes, in either form, of
   * a value without repeated keys, and rejects the empty document.
   */
  ghost predicate RoundTrips(c: Codec) {
    c.parse("").None?
    && forall v | WellFormed(v) :: c.parse(Dumps(c, v)) == Some(v) && c.parse(c.asciiText(v)) == Some(v)
  }

  /** `json.loads(s)` */
  function Loads(c: Codec, s: string): Result<Json> {
    match c.parse(s)
    case Some(v) => Ok(v)
    case None => Raise(Exc(JsonDecodeError, "Expecting value"))
  }

  function HexDigit(d: nat): char
    requires d < 16
  {
    if d < 10 then DigitChar(d) else ('a' as int + d - 10) as char
  }

  /** The escape `json.dumps` writes for one character of a string. */
  function EscapeChar(ch: char): string {
    if ch == '"' then "\\\""
    else if ch == '\\' then "\\\\"
    else if ch == '\n' then "\\n"
    else if ch == '\r' then "\\r"
    else if ch == '\t' then "\\t"
    else if ch == '\U{8}' then "\\b"
    else if ch == '\U{C}' then "\\f"
    else if ch < ' ' then "\\u00" + [HexDigit(ch as int / 16), HexDigit(ch as int % 16)]
    else [ch]
  }

  function Escape(s: string): string {
    if s == [] then "" else EscapeChar(s[0]) + Escape(s[1..])
  }

  function Quote(s: string): string {
    "\"" + Escape(s) + "\""
  }

  /** `json.dumps(v, ensure_ascii=False)` */
  function Dumps(c: Codec, v: Json): string
    decreases v, 1
  {
    match v
    case JNull => "null"
    case JBool(b) => if b then "true" else "false"
    case JInt(i) => IntText(i)
    case JFloat(r) => c.floatRepr(r)
    case JStr(s) => Quote(s)
    case JArr(xs) => "[" + DumpsItems(c, xs) + "]"
    case JObj(ms) => "{" + DumpsMembers(c, ms) + "}"
  }

  function DumpsItems(c: Codec, xs: seq<Json>): string
    decreases xs, 0
  {
    if xs == [] then ""
    else if |xs| == 1 then Dumps(c, xs[0])
    else Dumps(c, xs[0]) + ", " + DumpsItems(c, xs[1..])
  }

  function DumpsMembers(c: Codec, ms: seq<(string, Json)>): string
    decreases ms, 0
  {
    if ms == [] then ""
    else
      assert ms[0] in ms && ms[0].1 < ms[0];
      if |ms| == 1 then Quote(ms[0].0) + ": " + Dumps(c, ms[0].1)
    else Quote(ms[0].0) + ": " + Dumps(c, ms[0].1) + ", " + DumpsMembers(c, ms[1..])
  }

  /** `str(v)` */
  function Str(c: Codec, v: Json): string {
    match v
    case JFloat(r) => c.floatRepr(r)
    case JArr(_) => c.containerText(v)
    case JObj(_) => c.containerText(v)
    case _ => ScalarText(v).value
  }

  lemma {:induction false} EscapeOneLine(s: string)
    ensures '\n' !in Escape(s)
  {
    if s != [] {
      EscapeOneLine(s[1..]);
      var ch := s[0];
      if ch < ' ' && ch != '\n' && ch != '\r' && ch != '\t' && ch != '\U{8}' && ch != '\U{C}' {
        assert EscapeChar(ch) == "\\u00" + [HexDigit(ch as int / 16), HexDigit(ch as int % 16)];
      }
      assert '\n' !in EscapeChar(ch);
    }
  }

  lemma {:induction false} NatTextOneLine(n: nat)
    ensures '\n' !in NatText(n)
  {
    var t := NatText(n);
    assert forall i :: 0 <= i < |t| ==> IsDigit(t[i]);
  }

  /**
   * `json.dumps` escapes every line break inside strings, so the text it
   * writes never contains one.
   */
  lemma {:induction false} DumpsOneLine(c: Codec, v: Json)
    requires FloatsOnOneLine(c)
    ensures '\n' !in Dumps(c, v)
    decreases v, 1
  {
    match v
    case JNull =>
    case JBool(_) =>
    case JInt(i) =>
      NatTextOneLine(if i < 0 then -i else i);
    case JFloat(r) =>
    case JStr(s) => EscapeOneLine(s);
    case JArr(xs) => ItemsOneLine(c, xs);
    case JObj(ms) => MembersOneLine(c, ms);
  }

  lemma {:induction false} ItemsOneLine(c: Codec, xs: seq<Json>)
    requires FloatsOnOneLine(c)
    ensures '\n' !in DumpsItems(c, xs)
    decreases xs, 0
  {
    if xs != [] {
      DumpsOneLine(c, xs[0]);
      if |xs| > 1 {
        ItemsOneLine(c, xs[1..]);
      }
    }
  }

  lemma {:induction false} MembersOneLine(c: Codec, ms: seq<(string, Json)>)
    requires FloatsOnOneLine(c)
    ensures '\n' !in DumpsMembers(c, ms)
    decreases ms, 0
  {
    if ms != [] {
      assert ms[0] in ms && ms[0].1 < ms[0];
      EscapeOneLine(ms[0].0);
      DumpsOneLine(c, ms[0].1);
      if |ms| > 1 {
        MembersOneLine(c, ms[1..]);
      }
    }
  }
}
