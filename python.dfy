/**
 * The pieces of Python's built-in behaviour that the orchestration code relies
 * on: exceptions, `str` helpers (`strip`, `lower`, `startswith`, `in`,
 * `replace`, `join`), `int(...)`, `isinstance(x, (int, float))`, slicing,
 * iteration, membership and subscripting of arbitrary values.
 */
module Python {
  import opened Json

  /** The failures the openai client raises; every one of them is an `openai.APIError`. */
  datatype ApiFailure =
    | RateLimit | Authentication | PermissionDenied | NotFound
    | BadRequest | InternalServer | Connection | Timeout

  datatype ExcKind =
    | TypeError | ValueError | KeyError | AttributeError | IndexError
    | JsonDecodeError                 // json.JSONDecodeError
    | ModuleNotFound                  // an import of a module that does not exist
    | RetryError                      // tenacity.RetryError, raised when attempts run out
    | OpenAiError(failure: ApiFailure)
    | HttpException(status: int)      // fastapi.HTTPException
    | OsError                         // OSError
    | FileNotFound                    // FileNotFoundError, a kind of OSError
    | OtherError                      // any other exception from code outside this model
    | OutsideModel                    // a value the model does not represent (see the README)

  /** An exception and its `str(e)`. */
  datatype Exc = Exc(kind: ExcKind, text: string)

  /** The outcome of a Python call: a value, or the exception it raises. */
  datatype Result<T> = Ok(value: T) | Raise(exc: Exc)

  /** A generator run to its end: what it yielded, then the exception that escaped it, if any. */
  datatype Run<T> = Run(items: seq<T>, raised: Option<Exc>)

  // ---------------------------------------------------------------- strings

  /** `c.isspace()`, which is also what `\s` and `str.strip()` use. */
  predicate IsSpace(c: char) {
    c == ' ' || ('\t' <= c <= '\r') || ('\U{1C}' <= c <= '\U{1F}') || c == '\U{85}'
    || c == '\U{A0}' || c == '\U{1680}' || ('\U{2000}' <= c <= '\U{200A}')
    || c == '\U{2028}' || c == '\U{2029}' || c == '\U{202F}' || c == '\U{205F}' || c == '\U{3000}'
  }

  function StripLeft(s: string): string {
    if s != [] && IsSpace(s[0]) then StripLeft(s[1..]) else s
  }

  function StripRight(s: string): string {
    if s != [] && IsSpace(s[|s| - 1]) then StripRight(s[..|s| - 1]) else s
  }

  /** `s.strip()` */
  function Strip(s: string): string {
    StripRight(StripLeft(s))
  }

  lemma {:induction false} StripLeftNoSpace(s: string)
    requires s == [] || !IsSpace(s[0])
    ensures StripLeft(s) == s
  {
  }

  lemma {:induction false} StripRightNoSpace(s: string)
    requires s == [] || !IsSpace(s[|s| - 1])
    ensures StripRight(s) == s
  {
  }

  /** `s.lower()` for the ASCII letters. */
  function LowerAscii(s: string): (r: string)
    ensures |r| == |s|
  {
    if s == [] then []
    else [if 'A' <= s[0] <= 'Z' then (s[0] as int + 32) as char else s[0]] + LowerAscii(s[1..])
  }

  predicate StartsWith(s: string, p: string) {
    |p| <= |s| && s[..|p|] == p
  }

  predicate EndsWith(s: string, p: string) {
    |p| <= |s| && s[|s| - |p|..] == p
  }

  predicate OccursAt(s: string, p: string, i: int) {
    0 <= i && i + |p| <= |s| && s[i..i + |p|] == p
  }

  /** `p in s` */
  predicate Contains(s: string, p: string) {
    exists i :: 0 <= i <= |s| && OccursAt(s, p, i)
  }

  /** `s.find(p, start)`, with `None` standing for -1. */
  function FindFrom(s: string, p: string, start: nat): (r: Option<nat>)
    ensures r.Some? ==> start <= r.value && OccursAt(s, p, r.value)
    ensures r.Some? ==> forall j :: start <= j < r.value ==> !OccursAt(s, p, j)
    ensures r.None? ==> forall j :: start <= j ==> !OccursAt(s, p, j)
    decreases |s| - start
  {
    if start + |p| > |s| then None
    else if s[start..start + |p|] == p then Some(start)
    else FindFrom(s, p, start + 1)
  }

  /** `s.replace(pat, rep)`: every non-overlapping occurrence, left to right. */
  function ReplaceAll(s: string, pat: string, rep: string): string
    requires pat != ""
    decreases |s|
  {
    if |s| < |pat| then s
    else if s[..|pat|] == pat then rep + ReplaceAll(s[|pat|..], pat, rep)
    else [s[0]] + ReplaceAll(s[1..], pat, rep)
  }

  /** `sep.join(parts)` */
  function Join(sep: string, parts: seq<string>): string {
    if parts == [] then ""
    else if |parts| == 1 then parts[0]
    else parts[0] + sep + Join(sep, parts[1..])
  }

  /** `os.path.join(a, b)` on POSIX, for a relative `b`. */
  function PathJoin(a: string, b: string): (r: string)
    ensures EndsWith(r, b)
  {
    if a == "" || EndsWith(a, "/") then a + b else a + "/" + b
  }

  // --------------------------------------------------------------- integers

  predicate IsDigit(c: char) {
    '0' <= c <= '9'
  }

  function DigitChar(d: nat): char
    requires d < 10
  {
    ('0' as int + d) as char
  }

  function NatText(n: nat): (r: string)
    ensures |r| > 0 && forall i :: 0 <= i < |r| ==> IsDigit(r[i])
  {
    if n < 10 then [DigitChar(n)] else NatText(n / 10) + [DigitChar(n % 10)]
  }

  /** `str(i)` for an int. */
  function IntText(i: int): string {
    if i < 0 then "-" + NatText(-i) else NatText(i)
  }

  /** The digit strings `int()` accepts: digits, with single underscores between digits. */
  predicate DigitGroups(s: string) {
    |s| > 0 && IsDigit(s[0]) && IsDigit(s[|s| - 1])
    && (forall i :: 0 <= i < |s| ==> IsDigit(s[i]) || s[i] == '_')
    && (forall i :: 0 <= i < |s| - 1 ==> s[i] == '_' ==> s[i + 1] != '_')
  }

  /** The value of decimal digits, underscores ignored. */
  function DigitsValue(s: string): nat
    requires forall i :: 0 <= i < |s| ==> IsDigit(s[i]) || s[i] == '_'
  {
    if s == [] then 0
    else if s[|s| - 1] == '_' then DigitsValue(s[..|s| - 1])
    else
      assert IsDigit(s[|s| - 1]);
      10 * DigitsValue(s[..|s| - 1]) + (s[|s| - 1] as int - '0' as int)
  }

  /** `int(s)` for a str: `None` where Python raises `ValueError`. */
  function ParseInt(s: string): Option<int> {
    var t := Strip(s);
    if t == [] then None
    else
      var neg := t[0] == '-';
      var body := if t[0] == '-' || t[0] == '+' then t[1..] else t;
      if DigitGroups(body) then
        var v: int := DigitsValue(body);
        Some(if neg then -v else v)
      else None
  }

  lemma {:induction false} NatTextValue(n: nat)
    ensures DigitsValue(NatText(n)) == n
  {
    if n >= 10 {
      NatTextValue(n / 10);
      var t := NatText(n / 10) + [DigitChar(n % 10)];
      assert t[..|t| - 1] == NatText(n / 10);
    }
  }

  /** `int(str(i)) == i` */
  lemma {:induction false} IntTextRoundTrip(i: int)
    ensures ParseInt(IntText(i)) == Some(i)
  {
    if i < 0 {
      var n: nat := -i;
      assert IntText(i) == "-" + NatText(n);
      ParseNegText(n);
    } else {
      ParseNatText(i);
    }
  }

  /** A decimal numeral is digit groups without surrounding space. */
  lemma {:induction false} NatTextShape(n: nat)
    ensures DigitGroups(NatText(n)) && DigitsValue(NatText(n)) == n
    ensures Strip(NatText(n)) == NatText(n)
  {
    var t := NatText(n);
    NatTextValue(n);
    assert IsDigit(t[0]) && IsDigit(t[|t| - 1]);
    StripLeftNoSpace(t);
    StripRightNoSpace(t);
  }

  lemma {:induction false} ParseNatText(n: nat)
    ensures ParseInt(NatText(n)) == Some(n)
  {
    NatTextShape(n);
    ParseUnsigned(NatText(n));
  }

  lemma {:induction false} ParseNegText(n: nat)
    ensures ParseInt("-" + NatText(n)) == Some(-(n as int))
  {
    NatTextShape(n);
    ParseNegDigits(NatText(n));
  }

  /** `-` before digit groups parses to the negated value. */
  lemma {:induction false} ParseNegDigits(d: string)
    requires DigitGroups(d)
    ensures ParseInt("-" + d) == Some(-(DigitsValue(d) as int))
  {
    NegStripped(d);
    assert ("-" + d)[1..] == d;
    ParseSigned("-" + d);
  }

  /** A `-` before a text ending in a digit keeps it free of surrounding space. */
  lemma {:induction false} NegStripped(d: string)
    requires d != [] && IsDigit(d[|d| - 1])
    ensures Strip("-" + d) == "-" + d
  {
    var t := "-" + d;
    assert t[|t| - 1] == d[|d| - 1];
    StripLeftNoSpace(t);
    StripRightNoSpace(t);
  }

  /** A stripped string of digit groups parses to their value. */
  lemma {:induction false} ParseUnsigned(t: string)
    requires Strip(t) == t && DigitGroups(t)
    ensures ParseInt(t) == Some(DigitsValue(t) as int)
  {
  }

  /** A stripped `-` before digit groups parses to the negated value. */
  lemma {:induction false} ParseSigned(t: string)
    requires Strip(t) == t && t != [] && t[0] == '-' && DigitGroups(t[1..])
    ensures ParseInt(t) == Some(-(DigitsValue(t[1..]) as int))
  {
  }

  /** Truncation toward zero, as `int(x)` does on a float. */
  function Truncate(r: real): int {
    if r >= 0.0 then r.Floor else -((-r).Floor)
  }

  /** `int(v)` */
  function IntOf(v: Json): Result<int> {
    match v
    case JInt(i) => Ok(i)
    case JBool(b) => Ok(if b then 1 else 0)
    case JFloat(r) => Ok(Truncate(r))
    case JStr(s) =>
      (match ParseInt(s)
       case Some(i) => Ok(i)
       case None => Raise(Exc(ValueError, "invalid literal for int() with base 10")))
    case _ => Raise(Exc(TypeError, "int() argument must be a string, a bytes-like object or a real number"))
  }

  /** The value of `v` when `isinstance(v, (int, float))`; a bool is an int in Python. */
  function Numeric(v: Json): Option<real> {
    match v
    case JInt(i) => Some(i as real)
    case JBool(b) => Some(if b then 1.0 else 0.0)
    case JFloat(r) => Some(r)
    case _ => None
  }

  // ------------------------------------------------------ sequences, values

  /** `list(d.keys())` for a dict held as its items in insertion order. */
  function KeyList<V>(d: seq<(string, V)>): (r: seq<string>)
    ensures |r| == |d| && forall i :: 0 <= i < |d| ==> r[i] == d[i].0
  {
    seq(|d|, i requires 0 <= i < |d| => d[i].0)
  }

  /** `s[:n]`, including Python's meaning of a negative `n`. */
  function Take<T>(s: seq<T>, n: int): (r: seq<T>)
    ensures |r| <= |s| && r == s[..|r|]
    ensures n >= 0 ==> |r| == if n <= |s| then n else |s|
  {
    if n >= 0 then (if n <= |s| then s[..n] else s)
    else if |s| + n >= 0 then s[..|s| + n] else []
  }

  /** Indices picked in order, each after the one before. */
  predicate Increasing(idx: seq<nat>) {
    forall i, j :: 0 <= i < j < |idx| ==> idx[i] < idx[j]
  }

  /** `v[:n]` on a value: strings and lists slice, anything else raises. */
  function SliceValue(v: Json, n: int): Result<Json> {
    match v
    case JStr(s) => Ok(JStr(Take(s, n)))
    case JArr(xs) => Ok(JArr(Take(xs, n)))
    case JNull => Raise(Exc(TypeError, "'NoneType' object is not subscriptable"))
    case _ => Raise(Exc(TypeError, "unhashable type: 'slice'"))
  }

  /** `for x in v`: a list gives its items, a dict its keys, a str its characters. */
  function Iterate(v: Json): Result<seq<Json>> {
    match v
    case JArr(xs) => Ok(xs)
    case JObj(ms) => Ok(seq(|ms|, i requires 0 <= i < |ms| => JStr(ms[i].0)))
    case JStr(s) => Ok(seq(|s|, i requires 0 <= i < |s| => JStr([s[i]])))
    case _ => Raise(Exc(TypeError, "object is not iterable"))
  }

  /** `k in v` for a str `k`: dict key, list element, or substring. */
  function Member(k: string, v: Json): Result<bool> {
    match v
    case JObj(ms) => Ok(Lookup(ms, k).Some?)
    case JArr(xs) => Ok(JStr(k) in xs)
    case JStr(s) => Ok(Contains(s, k))
    case _ => Raise(Exc(TypeError, "argument is not iterable"))
  }

  /** `v[k]` for a str `k`. */
  function GetItem(v: Json, k: string): Result<Json> {
    match v
    case JObj(ms) =>
      (match Lookup(ms, k)
       case Some(x) => Ok(x)
       case None => Raise(Exc(KeyError, "'" + k + "'")))
    case JArr(_) => Raise(Exc(TypeError, "list indices must be integers or slices, not str"))
    case JStr(_) => Raise(Exc(TypeError, "string indices must be integers"))
    case _ => Raise(Exc(TypeError, "object is not subscriptable"))
  }

  /** `v.get(k, default)`: only a dict has `get`. */
  function GetAttr(v: Json, k: string, default: Json): Result<Json> {
    match v
    case JObj(ms) => Ok(Get(ms, k, default))
    case _ => Raise(Exc(AttributeError, "object has no attribute 'get'"))
  }

  /** `len(v)` */
  function Len(v: Json): Result<nat> {
    match v
    case JStr(s) => Ok(|s|)
    case JArr(xs) => Ok(|xs|)
    case JObj(ms) => Ok(|ms|)
    case _ => Raise(Exc(TypeError, "object has no len()"))
  }

  /** `str(v)` for the values whose text is fixed by Python itself. */
  function ScalarText(v: Json): Option<string> {
    match v
    case JStr(s) => Some(s)
    case JInt(i) => Some(IntText(i))
    case JBool(b) => Some(if b then "True" else "False")
    case JNull => Some("None")
    case _ => None
  }

  // ------------------------------------------------------ results in order

  /** Applying `f` to the first `n` elements in order; the first exception ends it. */
  function MapPrefix<A, B>(f: A -> Result<B>, xs: seq<A>, n: nat): (r: Result<seq<B>>)
    requires n <= |xs|
    ensures r.Ok? <==> forall i :: 0 <= i < n ==> f(xs[i]).Ok?
    ensures r.Ok? ==> |r.value| == n && forall i :: 0 <= i < n ==> f(xs[i]) == Ok(r.value[i])
    ensures r.Raise? ==>
      exists k :: 0 <= k < n && f(xs[k]) == Raise(r.exc) && forall j :: 0 <= j < k ==> f(xs[j]).Ok?
    decreases n
  {
    if n == 0 then Ok([])
    else
      match MapPrefix(f, xs, n - 1)
      case Raise(e) => Raise(e)
      case Ok(prior) =>
        match f(xs[n - 1])
        case Raise(e) => Raise(e)
        case Ok(y) => Ok(prior + [y])
  }

  /** Applying `f` to every element in order; the first exception ends it. */
  function MapAll<A, B>(f: A -> Result<B>, xs: seq<A>): (r: Result<seq<B>>)
    ensures r.Ok? <==> forall i :: 0 <= i < |xs| ==> f(xs[i]).Ok?
    ensures r.Ok? ==> |r.value| == |xs| && forall i :: 0 <= i < |xs| ==> f(xs[i]) == Ok(r.value[i])
  {
    MapPrefix(f, xs, |xs|)
  }

  /** Once an element raised, the later ones are never looked at. */
  lemma {:induction false} MapStops<A, B>(f: A -> Result<B>, xs: seq<A>, k: nat, n: nat)
    requires k <= n <= |xs| && MapPrefix(f, xs, k).Raise?
    ensures MapPrefix(f, xs, n) == MapPrefix(f, xs, k)
    decreases n
  {
    if k < n {
      MapStops(f, xs, k, n - 1);
    }
  }

  /** The element after a prefix that succeeded: either the map goes on, or it ends with that element's exception. */
  lemma {:induction false} MapAdvance<A, B>(f: A -> Result<B>, xs: seq<A>, i: nat, done: seq<B>, y: Result<B>)
    requires i < |xs| && MapPrefix(f, xs, i) == Ok(done) && f(xs[i]) == y
    ensures y.Raise? ==> MapPrefix(f, xs, |xs|) == Raise(y.exc)
    ensures y.Ok? ==> MapPrefix(f, xs, i + 1) == Ok(done + [y.value])
  {
    if y.Raise? {
      MapStops(f, xs, i + 1, |xs|);
    }
  }
}
