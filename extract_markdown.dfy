/**
 * Structured-output recovery from LLM text (src/utils/extract_markdown.py):
 * a cascade of direct parse, fenced block and brace span, a JSON/HTML
 * dispatch, and an optional merge into the caller's data.
 *
 * The two regular expressions the cascade uses are written out as scanners:
 * `findall` reports the leftmost match, takes the shortest body (the
 * patterns are lazy), and resumes after the match.
 */
module ExtractMarkdown {
  import opened Json
  import opened Python
  import opened Codec

  const Fence := "```"

  /** The first index at or after `i` that is not whitespace. */
  function SkipSpaces(s: string, i: nat): (j: nat)
    requires i <= |s|
    ensures i <= j <= |s|
    ensures forall k :: i <= k < j ==> IsSpace(s[k])
    ensures j == |s| || !IsSpace(s[j])
    decreases |s| - i
  {
    if i < |s| && IsSpace(s[i]) then SkipSpaces(s, i + 1) else i
  }

  /** `re.findall(r'```(?:tag)?\s*([\s\S]*?)```', text)` */
  function FencedBodies(text: string, tag: string): seq<string>
    decreases |text|
  {
    match FindFrom(text, Fence, 0)
    case None => []
    case Some(i) =>
      var p := i + |Fence|;
      var q := if OccursAt(text, tag, p) then p + |tag| else p;
      var b := SkipSpaces(text, q);
      match FindFrom(text, Fence, b)
      case None => []
      case Some(j) => [text[b..j]] + FencedBodies(text[j + |Fence|..], tag)
  }

  /** `re.findall(r'({[\s\S]*?})', text)` */
  function BraceSpans(text: string): seq<string>
    decreases |text|
  {
    match FirstBrace(text)
    case None => []
    case Some((i, e)) => [text[i..e]] + BraceSpans(text[e..])
  }

  /** Where the first match starts and where it stops: at the first `{`, and just past the first `}` after it. */
  function FirstBrace(text: string): (r: Option<(nat, nat)>)
    ensures r.Some? ==> r.value.0 < r.value.1 <= |text|
  {
    match FindFrom(text, "{", 0)
    case None => None
    case Some(i) =>
      match FindFrom(text, "}", i + 1)
      case None => None
      case Some(j) => Some((i, j + 1))
  }

  /** `json.loads(s.strip())` succeeds. */
  predicate Parses(c: Codec, s: string) {
    c.parse(Strip(s)).Some?
  }

  /** `json.loads(s.strip())` succeeds with a dict. */
  predicate ParsesToDict(c: Codec, s: string) {
    c.parse(Strip(s)).Some? && c.parse(Strip(s)).value.JObj?
  }

  /** The first candidate, from `from` on, whose stripped text parses. */
  predicate FirstParsedAt(c: Codec, cands: seq<string>, i: int, v: Json) {
    0 <= i < |cands| && c.parse(Strip(cands[i])) == Some(v)
    && forall j :: 0 <= j < i ==> !Parses(c, cands[j])
  }

  /** The first candidate whose stripped text parses to a dict. */
  predicate FirstDictAt(c: Codec, cands: seq<string>, i: int, v: Json) {
    0 <= i < |cands| && c.parse(Strip(cands[i])) == Some(v) && v.JObj?
    && forall j :: 0 <= j < i ==> !ParsesToDict(c, cands[j])
  }

  /** The fenced-block loop: the first candidate whose stripped text parses, of whatever type. */
  function FirstParsed(c: Codec, cands: seq<string>): (r: Option<Json>)
    ensures r.None? <==> forall i :: 0 <= i < |cands| ==> !Parses(c, cands[i])
    ensures r.Some? ==> exists i :: FirstParsedAt(c, cands, i, r.value)
  {
    if cands == [] then None
    else if Parses(c, cands[0]) then
      assert FirstParsedAt(c, cands, 0, c.parse(Strip(cands[0])).value);
      c.parse(Strip(cands[0]))
    else
      var r := FirstParsed(c, cands[1..]);
      FirstParsedShift(c, cands, r);
      r
  }

  lemma {:induction false} FirstParsedShift(c: Codec, cands: seq<string>, r: Option<Json>)
    requires cands != [] && !Parses(c, cands[0])
    requires r.None? <==> forall i :: 0 <= i < |cands[1..]| ==> !Parses(c, cands[1..][i])
    requires r.Some? ==> exists i :: FirstParsedAt(c, cands[1..], i, r.value)
    ensures r.None? <==> forall i :: 0 <= i < |cands| ==> !Parses(c, cands[i])
    ensures r.Some? ==> exists i :: FirstParsedAt(c, cands, i, r.value)
  {
    if r.Some? {
      var i :| FirstParsedAt(c, cands[1..], i, r.value);
      forall j | 0 <= j < i + 1 ensures !Parses(c, cands[j]) {
        if j > 0 { assert cands[j] == cands[1..][j - 1]; }
      }
      assert FirstParsedAt(c, cands, i + 1, r.value);
      assert cands[i + 1] == cands[1..][i];
    } else {
      forall i | 0 <= i < |cands| ensures !Parses(c, cands[i]) {
        if i > 0 { assert cands[i] == cands[1..][i - 1]; }
      }
    }
  }

  /** The brace loop: the first candidate whose stripped text parses to a dict. */
  function FirstDict(c: Codec, cands: seq<string>): (r: Option<Json>)
    ensures r.None? <==> forall i :: 0 <= i < |cands| ==> !ParsesToDict(c, cands[i])
    ensures r.Some? ==> exists i :: FirstDictAt(c, cands, i, r.value)
  {
    if cands == [] then None
    else if ParsesToDict(c, cands[0]) then
      assert FirstDictAt(c, cands, 0, c.parse(Strip(cands[0])).value);
      c.parse(Strip(cands[0]))
    else
      var r := FirstDict(c, cands[1..]);
      FirstDictShift(c, cands, r);
      r
  }

  lemma {:induction false} FirstDictShift(c: Codec, cands: seq<string>, r: Option<Json>)
    requires cands != [] && !ParsesToDict(c, cands[0])
    requires r.None? <==> forall i :: 0 <= i < |cands[1..]| ==> !ParsesToDict(c, cands[1..][i])
    requires r.Some? ==> exists i :: FirstDictAt(c, cands[1..], i, r.value)
    ensures r.None? <==> forall i :: 0 <= i < |cands| ==> !ParsesToDict(c, cands[i])
    ensures r.Some? ==> exists i :: FirstDictAt(c, cands, i, r.value)
  {
    if r.Some? {
      var i :| FirstDictAt(c, cands[1..], i, r.value);
      forall j | 0 <= j < i + 1 ensures !ParsesToDict(c, cands[j]) {
        if j > 0 { assert cands[j] == cands[1..][j - 1]; }
      }
      assert cands[i + 1] == cands[1..][i];
      assert FirstDictAt(c, cands, i + 1, r.value);
    } else {
      forall i | 0 <= i < |cands| ensures !ParsesToDict(c, cands[i]) {
        if i > 0 { assert cands[i] == cands[1..][i - 1]; }
      }
    }
  }

  /** Every stage of the cascade fails. */
  predicate AllStagesFail(c: Codec, text: string) {
    c.parse(text).None?
    && (forall i :: 0 <= i < |FencedBodies(text, "json")| ==> !Parses(c, FencedBodies(text, "json")[i]))
    && (forall i :: 0 <= i < |BraceSpans(text)| ==> !ParsesToDict(c, BraceSpans(text)[i]))
  }

  /**
   * `extract_json_from_markdown(text)`; the Python result `None` is `JNull`.
   */
  function ExtractJson(c: Codec, text: string): (r: Json)
    // stage 1: the whole text, whatever type it parses to
    ensures c.parse(text).Some? ==> r == c.parse(text).value
    // stage 2: the first fenced block that parses, of whatever type
    ensures c.parse(text).None? && FirstParsed(c, FencedBodies(text, "json")).Some? ==>
      r == FirstParsed(c, FencedBodies(text, "json")).value
    // stage 3: only a dict
    ensures c.parse(text).None? && FirstParsed(c, FencedBodies(text, "json")).None? ==>
      r == JNull || r.JObj?
    ensures (c.parse(text).None? && FirstParsed(c, FencedBodies(text, "json")).None?
             && FirstDict(c, BraceSpans(text)).Some?) ==> r == FirstDict(c, BraceSpans(text)).value
    // no stage succeeds: None, never a partial value
    ensures AllStagesFail(c, text) ==> r == JNull
  {
    match c.parse(text)
    case Some(v) => v
    case None =>
      match FirstParsed(c, FencedBodies(text, "json"))
      case Some(v) => v
      case None =>
        match FirstDict(c, BraceSpans(text))
        case Some(v) => v
        case None => JNull
  }

  /**
   * `extract_html_from_markdown(text)`.  Only the fenced-block case is
   * modelled: the `<html>`, `<body>` and generic-tag fallbacks are the
   * parameter `tagScan`, which like them gives a str or None.
   */
  function ExtractHtml(text: string, tagScan: string -> Json): (r: Json)
    requires forall t :: tagScan(t).JStr? || tagScan(t) == JNull
    ensures r.JStr? || r == JNull
    ensures FencedBodies(text, "html") != [] ==> r == JStr(Strip(FencedBodies(text, "html")[0]))
    ensures FencedBodies(text, "html") == [] ==> r == tagScan(text)
  {
    var matches := FencedBodies(text, "html");
    if matches != [] then JStr(Strip(matches[0])) else tagScan(text)
  }

  /** `extract_structured_data(text, data_type, original_data)` */
  function ExtractStructured(c: Codec, text: string, dataType: string, original: Option<Dict>,
                             tagScan: string -> Json): (r: Result<Json>)
    requires forall t :: tagScan(t).JStr? || tagScan(t) == JNull
    // 'json' in any letter case: the cascade, and without original data its result as is
    ensures LowerAscii(dataType) == "json" && original.None? ==> r == Ok(ExtractJson(c, text))
    // a failed extraction is None even when original data is given
    ensures LowerAscii(dataType) == "json" && ExtractJson(c, text) == JNull ==> r == Ok(JNull)
    // the merge: every original key is kept, extracted keys win
    ensures LowerAscii(dataType) == "json" && original.Some? && ExtractJson(c, text).JObj? ==>
      r.Ok? && r.value.JObj?
      && Keys(r.value.members) == Keys(original.value) + Keys(ExtractJson(c, text).members)
      && forall k :: Lookup(r.value.members, k) ==
           if k in Keys(ExtractJson(c, text).members) then Lookup(ExtractJson(c, text).members, k)
           else Lookup(original.value, k)
    // merging a non-dict value into the original data raises
    ensures (LowerAscii(dataType) == "json" && original.Some? && ExtractJson(c, text) != JNull
             && !ExtractJson(c, text).JObj?) ==> r.Raise? && r.exc.kind == TypeError
    ensures LowerAscii(dataType) == "html" ==> r == Ok(ExtractHtml(text, tagScan))
    // any other data type
    ensures LowerAscii(dataType) != "json" && LowerAscii(dataType) != "html" ==> r == Ok(JNull)
  {
    if LowerAscii(dataType) == "json" then
      var data := ExtractJson(c, text);
      if data != JNull && original.Some? then
        match data
        case JObj(ms) =>
          MergeWins(original.value, ms);
          Ok(JObj(Update(original.value, ms)))
        case _ => Raise(Exc(TypeError, "argument after ** must be a mapping"))
      else Ok(data)
    else if LowerAscii(dataType) == "html" then Ok(ExtractHtml(text, tagScan))
    else Ok(JNull)
  }

  /** `{**original, **data}`: all keys of both, the keys of `data` winning. */
  lemma {:induction false} MergeWins(original: Dict, data: Dict)
    ensures Keys(Update(original, data)) == Keys(original) + Keys(data)
    ensures forall k ::
              Lookup(Update(original, data), k) ==
              (if k in Keys(data) then Lookup(data, k) else Lookup(original, k))
  {
    KeysUpdate(original, data);
    forall k ensures Lookup(Update(original, data), k) ==
      if k in Keys(data) then Lookup(data, k) else Lookup(original, k) {
      LookupUpdate(original, data, k);
      LookupKeys(data, k);
    }
  }

  lemma {:induction false} OccursAtChar(s: string, ch: char, k: int)
    ensures OccursAt(s, [ch], k) <==> 0 <= k < |s| && s[k] == ch
  {
    if 0 <= k < |s| {
      assert s[k..k + 1] == [s[k]];
    }
  }

  /** Runs from a `{` to the first `}` after it. */
  predicate BraceShaped(sp: string) {
    |sp| >= 2 && sp[0] == '{' && sp[|sp| - 1] == '}'
    && forall k :: 0 <= k < |sp| - 1 ==> sp[k] != '}'
  }

  /** The first match runs from a `{` to the first `}` after it. */
  lemma {:induction false} FirstBraceShaped(text: string)
    requires FirstBrace(text).Some?
    ensures BraceShaped(text[FirstBrace(text).value.0..FirstBrace(text).value.1])
  {
    var (i, e) := FirstBrace(text).value;
    var j := e - 1;
    assert j + 1 == e;
    FirstSpanShaped(text, i, j);
  }

  /** There is no match exactly when no `{` has a `}` after it. */
  lemma {:induction false} FirstBraceNone(text: string)
    ensures FirstBrace(text).None? <==>
      forall k :: 0 <= k < |text| ==> text[k] != '{' || forall m :: k < m < |text| ==> text[m] != '}'
  {
    match FindFrom(text, "{", 0)
    case None =>
      NoBraces(text);
    case Some(i) =>
      OccursAtChar(text, '{', i);
      match FindFrom(text, "}", i + 1)
      case None =>
        NoCloser(text, i);
      case Some(j) =>
        OccursAtChar(text, '}', j);
  }

  /** With no `{` at all there is no match. */
  lemma {:induction false} NoBraces(text: string)
    requires FindFrom(text, "{", 0).None?
    ensures forall k :: 0 <= k < |text| ==> text[k] != '{'
  {
    forall k | 0 <= k < |text| ensures text[k] != '{' {
      OccursAtChar(text, '{', k);
    }
  }

  /** With no `}` after the first `{` there is no match. */
  lemma {:induction false} NoCloser(text: string, i: nat)
    requires FindFrom(text, "{", 0) == Some(i) && FindFrom(text, "}", i + 1).None?
    ensures forall k :: 0 <= k < |text| ==> text[k] != '{' || forall m :: k < m < |text| ==> text[m] != '}'
  {
    forall k | 0 <= k < |text| && text[k] == '{' ensures forall m :: k < m < |text| ==> text[m] != '}' {
      OccursAtChar(text, '{', k);
      assert k >= i;
      forall m | k < m < |text| ensures text[m] != '}' {
        OccursAtChar(text, '}', m);
      }
    }
  }

  lemma {:induction false} FirstSpanShaped(text: string, i: nat, j: nat)
    requires FindFrom(text, "{", 0) == Some(i) && FindFrom(text, "}", i + 1) == Some(j)
    ensures BraceShaped(text[i..j + 1])
  {
    OccursAtChar(text, '{', i);
    OccursAtChar(text, '}', j);
    var sp := text[i..j + 1];
    forall k | 0 <= k < |sp| - 1 ensures sp[k] != '}' {
      if k > 0 {
        OccursAtChar(text, '}', i + k);
      }
    }
  }

  /**
   * Every brace candidate runs from a `{` to the first `}` after it, so an
   * object with a nested object is cut short at the inner `}`.
   */
  lemma {:induction false} BraceSpanShape(text: string)
    ensures forall sp :: sp in BraceSpans(text) ==> BraceShaped(sp)
    decreases |text|
  {
    match FirstBrace(text)
    case None =>
    case Some((i, e)) =>
      var head, tail := text[i..e], text[e..];
      assert BraceSpans(text) == [head] + BraceSpans(tail);
      FirstBraceShaped(text);
      BraceSpanShape(tail);
      ConsShaped(head, BraceSpans(tail));
  }

  lemma {:induction false} ConsShaped(head: string, tail: seq<string>)
    requires BraceShaped(head) && forall sp :: sp in tail ==> BraceShaped(sp)
    ensures forall sp :: sp in [head] + tail ==> BraceShaped(sp)
  {
    forall sp | sp in [head] + tail ensures BraceShaped(sp) {
      if sp != head {
        assert sp in tail;
      }
    }
  }

  /** Whitespace at either end: stripping a brace candidate leaves it unchanged. */
  lemma {:induction false} BraceSpanStripped(text: string)
    ensures forall sp :: sp in BraceSpans(text) ==> Strip(sp) == sp
  {
    BraceSpanShape(text);
    forall sp | sp in BraceSpans(text) ensures Strip(sp) == sp {
      StripLeftNoSpace(sp);
      StripRightNoSpace(sp);
    }
  }
}
