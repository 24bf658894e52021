/**
 * The data handling of src/agent/report_generator/report_generator.py: the
 * guard and the output-path fix of `generate_report`, `_extract_insights`,
 * `_get_report_title` and `format_user_quotes`.  The HTML template, the
 * charts, the clock, loading the sub-reports from files and the file write
 * are not modelled: the timestamp and the loaded sub-reports are parameters.
 */
module ReportGenerator {
  import opened Json
  import opened Python

  // ------------------------------------------------------ the output path

  const HtmlSuffix := ".html"
  const MdSuffix := ".md"

  /** `output_path` when none is given: `os.path.join(self.output_dir, f"report_{timestamp}.html")`. */
  function DefaultPath(outputDir: string, timestamp: string): string {
    PathJoin(outputDir, "report_" + timestamp + HtmlSuffix)
  }

  /** The path fix: a path not ending in `.html` has every `.md` replaced, then `.html` appended if still missing. */
  function HtmlPath(p: string): string {
    if EndsWith(p, HtmlSuffix) then p
    else
      var q := ReplaceAll(p, MdSuffix, HtmlSuffix);
      if EndsWith(q, HtmlSuffix) then q else q + HtmlSuffix
  }

  ghost predicate MdFree(s: string) {
    forall i :: !OccursAt(s, MdSuffix, i)
  }

  /** The output path always ends in `.html`, and one that already does is kept. */
  lemma {:induction false} HtmlPathEnds(p: string)
    ensures EndsWith(HtmlPath(p), HtmlSuffix)
    ensures EndsWith(p, HtmlSuffix) ==> HtmlPath(p) == p
  {
    var q := ReplaceAll(p, MdSuffix, HtmlSuffix);
    if !EndsWith(p, HtmlSuffix) && !EndsWith(q, HtmlSuffix) {
      assert (q + HtmlSuffix)[|q|..] == HtmlSuffix;
    }
  }

  /** A path that did not end in `.html` keeps no `.md` at all once fixed. */
  lemma {:induction false} HtmlPathMdFree(p: string)
    requires !EndsWith(p, HtmlSuffix)
    ensures MdFree(HtmlPath(p))
  {
    var q := ReplaceAll(p, MdSuffix, HtmlSuffix);
    ReplacedMdFree(p);
    if !EndsWith(q, HtmlSuffix) {
      AppendHtmlMdFree(q);
    }
  }

  /** Fixing is idempotent. */
  lemma {:induction false} HtmlPathIdempotent(p: string)
    ensures HtmlPath(HtmlPath(p)) == HtmlPath(p)
  {
    HtmlPathEnds(p);
    HtmlPathEnds(HtmlPath(p));
  }

  /** The first character of `s.replace(".md", ".html")`, when it is not a dot, is that of `s`. */
  lemma {:induction false} ReplacedHead(s: string)
    requires ReplaceAll(s, MdSuffix, HtmlSuffix) != [] && ReplaceAll(s, MdSuffix, HtmlSuffix)[0] != '.'
    ensures s != [] && ReplaceAll(s, MdSuffix, HtmlSuffix)[0] == s[0]
  {
  }

  /** `s.replace(".md", ".html")` has no `.md` left: the replacement cannot form a new one. */
  lemma {:induction false} ReplacedMdFree(s: string)
    ensures MdFree(ReplaceAll(s, MdSuffix, HtmlSuffix))
    decreases |s|
  {
    var r := ReplaceAll(s, MdSuffix, HtmlSuffix);
    if |s| < |MdSuffix| {
      assert r == s;
    } else if s[..3] == MdSuffix {
      var rest := ReplaceAll(s[3..], MdSuffix, HtmlSuffix);
      ReplacedMdFree(s[3..]);
      assert r == HtmlSuffix + rest;
      HtmlPrefixMdFree(rest);
    } else {
      var t := s[1..];
      var rest := ReplaceAll(t, MdSuffix, HtmlSuffix);
      ReplacedMdFree(t);
      assert r == [s[0]] + rest;
      forall i ensures !OccursAt(r, MdSuffix, i) {
        if 0 < i && i + 3 <= |r| {
          assert r[i..i + 3] == rest[i - 1..i + 2];
          assert !OccursAt(rest, MdSuffix, i - 1);
        } else if i == 0 {
          NoMdAtHead(s);
        }
      }
    }
  }

  /** `.html` in front of a text without `.md` makes none. */
  lemma {:induction false} HtmlPrefixMdFree(rest: string)
    requires MdFree(rest)
    ensures MdFree(HtmlSuffix + rest)
  {
    var r := HtmlSuffix + rest;
    forall i | 0 <= i && i + 3 <= |r| ensures !OccursAt(r, MdSuffix, i) {
      if i >= |HtmlSuffix| {
        assert r[i..i + 3] == rest[i - 5..i - 2];
        assert !OccursAt(rest, MdSuffix, i - 5);
      } else {
        HtmlHeadNoMd(rest, i);
      }
    }
  }

  /** No `.md` starts inside the leading `.html`. */
  lemma {:induction false} HtmlHeadNoMd(rest: string, i: int)
    requires 0 <= i < |HtmlSuffix|
    ensures !OccursAt(HtmlSuffix + rest, MdSuffix, i)
  {
    var r := HtmlSuffix + rest;
    if i + 3 <= |r| {
      assert r[i] == HtmlSuffix[i];
      assert r[i..i + 3][0] == r[i];
      if i == 0 {
        assert r[1] == HtmlSuffix[1];
        assert r[i..i + 3][1] == r[1];
      }
    }
  }

  /** Where `s` does not start with `.md`, neither does its replacement. */
  lemma {:induction false} NoMdAtHead(s: string)
    requires |s| >= 3 && s[..3] != MdSuffix
    ensures !OccursAt([s[0]] + ReplaceAll(s[1..], MdSuffix, HtmlSuffix), MdSuffix, 0)
  {
    var t := s[1..];
    var rest := ReplaceAll(t, MdSuffix, HtmlSuffix);
    if s[0] == '.' && |rest| >= 2 && rest[0] == 'm' {
      ReplacedHead(t);
      if |t| >= 3 {
        assert t[..3] != MdSuffix;
        assert rest == [t[0]] + ReplaceAll(t[1..], MdSuffix, HtmlSuffix);
        if rest[1] != '.' {
          ReplacedHead(t[1..]);
        }
      } else {
        assert rest == t;
      }
    }
  }

  /** Appending `.html` to a text without `.md` makes none. */
  lemma {:induction false} AppendHtmlMdFree(q: string)
    requires MdFree(q)
    ensures MdFree(q + HtmlSuffix)
  {
    var r := q + HtmlSuffix;
    forall i | 0 <= i && i + 3 <= |r| ensures !OccursAt(r, MdSuffix, i) {
      if i + 3 <= |q| {
        assert r[i..i + 3] == q[i..i + 3];
        assert !OccursAt(q, MdSuffix, i);
      } else {
        assert r[i + 2] == HtmlSuffix[i + 2 - |q|] != 'd';
      }
    }
  }

  // --------------------------------------------------------- the insights

  /** One `{"title": ..., "content": ...}` of `_extract_insights`. */
  datatype Insight = Insight(title: Json, content: Json)

  /** `isinstance(insight, dict) and "content" in insight` */
  predicate Qualifies(x: Json) {
    x.JObj? && Lookup(x.members, "content").Some?
  }

  function InsightOf(title: Json, x: Json): Insight
    requires Qualifies(x)
  {
    Insight(title, Lookup(x.members, "content").value)
  }

  /** The insights taken from the first `n` entries of a report's `insights`. */
  function Picked(title: Json, xs: seq<Json>, n: nat): seq<Insight>
    requires n <= |xs|
  {
    if n == 0 then []
    else Picked(title, xs, n - 1) + (if Qualifies(xs[n - 1]) then [InsightOf(title, xs[n - 1])] else [])
  }

  /**
   * One report's part: nothing without a non-empty `insights`; `len` of a
   * value without one raises, and so do `in` and `[]` on a report that is
   * not a dict.
   */
  function ReportInsights(report: Json): Result<seq<Insight>> {
    match report
    case JObj(ms) =>
      (match Lookup(ms, "insights")
       case None => Ok([])
       case Some(v) =>
         match Len(v)
         case Raise(e) => Raise(e)
         case Ok(len) =>
           if len == 0 then Ok([])
           else
             match Iterate(v)
             case Raise(e) => Raise(e)
             case Ok(xs) => Ok(Picked(Get(ms, "title", JStr("")), xs, |xs|)))
    case _ =>
      match Member("insights", report)
      case Raise(e) => Raise(e)
      case Ok(found) =>
        if !found then Ok([])
        else
          match GetItem(report, "insights")
          case Raise(e) => Raise(e)
          case Ok(_) => Ok([])
  }

  /** `_extract_insights` over the first `n` reports. */
  function AllInsights(reports: seq<Json>, n: nat): Result<seq<Insight>>
    requires n <= |reports|
  {
    if n == 0 then Ok([])
    else
      match AllInsights(reports, n - 1)
      case Raise(e) => Raise(e)
      case Ok(prior) =>
        match ReportInsights(reports[n - 1])
        case Raise(e) => Raise(e)
        case Ok(more) => Ok(prior + more)
  }

  /**
   * The insights of one report are its dict insights with `content`, in
   * order, each once, each with the report's title; no other entry gives one.
   */
  lemma {:induction false} PickedOrder(title: Json, xs: seq<Json>, n: nat) returns (idx: seq<nat>)
    requires n <= |xs|
    ensures var r := Picked(title, xs, n);
      |idx| == |r| && Increasing(idx)
      && (forall i :: 0 <= i < |idx| ==> idx[i] < n && Qualifies(xs[idx[i]]) && r[i] == InsightOf(title, xs[idx[i]]))
      && (forall j :: 0 <= j < n && Qualifies(xs[j]) ==> j in idx)
  {
    if n == 0 {
      idx := [];
    } else {
      var m := n - 1;
      var prior := PickedOrder(title, xs, m);
      var before := Picked(title, xs, m);
      var r := Picked(title, xs, n);
      if Qualifies(xs[m]) {
        idx := prior + [m];
        assert r == before + [InsightOf(title, xs[m])];
        forall i | 0 <= i < |idx| ensures idx[i] < n && Qualifies(xs[idx[i]]) && r[i] == InsightOf(title, xs[idx[i]]) {
          if i < |prior| {
            assert idx[i] == prior[i] && r[i] == before[i];
          }
        }
        forall i, j | 0 <= i < j < |idx| ensures idx[i] < idx[j] {
          if j < |prior| {
            assert idx[i] == prior[i] && idx[j] == prior[j];
          } else {
            assert idx[i] == prior[i] < m;
          }
        }
        forall j | 0 <= j < n && Qualifies(xs[j]) ensures j in idx {
          if j < m {
            assert j in prior;
          }
        }
      } else {
        idx := prior;
        assert r == before;
      }
    }
  }

  lemma {:induction false} AllInsightsStop(reports: seq<Json>, k: nat)
    requires k <= |reports| && AllInsights(reports, k).Raise?
    ensures AllInsights(reports, |reports|) == AllInsights(reports, k)
    decreases |reports| - k
  {
    if k < |reports| {
      AllInsightsStop(reports, k + 1);
    }
  }

  /** The inner loop of `_extract_insights` over one report's `insights`. */
  method PickInsights(title: Json, xs: seq<Json>) returns (r: seq<Insight>)
    ensures r == Picked(title, xs, |xs|)
  {
    r := [];
    for j := 0 to |xs|
      invariant r == Picked(title, xs, j)
    {
      var insight := xs[j];
      if insight.JObj? {
        var content := Lookup(insight.members, "content");
        if content.Some? {
          r := r + [Insight(title, content.value)];
        }
      }
    }
  }

  method InsightsOfReport(report: Json) returns (r: Result<seq<Insight>>)
    ensures r == ReportInsights(report)
  {
    var found := Member("insights", report);
    if found.Raise? {
      return Raise(found.exc);
    }
    if !found.value {
      return Ok([]);
    }
    var v := GetItem(report, "insights");
    if v.Raise? {
      return Raise(v.exc);
    }
    var len := Len(v.value);
    if len.Raise? {
      return Raise(len.exc);
    }
    if len.value == 0 {
      return Ok([]);
    }
    var xs := Iterate(v.value);
    if xs.Raise? {
      return Raise(xs.exc);
    }
    var picked := PickInsights(Get(report.members, "title", JStr("")), xs.value);
    r := Ok(picked);
  }

  /** `ReportGenerator._extract_insights(reports)` */
  method ExtractInsights(reports: seq<Json>) returns (r: Result<seq<Insight>>)
    ensures r == AllInsights(reports, |reports|)
  {
    var all: seq<Insight> := [];
    for i := 0 to |reports|
      invariant AllInsights(reports, i) == Ok(all)
    {
      var step := InsightsOfReport(reports[i]);
      if step.Raise? {
        AllInsightsStop(reports, i + 1);
        return Raise(step.exc);
      }
      all := all + step.value;
    }
    r := Ok(all);
  }

  // ------------------------------------------------------------ the title

  const DefaultTitle := "社交媒体分析报告"
  const TitleSuffix := " 品牌分析报告"

  /** `f"{brand} 品牌分析报告"` */
  function BrandTitle(brand: Json): Result<string> {
    match ScalarText(brand)
    case Some(t) => Ok(t + TitleSuffix)
    case None => Raise(Exc(OutsideModel, "brand that is not a string, an int, a bool or None"))
  }

  /** `v[0]` */
  function FirstOf(v: Json): Result<Json> {
    match v
    case JArr(xs) => if xs == [] then Raise(Exc(IndexError, "list index out of range")) else Ok(xs[0])
    case JStr(s) => if s == "" then Raise(Exc(IndexError, "string index out of range")) else Ok(JStr([s[0]]))
    case JObj(_) => Raise(Exc(KeyError, "0"))
    case _ => Raise(Exc(TypeError, "object is not subscriptable"))
  }

  /**
   * The `elif` branch: the brand the search finds in the first report's
   * first insight.  The regular expression, and `next` picking its first
   * non-empty group, are the parameter `search`.
   */
  function InsightTitle(insights: Json, search: string -> Option<string>): Result<string> {
    match FirstOf(insights)
    case Raise(e) => Raise(e)
    case Ok(first) =>
      match GetAttr(first, "content", JStr(""))
      case Raise(e) => Raise(e)
      case Ok(JStr(content)) =>
        (match search(content)
         case Some(brand) => Ok(brand + TitleSuffix)
         case None => Ok(DefaultTitle))
      case Ok(_) => Raise(Exc(TypeError, "expected string or bytes-like object"))
  }

  /** `ReportGenerator._get_report_title(reports)` */
  function ReportTitle(reports: seq<Json>, search: string -> Option<string>): Result<string> {
    if reports == [] then Ok(DefaultTitle)
    else
      var first := reports[0];
      match Member("brand", first)
      case Raise(e) => Raise(e)
      case Ok(true) =>
        (match GetItem(first, "brand")
         case Raise(e) => Raise(e)
         case Ok(brand) => BrandTitle(brand))
      case Ok(false) =>
        match Member("insights", first)
        case Raise(e) => Raise(e)
        case Ok(false) => Ok(DefaultTitle)
        case Ok(true) =>
          match GetItem(first, "insights")
          case Raise(e) => Raise(e)
          case Ok(insights) =>
            match Len(insights)
            case Raise(e) => Raise(e)
            case Ok(len) => if len == 0 then Ok(DefaultTitle) else InsightTitle(insights, search)
  }

  /**
   * The default title when there are no reports, or when the first one is
   * a dict with neither `brand` nor `insights`; a dict naming a string
   * brand gives that brand's title whatever else it holds.
   */
  lemma {:induction false} TitleCases(reports: seq<Json>, search: string -> Option<string>)
    ensures reports == [] ==> ReportTitle(reports, search) == Ok(DefaultTitle)
    ensures reports != [] && reports[0].JObj? ==>
      var ms := reports[0].members;
      (Lookup(ms, "brand").None? && Lookup(ms, "insights").None? ==> ReportTitle(reports, search) == Ok(DefaultTitle))
      && (forall b :: Lookup(ms, "brand") == Some(JStr(b)) ==> ReportTitle(reports, search) == Ok(b + TitleSuffix))
  {
  }

  // ----------------------------------------------------------- the quotes

  const QuoteTitleLength := 30
  const QuoteContentLength := 100
  const DefaultQuoteLimit := 5
  const NoTitle := "无标题"

  /** One formatted quote: the cut title and content and the joined brands. */
  datatype FormattedQuote = FormattedQuote(title: Json, content: Json, brands: string)

  /** The first `n` items of a `brands` value, each of which must be a string for `join`. */
  function BrandTexts(xs: seq<Json>, n: nat): Result<seq<string>>
    requires n <= |xs|
  {
    if n == 0 then Ok([])
    else
      match BrandTexts(xs, n - 1)
      case Raise(e) => Raise(e)
      case Ok(prior) =>
        match xs[n - 1]
        case JStr(s) => Ok(prior + [s])
        case _ => Raise(Exc(TypeError, "sequence item: expected str instance"))
  }

  /** `", ".join(v)` */
  function JoinBrands(v: Json): Result<string> {
    match Iterate(v)
    case Raise(_) => Raise(Exc(TypeError, "can only join an iterable"))
    case Ok(xs) =>
      match BrandTexts(xs, |xs|)
      case Raise(e) => Raise(e)
      case Ok(ss) => Ok(Join(", ", ss))
  }

  /** The dict `format_user_quotes` builds for one quote, its fields evaluated in order. */
  function FormatQuote(q: Json): Result<FormattedQuote> {
    match q
    case JObj(ms) =>
      (match SliceValue(Get(ms, "title", JStr(NoTitle)), QuoteTitleLength)
       case Raise(e) => Raise(e)
       case Ok(title) =>
         match SliceValue(Get(ms, "content", JStr("")), QuoteContentLength)
         case Raise(e) => Raise(e)
         case Ok(content) =>
           match JoinBrands(Get(ms, "brands", JArr([])))
           case Raise(e) => Raise(e)
           case Ok(brands) => Ok(FormattedQuote(title, content, brands)))
    case _ => Raise(Exc(AttributeError, "object has no attribute 'get'"))
  }

  /**
   * `ReportGenerator.format_user_quotes(quotes, limit)`: no output for no
   * input; otherwise it raises exactly when one of the kept quotes cannot be
   * formatted, and gives at most `limit` entries, one per kept quote, in order.
   */
  function FormattedQuotes(quotes: seq<Json>, limit: int): (r: Result<seq<FormattedQuote>>)
    ensures quotes == [] ==> r == Ok([])
    ensures quotes != [] ==> (r.Ok? <==> forall i :: 0 <= i < |Take(quotes, limit)| ==> FormatQuote(Take(quotes, limit)[i]).Ok?)
    ensures r.Ok? ==>
      var kept := Take(quotes, limit);
      (limit >= 0 ==> |r.value| <= limit) && |r.value| == |kept|
      && forall i :: 0 <= i < |r.value| ==> FormatQuote(kept[i]) == Ok(r.value[i])
  {
    if quotes == [] then Ok([])
    else MapAll(FormatQuote, Take(quotes, limit))
  }

  /**
   * A string title is cut to 30 characters, a missing one is `"无标题"`; a
   * string content is cut to 100; a list of brand strings is joined with `", "`.
   */
  lemma {:induction false} FormatQuoteFacts(q: Json, f: FormattedQuote)
    requires FormatQuote(q) == Ok(f)
    ensures q.JObj?
    ensures Lookup(q.members, "title").None? ==> f.title == JStr(NoTitle)
    ensures forall t :: Lookup(q.members, "title") == Some(JStr(t)) ==>
      f.title.JStr? && |f.title.s| <= QuoteTitleLength && f.title.s == t[..|f.title.s|]
    ensures forall c :: Lookup(q.members, "content") == Some(JStr(c)) ==>
      f.content.JStr? && |f.content.s| <= QuoteContentLength && f.content.s == c[..|f.content.s|]
    ensures forall bs :: Lookup(q.members, "brands") == Some(JArr(bs)) ==>
      BrandTexts(bs, |bs|).Ok? && f.brands == Join(", ", BrandTexts(bs, |bs|).value)
  {
  }

  /** A list of strings joins to the strings and the separators between them. */
  lemma {:induction false} BrandTextsStrings(ss: seq<string>)
    ensures BrandTexts(seq(|ss|, i requires 0 <= i < |ss| => JStr(ss[i])), |ss|) == Ok(ss)
  {
    var xs := seq(|ss|, i requires 0 <= i < |ss| => JStr(ss[i]));
    BrandTextsPrefix(ss, xs, |ss|);
    assert ss[..|ss|] == ss;
  }

  lemma {:induction false} BrandTextsPrefix(ss: seq<string>, xs: seq<Json>, n: nat)
    requires |xs| == |ss| && n <= |ss| && forall i :: 0 <= i < |ss| ==> xs[i] == JStr(ss[i])
    ensures BrandTexts(xs, n) == Ok(ss[..n])
  {
    if n > 0 {
      BrandTextsPrefix(ss, xs, n - 1);
      assert ss[..n] == ss[..n - 1] + [ss[n - 1]];
    }
  }

  /** The length of `sep.join(parts)`: the parts and one separator between each two. */
  lemma {:induction false} JoinLength(sep: string, parts: seq<string>)
    requires parts != []
    ensures |Join(sep, parts)| == Total(parts) + (|parts| - 1) * |sep|
  {
    if |parts| > 1 {
      JoinLength(sep, parts[1..]);
    }
  }

  function Total(parts: seq<string>): nat {
    if parts == [] then 0 else |parts[0]| + Total(parts[1..])
  }

  method FormatOne(q: Json) returns (r: Result<FormattedQuote>)
    ensures r == FormatQuote(q)
  {
    if !q.JObj? {
      return Raise(Exc(AttributeError, "object has no attribute 'get'"));
    }
    var title := SliceValue(Get(q.members, "title", JStr(NoTitle)), QuoteTitleLength);
    if title.Raise? {
      return Raise(title.exc);
    }
    var content := SliceValue(Get(q.members, "content", JStr("")), QuoteContentLength);
    if content.Raise? {
      return Raise(content.exc);
    }
    var brands := JoinBrands(Get(q.members, "brands", JArr([])));
    if brands.Raise? {
      return Raise(brands.exc);
    }
    r := Ok(FormattedQuote(title.value, content.value, brands.value));
  }

  /** `ReportGenerator.format_user_quotes(quotes, limit)`: the loop over `quotes[:limit]`. */
  method FormatUserQuotes(quotes: seq<Json>, limit: int) returns (r: Result<seq<FormattedQuote>>)
    ensures r == FormattedQuotes(quotes, limit)
  {
    if quotes == [] {
      return Ok([]);
    }
    var kept := Take(quotes, limit);
    var formatted: seq<FormattedQuote> := [];
    for i := 0 to |kept|
      invariant MapPrefix(FormatQuote, kept, i) == Ok(formatted)
    {
      var f := FormatOne(kept[i]);
      MapAdvance(FormatQuote, kept, i, formatted, f);
      if f.Raise? {
        return Raise(f.exc);
      }
      formatted := formatted + [f.value];
    }
    r := Ok(formatted);
  }

  // ------------------------------------------------------- generate_report

  /** `if self.data_dir`: a set, non-empty data directory. */
  predicate DataDirSet(dataDir: Option<string>) {
    dataDir.Some? && dataDir.value != ""
  }

  /** The sub-reports used: the given ones, or the loaded ones when a data directory is set and none were given. */
  function SubReports(dataDir: Option<string>, given: seq<Json>, loaded: seq<Json>): seq<Json> {
    if DataDirSet(dataDir) && given == [] then loaded else given
  }

  /**
   * `generate_report(sub_reports, output_path)`: `None` without sub-reports;
   * otherwise the fixed path, once the title and the insights were computed
   * (either of which may raise).
   */
  function Generated(outputDir: string, dataDir: Option<string>, given: seq<Json>, outputPath: Option<string>,
                     timestamp: string, loaded: seq<Json>, search: string -> Option<string>): Result<Option<string>> {
    var reports := SubReports(dataDir, given, loaded);
    if reports == [] then Ok(None)
    else
      var path := HtmlPath(match outputPath case Some(p) => p case None => DefaultPath(outputDir, timestamp));
      match ReportTitle(reports, search)
      case Raise(e) => Raise(e)
      case Ok(_) =>
        match AllInsights(reports, |reports|)
        case Raise(e) => Raise(e)
        case Ok(_) => Ok(Some(path))
  }

  /**
   * `None` exactly when no sub-report is given or loadable; a produced path
   * ends in `.html`, and a default one is the timestamped name in the output
   * directory.
   */
  lemma {:induction false} GeneratedFacts(outputDir: string, dataDir: Option<string>, given: seq<Json>, outputPath: Option<string>,
                       timestamp: string, loaded: seq<Json>, search: string -> Option<string>)
    ensures var r := Generated(outputDir, dataDir, given, outputPath, timestamp, loaded, search);
      (r == Ok(None) <==> given == [] && (!DataDirSet(dataDir) || loaded == []))
      && (r.Ok? && r.value.Some? ==> EndsWith(r.value.value, HtmlSuffix))
      && (r.Ok? && r.value.Some? && outputPath.None? ==> r.value.value == DefaultPath(outputDir, timestamp))
  {
    var p := match outputPath case Some(p) => p case None => DefaultPath(outputDir, timestamp);
    HtmlPathEnds(p);
  }

  /** The part of `ReportGenerator`'s state that `generate_report` reads. */
  class ReportGenerator {
    var outputDir: string
    var dataDir: Option<string>

    constructor()
      ensures outputDir == "reports" && dataDir == None
    {
      outputDir := "reports";
      dataDir := None;
    }

    /** `set_output_dir` (the directory creation is not modelled). */
    method SetOutputDir(d: string)
      modifies this
      ensures outputDir == d && dataDir == old(dataDir)
    {
      outputDir := d;
    }

    /** `set_data_dir` (the directory creation is not modelled). */
    method SetDataDir(d: string)
      modifies this
      ensures dataDir == Some(d) && outputDir == old(outputDir)
    {
      dataDir := Some(d);
    }

    /**
     * `generate_report`: `loaded` is what `_load_reports_from_data_dir`
     * returns, `timestamp` the clock's text, `search` the title's regular
     * expression.
     */
    method GenerateReport(given: seq<Json>, outputPath: Option<string>, timestamp: string, loaded: seq<Json>,
                          search: string -> Option<string>) returns (r: Result<Option<string>>)
      ensures r == Generated(outputDir, dataDir, given, outputPath, timestamp, loaded, search)
    {
      var path: string;
      if outputPath.None? {
        path := DefaultPath(outputDir, timestamp);
      } else {
        path := outputPath.value;
      }
      var reports := given;
      if DataDirSet(dataDir) && reports == [] {
        reports := loaded;
      }
      if reports == [] {
        return Ok(None);
      }
      if !EndsWith(path, HtmlSuffix) {
        path := ReplaceAll(path, MdSuffix, HtmlSuffix);
        if !EndsWith(path, HtmlSuffix) {
          path := path + HtmlSuffix;
        }
      }
      var title := ReportTitle(reports, search);
      if title.Raise? {
        return Raise(title.exc);
      }
      var insights := ExtractInsights(reports);
      if insights.Raise? {
        return Raise(insights.exc);
      }
      r := Ok(Some(path));
    }
  }
}
