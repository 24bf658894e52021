/**
 * The counting and selection parts of three analyzer methods of
 * src/agent/analyzer/analyzers.py: `BrandAnalyzer.analyze_brand_mentions`
 * (top brands and distinct-url quotes), `BrandAnalyzer.analyze_brand_sentiment`
 * (mention and sentiment tallies) and `IPAnalyzer.analyze_ip_distribution`
 * (heat by location).  The insight texts, whose numbers are floats, and the
 * JSON files the analyzers write are not modelled.
 */
module Analyzers {
  import opened Json
  import opened Python
  import opened Sorting
  import opened AnalysisTools

  // -------------------------------------------------- Counter bookkeeping

  predicate DistinctBrands(counter: seq<(string, int)>) {
    forall i, j :: 0 <= i < j < |counter| ==> counter[i].0 != counter[j].0
  }

  lemma {:induction false} BumpDistinct(counter: seq<(string, int)>, b: string, n: int)
    requires DistinctBrands(counter)
    ensures DistinctBrands(Bump(counter, b, n))
    decreases |counter|
  {
    if counter != [] {
      var p := counter[..|counter| - 1];
      var last := counter[|counter| - 1];
      assert forall i :: 0 <= i < |p| ==> p[i] == counter[i];
      if last.0 != b {
        BumpDistinct(p, b, n);
        BumpFacts(p, b, n);
        var q := Bump(p, b, n);
        forall i | 0 <= i < |q| ensures q[i].0 != last.0 {
          assert q[i].0 in Brands(q);
        }
      }
    }
  }

  lemma {:induction false} ApplyDistinct(c: seq<(string, int)>, incs: seq<(string, int)>)
    requires DistinctBrands(c)
    ensures DistinctBrands(Apply(c, incs))
  {
    if incs != [] {
      var x := incs[|incs| - 1];
      ApplyDistinct(c, incs[..|incs| - 1]);
      BumpDistinct(Apply(c, incs[..|incs| - 1]), x.0, x.1);
    }
  }

  /** In a Counter without repeated brands, an entry holds that brand's count. */
  lemma {:induction false} EntryCount(counter: seq<(string, int)>, i: nat)
    requires DistinctBrands(counter) && i < |counter|
    ensures CountFor(counter, counter[i].0) == counter[i].1
    decreases |counter|
  {
    if i < |counter| - 1 {
      var p := counter[..|counter| - 1];
      assert p[i] == counter[i];
      EntryCount(p, i);
    }
  }

  // ------------------------------------------------------ brand mentions

  const TopBrandLimit := 10
  const MentionQuoteLimit := 10
  const QuoteUrlLimit := 5
  /** `extract_user_quotes`'s default `min_length`. */
  const QuoteMinLength := 10

  /** `x[1]["count"]` as a sort key. */
  function CountKey(e: (string, int)): Result<Key> {
    Ok(IntKey(e.1))
  }

  function Keyed(counter: seq<(string, int)>): (r: seq<((string, int), Key)>)
    ensures |r| == |counter| && forall i :: 0 <= i < |r| ==> r[i] == (counter[i], IntKey(counter[i].1))
  {
    seq(|counter|, i requires 0 <= i < |counter| => (counter[i], IntKey(counter[i].1)))
  }

  lemma {:induction false} KeyedAll(counter: seq<(string, int)>)
    ensures KeyAll(CountKey, counter) == Ok(Keyed(counter))
  {
    assert KeyAll(CountKey, counter).value == Keyed(counter);
  }

  /** `sorted(counter.items(), key=lambda x: x[1], reverse=True)[:n]` */
  function Highest(counter: seq<(string, int)>, n: nat): seq<(string, int)> {
    Take(Firsts(SortDesc(Keyed(counter))), n)
  }

  /** `sorted(brand_mentions.items(), key=count, reverse=True)[:10]` */
  function TopBrands(counter: seq<(string, int)>): seq<(string, int)> {
    Highest(counter, TopBrandLimit)
  }

  function UrlsOf(qs: seq<Quote>): set<string> {
    set i | 0 <= i < |qs| :: qs[i].url
  }

  lemma {:induction false} UrlsSnoc(qs: seq<Quote>, q: Quote)
    ensures UrlsOf(qs + [q]) == UrlsOf(qs) + {q.url}
  {
    var r := qs + [q];
    assert forall i :: 0 <= i < |qs| ==> r[i] == qs[i];
    assert r[|qs|] == q;
  }

  /** The quote filter after the first `n` quotes: a new non-empty url is taken until five are. */
  function FilterUrls(qs: seq<Quote>, n: nat): seq<Quote>
    requires n <= |qs|
  {
    if n == 0 then []
    else
      var prior := FilterUrls(qs, n - 1);
      var q := qs[n - 1];
      if |prior| >= QuoteUrlLimit then prior
      else if q.url != "" && q.url !in UrlsOf(prior) then prior + [q]
      else prior
  }

  predicate DistinctUrls(qs: seq<Quote>) {
    forall i, j :: 0 <= i < j < |qs| ==> qs[i].url != qs[j].url
  }

  predicate UrlsTaken(r: seq<Quote>) {
    |r| <= QuoteUrlLimit && DistinctUrls(r) && forall i :: 0 <= i < |r| ==> r[i].url != ""
  }

  /** `r` is `qs[idx[0]], qs[idx[1]], ...` with increasing indices below `n`. */
  predicate PicksFrom(r: seq<Quote>, qs: seq<Quote>, idx: seq<nat>, n: nat) {
    |idx| == |r| && Increasing(idx) && forall i :: 0 <= i < |r| ==> idx[i] < n && idx[i] < |qs| && r[i] == qs[idx[i]]
  }

  /** At most five quotes, with non-empty, pairwise distinct urls. */
  lemma {:induction false} FilterUrlsTaken(qs: seq<Quote>, n: nat)
    requires n <= |qs|
    ensures UrlsTaken(FilterUrls(qs, n))
  {
    if n > 0 {
      var m := n - 1;
      FilterUrlsTaken(qs, m);
      var prior := FilterUrls(qs, m);
      var q := qs[m];
      if |prior| < QuoteUrlLimit && q.url != "" && q.url !in UrlsOf(prior) {
        var r := prior + [q];
        assert FilterUrls(qs, n) == r;
        forall i | 0 <= i < |prior| ensures prior[i].url != q.url {
          assert prior[i].url in UrlsOf(prior);
        }
        assert forall i :: 0 <= i < |prior| ==> r[i] == prior[i];
      }
    }
  }

  /** Picking element `m` after picks below `m`. */
  lemma {:induction false} PicksAppend(r: seq<Quote>, qs: seq<Quote>, idx: seq<nat>, m: nat)
    requires PicksFrom(r, qs, idx, m) && m < |qs|
    ensures PicksFrom(r + [qs[m]], qs, idx + [m], m + 1)
  {
    var r', idx' := r + [qs[m]], idx + [m];
    assert forall i :: 0 <= i < |r| ==> r'[i] == r[i] && idx'[i] == idx[i];
    assert r'[|r|] == qs[m] && idx'[|r|] == m;
  }

  /** Picks below `m` are picks below any larger bound. */
  lemma {:induction false} PicksWiden(r: seq<Quote>, qs: seq<Quote>, idx: seq<nat>, m: nat, n: nat)
    requires PicksFrom(r, qs, idx, m) && m <= n
    ensures PicksFrom(r, qs, idx, n)
  {
  }

  /** The quotes kept are taken from the input in its order. */
  lemma {:induction false} FilterUrlsOrder(qs: seq<Quote>, n: nat) returns (idx: seq<nat>)
    requires n <= |qs|
    ensures PicksFrom(FilterUrls(qs, n), qs, idx, n)
  {
    if n == 0 {
      idx := [];
    } else {
      var m := n - 1;
      var before := FilterUrlsOrder(qs, m);
      var prior := FilterUrls(qs, m);
      var q := qs[m];
      if |prior| < QuoteUrlLimit && q.url != "" && q.url !in UrlsOf(prior) {
        assert FilterUrls(qs, n) == prior + [q];
        idx := before + [m];
        PicksAppend(prior, qs, before, m);
      } else {
        assert FilterUrls(qs, n) == prior;
        idx := before;
        PicksWiden(prior, qs, before, m, n);
      }
    }
  }

  /** While fewer than five are kept, every non-empty url of the input is among them. */
  lemma {:induction false} FilterUrlsCovers(qs: seq<Quote>, n: nat)
    requires n <= |qs|
    ensures |FilterUrls(qs, n)| < QuoteUrlLimit ==>
      forall i :: 0 <= i < n && qs[i].url != "" ==> qs[i].url in UrlsOf(FilterUrls(qs, n))
  {
    if n > 0 {
      FilterUrlsCovers(qs, n - 1);
      var prior := FilterUrls(qs, n - 1);
      var q := qs[n - 1];
      if |prior| < QuoteUrlLimit && q.url != "" && q.url !in UrlsOf(prior) {
        UrlsSnoc(prior, q);
      }
    }
  }

  lemma {:induction false} FilterUrlsStop(qs: seq<Quote>, k: nat)
    requires k <= |qs| && |FilterUrls(qs, k)| >= QuoteUrlLimit
    ensures FilterUrls(qs, |qs|) == FilterUrls(qs, k)
    decreases |qs| - k
  {
    if k < |qs| {
      FilterUrlsStop(qs, k + 1);
    }
  }

  /** The counting and quote parts of what `analyze_brand_mentions` returns. */
  datatype MentionsResult = MentionsResult(topBrands: seq<(string, int)>, quotes: seq<Quote>)

  /** `BrandAnalyzer.analyze_brand_mentions(data)` */
  function BrandMentions(items: seq<Dict>): Result<MentionsResult> {
    match BrandCounts(items)
    case Raise(e) => Raise(e)
    case Ok(counter) =>
      var top := TopBrands(counter);
      if top == [] then Ok(MentionsResult([], []))
      else
        match UserQuotes(items, Filters(QuoteMinLength, Some(top[0].0), None), MentionQuoteLimit)
        case Raise(e) => Raise(e)
        case Ok(qs) => Ok(MentionsResult(top, FilterUrls(qs, |qs|)))
  }

  /** At most `n` entries, by count descending. */
  lemma {:induction false} HighestOrder(counter: seq<(string, int)>, n: nat)
    ensures var top := Highest(counter, n);
      |top| <= n && (forall i, j :: 0 <= i < j < |top| ==> top[i].1 >= top[j].1)
  {
    var top := Highest(counter, n);
    KeyedAll(counter);
    var all := Firsts(SortDesc(Keyed(counter)));
    SortedBy(CountKey, counter, Keyed(counter), all);
    forall i, j | 0 <= i < j < |top| ensures top[i].1 >= top[j].1 {
      assert top[i] == all[i] && top[j] == all[j];
      assert AtLeast(CountKey(all[i]).value, CountKey(all[j]).value);
    }
  }

  /** With the cut entries, the top is exactly the Counter, and no cut entry has a larger count. */
  lemma {:induction false} HighestSplit(counter: seq<(string, int)>, n: nat) returns (rest: seq<(string, int)>)
    ensures var top := Highest(counter, n);
      multiset(top) + multiset(rest) == multiset(counter)
      && (forall i, j :: 0 <= i < |top| && 0 <= j < |rest| ==> top[i].1 >= rest[j].1)
      && (n > 0 ==> (top == [] <==> counter == []))
      && (|top| < n ==> rest == [])
  {
    KeyedAll(counter);
    rest := SortedTop(CountKey, counter, Keyed(counter), n, Highest(counter, n));
    assert |Firsts(SortDesc(Keyed(counter)))| == |counter|;
  }

  /**
   * Each top brand appears once, with its full weighted count: the sum over
   * the records of what each gives it.  There are none exactly when no
   * record gives any brand an increment.
   */
  lemma {:induction false} TopBrandsCounts(items: seq<Dict>, counter: seq<(string, int)>)
    requires BrandCounts(items) == Ok(counter)
    ensures var top := TopBrands(counter);
      DistinctBrands(top)
      && (top == [] <==> Increments(items, |items|).value == [])
      && (forall i :: 0 <= i < |top| ==> top[i].1 == Shares(items, |items|, top[i].0))
  {
    var top := TopBrands(counter);
    var incs := Increments(items, |items|).value;
    ApplyDistinct([], incs);
    ApplyCounts([], incs);
    assert Brands([]) == {};
    var rest := HighestSplit(counter, TopBrandLimit);
    if incs != [] {
      assert incs[0].0 in Brands(counter);
    }
    forall i | 0 <= i < |top| ensures top[i].1 == Shares(items, |items|, top[i].0) {
      assert top[i] in multiset(counter);
      var k :| 0 <= k < |counter| && counter[k] == top[i];
      EntryCount(counter, k);
      BrandCountsBySum(items, top[i].0);
    }
    DistinctSubset(counter, top);
  }

  lemma {:induction false} DistinctSubset(s: seq<(string, int)>, t: seq<(string, int)>)
    requires DistinctBrands(s) && multiset(t) <= multiset(s)
    ensures DistinctBrands(t)
  {
    forall i, j | 0 <= i < j < |t| ensures t[i].0 != t[j].0 {
      if t[i].0 == t[j].0 {
        assert t[i] in multiset(s) && t[j] in multiset(s);
        var a :| 0 <= a < |s| && s[a] == t[i];
        var b :| 0 <= b < |s| && s[b] == t[j];
        if a == b {
          Twice(t, i, j);
          OnlyOnce(s, a);
          assert false;
        }
      }
    }
  }

  /** An element found at two positions occurs at least twice. */
  lemma {:induction false} Twice<T>(t: seq<T>, i: nat, j: nat)
    requires i < j < |t| && t[i] == t[j]
    ensures multiset(t)[t[i]] >= 2
  {
    assert t == t[..i] + [t[i]] + t[i + 1..j] + [t[j]] + t[j + 1..];
  }

  /** In a list without repeats every element occurs once. */
  lemma {:induction false} OnlyOnce<T>(s: seq<T>, a: nat)
    requires a < |s| && forall i, j :: 0 <= i < j < |s| ==> s[i] != s[j]
    ensures multiset(s)[s[a]] == 1
  {
    assert s == s[..a] + [s[a]] + s[a + 1..];
    assert s[a] !in s[..a];
    assert s[a] !in s[a + 1..];
  }

  /**
   * The quotes of `analyze_brand_mentions`: none without a brand; otherwise
   * at most five, with pairwise distinct non-empty urls, a subsequence of
   * the top brand's quotes.
   */
  lemma {:induction false} BrandQuotesFacts(items: seq<Dict>, m: MentionsResult) returns (idx: seq<nat>)
    requires BrandMentions(items) == Ok(m)
    ensures m.topBrands == [] ==> m.quotes == []
    ensures m.topBrands != [] ==>
      var qs := UserQuotes(items, Filters(QuoteMinLength, Some(m.topBrands[0].0), None), MentionQuoteLimit);
      qs.Ok? && UrlsTaken(m.quotes) && PicksFrom(m.quotes, qs.value, idx, |qs.value|)
  {
    idx := [];
    if m.topBrands != [] {
      var qs := UserQuotes(items, Filters(QuoteMinLength, Some(m.topBrands[0].0), None), MentionQuoteLimit).value;
      FilterUrlsTaken(qs, |qs|);
      idx := FilterUrlsOrder(qs, |qs|);
    }
  }

  /** The url filter loop of `analyze_brand_mentions`, with its `break` at five. */
  method PickDistinctUrls(qs: seq<Quote>) returns (r: seq<Quote>)
    ensures r == FilterUrls(qs, |qs|)
  {
    var seen: set<string> := {};
    r := [];
    var i := 0;
    while i < |qs|
      invariant 0 <= i <= |qs| && r == FilterUrls(qs, i) && seen == UrlsOf(r) && |r| < QuoteUrlLimit
    {
      var url := qs[i].url;
      if url != "" && url !in seen {
        UrlsSnoc(r, qs[i]);
        seen := seen + {url};
        r := r + [qs[i]];
        if |r| >= QuoteUrlLimit {
          FilterUrlsStop(qs, i + 1);
          break;
        }
      }
      i := i + 1;
    }
  }

  /** `BrandAnalyzer.analyze_brand_mentions(data)` */
  method AnalyzeBrandMentions(items: seq<Dict>) returns (r: Result<MentionsResult>)
    ensures r == BrandMentions(items)
  {
    var counts := CalculateBrandMentions(items);
    if counts.Raise? {
      return Raise(counts.exc);
    }
    var top := TopBrands(counts.value);
    var quotes: seq<Quote> := [];
    if top != [] {
      var found := ExtractUserQuotes(items, QuoteMinLength, MentionQuoteLimit, Some(top[0].0), None);
      if found.Raise? {
        return Raise(found.exc);
      }
      quotes := PickDistinctUrls(found.value);
    }
    r := Ok(MentionsResult(top, quotes));
  }

  // ----------------------------------------------------- brand sentiment

  /** The three keys of a brand's sentiment dict. */
  datatype Feeling = Positive | Neutral | Negative

  datatype Tone = Tone(positive: nat, neutral: nat, negative: nat)

  /** One key of `brand_mentions` together with the same key of `brand_sentiments`. */
  datatype BrandTally = BrandTally(brand: string, mentions: nat, tone: Tone)

  const NoTone := Tone(0, 0, 0)

  function FeelingOf(s: string): Option<Feeling> {
    if s == "positive" then Some(Positive)
    else if s == "neutral" then Some(Neutral)
    else if s == "negative" then Some(Negative)
    else None
  }

  /**
   * The sentiment a record gives brand `b`: `item["brand_sentiments"][b]`
   * when `b in item["brand_sentiments"]`, counted when it is one of the
   * three keys.
   */
  function SentimentOf(item: Dict, b: string): Result<Option<Feeling>> {
    match Lookup(item, "brand_sentiments")
    case None => Ok(None)
    case Some(bs) =>
      match Member(b, bs)
      case Raise(e) => Raise(e)
      case Ok(false) => Ok(None)
      case Ok(true) =>
        match GetItem(bs, b)
        case Raise(e) => Raise(e)
        case Ok(JStr(x)) => Ok(FeelingOf(x))
        case Ok(JArr(_)) => Raise(Exc(TypeError, "unhashable type: 'list'"))
        case Ok(JObj(_)) => Raise(Exc(TypeError, "unhashable type: 'dict'"))
        case Ok(_) => Ok(None)
  }

  function Tick(t: Tone, f: Option<Feeling>): Tone {
    match f
    case None => t
    case Some(Positive) => t.(positive := t.positive + 1)
    case Some(Neutral) => t.(neutral := t.neutral + 1)
    case Some(Negative) => t.(negative := t.negative + 1)
  }

  function ToneSum(t: Tone): nat {
    t.positive + t.neutral + t.negative
  }

  /** The row a mention of `b` leaves behind, given `b`'s row before it. */
  function Bumped(before: Option<BrandTally>, b: string, f: Option<Feeling>): BrandTally {
    match before
    case None => BrandTally(b, 1, Tick(NoTone, f))
    case Some(x) => BrandTally(b, x.mentions + 1, Tick(x.tone, f))
  }

  /** One mention of `b`: a new brand goes last with zero counts; its mentions and tone go up. */
  function Mention(t: seq<BrandTally>, b: string, f: Option<Feeling>): seq<BrandTally>
    decreases |t|
  {
    if t == [] then [Bumped(None, b, f)]
    else
      var last := t[|t| - 1];
      if last.brand == b then t[..|t| - 1] + [Bumped(Some(last), b, f)]
      else Mention(t[..|t| - 1], b, f) + [last]
  }

  /** `brand_mentions[b]` and `brand_sentiments[b]`, if `b` is a key. */
  function RowFor(t: seq<BrandTally>, b: string): Option<BrandTally>
    decreases |t|
  {
    if t == [] then None
    else if t[|t| - 1].brand == b then Some(t[|t| - 1])
    else RowFor(t[..|t| - 1], b)
  }

  function MentionsOf(t: seq<BrandTally>, b: string): nat {
    match RowFor(t, b)
    case None => 0
    case Some(x) => x.mentions
  }

  function ToneOf(t: seq<BrandTally>, b: string): Tone {
    match RowFor(t, b)
    case None => NoTone
    case Some(x) => x.tone
  }

  function Names(t: seq<BrandTally>): set<string> {
    set i | 0 <= i < |t| :: t[i].brand
  }

  predicate DistinctNames(t: seq<BrandTally>) {
    forall i, j :: 0 <= i < j < |t| ==> t[i].brand != t[j].brand
  }

  /** No brand has more counted sentiments than mentions. */
  predicate ToneBounded(t: seq<BrandTally>) {
    forall i :: 0 <= i < |t| ==> ToneSum(t[i].tone) <= t[i].mentions
  }

  /** `Mention` updates one key of a dict: `b`'s row is bumped and every other brand's row is left alone. */
  lemma {:induction false} MentionRows(t: seq<BrandTally>, b: string, f: Option<Feeling>)
    ensures forall j :: RowFor(Mention(t, b, f), j) == if j == b then Some(Bumped(RowFor(t, b), b, f)) else RowFor(t, j)
    decreases |t|
  {
    if t != [] {
      var p := t[..|t| - 1];
      var last := t[|t| - 1];
      if last.brand == b {
        var q := p + [Bumped(Some(last), b, f)];
        assert q[..|q| - 1] == p;
      } else {
        MentionRows(p, b, f);
        var q := Mention(p, b, f) + [last];
        assert q[..|q| - 1] == Mention(p, b, f);
      }
    }
  }

  lemma {:induction false} NamesSnoc(t: seq<BrandTally>, x: BrandTally)
    ensures Names(t + [x]) == Names(t) + {x.brand}
  {
    var q := t + [x];
    assert forall i :: 0 <= i < |t| ==> q[i] == t[i];
    assert q[|t|] == x;
  }

  /** `Mention` adds `b` to the keys. */
  lemma {:induction false} MentionNames(t: seq<BrandTally>, b: string, f: Option<Feeling>)
    ensures Names(Mention(t, b, f)) == Names(t) + {b}
    decreases |t|
  {
    if t == [] {
      NamesSnoc([], Bumped(None, b, f));
    } else {
      var p := t[..|t| - 1];
      var last := t[|t| - 1];
      assert t == p + [last];
      NamesSnoc(p, last);
      if last.brand == b {
        NamesSnoc(p, Bumped(Some(last), b, f));
      } else {
        MentionNames(p, b, f);
        NamesSnoc(Mention(p, b, f), last);
      }
    }
  }

  /** `Mention` keeps the keys distinct and every tone within its mentions. */
  lemma {:induction false} MentionShape(t: seq<BrandTally>, b: string, f: Option<Feeling>)
    requires DistinctNames(t) && ToneBounded(t)
    ensures DistinctNames(Mention(t, b, f)) && ToneBounded(Mention(t, b, f))
    decreases |t|
  {
    if t != [] {
      var p := t[..|t| - 1];
      var last := t[|t| - 1];
      InitShape(t);
      if last.brand == b {
        AppendShape(p, Bumped(Some(last), b, f));
      } else {
        MentionShape(p, b, f);
        MentionNames(p, b, f);
        AppendShape(Mention(p, b, f), last);
      }
    }
  }

  /** All but the last entry of a dict in shape are in shape, and do not hold the last key. */
  lemma {:induction false} InitShape(t: seq<BrandTally>)
    requires t != [] && DistinctNames(t) && ToneBounded(t)
    ensures DistinctNames(t[..|t| - 1]) && ToneBounded(t[..|t| - 1])
    ensures t[|t| - 1].brand !in Names(t[..|t| - 1])
  {
    var p := t[..|t| - 1];
    assert forall i :: 0 <= i < |p| ==> p[i] == t[i];
  }

  /** A new key with a bounded tone keeps a dict in shape. */
  lemma {:induction false} AppendShape(m: seq<BrandTally>, x: BrandTally)
    requires DistinctNames(m) && ToneBounded(m) && x.brand !in Names(m) && ToneSum(x.tone) <= x.mentions
    ensures DistinctNames(m + [x]) && ToneBounded(m + [x])
  {
    var q := m + [x];
    assert forall i :: 0 <= i < |m| ==> q[i] == m[i];
    forall i | 0 <= i < |m| ensures m[i].brand != x.brand {
      assert m[i].brand in Names(m);
    }
  }

  /** The keys of a dict, as `list(d.keys())`. */
  function KeysOf(ms: Dict): seq<Json> {
    seq(|ms|, i requires 0 <= i < |ms| => JStr(ms[i].0))
  }

  predicate Filtering(filter: Option<string>) {
    filter.Some? && filter.value != ""
  }

  /**
   * The brands the loop counts for a record: its `brand_mentions` list or
   * dict keys; with a brand filter only that brand, and nothing when the
   * record does not name it.
   */
  function MentionedBrands(item: Dict, filter: Option<string>): Result<seq<string>> {
    match Lookup(item, "brand_mentions")
    case None => Ok([])
    case Some(v) =>
      var brands := match v case JArr(xs) => xs case JObj(ms) => KeysOf(ms) case _ => [];
      if Filtering(filter) then
        (if JStr(filter.value) in brands then Ok([filter.value]) else Ok([]))
      else if forall i :: 0 <= i < |brands| ==> brands[i].JStr? then
        Ok(seq(|brands|, i requires 0 <= i < |brands| && brands[i].JStr? => brands[i].s))
      else Raise(Exc(OutsideModel, "a brand that is not a str"))
  }

  /** The first `n` brands of one record. */
  function TallyBrands(t: seq<BrandTally>, item: Dict, bs: seq<string>, n: nat): Result<seq<BrandTally>>
    requires n <= |bs|
  {
    if n == 0 then Ok(t)
    else
      match TallyBrands(t, item, bs, n - 1)
      case Raise(e) => Raise(e)
      case Ok(u) =>
        match SentimentOf(item, bs[n - 1])
        case Raise(e) => Raise(e)
        case Ok(f) => Ok(Mention(u, bs[n - 1], f))
  }

  function TallyItem(t: seq<BrandTally>, item: Dict, filter: Option<string>): Result<seq<BrandTally>> {
    match MentionedBrands(item, filter)
    case Raise(e) => Raise(e)
    case Ok(bs) => TallyBrands(t, item, bs, |bs|)
  }

  /** The tallies after the first `n` records. */
  function Tallies(items: seq<Dict>, n: nat, filter: Option<string>): Result<seq<BrandTally>>
    requires n <= |items|
  {
    if n == 0 then Ok([])
    else
      match Tallies(items, n - 1, filter)
      case Raise(e) => Raise(e)
      case Ok(t) => TallyItem(t, items[n - 1], filter)
  }

  /** How often the first `n` records name brand `b`, counted as the loop counts them. */
  function Occurrences(items: seq<Dict>, n: nat, filter: Option<string>, b: string): nat
    requires n <= |items|
  {
    if n == 0 then 0
    else
      Occurrences(items, n - 1, filter, b) + ItemCount(items[n - 1], filter, b)
  }

  /** How often one record names brand `b`. */
  function ItemCount(item: Dict, filter: Option<string>, b: string): nat {
    match MentionedBrands(item, filter) case Ok(bs) => multiset(bs)[b] case Raise(_) => 0
  }

  /** The tallies as a dict: every key distinct, no tone above its mentions, and only the filtered brand. */
  predicate TallyShape(t: seq<BrandTally>, filter: Option<string>) {
    DistinctNames(t) && ToneBounded(t) && (Filtering(filter) ==> Names(t) <= {filter.value})
  }

  /** Counting one record's brands keeps the tallies in shape. */
  lemma {:induction false} TallyBrandsShape(t: seq<BrandTally>, item: Dict, bs: seq<string>, n: nat, filter: Option<string>)
    requires n <= |bs| && TallyBrands(t, item, bs, n).Ok? && TallyShape(t, filter)
    requires Filtering(filter) ==> forall i :: 0 <= i < |bs| ==> bs[i] == filter.value
    ensures TallyShape(TallyBrands(t, item, bs, n).value, filter)
  {
    if n > 0 {
      TallyBrandsShape(t, item, bs, n - 1, filter);
      var u := TallyBrands(t, item, bs, n - 1).value;
      var f := SentimentOf(item, bs[n - 1]).value;
      MentionShape(u, bs[n - 1], f);
      MentionNames(u, bs[n - 1], f);
    }
  }

  /** Counting one record's brands adds one mention per occurrence. */
  lemma {:induction false} TallyBrandsCounts(t: seq<BrandTally>, item: Dict, bs: seq<string>, n: nat)
    requires n <= |bs| && TallyBrands(t, item, bs, n).Ok?
    ensures forall b :: MentionsOf(TallyBrands(t, item, bs, n).value, b) == MentionsOf(t, b) + multiset(bs[..n])[b]
  {
    if n > 0 {
      TallyBrandsCounts(t, item, bs, n - 1);
      var u := TallyBrands(t, item, bs, n - 1).value;
      var f := SentimentOf(item, bs[n - 1]).value;
      var v := Mention(u, bs[n - 1], f);
      MentionRows(u, bs[n - 1], f);
      assert bs[..n] == bs[..n - 1] + [bs[n - 1]];
      forall b ensures MentionsOf(v, b) == MentionsOf(t, b) + multiset(bs[..n])[b] {
        assert MentionsOf(v, b) == MentionsOf(u, b) + if b == bs[n - 1] then 1 else 0;
      }
    } else {
      assert bs[..0] == [];
    }
  }

  /** Counting one record's brands adds those brands to the keys. */
  lemma {:induction false} TallyBrandsNames(t: seq<BrandTally>, item: Dict, bs: seq<string>, n: nat)
    requires n <= |bs| && TallyBrands(t, item, bs, n).Ok?
    ensures Names(TallyBrands(t, item, bs, n).value) == Names(t) + set i | 0 <= i < n :: bs[i]
  {
    if n > 0 {
      TallyBrandsNames(t, item, bs, n - 1);
      var u := TallyBrands(t, item, bs, n - 1).value;
      var f := SentimentOf(item, bs[n - 1]).value;
      MentionNames(u, bs[n - 1], f);
      assert (set i | 0 <= i < n :: bs[i]) == (set i | 0 <= i < n - 1 :: bs[i]) + {bs[n - 1]};
    }
  }

  lemma {:induction false} MentionedFiltered(item: Dict, filter: Option<string>)
    requires MentionedBrands(item, filter).Ok? && Filtering(filter)
    ensures forall i :: 0 <= i < |MentionedBrands(item, filter).value| ==> MentionedBrands(item, filter).value[i] == filter.value
  {
  }

  /**
   * When the counting goes through: every brand's mentions are the number
   * of times the records name it; the keys are distinct, are exactly the
   * brands named, and with a brand filter only that brand; and no brand
   * has more counted sentiments than mentions.
   */
  lemma {:induction false} TalliesFacts(items: seq<Dict>, n: nat, filter: Option<string>)
    requires n <= |items| && Tallies(items, n, filter).Ok?
    ensures TallyShape(Tallies(items, n, filter).value, filter)
    ensures forall b :: MentionsOf(Tallies(items, n, filter).value, b) == Occurrences(items, n, filter, b)
    ensures forall b :: b in Names(Tallies(items, n, filter).value) <==> Occurrences(items, n, filter, b) > 0
  {
    if n == 0 {
      assert Names([]) == {};
    } else {
      var m := n - 1;
      TalliesFacts(items, m, filter);
      var t := Tallies(items, m, filter).value;
      var u := Tallies(items, n, filter).value;
      assert TallyItem(t, items[m], filter) == Ok(u);
      TallyItemFacts(t, items[m], filter, u);
      assert forall b :: Occurrences(items, n, filter, b) == Occurrences(items, m, filter, b) + ItemCount(items[m], filter, b);
    }
  }

  /** Counting one record keeps the tallies in shape and adds its brands to them. */
  lemma {:induction false} TallyItemFacts(t: seq<BrandTally>, item: Dict, filter: Option<string>, u: seq<BrandTally>)
    requires TallyShape(t, filter) && TallyItem(t, item, filter) == Ok(u)
    ensures TallyShape(u, filter)
    ensures forall b :: MentionsOf(u, b) == MentionsOf(t, b) + ItemCount(item, filter, b)
    ensures forall b :: b in Names(u) <==> b in Names(t) || ItemCount(item, filter, b) > 0
  {
    var bs := MentionedBrands(item, filter).value;
    if Filtering(filter) {
      MentionedFiltered(item, filter);
    }
    TallyBrandsShape(t, item, bs, |bs|, filter);
    TallyBrandsCounts(t, item, bs, |bs|);
    TallyBrandsNames(t, item, bs, |bs|);
    assert bs[..|bs|] == bs;
    forall b ensures b in Names(u) <==> b in Names(t) || ItemCount(item, filter, b) > 0 {
      assert b in (set i | 0 <= i < |bs| :: bs[i]) <==> b in multiset(bs);
    }
  }

  /** `{"positive": 0, "neutral": 100, "negative": 0}`, or `calculate_percentages` of the counts. */
  datatype Spread = AllNeutral | Percentages(counts: Tone)

  datatype SentimentRow = SentimentRow(brand: string, mentions: nat, sentiments: Spread)

  function SpreadOf(t: Tone): Spread {
    if ToneSum(t) == 0 then AllNeutral else Percentages(t)
  }

  function RowOf(x: BrandTally): SentimentRow {
    SentimentRow(x.brand, x.mentions, SpreadOf(x.tone))
  }

  /** `x[1]` (the mentions) as a sort key. */
  function TallyKey(x: BrandTally): Result<Key> {
    Ok(IntKey(x.mentions))
  }

  function KeyedTallies(t: seq<BrandTally>): (r: seq<(BrandTally, Key)>)
    ensures |r| == |t| && forall i :: 0 <= i < |r| ==> r[i] == (t[i], IntKey(t[i].mentions))
  {
    seq(|t|, i requires 0 <= i < |t| => (t[i], IntKey(t[i].mentions)))
  }

  /** `sorted(brand_mentions.items(), key=mentions, reverse=True)` */
  function SortedTallies(t: seq<BrandTally>): seq<BrandTally> {
    Firsts(SortDesc(KeyedTallies(t)))
  }

  function Rows(sorted: seq<BrandTally>): (r: seq<SentimentRow>)
    ensures |r| == |sorted| && forall i :: 0 <= i < |r| ==> r[i] == RowOf(sorted[i])
  {
    seq(|sorted|, i requires 0 <= i < |sorted| => RowOf(sorted[i]))
  }

  datatype TaggedQuote = TaggedQuote(quote: Quote, sentiment: string)

  /** `quote["sentiment"] = mark` for each quote, in order. */
  function Tagged(qs: seq<Quote>, mark: string): (r: seq<TaggedQuote>)
    ensures |r| == |qs| && forall i :: 0 <= i < |r| ==> r[i] == TaggedQuote(qs[i], mark)
  {
    seq(|qs|, i requires 0 <= i < |qs| => TaggedQuote(qs[i], mark))
  }

  const QuoteTotalLimit := 10
  const Untagged := "未标记"
  const PositiveTag := "正面"
  const NegativeTag := "负面"
  const NeutralTag := "中性"

  /** Too few quotes carry a sentiment word: positives below 2, negatives below 2 and no neutral one. */
  predicate FewTagged(pos: seq<Quote>, neg: seq<Quote>, neu: seq<Quote>) {
    |pos| < 2 && |neg| < 2 && |neu| < 1
  }

  /**
   * The `user_quotes` of `analyze_brand_sentiment` from the positive,
   * negative and neutral selections and the general one; the general
   * selection is consulted only when too few quotes carry a sentiment word.
   */
  function Combine(pos: Result<seq<Quote>>, neg: Result<seq<Quote>>, neu: Result<seq<Quote>>,
                   general: Result<seq<Quote>>): Result<seq<TaggedQuote>> {
    match pos
    case Raise(e) => Raise(e)
    case Ok(p) =>
      match neg
      case Raise(e) => Raise(e)
      case Ok(n) =>
        match neu
        case Raise(e) => Raise(e)
        case Ok(u) =>
          if FewTagged(p, n, u) then
            match general
            case Raise(e) => Raise(e)
            case Ok(g) => Ok(Take(Tagged(g, Untagged), QuoteTotalLimit))
          else
            Ok(Take(Tagged(p, PositiveTag) + Tagged(n, NegativeTag) + Tagged(u, NeutralTag), QuoteTotalLimit))
  }

  /** The four quote selections of `analyze_brand_sentiment`. */
  function SentimentQuotes(items: seq<Dict>, filter: Option<string>): Result<seq<TaggedQuote>> {
    Combine(UserQuotes(items, Filters(QuoteMinLength, filter, Some("positive")), 6),
            UserQuotes(items, Filters(QuoteMinLength, filter, Some("negative")), 6),
            UserQuotes(items, Filters(QuoteMinLength, filter, Some("neutral")), 3),
            UserQuotes(items, Filters(QuoteMinLength, filter, None), QuoteTotalLimit))
  }

  datatype SentimentResult =
    | SentimentError(error: string)
    | SentimentReport(brands: seq<SentimentRow>, quotes: seq<TaggedQuote>)

  const NoData := "没有找到数据"
  const NoBrands := "没有找到品牌数据"

  /** The result from the emptiness of the data, the tallies and the quotes, each consulted in that order. */
  function Report(empty: bool, tallies: Result<seq<BrandTally>>, quotes: Result<seq<TaggedQuote>>): Result<SentimentResult> {
    if empty then Ok(SentimentError(NoData))
    else
      match tallies
      case Raise(e) => Raise(e)
      case Ok(t) =>
        if t == [] then Ok(SentimentError(NoBrands))
        else
          match quotes
          case Raise(e) => Raise(e)
          case Ok(qs) => Ok(SentimentReport(Rows(SortedTallies(t)), qs))
  }

  /** `BrandAnalyzer.analyze_brand_sentiment(data, brand_filter)` for given data. */
  function BrandSentiment(items: seq<Dict>, filter: Option<string>): Result<SentimentResult> {
    Report(items == [], Tallies(items, |items|, filter), SentimentQuotes(items, filter))
  }

  lemma {:induction false} KeyedTalliesAll(t: seq<BrandTally>)
    ensures KeyAll(TallyKey, t) == Ok(KeyedTallies(t))
  {
    assert KeyAll(TallyKey, t).value == KeyedTallies(t);
  }

  /** The sort permutes the tallies and leaves them by mentions, largest first. */
  lemma {:induction false} SortedTalliesFacts(t: seq<BrandTally>)
    ensures multiset(SortedTallies(t)) == multiset(t)
    ensures forall i, j :: 0 <= i < j < |SortedTallies(t)| ==> SortedTallies(t)[i].mentions >= SortedTallies(t)[j].mentions
  {
    var all := SortedTallies(t);
    KeyedTalliesAll(t);
    SortedBy(TallyKey, t, KeyedTallies(t), all);
    forall i, j | 0 <= i < j < |all| ensures all[i].mentions >= all[j].mentions {
      assert AtLeast(TallyKey(all[i]).value, TallyKey(all[j]).value);
    }
  }

  /** A bounded tone is all neutral exactly when no sentiment was counted. */
  lemma {:induction false} SpreadFacts(x: BrandTally)
    requires ToneSum(x.tone) <= x.mentions
    ensures RowOf(x).sentiments == AllNeutral <==> ToneSum(x.tone) == 0
    ensures RowOf(x).sentiments.Percentages? ==> ToneSum(RowOf(x).sentiments.counts) <= RowOf(x).mentions
  {
  }

  /** No data and no brand are reported as the source reports them, whatever the quotes. */
  lemma {:induction false} SentimentErrors(items: seq<Dict>, filter: Option<string>, quotes: Result<seq<TaggedQuote>>)
    ensures Report(items == [], Tallies(items, |items|, filter), quotes) == Ok(SentimentError(NoData)) <==> items == []
    ensures items != [] && Tallies(items, |items|, filter).Ok? ==>
      (Report(items == [], Tallies(items, |items|, filter), quotes) == Ok(SentimentError(NoBrands)) <==>
       forall b :: Occurrences(items, |items|, filter, b) == 0)
  {
    var tr := Tallies(items, |items|, filter);
    if items != [] && tr.Ok? {
      assert Report(items == [], tr, quotes) == Report(false, Ok(tr.value), quotes);
      TalliesFacts(items, |items|, filter);
      NoBrandsIff(items, filter, tr.value, quotes);
    }
  }

  /** A tally reports no brand exactly when no brand was counted. */
  lemma {:induction false} NoBrandsIff(items: seq<Dict>, filter: Option<string>, t: seq<BrandTally>, quotes: Result<seq<TaggedQuote>>)
    requires forall b :: b in Names(t) <==> Occurrences(items, |items|, filter, b) > 0
    ensures Report(false, Ok(t), quotes) == Ok(SentimentError(NoBrands)) <==>
      forall b :: Occurrences(items, |items|, filter, b) == 0
  {
    if t != [] {
      assert t[0].brand in Names(t);
      assert Occurrences(items, |items|, filter, t[0].brand) > 0;
    } else {
      forall b ensures Occurrences(items, |items|, filter, b) == 0 {
        assert b !in Names(t);
      }
    }
  }

  /**
   * The brand rows of `analyze_brand_sentiment`: one per brand named, by
   * mentions, largest first, each with the number of times the records
   * name it and an even neutral spread exactly when none of its sentiments
   * counted; with a brand filter, only that brand.
   */
  lemma {:induction false} SentimentRowsFacts(items: seq<Dict>, filter: Option<string>, quotes: Result<seq<TaggedQuote>>,
                           rows: seq<SentimentRow>, qs: seq<TaggedQuote>)
    requires Report(items == [], Tallies(items, |items|, filter), quotes) == Ok(SentimentReport(rows, qs))
    ensures forall i, j :: 0 <= i < j < |rows| ==> rows[i].brand != rows[j].brand && rows[i].mentions >= rows[j].mentions
    ensures forall i :: 0 <= i < |rows| ==> rows[i].mentions == Occurrences(items, |items|, filter, rows[i].brand)
    ensures forall i :: 0 <= i < |rows| ==>
      (rows[i].sentiments == AllNeutral <==> ToneOf(Tallies(items, |items|, filter).value, rows[i].brand) == NoTone)
    ensures forall b :: (exists i :: 0 <= i < |rows| && rows[i].brand == b) <==> Occurrences(items, |items|, filter, b) > 0
    ensures Filtering(filter) ==> forall i :: 0 <= i < |rows| ==> rows[i].brand == filter.value
  {
    var tr := Tallies(items, |items|, filter);
    assert items != [] && tr.Ok? && tr.value != [];
    var t := tr.value;
    assert rows == Rows(SortedTallies(t));
    TalliesFacts(items, |items|, filter);
    RowsOfTallies(t, filter, rows);
    RowsOfCounts(t, rows, b => Occurrences(items, |items|, filter, b));
  }

  /** Row facts restated for any count that agrees with the tally. */
  lemma {:induction false} RowsOfCounts(t: seq<BrandTally>, rows: seq<SentimentRow>, occ: string -> nat)
    requires forall b :: MentionsOf(t, b) == occ(b)
    requires forall b :: b in Names(t) <==> occ(b) > 0
    requires forall i :: 0 <= i < |rows| ==> rows[i].mentions == MentionsOf(t, rows[i].brand)
    requires forall b :: (exists i :: 0 <= i < |rows| && rows[i].brand == b) <==> b in Names(t)
    ensures forall i :: 0 <= i < |rows| ==> rows[i].mentions == occ(rows[i].brand)
    ensures forall b :: (exists i :: 0 <= i < |rows| && rows[i].brand == b) <==> occ(b) > 0
  {
  }

  /** The rows of a tally in shape, as a dict read in mention order. */
  lemma {:induction false} RowsOfTallies(t: seq<BrandTally>, filter: Option<string>, rows: seq<SentimentRow>)
    requires TallyShape(t, filter) && rows == Rows(SortedTallies(t))
    ensures forall i, j :: 0 <= i < j < |rows| ==> rows[i].brand != rows[j].brand && rows[i].mentions >= rows[j].mentions
    ensures forall i :: 0 <= i < |rows| ==> rows[i].mentions == MentionsOf(t, rows[i].brand)
    ensures forall i :: 0 <= i < |rows| ==> (rows[i].sentiments == AllNeutral <==> ToneOf(t, rows[i].brand) == NoTone)
    ensures forall b :: (exists i :: 0 <= i < |rows| && rows[i].brand == b) <==> b in Names(t)
    ensures Filtering(filter) ==> forall i :: 0 <= i < |rows| ==> rows[i].brand == filter.value
  {
    var sorted := SortedTallies(t);
    SortedTalliesFacts(t);
    RowsFacts(t, sorted);
    RowsNames(t, sorted, rows);
  }

  lemma {:induction false} RowsNames(t: seq<BrandTally>, sorted: seq<BrandTally>, rows: seq<SentimentRow>)
    requires multiset(sorted) == multiset(t) && rows == Rows(sorted)
    ensures forall i :: 0 <= i < |rows| ==> rows[i].brand in Names(t)
    ensures forall b :: (exists i :: 0 <= i < |rows| && rows[i].brand == b) <==> b in Names(t)
  {
    forall i | 0 <= i < |rows| ensures rows[i].brand in Names(t) {
      assert sorted[i] in multiset(t);
    }
    forall b | b in Names(t) ensures exists i :: 0 <= i < |rows| && rows[i].brand == b {
      var k :| 0 <= k < |t| && t[k].brand == b;
      assert t[k] in multiset(sorted);
      var i :| 0 <= i < |sorted| && sorted[i] == t[k];
      assert rows[i].brand == b;
    }
  }

  /** Each row comes from one tally of a dict in shape, and holds that brand's row. */
  lemma {:induction false} RowsFacts(t: seq<BrandTally>, sorted: seq<BrandTally>)
    requires DistinctNames(t) && ToneBounded(t) && multiset(sorted) == multiset(t)
    ensures forall i :: 0 <= i < |sorted| ==> RowFor(t, sorted[i].brand) == Some(sorted[i])
    ensures forall i, j :: 0 <= i < j < |sorted| ==> sorted[i].brand != sorted[j].brand
    ensures forall i :: 0 <= i < |sorted| ==> (SpreadOf(sorted[i].tone) == AllNeutral <==> sorted[i].tone == NoTone)
  {
    forall i | 0 <= i < |sorted| ensures RowFor(t, sorted[i].brand) == Some(sorted[i]) && ToneSum(sorted[i].tone) <= sorted[i].mentions {
      assert sorted[i] in multiset(t);
      var k :| 0 <= k < |t| && t[k] == sorted[i];
      EntryRow(t, k);
    }
    forall i, j | 0 <= i < j < |sorted| ensures sorted[i].brand != sorted[j].brand {
      if sorted[i].brand == sorted[j].brand {
        assert RowFor(t, sorted[i].brand) == Some(sorted[i]) && RowFor(t, sorted[j].brand) == Some(sorted[j]);
        Twice(sorted, i, j);
        assert sorted[i] in multiset(t);
        var k :| 0 <= k < |t| && t[k] == sorted[i];
        OnlyOnce(t, k);
        assert false;
      }
    }
  }

  lemma {:induction false} EntryRow(t: seq<BrandTally>, k: nat)
    requires DistinctNames(t) && k < |t|
    ensures RowFor(t, t[k].brand) == Some(t[k])
    decreases |t|
  {
    if k < |t| - 1 {
      var p := t[..|t| - 1];
      assert p[k] == t[k];
      EntryRow(p, k);
    }
  }

  /**
   * The quotes of `analyze_brand_sentiment`: at most ten; all marked
   * untagged when too few carry a sentiment word, otherwise the positive
   * ones first, then the negative, then the neutral, each marked with the
   * word it was selected for.
   */
  lemma {:induction false} CombineFacts(pos: seq<Quote>, neg: seq<Quote>, neu: seq<Quote>, general: Result<seq<Quote>>, qs: seq<TaggedQuote>)
    requires Combine(Ok(pos), Ok(neg), Ok(neu), general) == Ok(qs)
    ensures |qs| <= QuoteTotalLimit
    ensures FewTagged(pos, neg, neu) ==> general.Ok? && qs == Take(Tagged(general.value, Untagged), QuoteTotalLimit)
    ensures !FewTagged(pos, neg, neu) ==>
      var all := Tagged(pos, PositiveTag) + Tagged(neg, NegativeTag) + Tagged(neu, NeutralTag);
      qs == all[..|qs|]
      && forall i :: 0 <= i < |qs| ==>
           (i < |pos| ==> qs[i] == TaggedQuote(pos[i], PositiveTag))
           && (|pos| <= i < |pos| + |neg| ==> qs[i] == TaggedQuote(neg[i - |pos|], NegativeTag))
           && (|pos| + |neg| <= i ==> qs[i] == TaggedQuote(neu[i - |pos| - |neg|], NeutralTag))
  {
    if !FewTagged(pos, neg, neu) {
      var a := Tagged(pos, PositiveTag);
      var b := Tagged(neg, NegativeTag);
      var c := Tagged(neu, NeutralTag);
      forall i | 0 <= i < |qs|
        ensures (i < |pos| ==> qs[i] == TaggedQuote(pos[i], PositiveTag))
          && (|pos| <= i < |pos| + |neg| ==> qs[i] == TaggedQuote(neg[i - |pos|], NegativeTag))
          && (|pos| + |neg| <= i ==> qs[i] == TaggedQuote(neu[i - |pos| - |neg|], NeutralTag))
      {
        assert qs[i] == (a + b + c)[i];
      }
    }
  }

  lemma {:induction false} TalliesStop(items: seq<Dict>, k: nat, filter: Option<string>)
    requires k <= |items| && Tallies(items, k, filter).Raise?
    ensures Tallies(items, |items|, filter) == Tallies(items, k, filter)
    decreases |items| - k
  {
    if k < |items| {
      TalliesStop(items, k + 1, filter);
    }
  }

  lemma {:induction false} TallyBrandsStop(t: seq<BrandTally>, item: Dict, bs: seq<string>, k: nat)
    requires k <= |bs| && TallyBrands(t, item, bs, k).Raise?
    ensures TallyBrands(t, item, bs, |bs|) == TallyBrands(t, item, bs, k)
    decreases |bs| - k
  {
    if k < |bs| {
      TallyBrandsStop(t, item, bs, k + 1);
    }
  }

  /** The brand loop of one record of `analyze_brand_sentiment`. */
  method TallyRecord(t: seq<BrandTally>, item: Dict, filter: Option<string>) returns (r: Result<seq<BrandTally>>)
    ensures r == TallyItem(t, item, filter)
  {
    var brands := MentionedBrands(item, filter);
    if brands.Raise? {
      return Raise(brands.exc);
    }
    var bs := brands.value;
    var table := t;
    for j := 0 to |bs|
      invariant TallyBrands(t, item, bs, j) == Ok(table)
    {
      var feeling := SentimentOf(item, bs[j]);
      if feeling.Raise? {
        TallyBrandsStop(t, item, bs, j + 1);
        return Raise(feeling.exc);
      }
      table := Mention(table, bs[j], feeling.value);
    }
    r := Ok(table);
  }

  /** `for quote in qs: quote["sentiment"] = mark; all_quotes.append(quote)` */
  method AppendTagged(acc: seq<TaggedQuote>, qs: seq<Quote>, mark: string) returns (r: seq<TaggedQuote>)
    ensures r == acc + Tagged(qs, mark)
  {
    r := acc;
    for i := 0 to |qs|
      invariant r == acc + Tagged(qs[..i], mark)
    {
      assert Tagged(qs[..i + 1], mark) == Tagged(qs[..i], mark) + [TaggedQuote(qs[i], mark)];
      r := r + [TaggedQuote(qs[i], mark)];
    }
    assert qs[..|qs|] == qs;
  }

  /** The quotes tagged with their sentiment word, when enough were found. */
  method TagSentiments(p: seq<Quote>, n: seq<Quote>, u: seq<Quote>) returns (r: seq<TaggedQuote>)
    ensures r == Take(Tagged(p, PositiveTag) + Tagged(n, NegativeTag) + Tagged(u, NeutralTag), QuoteTotalLimit)
  {
    var all := AppendTagged([], p, PositiveTag);
    all := AppendTagged(all, n, NegativeTag);
    all := AppendTagged(all, u, NeutralTag);
    r := Take(all, QuoteTotalLimit);
  }

  /** The general selection, tagged as unmarked, used when too few quotes carry a sentiment word. */
  method TagGeneral(items: seq<Dict>, filter: Option<string>) returns (r: Result<seq<TaggedQuote>>)
    ensures r.Raise? <==> UserQuotes(items, Filters(QuoteMinLength, filter, None), QuoteTotalLimit).Raise?
    ensures r.Raise? ==> r.exc == UserQuotes(items, Filters(QuoteMinLength, filter, None), QuoteTotalLimit).exc
    ensures r.Ok? ==> r.value == Take(Tagged(UserQuotes(items, Filters(QuoteMinLength, filter, None), QuoteTotalLimit).value, Untagged), QuoteTotalLimit)
  {
    var general := ExtractUserQuotes(items, QuoteMinLength, QuoteTotalLimit, filter, None);
    if general.Raise? {
      return Raise(general.exc);
    }
    var all := AppendTagged([], general.value, Untagged);
    r := Ok(Take(all, QuoteTotalLimit));
  }

  /**
   * The tagging half of `analyze_brand_sentiment`'s quote selection: given the three
   * sentiment selections, consult the general one only when too few quotes were found.
   */
  method CombineQuotes(pos: Result<seq<Quote>>, neg: Result<seq<Quote>>, neu: Result<seq<Quote>>,
                       items: seq<Dict>, filter: Option<string>) returns (r: Result<seq<TaggedQuote>>)
    ensures r == Combine(pos, neg, neu, UserQuotes(items, Filters(QuoteMinLength, filter, None), QuoteTotalLimit))
  {
    if pos.Raise? {
      return Raise(pos.exc);
    }
    if neg.Raise? {
      return Raise(neg.exc);
    }
    if neu.Raise? {
      return Raise(neu.exc);
    }
    if FewTagged(pos.value, neg.value, neu.value) {
      r := TagGeneral(items, filter);
    } else {
      var tagged := TagSentiments(pos.value, neg.value, neu.value);
      r := Ok(tagged);
    }
  }

  /** The four quote selections of `analyze_brand_sentiment` and their tagging. */
  method PickSentimentQuotes(items: seq<Dict>, filter: Option<string>) returns (r: Result<seq<TaggedQuote>>)
    ensures r == SentimentQuotes(items, filter)
  {
    var pos := ExtractUserQuotes(items, QuoteMinLength, 6, filter, Some("positive"));
    var neg := ExtractUserQuotes(items, QuoteMinLength, 6, filter, Some("negative"));
    var neu := ExtractUserQuotes(items, QuoteMinLength, 3, filter, Some("neutral"));
    r := CombineQuotes(pos, neg, neu, items, filter);
  }

  /** The result loop: one row per brand in mention order. */
  method BuildRows(sorted: seq<BrandTally>) returns (rows: seq<SentimentRow>)
    ensures rows == Rows(sorted)
  {
    rows := [];
    for i := 0 to |sorted|
      invariant rows == Rows(sorted[..i])
    {
      var x := sorted[i];
      var spread := if ToneSum(x.tone) == 0 then AllNeutral else Percentages(x.tone);
      rows := rows + [SentimentRow(x.brand, x.mentions, spread)];
    }
    assert sorted[..|sorted|] == sorted;
  }

  /** `BrandAnalyzer.analyze_brand_sentiment(data, brand_filter)` for given data. */
  method AnalyzeBrandSentiment(items: seq<Dict>, filter: Option<string>) returns (r: Result<SentimentResult>)
    ensures r == BrandSentiment(items, filter)
  {
    if items == [] {
      return Ok(SentimentError(NoData));
    }
    var t: seq<BrandTally> := [];
    for i := 0 to |items|
      invariant Tallies(items, i, filter) == Ok(t)
    {
      var step := TallyRecord(t, items[i], filter);
      if step.Raise? {
        TalliesStop(items, i + 1, filter);
        return Raise(step.exc);
      }
      t := step.value;
    }
    if t == [] {
      return Ok(SentimentError(NoBrands));
    }
    var rows := BuildRows(SortedTallies(t));
    var quotes := PickSentimentQuotes(items, filter);
    if quotes.Raise? {
      return Raise(quotes.exc);
    }
    r := Ok(SentimentReport(rows, quotes.value));
  }

  // ---------------------------------------------------- IP distribution

  const UnknownLocation := "未知"
  const TopLocationLimit := 15

  /** One counted post or comment: where it was written and its heat. */
  datatype Visit = Visit(location: string, heat: int, isComment: bool)

  /**
   * `if location and location != "未知"` on a `.get(..., "未知")` value: a
   * non-empty known string counts, a falsy value is skipped.
   */
  function LocationOf(v: Json): Result<Option<string>> {
    match v
    case JStr(s) => Ok(if s != "" && s != UnknownLocation then Some(s) else None)
    case JArr(_) => if Truthy(v) then Raise(Exc(TypeError, "unhashable type")) else Ok(None)
    case JObj(_) => if Truthy(v) then Raise(Exc(TypeError, "unhashable type")) else Ok(None)
    case _ => if Truthy(v) then Raise(Exc(OutsideModel, "location that is not a string")) else Ok(None)
  }

  /** The visit one entry of `comments_data` gives: none, or one when its location is known. */
  function CommentVisit(c: Json): Result<seq<Visit>> {
    match c
    case JObj(ms) =>
      (match LocationOf(Get(ms, "comment_location", JStr(UnknownLocation)))
       case Raise(e) => Raise(e)
       case Ok(None) => Ok([])
       case Ok(Some(l)) =>
         match ContentHeat(ms, true)
         case Raise(e) => Raise(e)
         case Ok(h) => Ok([Visit(l, h, true)]))
    case _ => Raise(Exc(AttributeError, "object has no attribute 'get'"))
  }

  /** The visits of the first `n` comments of a post's `comments_data` list. */
  function CommentVisits(cs: seq<Json>, n: nat): Result<seq<Visit>>
    requires n <= |cs|
  {
    if n == 0 then Ok([])
    else
      match CommentVisits(cs, n - 1)
      case Raise(e) => Raise(e)
      case Ok(prior) =>
        match CommentVisit(cs[n - 1])
        case Raise(e) => Raise(e)
        case Ok(more) => Ok(prior + more)
  }

  /** The poster's visit, if the post has a known location. */
  function PostVisit(item: Dict): Result<seq<Visit>> {
    match LocationOf(Get(item, "location", JStr(UnknownLocation)))
    case Raise(e) => Raise(e)
    case Ok(None) => Ok([])
    case Ok(Some(l)) =>
      match ContentHeat(item, false)
      case Raise(e) => Raise(e)
      case Ok(h) => Ok([Visit(l, h, false)])
  }

  /** The visits one record gives: the poster's, then its comments' when `comments_data` is a list. */
  function ItemVisits(item: Dict): Result<seq<Visit>> {
    match PostVisit(item)
    case Raise(e) => Raise(e)
    case Ok(post) =>
      match Lookup(item, "comments_data")
      case Some(JArr(cs)) =>
        (match CommentVisits(cs, |cs|)
         case Raise(e) => Raise(e)
         case Ok(more) => Ok(post + more))
      case _ => Ok(post)
  }

  /** The visits of the first `n` records. */
  function Visits(items: seq<Dict>, n: nat): Result<seq<Visit>>
    requires n <= |items|
  {
    if n == 0 then Ok([])
    else
      match Visits(items, n - 1)
      case Raise(e) => Raise(e)
      case Ok(prior) =>
        match ItemVisits(items[n - 1])
        case Raise(e) => Raise(e)
        case Ok(more) => Ok(prior + more)
  }

  /** `location_heat`, `post_location_count` and `comment_location_count`. */
  datatype Tables = Tables(heat: seq<(string, int)>, posts: seq<(string, int)>, comments: seq<(string, int)>)

  const NoTables := Tables([], [], [])

  /** The three updates one visit makes. */
  function Record(t: Tables, v: Visit): Tables {
    Tables(Bump(t.heat, v.location, v.heat),
           if v.isComment then t.posts else Bump(t.posts, v.location, 1),
           if v.isComment then Bump(t.comments, v.location, 1) else t.comments)
  }

  function RecordAll(t: Tables, vs: seq<Visit>): Tables {
    if vs == [] then t else Record(RecordAll(t, vs[..|vs| - 1]), vs[|vs| - 1])
  }

  /** One row of the visualisation data. */
  datatype LocationRow = LocationRow(location: string, heat: int, posts: int, comments: int)

  function LocationRows(top: seq<(string, int)>, t: Tables): (rows: seq<LocationRow>)
    ensures |rows| == |top|
  {
    seq(|top|, i requires 0 <= i < |top| =>
      LocationRow(top[i].0, top[i].1, CountFor(t.posts, top[i].0), CountFor(t.comments, top[i].0)))
  }

  /** The result from the visits: at most 15 locations by heat; none at all is `top_locations[0]`'s `IndexError`. */
  function Distribution(visits: Result<seq<Visit>>): Result<seq<LocationRow>> {
    match visits
    case Raise(e) => Raise(e)
    case Ok(vs) =>
      var t := RecordAll(NoTables, vs);
      var top := Highest(t.heat, TopLocationLimit);
      if top == [] then Raise(Exc(IndexError, "list index out of range"))
      else Ok(LocationRows(top, t))
  }

  /** `IPAnalyzer.analyze_ip_distribution(data)`: its visualisation data. */
  function IpDistribution(items: seq<Dict>): Result<seq<LocationRow>> {
    Distribution(Visits(items, |items|))
  }

  // The reference: a location's visits of one kind, and their heats summed.

  function Where(vs: seq<Visit>, l: string, isComment: bool): seq<Visit> {
    if vs == [] then []
    else
      var v := vs[|vs| - 1];
      Where(vs[..|vs| - 1], l, isComment) + (if v.location == l && v.isComment == isComment then [v] else [])
  }

  function HeatSum(vs: seq<Visit>): int {
    if vs == [] then 0 else HeatSum(vs[..|vs| - 1]) + vs[|vs| - 1].heat
  }

  function LocationsOf(vs: seq<Visit>): set<string> {
    set i | 0 <= i < |vs| :: vs[i].location
  }

  /** A location's heat by the reference: its posts' heat plus its comments' heat. */
  function TotalHeat(vs: seq<Visit>, l: string): int {
    HeatSum(Where(vs, l, false)) + HeatSum(Where(vs, l, true))
  }

  predicate Known(vs: seq<Visit>) {
    forall i :: 0 <= i < |vs| ==> vs[i].location != "" && vs[i].location != UnknownLocation
  }

  lemma {:induction false} HeatSumSnoc(vs: seq<Visit>, v: Visit)
    ensures HeatSum(vs + [v]) == HeatSum(vs) + v.heat
  {
    assert (vs + [v])[..|vs|] == vs;
  }

  lemma {:induction false} LocationsSnoc(vs: seq<Visit>, v: Visit)
    ensures LocationsOf(vs + [v]) == LocationsOf(vs) + {v.location}
  {
    var q := vs + [v];
    assert forall i :: 0 <= i < |vs| ==> q[i] == vs[i];
    assert q[|vs|] == v;
  }

  lemma {:induction false} WhereSnoc(vs: seq<Visit>, v: Visit, l: string, isComment: bool)
    ensures Where(vs + [v], l, isComment) ==
      Where(vs, l, isComment) + (if v.location == l && v.isComment == isComment then [v] else [])
  {
    assert (vs + [v])[..|vs|] == vs;
  }

  lemma {:induction false} TotalHeatSnoc(vs: seq<Visit>, v: Visit, l: string)
    ensures TotalHeat(vs + [v], l) == TotalHeat(vs, l) + (if v.location == l then v.heat else 0)
  {
    var q := vs + [v];
    WhereSnoc(vs, v, l, false);
    WhereSnoc(vs, v, l, true);
    if v.location == l {
      HeatSumSnoc(Where(vs, l, v.isComment), v);
      assert Where(q, l, v.isComment) == Where(vs, l, v.isComment) + [v];
      assert Where(q, l, !v.isComment) == Where(vs, l, !v.isComment);
    } else {
      assert Where(q, l, false) == Where(vs, l, false);
      assert Where(q, l, true) == Where(vs, l, true);
    }
  }

  lemma {:induction false} OneVisit(t: Tables, v: Visit)
    ensures RecordAll(t, [v]) == Record(t, v)
  {
    assert [v][..0] == [];
  }

  lemma {:induction false} RecordAllAppend(t: Tables, a: seq<Visit>, b: seq<Visit>)
    ensures RecordAll(t, a + b) == RecordAll(RecordAll(t, a), b)
    decreases |b|
  {
    if b == [] {
      assert a + b == a;
    } else {
      RecordAllAppend(t, a, b[..|b| - 1]);
      assert (a + b)[..|a + b| - 1] == a + b[..|b| - 1];
    }
  }

  /**
   * The heat table has each visited location once, exactly the visited
   * locations, and each with the heat of its posts plus that of its comments.
   */
  lemma {:induction false} RecordAllHeat(vs: seq<Visit>)
    ensures var t := RecordAll(NoTables, vs);
      DistinctBrands(t.heat) && Brands(t.heat) == LocationsOf(vs)
      && forall l :: CountFor(t.heat, l) == TotalHeat(vs, l)
  {
    if vs == [] {
      assert Brands([]) == {};
    } else {
      var p := vs[..|vs| - 1];
      var v := vs[|vs| - 1];
      assert vs == p + [v];
      RecordAllHeat(p);
      var before := RecordAll(NoTables, p).heat;
      var after := RecordAll(NoTables, vs).heat;
      assert after == Bump(before, v.location, v.heat);
      BumpFacts(before, v.location, v.heat);
      BumpDistinct(before, v.location, v.heat);
      LocationsSnoc(p, v);
      forall l ensures CountFor(after, l) == TotalHeat(vs, l) {
        TotalHeatSnoc(p, v, l);
      }
    }
  }

  /** Posts and comments are counted apart: a location's count of each is its number of visits of that kind. */
  lemma {:induction false} RecordAllCounts(vs: seq<Visit>)
    ensures var t := RecordAll(NoTables, vs);
      forall l :: CountFor(t.posts, l) == |Where(vs, l, false)| && CountFor(t.comments, l) == |Where(vs, l, true)|
  {
    if vs != [] {
      var p := vs[..|vs| - 1];
      var v := vs[|vs| - 1];
      assert vs == p + [v];
      RecordAllCounts(p);
      var before := RecordAll(NoTables, p);
      BumpFacts(before.posts, v.location, 1);
      BumpFacts(before.comments, v.location, 1);
      forall l ensures CountFor(RecordAll(NoTables, vs).posts, l) == |Where(vs, l, false)|
        && CountFor(RecordAll(NoTables, vs).comments, l) == |Where(vs, l, true)|
      {
        WhereSnoc(p, v, l, false);
        WhereSnoc(p, v, l, true);
      }
    }
  }

  /** No location qualifies exactly when there is no visit: that is the `IndexError`. */
  lemma {:induction false} DistributionEmpty(vs: seq<Visit>)
    ensures Distribution(Ok(vs)).Raise? <==> vs == []
    ensures Distribution(Ok(vs)).Raise? ==> Distribution(Ok(vs)).exc.kind == IndexError
  {
    var t := RecordAll(NoTables, vs);
    RecordAllHeat(vs);
    var rest := HighestSplit(t.heat, TopLocationLimit);
    if vs != [] {
      assert vs[0].location in LocationsOf(vs);
      assert t.heat != [];
    }
  }

  /**
   * At most 15 locations, by heat descending, each once; each with the heat
   * of its posts plus its comments and the two counts kept apart.
   */
  lemma {:induction false} DistributionOrder(vs: seq<Visit>, rows: seq<LocationRow>)
    requires Distribution(Ok(vs)) == Ok(rows)
    ensures 0 < |rows| <= TopLocationLimit
    ensures forall i, j :: 0 <= i < j < |rows| ==> rows[i].heat >= rows[j].heat
    ensures forall i, j :: 0 <= i < j < |rows| ==> rows[i].location != rows[j].location
  {
    var t := RecordAll(NoTables, vs);
    var top := Highest(t.heat, TopLocationLimit);
    HighestOrder(t.heat, TopLocationLimit);
    var rest := HighestSplit(t.heat, TopLocationLimit);
    RecordAllHeat(vs);
    DistinctSubset(t.heat, top);
    RowsKeepOrder(top, t);
  }

  lemma {:induction false} RowsKeepOrder(top: seq<(string, int)>, t: Tables)
    requires DistinctBrands(top) && forall i, j :: 0 <= i < j < |top| ==> top[i].1 >= top[j].1
    ensures var rows := LocationRows(top, t);
      (forall i, j :: 0 <= i < j < |rows| ==> rows[i].heat >= rows[j].heat)
      && (forall i, j :: 0 <= i < j < |rows| ==> rows[i].location != rows[j].location)
  {
    var rows := LocationRows(top, t);
    assert forall i :: 0 <= i < |rows| ==> rows[i].location == top[i].0 && rows[i].heat == top[i].1;
  }

  lemma {:induction false} DistributionRows(vs: seq<Visit>, rows: seq<LocationRow>)
    requires Distribution(Ok(vs)) == Ok(rows)
    ensures forall i :: 0 <= i < |rows| ==>
      var l := rows[i].location;
      l in LocationsOf(vs) && rows[i].heat == TotalHeat(vs, l)
      && rows[i].posts == |Where(vs, l, false)| && rows[i].comments == |Where(vs, l, true)|
  {
    RecordAllCounts(vs);
    forall i | 0 <= i < |rows|
      ensures rows[i].location in LocationsOf(vs) && rows[i].heat == TotalHeat(vs, rows[i].location)
    {
      TopEntry(vs, RecordAll(NoTables, vs).heat, i);
    }
  }

  /** An entry among the hottest is a visited location with its full heat. */
  lemma {:induction false} TopEntry(vs: seq<Visit>, heat: seq<(string, int)>, i: nat)
    requires heat == RecordAll(NoTables, vs).heat && i < |Highest(heat, TopLocationLimit)|
    ensures var e := Highest(heat, TopLocationLimit)[i];
      e.0 in LocationsOf(vs) && e.1 == TotalHeat(vs, e.0)
  {
    var top := Highest(heat, TopLocationLimit);
    var rest := HighestSplit(heat, TopLocationLimit);
    RecordAllHeat(vs);
    assert top[i] in multiset(heat);
    var k :| 0 <= k < |heat| && heat[k] == top[i];
    EntryCount(heat, k);
    assert heat[k].0 in Brands(heat);
  }

  /**
   * A visited location left out of the rows has no more heat than the last
   * row, and is left out only when all 15 places are taken.
   */
  lemma {:induction false} DistributionCut(vs: seq<Visit>, rows: seq<LocationRow>)
    requires Distribution(Ok(vs)) == Ok(rows)
    ensures forall l :: l in LocationsOf(vs) && (forall i :: 0 <= i < |rows| ==> rows[i].location != l) ==>
      |rows| == TopLocationLimit && TotalHeat(vs, l) <= rows[|rows| - 1].heat
  {
    var heat := RecordAll(NoTables, vs).heat;
    var top := Highest(heat, TopLocationLimit);
    assert forall i :: 0 <= i < |rows| ==> rows[i].location == top[i].0 && rows[i].heat == top[i].1;
    forall l | l in LocationsOf(vs) && (forall i :: 0 <= i < |rows| ==> rows[i].location != l)
      ensures |rows| == TopLocationLimit && TotalHeat(vs, l) <= rows[|rows| - 1].heat
    {
      CutEntry(vs, heat, l);
    }
  }

  lemma {:induction false} CutEntry(vs: seq<Visit>, heat: seq<(string, int)>, l: string)
    requires heat == RecordAll(NoTables, vs).heat && l in LocationsOf(vs)
    requires var top := Highest(heat, TopLocationLimit); forall i :: 0 <= i < |top| ==> top[i].0 != l
    ensures var top := Highest(heat, TopLocationLimit);
      |top| == TopLocationLimit && TotalHeat(vs, l) <= top[|top| - 1].1
  {
    var top := Highest(heat, TopLocationLimit);
    var rest := HighestSplit(heat, TopLocationLimit);
    RecordAllHeat(vs);
    assert l in Brands(heat);
    var k :| 0 <= k < |heat| && heat[k].0 == l;
    EntryCount(heat, k);
    assert heat[k] in multiset(heat);
    assert heat[k] !in top;
    assert heat[k] in multiset(rest);
    var j :| 0 <= j < |rest| && rest[j] == heat[k];
    assert top[|top| - 1].1 >= rest[j].1;
  }

  lemma {:induction false} KnownAppend(a: seq<Visit>, b: seq<Visit>)
    requires Known(a) && Known(b)
    ensures Known(a + b)
  {
    assert forall i :: 0 <= i < |a| ==> (a + b)[i] == a[i];
    assert forall i :: |a| <= i < |a + b| ==> (a + b)[i] == b[i - |a|];
  }

  lemma {:induction false} CommentVisitsKnown(cs: seq<Json>, n: nat)
    requires n <= |cs| && CommentVisits(cs, n).Ok?
    ensures Known(CommentVisits(cs, n).value)
  {
    if n > 0 {
      CommentVisitsKnown(cs, n - 1);
      var prior := CommentVisits(cs, n - 1).value;
      KnownAppend(prior, CommentVisits(cs, n).value[|prior|..]);
      assert CommentVisits(cs, n).value == prior + CommentVisits(cs, n).value[|prior|..];
    }
  }

  /** Empty and `"未知"` locations are ignored: no visit has one. */
  lemma {:induction false} VisitsKnown(items: seq<Dict>, n: nat)
    requires n <= |items| && Visits(items, n).Ok?
    ensures Known(Visits(items, n).value)
  {
    if n > 0 {
      VisitsKnown(items, n - 1);
      var item := items[n - 1];
      var post := PostVisit(item).value;
      assert Known(ItemVisits(item).value) by {
        match Lookup(item, "comments_data")
        case Some(JArr(cs)) =>
          CommentVisitsKnown(cs, |cs|);
          KnownAppend(post, CommentVisits(cs, |cs|).value);
        case _ =>
      }
      KnownAppend(Visits(items, n - 1).value, ItemVisits(item).value);
    }
  }

  /** The tables after the visits, or the exception that stopped them. */
  function Recorded(t: Tables, visits: Result<seq<Visit>>): Result<Tables> {
    match visits
    case Raise(e) => Raise(e)
    case Ok(vs) => Ok(RecordAll(t, vs))
  }

  lemma {:induction false} CommentVisitsStop(cs: seq<Json>, k: nat)
    requires k <= |cs| && CommentVisits(cs, k).Raise?
    ensures CommentVisits(cs, |cs|) == CommentVisits(cs, k)
    decreases |cs| - k
  {
    if k < |cs| {
      CommentVisitsStop(cs, k + 1);
    }
  }

  lemma {:induction false} VisitsStop(items: seq<Dict>, k: nat)
    requires k <= |items| && Visits(items, k).Raise?
    ensures Visits(items, |items|) == Visits(items, k)
    decreases |items| - k
  {
    if k < |items| {
      VisitsStop(items, k + 1);
    }
  }

  /** One more record after a run of the record loop that went through. */
  lemma {:induction false} VisitsAdvance(items: seq<Dict>, i: nat, vs: seq<Visit>, t: Tables, step: Result<Tables>)
    requires i < |items| && Visits(items, i) == Ok(vs) && t == RecordAll(NoTables, vs)
    requires step == Recorded(t, ItemVisits(items[i]))
    ensures step.Raise? ==> Visits(items, |items|) == Raise(step.exc)
    ensures step.Ok? ==> ItemVisits(items[i]).Ok? && Visits(items, i + 1) == Ok(vs + ItemVisits(items[i]).value)
    ensures step.Ok? ==> step.value == RecordAll(NoTables, vs + ItemVisits(items[i]).value)
  {
    var n := i + 1;
    assert n - 1 == i;
    if step.Raise? {
      assert Visits(items, n) == Raise(step.exc);
      VisitsStop(items, n);
    } else {
      RecordAllAppend(NoTables, vs, ItemVisits(items[i]).value);
    }
  }

  /** One comment of `analyze_ip_distribution`'s comment loop. */
  method VisitComment(t: Tables, c: Json) returns (r: Result<Tables>)
    ensures r == Recorded(t, CommentVisit(c))
  {
    if !c.JObj? {
      return Raise(Exc(AttributeError, "object has no attribute 'get'"));
    }
    var comment := c.members;
    var location := LocationOf(Get(comment, "comment_location", JStr(UnknownLocation)));
    if location.Raise? {
      return Raise(location.exc);
    }
    var heat, posts, comments := t.heat, t.posts, t.comments;
    if location.value.Some? {
      var l := location.value.value;
      var h := ContentHeat(comment, true);
      if h.Raise? {
        return Raise(h.exc);
      }
      heat := Bump(heat, l, h.value);
      comments := Bump(comments, l, 1);
      OneVisit(t, Visit(l, h.value, true));
    }
    r := Ok(Tables(heat, posts, comments));
  }

  /** The comment loop of `analyze_ip_distribution` over one post's `comments_data`. */
  method VisitComments(t: Tables, cs: seq<Json>) returns (r: Result<Tables>)
    ensures r == Recorded(t, CommentVisits(cs, |cs|))
  {
    var u := t;
    ghost var ws: seq<Visit> := [];
    for j := 0 to |cs|
      invariant CommentVisits(cs, j) == Ok(ws) && u == RecordAll(t, ws)
    {
      var step := VisitComment(u, cs[j]);
      if step.Raise? {
        CommentVisitsStop(cs, j + 1);
        return Raise(step.exc);
      }
      RecordAllAppend(t, ws, CommentVisit(cs[j]).value);
      ws := ws + CommentVisit(cs[j]).value;
      u := step.value;
    }
    r := Ok(u);
  }

  /** One record of `analyze_ip_distribution`: its poster, then its comments. */
  method VisitRecord(t: Tables, item: Dict) returns (r: Result<Tables>)
    ensures r == Recorded(t, ItemVisits(item))
  {
    var location := LocationOf(Get(item, "location", JStr(UnknownLocation)));
    if location.Raise? {
      return Raise(location.exc);
    }
    var heat, posts, comments := t.heat, t.posts, t.comments;
    if location.value.Some? {
      var l := location.value.value;
      var h := ContentHeat(item, false);
      if h.Raise? {
        return Raise(h.exc);
      }
      heat := Bump(heat, l, h.value);
      posts := Bump(posts, l, 1);
    }
    ghost var post := PostVisit(item).value;
    assert Tables(heat, posts, comments) == RecordAll(t, post);
    match Lookup(item, "comments_data")
    case Some(JArr(cs)) =>
      r := VisitComments(Tables(heat, posts, comments), cs);
      if r.Ok? {
        RecordAllAppend(t, post, CommentVisits(cs, |cs|).value);
      }
    case _ =>
      r := Ok(Tables(heat, posts, comments));
  }

  /** `IPAnalyzer.analyze_ip_distribution(data)`: the visualisation data it computes. */
  method AnalyzeIpDistribution(items: seq<Dict>) returns (r: Result<seq<LocationRow>>)
    ensures r == IpDistribution(items)
  {
    var t := NoTables;
    ghost var vs: seq<Visit> := [];
    for i := 0 to |items|
      invariant Visits(items, i) == Ok(vs) && t == RecordAll(NoTables, vs)
    {
      var step := VisitRecord(t, items[i]);
      VisitsAdvance(items, i, vs, t, step);
      if step.Raise? {
        return Raise(step.exc);
      }
      vs := vs + ItemVisits(items[i]).value;
      t := step.value;
    }
    var top := Highest(t.heat, TopLocationLimit);
    if top == [] {
      return Raise(Exc(IndexError, "list index out of range"));
    }
    r := Ok(LocationRows(top, t));
  }
}
