/**
 * The deterministic helpers of src/tools/analysis_tools.py: content heat,
 * heat-weighted brand counts, the zero case of the percentages, the
 * selection and ordering of user quotes, the hottest posts and the top-k
 * content digest.  Records are dicts (`Dict`); a field is read with
 * `item.get(key, default)` and so is any value at all.
 */
module AnalysisTools {
  import opened Json
  import opened Python
  import opened Codec
  import opened Sorting

  // ------------------------------------------------------------ percentages

  /** `sum(counts.values())` */
  function Total(counts: seq<(string, int)>): int {
    if counts == [] then 0 else Total(counts[..|counts| - 1]) + counts[|counts| - 1].1
  }

  /**
   * `calculate_percentages(counts)` when the total is zero: the same keys,
   * in the same order, each mapped to 0.  `None` stands for the other
   * branch, whose rounded floats are not modelled.
   */
  function ZeroPercentages(counts: seq<(string, int)>): (r: Option<seq<(string, int)>>)
    ensures r.Some? <==> Total(counts) == 0
    ensures r.Some? ==> |r.value| == |counts|
    ensures r.Some? ==> forall i :: 0 <= i < |counts| ==> r.value[i].0 == counts[i].0 && r.value[i].1 == 0
  {
    if Total(counts) == 0 then Some(seq(|counts|, i requires 0 <= i < |counts| => (counts[i].0, 0))) else None
  }

  /** With counts that cannot be negative, the zero branch is taken exactly when every count is zero. */
  lemma {:induction false} ZeroTotal(counts: seq<(string, int)>)
    requires forall i :: 0 <= i < |counts| ==> counts[i].1 >= 0
    ensures Total(counts) >= 0
    ensures Total(counts) == 0 <==> forall i :: 0 <= i < |counts| ==> counts[i].1 == 0
  {
    if counts != [] {
      var p := counts[..|counts| - 1];
      ZeroTotal(p);
      assert forall i :: 0 <= i < |p| ==> p[i] == counts[i];
    }
  }

  // ------------------------------------------------------------ content heat

  /**
   * A count as `calculate_content_heat` reads it: a str goes through
   * `int()` and counts 0 when that raises `ValueError`; a bool is an int.
   */
  function CountOf(v: Json): Result<int> {
    match v
    case JStr(s) => Ok(match ParseInt(s) case Some(i) => i case None => 0)
    case JInt(i) => Ok(i)
    case JBool(b) => Ok(if b then 1 else 0)
    case JFloat(_) => Raise(Exc(OutsideModel, "a float count"))
    case JArr(_) => Raise(Exc(OutsideModel, "a list count"))
    case _ => Raise(Exc(TypeError, "unsupported operand type(s)"))
  }

  function CountAt(item: Dict, k: string): Result<int> {
    CountOf(Get(item, k, JInt(0)))
  }

  /** The keys the heat formula reads: the first weighs 4, the others 1. */
  function HeatKeys(isComment: bool): seq<string> {
    if isComment then ["comment_reply_count", "comment_like_count"]
    else ["comment_count", "like_count", "collect_count"]
  }

  /**
   * `calculate_content_heat(item, is_comment)`: `4·comment_count +
   * like_count + collect_count` for a post, `4·comment_reply_count +
   * comment_like_count` for a comment.
   */
  function ContentHeat(item: Dict, isComment: bool): Result<int>
  {
    if isComment then
      match CountAt(item, "comment_reply_count")
      case Raise(e) => Raise(e)
      case Ok(replies) =>
        match CountAt(item, "comment_like_count")
        case Raise(e) => Raise(e)
        case Ok(likes) => Ok(4 * replies + likes)
    else
      match CountAt(item, "comment_count")
      case Raise(e) => Raise(e)
      case Ok(comments) =>
        match CountAt(item, "like_count")
        case Raise(e) => Raise(e)
        case Ok(likes) =>
          match CountAt(item, "collect_count")
          case Raise(e) => Raise(e)
          case Ok(collects) => Ok(4 * comments + likes + collects)
  }

  /** The heat is defined exactly when every count it reads is, and is the weighted sum of those counts. */
  lemma {:induction false} ContentHeatFormula(item: Dict, isComment: bool)
    ensures ContentHeat(item, isComment).Ok? <==> forall k :: k in HeatKeys(isComment) ==> CountAt(item, k).Ok?
    ensures ContentHeat(item, isComment).Ok? && !isComment ==>
      ContentHeat(item, isComment).value == 4 * CountAt(item, "comment_count").value + CountAt(item, "like_count").value
                 + CountAt(item, "collect_count").value
    ensures ContentHeat(item, isComment).Ok? && isComment ==>
      ContentHeat(item, isComment).value == 4 * CountAt(item, "comment_reply_count").value + CountAt(item, "comment_like_count").value
  {
  }

  /** Two records whose counts read the same have the same heat. */
  lemma {:induction false} SameCounts(a: Dict, b: Dict, isComment: bool)
    requires forall k :: k in HeatKeys(isComment) ==> CountAt(a, k) == CountAt(b, k)
    ensures ContentHeat(a, isComment) == ContentHeat(b, isComment)
  {
    var keys := HeatKeys(isComment);
    if isComment {
      assert keys[0] in keys && keys[1] in keys;
    } else {
      assert keys[0] in keys && keys[1] in keys && keys[2] in keys;
    }
  }

  lemma {:induction false} GetSet(item: Dict, k: string, v: Json, j: string)
    ensures Get(Set(item, k, v), j, JInt(0)) == if j == k then v else Get(item, j, JInt(0))
  {
    LookupSet(item, k, v, j);
  }

  /** Replacing one count by another that reads the same leaves the heat unchanged. */
  lemma {:induction false} SameCount(item: Dict, isComment: bool, k: string, v: Json, w: Json)
    requires CountOf(v) == CountOf(w)
    ensures ContentHeat(Set(item, k, v), isComment) == ContentHeat(Set(item, k, w), isComment)
  {
    var keys := HeatKeys(isComment);
    var a, b := Set(item, k, v), Set(item, k, w);
    forall j | j in keys ensures CountOf(Get(a, j, JInt(0))) == CountOf(Get(b, j, JInt(0))) {
      GetSet(item, k, v, j);
      GetSet(item, k, w, j);
    }
    SameCounts(a, b, isComment);
  }

  /** A missing count counts as 0. */
  lemma {:induction false} MissingCount(item: Dict, isComment: bool, k: string)
    requires Lookup(item, k).None?
    ensures ContentHeat(item, isComment) == ContentHeat(Set(item, k, JInt(0)), isComment)
  {
    var keys := HeatKeys(isComment);
    forall j | j in keys ensures CountAt(item, j) == CountAt(Set(item, k, JInt(0)), j) {
      GetSet(item, k, JInt(0), j);
    }
    SameCounts(item, Set(item, k, JInt(0)), isComment);
  }

  /** A numeric string counts as its number. */
  lemma {:induction false} NumericString(item: Dict, isComment: bool, k: string, n: int)
    ensures ContentHeat(Set(item, k, JStr(IntText(n))), isComment) == ContentHeat(Set(item, k, JInt(n)), isComment)
  {
    NumericCount(n);
    SameCount(item, isComment, k, JStr(IntText(n)), JInt(n));
  }

  lemma {:induction false} NumericCount(n: int)
    ensures CountOf(JStr(IntText(n))) == CountOf(JInt(n))
  {
    IntTextRoundTrip(n);
  }

  /** A string that is not a number counts as 0. */
  lemma {:induction false} NonNumericString(item: Dict, isComment: bool, k: string, s: string)
    requires ParseInt(s).None?
    ensures ContentHeat(Set(item, k, JStr(s)), isComment) == ContentHeat(Set(item, k, JInt(0)), isComment)
  {
    SameCount(item, isComment, k, JStr(s), JInt(0));
  }

  // ----------------------------------------------------------- brand counts

  /** `int(item.get("heat_value", 1))`, with 0 read as 1. */
  function Weight(item: Dict): (r: Result<int>)
    ensures r.Ok? ==> r.value != 0
    ensures r.Raise? <==> IntOf(Get(item, "heat_value", JInt(1))).Raise?
    ensures IntOf(Get(item, "heat_value", JInt(1))) == Ok(0) ==> r == Ok(1)
    ensures var w := IntOf(Get(item, "heat_value", JInt(1))); w.Ok? && w.value != 0 ==> r == w
  {
    match IntOf(Get(item, "heat_value", JInt(1)))
    case Raise(e) => Raise(e)
    case Ok(w) => Ok(if w == 0 then 1 else w)
  }

  /** `count * heat_value`, added to a Counter entry (an int). */
  function Product(count: Json, w: int): Result<int> {
    match count
    case JInt(n) => Ok(n * w)
    case JBool(b) => Ok(if b then w else 0)
    case JFloat(_) => Raise(Exc(OutsideModel, "a float mention count"))
    case _ => Raise(Exc(TypeError, "unsupported operand type(s) for +"))
  }

  /** The increments of a dict of mentions, `{brand: count}`, in its order. */
  function DictIncrements(ms: Dict, w: int): (r: Result<seq<(string, int)>>)
    ensures r.Ok? <==> forall j :: 0 <= j < |ms| ==> Product(ms[j].1, w).Ok?
    ensures r.Ok? ==> |r.value| == |ms|
    ensures r.Ok? ==> forall j :: 0 <= j < |ms| ==> r.value[j] == (ms[j].0, Product(ms[j].1, w).value)
    decreases |ms|
  {
    if ms == [] then Ok([])
    else
      match DictIncrements(ms[..|ms| - 1], w)
      case Raise(e) => Raise(e)
      case Ok(prior) =>
        match Product(ms[|ms| - 1].1, w)
        case Raise(e) => Raise(e)
        case Ok(n) => Ok(prior + [(ms[|ms| - 1].0, n)])
  }

  /** The increments of a list of brand names: the weight once per entry. */
  function ListIncrements(xs: seq<Json>, w: int): (r: Result<seq<(string, int)>>)
    ensures r.Ok? <==> forall j :: 0 <= j < |xs| ==> xs[j].JStr?
    ensures r.Ok? ==> |r.value| == |xs|
    ensures r.Ok? ==> forall j :: 0 <= j < |xs| ==> r.value[j] == (xs[j].s, w)
    decreases |xs|
  {
    if xs == [] then Ok([])
    else
      match ListIncrements(xs[..|xs| - 1], w)
      case Raise(e) => Raise(e)
      case Ok(prior) =>
        match xs[|xs| - 1]
        case JStr(b) => Ok(prior + [(b, w)])
        case _ => Raise(Exc(OutsideModel, "a brand that is not a str"))
  }

  /** What one record adds to the Counter, in order; the weight is read first. */
  function ItemIncrements(item: Dict): Result<seq<(string, int)>> {
    match Weight(item)
    case Raise(e) => Raise(e)
    case Ok(w) =>
      match Lookup(item, "brand_mentions")
      case Some(JObj(ms)) => DictIncrements(ms, w)
      case Some(JArr(xs)) => ListIncrements(xs, w)
      case _ => Ok([])
  }

  /** The increments of the first `n` records, or the first exception. */
  function Increments(items: seq<Dict>, n: nat): Result<seq<(string, int)>>
    requires n <= |items|
  {
    if n == 0 then Ok([])
    else
      match Increments(items, n - 1)
      case Raise(e) => Raise(e)
      case Ok(prior) =>
        match ItemIncrements(items[n - 1])
        case Raise(e) => Raise(e)
        case Ok(more) => Ok(prior + more)
  }

  /** The value of a Counter entry; a missing brand is 0. */
  function CountFor(counter: seq<(string, int)>, b: string): int {
    if counter == [] then 0
    else if counter[|counter| - 1].0 == b then counter[|counter| - 1].1
    else CountFor(counter[..|counter| - 1], b)
  }

  /** `counter[b] += n`: an existing brand keeps its place, a new one goes last. */
  function Bump(counter: seq<(string, int)>, b: string, n: int): seq<(string, int)>
    decreases |counter|
  {
    if counter == [] then [(b, n)]
    else if counter[|counter| - 1].0 == b then counter[..|counter| - 1] + [(b, counter[|counter| - 1].1 + n)]
    else Bump(counter[..|counter| - 1], b, n) + [counter[|counter| - 1]]
  }

  /** The Counter `counter` after adding the increments in order. */
  function Apply(counter: seq<(string, int)>, incs: seq<(string, int)>): seq<(string, int)> {
    if incs == [] then counter else
      var x := incs[|incs| - 1];
      Bump(Apply(counter, incs[..|incs| - 1]), x.0, x.1)
  }

  /** A fresh Counter after adding the increments in order. */
  function Tally(incs: seq<(string, int)>): seq<(string, int)> {
    Apply([], incs)
  }

  lemma {:induction false} ApplyAppend(c: seq<(string, int)>, a: seq<(string, int)>, b: seq<(string, int)>)
    ensures Apply(c, a + b) == Apply(Apply(c, a), b)
    decreases |b|
  {
    if b == [] {
      assert a + b == a;
    } else {
      ApplyAppend(c, a, b[..|b| - 1]);
      assert (a + b)[..|a + b| - 1] == a + b[..|b| - 1];
    }
  }

  /** `calculate_brand_mentions(data)`, its counts: brand to heat-weighted count, in first-seen order. */
  function BrandCounts(items: seq<Dict>): Result<seq<(string, int)>> {
    match Increments(items, |items|)
    case Raise(e) => Raise(e)
    case Ok(incs) => Ok(Tally(incs))
  }

  /** The sum of the increments for brand `b`. */
  function SumFor(incs: seq<(string, int)>, b: string): int {
    if incs == [] then 0
    else SumFor(incs[..|incs| - 1], b) + (if incs[|incs| - 1].0 == b then incs[|incs| - 1].1 else 0)
  }

  function Brands(counter: seq<(string, int)>): set<string> {
    set i | 0 <= i < |counter| :: counter[i].0
  }

  lemma {:induction false} BrandsSnoc(counter: seq<(string, int)>, e: (string, int))
    ensures Brands(counter + [e]) == Brands(counter) + {e.0}
  {
    var q := counter + [e];
    assert forall i :: 0 <= i < |counter| ==> q[i] == counter[i];
    assert q[|counter|] == e;
  }

  lemma {:induction false} BumpFacts(counter: seq<(string, int)>, b: string, n: int)
    ensures forall j :: CountFor(Bump(counter, b, n), j) == CountFor(counter, j) + (if j == b then n else 0)
    ensures Brands(Bump(counter, b, n)) == Brands(counter) + {b}
    decreases |counter|
  {
    if counter != [] {
      var p := counter[..|counter| - 1];
      var last := counter[|counter| - 1];
      assert counter == p + [last];
      BrandsSnoc(p, last);
      if last.0 != b {
        BumpFacts(p, b, n);
        var q := Bump(p, b, n) + [last];
        assert q[..|q| - 1] == Bump(p, b, n);
        BrandsSnoc(Bump(p, b, n), last);
      } else {
        var q := p + [(b, last.1 + n)];
        assert q[..|q| - 1] == p;
        BrandsSnoc(p, (b, last.1 + n));
      }
    } else {
      BrandsSnoc([], (b, n));
    }
  }

  /**
   * Each brand's count is the sum of its increments, and the Counter holds
   * exactly the brands that were incremented.
   */
  lemma {:induction false} ApplyCounts(c: seq<(string, int)>, incs: seq<(string, int)>)
    ensures forall b :: CountFor(Apply(c, incs), b) == CountFor(c, b) + SumFor(incs, b)
    ensures Brands(Apply(c, incs)) == Brands(c) + set i | 0 <= i < |incs| :: incs[i].0
  {
    if incs != [] {
      var p := incs[..|incs| - 1];
      var x := incs[|incs| - 1];
      ApplyCounts(c, p);
      BumpFacts(Apply(c, p), x.0, x.1);
      assert (set i | 0 <= i < |incs| :: incs[i].0) == (set i | 0 <= i < |p| :: p[i].0) + {x.0} by {
        assert forall i :: 0 <= i < |p| ==> incs[i] == p[i];
      }
    }
  }

  lemma {:induction false} SumForAppend(a: seq<(string, int)>, b: seq<(string, int)>, k: string)
    ensures SumFor(a + b, k) == SumFor(a, k) + SumFor(b, k)
    decreases |b|
  {
    if b == [] {
      assert a + b == a;
    } else {
      var p := b[..|b| - 1];
      SumForAppend(a, p, k);
      assert (a + b)[..|a + b| - 1] == a + p;
    }
  }

  /** The per-record part of a brand's count. */
  function ItemShare(item: Dict, b: string): int {
    match ItemIncrements(item)
    case Raise(_) => 0
    case Ok(incs) => SumFor(incs, b)
  }

  /** The brand counts of the first `n` records, summed record by record. */
  function Shares(items: seq<Dict>, n: nat, b: string): int
    requires n <= |items|
  {
    if n == 0 then 0 else Shares(items, n - 1, b) + ItemShare(items[n - 1], b)
  }

  lemma {:induction false} IncrementsShares(items: seq<Dict>, n: nat, b: string)
    requires n <= |items| && Increments(items, n).Ok?
    ensures SumFor(Increments(items, n).value, b) == Shares(items, n, b)
  {
    if n > 0 {
      IncrementsShares(items, n - 1, b);
      var prior := Increments(items, n - 1).value;
      var more := ItemIncrements(items[n - 1]).value;
      SumForAppend(prior, more, b);
    }
  }

  /**
   * When the counting goes through, a brand's count is the sum over the
   * records of what each record gives it: the weight times the count of a
   * dict mention, the weight per entry of a list, nothing for a record
   * without mentions.
   */
  lemma {:induction false} BrandCountsBySum(items: seq<Dict>, b: string)
    requires BrandCounts(items).Ok?
    ensures CountFor(BrandCounts(items).value, b) == Shares(items, |items|, b)
    ensures b in Brands(BrandCounts(items).value) <==>
      exists inc :: inc in Increments(items, |items|).value && inc.0 == b
  {
    var incs := Increments(items, |items|).value;
    ApplyCounts([], incs);
    assert Brands([]) == {};
    IncrementsShares(items, |items|, b);
    if b in Brands(Tally(incs)) {
      var i :| 0 <= i < |incs| && incs[i].0 == b;
      assert incs[i] in incs;
    }
  }

  /** A record without mentions, or with mentions of another type, gives nothing. */
  lemma {:induction false} NoMentions(item: Dict, b: string)
    requires Weight(item).Ok?
    requires match Lookup(item, "brand_mentions") case Some(JObj(_)) => false case Some(JArr(_)) => false case _ => true
    ensures ItemIncrements(item) == Ok([]) && ItemShare(item, b) == 0
  {
  }

  /** A dict of mentions gives each brand its count times the weight. */
  lemma {:induction false} DictShare(ms: Dict, w: int, b: string)
    requires DictIncrements(ms, w).Ok?
    requires DistinctKeys(ms) && Lookup(ms, b).Some? && Product(Lookup(ms, b).value, w).Ok?
    ensures SumFor(DictIncrements(ms, w).value, b) == Product(Lookup(ms, b).value, w).value
    decreases |ms|
  {
    var p := ms[..|ms| - 1];
    var incs := DictIncrements(ms, w).value;
    assert incs[..|incs| - 1] == DictIncrements(p, w).value;
    if ms[|ms| - 1].0 == b {
      assert Lookup(p, b).None? by {
        LookupKeys(p, b);
        assert forall i :: 0 <= i < |p| ==> p[i].0 == ms[i].0 && ms[i].0 != ms[|ms| - 1].0;
      }
      DictShareNone(p, w, b);
    } else {
      DictShare(p, w, b);
    }
  }

  lemma {:induction false} DictShareNone(ms: Dict, w: int, b: string)
    requires DictIncrements(ms, w).Ok? && Lookup(ms, b).None?
    ensures SumFor(DictIncrements(ms, w).value, b) == 0
    decreases |ms|
  {
    if ms != [] {
      var p := ms[..|ms| - 1];
      var incs := DictIncrements(ms, w).value;
      assert incs[..|incs| - 1] == DictIncrements(p, w).value;
      DictShareNone(p, w, b);
    }
  }

  /** A list of mentions gives a brand the weight once per entry naming it. */
  lemma {:induction false} ListShare(xs: seq<Json>, w: int, b: string)
    requires ListIncrements(xs, w).Ok?
    ensures SumFor(ListIncrements(xs, w).value, b) == w * Occurrences(xs, b)
    decreases |xs|
  {
    if xs != [] {
      var p := xs[..|xs| - 1];
      var incs := ListIncrements(xs, w).value;
      assert incs[..|incs| - 1] == ListIncrements(p, w).value;
      ListShare(p, w, b);
    }
  }

  /** How many entries of a list are the str `b`. */
  function Occurrences(xs: seq<Json>, b: string): nat {
    if xs == [] then 0 else Occurrences(xs[..|xs| - 1], b) + (if xs[|xs| - 1] == JStr(b) then 1 else 0)
  }

  lemma {:induction false} StopsAt(items: seq<Dict>, k: nat, n: nat)
    requires k <= n <= |items| && Increments(items, k).Raise?
    ensures Increments(items, n) == Increments(items, k)
    decreases n
  {
    if k < n {
      StopsAt(items, k, n - 1);
    }
  }

  /** The Counter updates for one dict of mentions. */
  method AddDict(counter: seq<(string, int)>, ms: Dict, w: int) returns (r: Result<seq<(string, int)>>)
    ensures DictIncrements(ms, w).Raise? ==> r == Raise(DictIncrements(ms, w).exc)
    ensures DictIncrements(ms, w).Ok? ==> r == Ok(Apply(counter, DictIncrements(ms, w).value))
  {
    var c := counter;
    for j := 0 to |ms|
      invariant DictIncrements(ms[..j], w).Ok?
      invariant c == Apply(counter, DictIncrements(ms[..j], w).value)
    {
      assert ms[..j + 1][..j] == ms[..j];
      var n := Product(ms[j].1, w);
      if n.Raise? {
        DictStops(ms, w, j + 1);
        return Raise(n.exc);
      }
      ghost var done := DictIncrements(ms[..j], w).value;
      assert (done + [(ms[j].0, n.value)])[..|done|] == done;
      c := Bump(c, ms[j].0, n.value);
    }
    assert ms[..|ms|] == ms;
    r := Ok(c);
  }

  /** The Counter updates for one list of mentions. */
  method AddList(counter: seq<(string, int)>, xs: seq<Json>, w: int) returns (r: Result<seq<(string, int)>>)
    ensures ListIncrements(xs, w).Raise? ==> r == Raise(ListIncrements(xs, w).exc)
    ensures ListIncrements(xs, w).Ok? ==> r == Ok(Apply(counter, ListIncrements(xs, w).value))
  {
    var c := counter;
    for j := 0 to |xs|
      invariant ListIncrements(xs[..j], w).Ok?
      invariant c == Apply(counter, ListIncrements(xs[..j], w).value)
    {
      assert xs[..j + 1][..j] == xs[..j];
      if !xs[j].JStr? {
        ListStops(xs, w, j + 1);
        return Raise(Exc(OutsideModel, "a brand that is not a str"));
      }
      ghost var done := ListIncrements(xs[..j], w).value;
      assert (done + [(xs[j].s, w)])[..|done|] == done;
      c := Bump(c, xs[j].s, w);
    }
    assert xs[..|xs|] == xs;
    r := Ok(c);
  }

  lemma {:induction false} ItemDict(item: Dict, w: int, ms: Dict)
    requires Weight(item) == Ok(w) && Lookup(item, "brand_mentions") == Some(JObj(ms))
    ensures ItemIncrements(item) == DictIncrements(ms, w)
  {
  }

  lemma {:induction false} ItemList(item: Dict, w: int, xs: seq<Json>)
    requires Weight(item) == Ok(w) && Lookup(item, "brand_mentions") == Some(JArr(xs))
    ensures ItemIncrements(item) == ListIncrements(xs, w)
  {
  }

  lemma {:induction false} ItemOther(item: Dict, w: int, mentions: Option<Json>)
    requires Weight(item) == Ok(w) && Lookup(item, "brand_mentions") == mentions
    requires !(mentions.Some? && (mentions.value.JObj? || mentions.value.JArr?))
    ensures ItemIncrements(item) == Ok([])
  {
  }

  /** One more record: its increments follow the earlier ones, or its exception ends the count. */
  lemma {:induction false} NextIncrements(items: seq<Dict>, i: nat, incs: seq<(string, int)>, step: Result<seq<(string, int)>>)
    requires i < |items| && Increments(items, i) == Ok(incs) && ItemIncrements(items[i]) == step
    ensures step.Raise? ==> BrandCounts(items) == Raise(step.exc)
    ensures step.Ok? ==> Increments(items, i + 1) == Ok(incs + step.value)
  {
    if step.Raise? {
      StopsAt(items, i + 1, |items|);
    }
  }

  /**
   * The Counter loop of `calculate_brand_mentions`; the weighted counts are
   * its result, the percentages are not modelled.
   */
  method CalculateBrandMentions(items: seq<Dict>) returns (r: Result<seq<(string, int)>>)
    ensures r == BrandCounts(items)
  {
    var counter: seq<(string, int)> := [];
    ghost var incs: seq<(string, int)> := [];
    for i := 0 to |items|
      invariant Increments(items, i) == Ok(incs) && counter == Tally(incs)
    {
      var item := items[i];
      ghost var step := ItemIncrements(item);
      var weight := Weight(item);
      if weight.Raise? {
        NextIncrements(items, i, incs, step);
        return Raise(weight.exc);
      }
      var w := weight.value;
      var mentions := Lookup(item, "brand_mentions");
      var next: Result<seq<(string, int)>>;
      if mentions.Some? && mentions.value.JObj? {
        ItemDict(item, w, mentions.value.members);
        next := AddDict(counter, mentions.value.members, w);
      } else if mentions.Some? && mentions.value.JArr? {
        ItemList(item, w, mentions.value.items);
        next := AddList(counter, mentions.value.items, w);
      } else {
        ItemOther(item, w, mentions);
        next := Ok(counter);
      }
      NextIncrements(items, i, incs, step);
      if next.Raise? {
        return Raise(next.exc);
      }
      ApplyAppend([], incs, step.value);
      incs := incs + step.value;
      counter := next.value;
    }
    r := Ok(counter);
  }

  lemma {:induction false} DictStops(ms: Dict, w: int, j: nat)
    requires j <= |ms| && DictIncrements(ms[..j], w).Raise?
    ensures DictIncrements(ms, w) == DictIncrements(ms[..j], w)
    decreases |ms| - j
  {
    if j < |ms| {
      assert ms[..j + 1][..j] == ms[..j];
      DictStops(ms, w, j + 1);
    } else {
      assert ms[..j] == ms;
    }
  }

  lemma {:induction false} ListStops(xs: seq<Json>, w: int, j: nat)
    requires j <= |xs| && ListIncrements(xs[..j], w).Raise?
    ensures ListIncrements(xs, w) == ListIncrements(xs[..j], w)
    decreases |xs| - j
  {
    if j < |xs| {
      assert xs[..j + 1][..j] == xs[..j];
      ListStops(xs, w, j + 1);
    } else {
      assert xs[..j] == xs;
    }
  }

  // ------------------------------------------------------------ user quotes

  /**
   * A quote dict of `extract_user_quotes`: the snippet, the url it is filed
   * under, and the record's title and counts as they were.
   */
  datatype Quote = Quote(content: string, url: string, title: Json, heat: Json, likes: Json,
                         comments: Json, collects: Json, shares: Json, brand: Option<string>, isComment: bool)

  /** The loop state: `quotes`, `used_urls` and `used_contents`. */
  datatype Picking = Picking(quotes: seq<Quote>, urls: set<string>, contents: set<string>)

  /** `min_length`, `brand_filter` and `feature_filter`. */
  datatype Filters = Filters(minLength: int, brand: Option<string>, feature: Option<string>)

  /** A snippet is `text[:200]`. */
  const SnippetLength := 200
  /** Only `item["comments_data"][:5]` is looked at. */
  const CommentsPerItem := 5

  /**
   * The brand filter: a record goes on unless the filter is set, the record
   * has `brand_mentions`, and they do not name the brand or are neither a
   * dict nor a list.
   */
  predicate BrandPasses(item: Dict, brand: Option<string>) {
    if brand.None? || brand.value == "" then true
    else
      match Lookup(item, "brand_mentions")
      case None => true
      case Some(JObj(ms)) => Lookup(ms, brand.value).Some?
      case Some(JArr(xs)) => JStr(brand.value) in xs
      case Some(_) => false
  }

  /** The feature filter: `not feature_filter or feature_filter.lower() in text.lower()`. */
  predicate Matches(feature: Option<string>, text: string) {
    feature.None? || feature.value == "" || Contains(LowerAscii(text), LowerAscii(feature.value))
  }

  function QuoteOf(item: Dict, content: string, url: string, brand: Option<string>, isComment: bool): Quote {
    Quote(content, url, Get(item, "title", JStr("")), Get(item, "heat_value", JInt(0)),
          Get(item, "like_count", JInt(0)), Get(item, "comment_count", JInt(0)),
          Get(item, "collect_count", JInt(0)), Get(item, "share_count", JInt(0)), brand, isComment)
  }

  /** The url a new quote is filed under: a url already used gets the number of quotes so far. */
  function FiledUrl(p: Picking, url: string, isComment: bool): string {
    if url !in p.urls then url
    else url + (if isComment then "#comment-" else "#content-") + NatText(|p.quotes|)
  }

  /** Appending a quote, and recording its url and content. */
  function Add(p: Picking, item: Dict, url: string, content: string, f: Filters, isComment: bool): Picking {
    Picking(p.quotes + [QuoteOf(item, content, FiledUrl(p, url, isComment), f.brand, isComment)],
            p.urls + {url}, p.contents + {content})
  }

  /** A record's own text; `None` when that snippet was used before, which skips the whole record. */
  function PostStep(p: Picking, item: Dict, url: string, f: Filters): Option<Picking> {
    match Lookup(item, "detail_desc")
    case Some(JStr(d)) =>
      var snippet := Take(d, SnippetLength);
      if |d| < f.minLength then Some(p)
      else if snippet in p.contents then None
      else if Matches(f.feature, d) then Some(Add(p, item, url, snippet, f, false))
      else Some(p)
    case _ => Some(p)
  }

  /** One entry of the comments: a quote, nothing, or the exception it raises. */
  function CommentStep(p: Picking, item: Dict, url: string, entry: Json, f: Filters): Result<Picking> {
    if !Truthy(entry) then Ok(p)
    else
      match Member("comment_content", entry)
      case Raise(e) => Raise(e)
      case Ok(false) => Ok(p)
      case Ok(true) =>
        match GetItem(entry, "comment_content")
        case Raise(e) => Raise(e)
        case Ok(text) =>
          if !Truthy(text) then Ok(p)
          else
            match Len(text)
            case Raise(e) => Raise(e)
            case Ok(n) =>
              if n < f.minLength then Ok(p)
              else
                match SliceValue(text, SnippetLength)
                case Raise(e) => Raise(e)
                case Ok(JStr(snippet)) =>
                  if snippet in p.contents then Ok(p)
                  else if Matches(f.feature, snippet) then Ok(Add(p, item, url, snippet, f, true))
                  else Ok(p)
                case Ok(_) => Raise(Exc(TypeError, "unhashable type: 'list'"))
  }

  /** The first `n` comment entries in order. */
  function Comments(p: Picking, item: Dict, url: string, xs: seq<Json>, n: nat, f: Filters): Result<Picking>
    requires n <= |xs|
  {
    if n == 0 then Ok(p)
    else
      match Comments(p, item, url, xs, n - 1, f)
      case Raise(e) => Raise(e)
      case Ok(q) => CommentStep(q, item, url, xs[n - 1], f)
  }

  /** `item["comments_data"][:5]`, as the loop iterates it. */
  function CommentsOf(item: Dict): (r: Result<seq<Json>>)
    ensures r.Ok? ==> |r.value| <= CommentsPerItem
  {
    match Lookup(item, "comments_data")
    case None => Raise(Exc(KeyError, "'comments_data'"))
    case Some(v) =>
      match SliceValue(v, CommentsPerItem)
      case Raise(e) => Raise(e)
      case Ok(head) => Iterate(head)
  }

  /** One record of the loop. */
  function ItemStep(p: Picking, item: Dict, f: Filters): Result<Picking> {
    if !BrandPasses(item, f.brand) then Ok(p)
    else
      var url := Get(item, "url", JStr(""));
      if !Truthy(url) then Ok(p)
      else if !url.JStr? then Raise(Exc(OutsideModel, "a url that is not a str"))
      else
        match PostStep(p, item, url.s, f)
        case None => Ok(p)
        case Some(q) =>
          match CommentsOf(item)
          case Raise(e) => Raise(e)
          case Ok(xs) => Comments(q, item, url.s, xs, |xs|, f)
  }

  /** The quotes gathered from the first `n` records. */
  function Collect(items: seq<Dict>, n: nat, f: Filters): Result<Picking>
    requires n <= |items|
  {
    if n == 0 then Ok(Picking([], {}, {}))
    else
      match Collect(items, n - 1, f)
      case Raise(e) => Raise(e)
      case Ok(p) => ItemStep(p, items[n - 1], f)
  }

  /** `int(x.get("heat_value", 0))` */
  function HeatKey(q: Quote): Result<Key> {
    match IntOf(q.heat)
    case Raise(e) => Raise(e)
    case Ok(h) => Ok(IntKey(h))
  }

  /** `(int(x.get("heat_value", 0)), int(x.get("like_count", 0)))` */
  function PairKey(q: Quote): Result<Key> {
    match IntOf(q.heat)
    case Raise(e) => Raise(e)
    case Ok(h) =>
      match IntOf(q.likes)
      case Raise(e) => Raise(e)
      case Ok(l) => Ok(Key(h as real, l as real))
  }

  /** The two sorts: by heat, then the result by heat and likes. */
  function SortQuotes(qs: seq<Quote>): Result<seq<Quote>> {
    match KeyAll(HeatKey, qs)
    case Raise(e) => Raise(e)
    case Ok(byHeat) =>
      var once := Firsts(SortDesc(byHeat));
      match KeyAll(PairKey, once)
      case Raise(e) => Raise(e)
      case Ok(byPair) => Ok(Firsts(SortDesc(byPair)))
  }

  /** `extract_user_quotes(data, min_length, max_quotes, brand_filter, feature_filter)` */
  function UserQuotes(items: seq<Dict>, f: Filters, maxQuotes: int): Result<seq<Quote>> {
    match Collect(items, |items|, f)
    case Raise(e) => Raise(e)
    case Ok(p) =>
      match SortQuotes(p.quotes)
      case Raise(e) => Raise(e)
      case Ok(sorted) => Ok(Take(sorted, maxQuotes))
  }

  // ------------------------------------------ what the quote loop maintains

  function Tag(isComment: bool): string {
    if isComment then "#comment-" else "#content-"
  }

  predicate DistinctContents(qs: seq<Quote>) {
    forall i, j :: 0 <= i < j < |qs| ==> qs[i].content != qs[j].content
  }

  function ContentsOf(qs: seq<Quote>): set<string> {
    set i | 0 <= i < |qs| :: qs[i].content
  }

  /**
   * A snippet is at most 200 long, and at least `min_length` long unless it
   * was cut at 200; it is filed under a url that is not empty.
   */
  predicate Bounded(q: Quote, minLength: int) {
    |q.content| <= SnippetLength && (|q.content| >= minLength || |q.content| == SnippetLength) && q.url != ""
  }

  /** The url of the quote at position `i`: a used url itself, or a used url with the tag and `i`. */
  predicate FiledAs(q: Quote, i: nat, urls: set<string>) {
    q.url in urls || exists b :: b in urls && q.url == b + Tag(q.isComment) + NatText(i)
  }

  /** `used_contents` is the set of the quotes' contents, no two quotes share one, and so on. */
  predicate Picked(p: Picking, minLength: int) {
    p.contents == ContentsOf(p.quotes) && DistinctContents(p.quotes)
    && (forall i :: 0 <= i < |p.quotes| ==> Bounded(p.quotes[i], minLength))
    && (forall i :: 0 <= i < |p.quotes| ==> FiledAs(p.quotes[i], i, p.urls))
  }

  lemma {:induction false} FiledMore(q: Quote, i: nat, urls: set<string>, more: set<string>)
    requires FiledAs(q, i, urls)
    ensures FiledAs(q, i, urls + more)
  {
    if q.url !in urls {
      var b :| b in urls && q.url == b + Tag(q.isComment) + NatText(i);
      assert b in urls + more;
    }
  }

  lemma {:induction false} AddPicked(p: Picking, item: Dict, url: string, content: string, f: Filters, isComment: bool)
    requires Picked(p, f.minLength) && content !in p.contents && url != ""
    requires |content| <= SnippetLength && (|content| >= f.minLength || |content| == SnippetLength)
    ensures Picked(Add(p, item, url, content, f, isComment), f.minLength)
    ensures |Add(p, item, url, content, f, isComment).quotes| == |p.quotes| + 1
  {
    var r := Add(p, item, url, content, f, isComment);
    var n := |p.quotes|;
    assert forall i :: 0 <= i < n ==> r.quotes[i] == p.quotes[i];
    assert r.quotes[n].content == content;
    assert ContentsOf(r.quotes) == ContentsOf(p.quotes) + {content};
    forall i | 0 <= i < n ensures FiledAs(r.quotes[i], i, r.urls) {
      FiledMore(p.quotes[i], i, p.urls, {url});
    }
    var u := FiledUrl(p, url, isComment);
    assert u != "" by {
      assert u == url || u == url + Tag(isComment) + NatText(n);
    }
    assert FiledAs(r.quotes[n], n, r.urls) by {
      assert url in r.urls;
      if url in p.urls {
        assert u == url + Tag(r.quotes[n].isComment) + NatText(n);
      }
    }
  }

  /** `text[:200]` of a text at least `min_length` long. */
  lemma {:induction false} SnippetBounds(text: string, minLength: int)
    requires |text| >= minLength
    ensures |Take(text, SnippetLength)| <= SnippetLength
    ensures |Take(text, SnippetLength)| >= minLength || |Take(text, SnippetLength)| == SnippetLength
  {
  }

  lemma {:induction false} PostPicked(p: Picking, item: Dict, url: string, f: Filters)
    requires Picked(p, f.minLength) && url != ""
    ensures PostStep(p, item, url, f).Some? ==>
      Picked(PostStep(p, item, url, f).value, f.minLength) && |PostStep(p, item, url, f).value.quotes| <= |p.quotes| + 1
  {
    match Lookup(item, "detail_desc")
    case Some(JStr(d)) =>
      if |d| >= f.minLength && Take(d, SnippetLength) !in p.contents && Matches(f.feature, d) {
        SnippetBounds(d, f.minLength);
        AddPicked(p, item, url, Take(d, SnippetLength), f, false);
      }
    case _ =>
  }

  lemma {:induction false} CommentPicked(p: Picking, item: Dict, url: string, entry: Json, f: Filters)
    requires Picked(p, f.minLength) && url != ""
    ensures CommentStep(p, item, url, entry, f).Ok? ==>
      Picked(CommentStep(p, item, url, entry, f).value, f.minLength)
      && |CommentStep(p, item, url, entry, f).value.quotes| <= |p.quotes| + 1
  {
    if Truthy(entry) && Member("comment_content", entry) == Ok(true) && GetItem(entry, "comment_content").Ok? {
      var text := GetItem(entry, "comment_content").value;
      if Truthy(text) && text.JStr? && |text.s| >= f.minLength {
        var snippet := Take(text.s, SnippetLength);
        if snippet !in p.contents && Matches(f.feature, snippet) {
          SnippetBounds(text.s, f.minLength);
          AddPicked(p, item, url, snippet, f, true);
        }
      }
    }
  }

  lemma {:induction false} CommentsPicked(p: Picking, item: Dict, url: string, xs: seq<Json>, n: nat, f: Filters)
    requires n <= |xs| && Picked(p, f.minLength) && url != ""
    ensures Comments(p, item, url, xs, n, f).Ok? ==>
      Picked(Comments(p, item, url, xs, n, f).value, f.minLength)
      && |Comments(p, item, url, xs, n, f).value.quotes| <= |p.quotes| + n
  {
    if n > 0 {
      CommentsPicked(p, item, url, xs, n - 1, f);
      var prior := Comments(p, item, url, xs, n - 1, f);
      if prior.Ok? {
        CommentPicked(prior.value, item, url, xs[n - 1], f);
      }
    }
  }

  lemma {:induction false} ItemPicked(p: Picking, item: Dict, f: Filters)
    requires Picked(p, f.minLength)
    ensures ItemStep(p, item, f).Ok? ==>
      Picked(ItemStep(p, item, f).value, f.minLength)
      && |ItemStep(p, item, f).value.quotes| <= |p.quotes| + 1 + CommentsPerItem
  {
    var url := Get(item, "url", JStr(""));
    if BrandPasses(item, f.brand) && Truthy(url) && url.JStr? {
      PostPicked(p, item, url.s, f);
      var post := PostStep(p, item, url.s, f);
      if post.Some? && CommentsOf(item).Ok? {
        var xs := CommentsOf(item).value;
        CommentsPicked(post.value, item, url.s, xs, |xs|, f);
      }
    }
  }

  /**
   * What `extract_user_quotes` gathers before sorting: no two quotes share
   * a content, every snippet is within its bounds, every url is filed as
   * the loop files it, and a record gives at most one quote of its own and
   * one per comment of its first five.
   */
  lemma {:induction false} CollectPicked(items: seq<Dict>, n: nat, f: Filters)
    requires n <= |items|
    ensures Collect(items, n, f).Ok? ==>
      Picked(Collect(items, n, f).value, f.minLength)
      && |Collect(items, n, f).value.quotes| <= (1 + CommentsPerItem) * n
  {
    if n > 0 {
      CollectPicked(items, n - 1, f);
      var prior := Collect(items, n - 1, f);
      if prior.Ok? {
        ItemPicked(prior.value, items[n - 1], f);
      }
    }
  }

  /** The records the loop passes over without a quote. */
  lemma {:induction false} Skipped(p: Picking, item: Dict, f: Filters)
    ensures !BrandPasses(item, f.brand) ==> ItemStep(p, item, f) == Ok(p)
    ensures BrandPasses(item, f.brand) && !Truthy(Get(item, "url", JStr(""))) ==> ItemStep(p, item, f) == Ok(p)
    ensures (BrandPasses(item, f.brand) && Get(item, "url", JStr("")).JStr? && Get(item, "url", JStr("")).s != ""
             && PostStep(p, item, Get(item, "url", JStr("")).s, f).None?) ==> ItemStep(p, item, f) == Ok(p)
  {
  }

  // --------------------------------------------------- the sorted quotes

  lemma {:induction false} TwoIndices<T>(s: seq<T>, i: nat, j: nat)
    requires i < j < |s| && s[i] == s[j]
    ensures multiset(s)[s[i]] >= 2
  {
    var x := s[i];
    assert s == s[..j] + [x] + s[j + 1..];
    assert x in s[..j];
    assert multiset(s) == multiset(s[..j]) + multiset{x} + multiset(s[j + 1..]);
  }

  lemma {:induction false} Repeated<T>(s: seq<T>, x: T) returns (i: nat, j: nat)
    requires multiset(s)[x] >= 2
    ensures i < j < |s| && s[i] == x && s[j] == x
    decreases |s|
  {
    var p := s[..|s| - 1];
    assert s == p + [s[|s| - 1]];
    assert multiset(s) == multiset(p) + multiset{s[|s| - 1]};
    if s[|s| - 1] == x {
      assert x in multiset(p);
      i :| 0 <= i < |p| && p[i] == x;
      j := |s| - 1;
    } else {
      i, j := Repeated(p, x);
    }
  }

  /** Two positions of a sub-multiset are two positions of the whole. */
  lemma {:induction false} TwoPlaces<T>(s: seq<T>, t: seq<T>, i: nat, j: nat) returns (a: nat, b: nat)
    requires multiset(t) <= multiset(s) && i < j < |t|
    ensures a < |s| && b < |s| && a != b && s[a] == t[i] && s[b] == t[j]
  {
    if t[i] == t[j] {
      TwoIndices(t, i, j);
      a, b := Repeated(s, t[i]);
    } else {
      assert t[i] in multiset(s) && t[j] in multiset(s);
      a :| 0 <= a < |s| && s[a] == t[i];
      b :| 0 <= b < |s| && s[b] == t[j];
    }
  }

  lemma {:induction false} DistinctSub(s: seq<Quote>, t: seq<Quote>)
    requires multiset(t) <= multiset(s) && DistinctContents(s)
    ensures DistinctContents(t)
  {
    forall i, j | 0 <= i < j < |t| ensures t[i].content != t[j].content {
      var a, b := TwoPlaces(s, t, i, j);
    }
  }

  lemma {:induction false} TakeMultiset<T>(s: seq<T>, n: int)
    ensures multiset(Take(s, n)) <= multiset(s)
  {
    assert s == Take(s, n) + s[|Take(s, n)|..];
  }

  /** In (heat, likes) order, largest first. */
  predicate PairOrdered(r: seq<Quote>) {
    && (forall i :: 0 <= i < |r| ==> PairKey(r[i]).Ok?)
    && forall i, j :: 0 <= i < j < |r| ==> AtLeast(PairKey(r[i]).value, PairKey(r[j]).value)
  }

  predicate AllBounded(r: seq<Quote>, minLength: int) {
    forall i :: 0 <= i < |r| ==> Bounded(r[i], minLength)
  }

  /** The two sorts permute the quotes and leave them in (heat, likes) order, largest first. */
  lemma {:induction false} SortQuotesFacts(qs: seq<Quote>, r: seq<Quote>)
    requires SortQuotes(qs) == Ok(r)
    ensures multiset(r) == multiset(qs)
    ensures forall i :: 0 <= i < |r| ==> PairKey(r[i]).Ok?
    ensures forall i, j :: 0 <= i < j < |r| ==> AtLeast(PairKey(r[i]).value, PairKey(r[j]).value)
  {
    var byHeat := KeyAll(HeatKey, qs).value;
    var once := Firsts(SortDesc(byHeat));
    SortedBy(HeatKey, qs, byHeat, once);
    SortedBy(PairKey, once, KeyAll(PairKey, once).value, r);
  }

  lemma {:induction false} TakenOrder(qs: seq<Quote>, sorted: seq<Quote>, maxQuotes: int, r: seq<Quote>)
    requires SortQuotes(qs) == Ok(sorted) && r == Take(sorted, maxQuotes)
    ensures PairOrdered(r)
    ensures multiset(r) <= multiset(qs) && |r| <= |qs|
  {
    SortQuotesFacts(qs, sorted);
    assert PairOrdered(sorted);
    PrefixOrdered(sorted, |r|);
    TakeMultiset(sorted, maxQuotes);
    assert |multiset(r)| <= |multiset(qs)|;
  }

  /** A prefix of quotes in (heat, likes) order is in that order too. */
  lemma {:induction false} PrefixOrdered(s: seq<Quote>, k: nat)
    requires PairOrdered(s) && k <= |s|
    ensures PairOrdered(s[..k])
  {
    var r := s[..k];
    assert forall i :: 0 <= i < |r| ==> r[i] == s[i];
  }

  lemma {:induction false} TakenPicked(p: Picking, minLength: int, r: seq<Quote>)
    requires Picked(p, minLength) && multiset(r) <= multiset(p.quotes)
    ensures DistinctContents(r)
    ensures AllBounded(r, minLength)
  {
    DistinctSub(p.quotes, r);
    forall i | 0 <= i < |r| ensures Bounded(r[i], minLength) {
      assert r[i] in multiset(p.quotes);
    }
  }

  /** Sorting and cutting what the loop gathered. */
  lemma {:induction false} TakenFacts(p: Picking, minLength: int, sorted: seq<Quote>, maxQuotes: int, r: seq<Quote>)
    requires Picked(p, minLength) && SortQuotes(p.quotes) == Ok(sorted) && r == Take(sorted, maxQuotes)
    ensures PairOrdered(r)
    ensures multiset(r) <= multiset(p.quotes) && |r| <= |p.quotes|
    ensures DistinctContents(r)
    ensures AllBounded(r, minLength)
  {
    TakenOrder(p.quotes, sorted, maxQuotes, r);
    TakenPicked(p, minLength, r);
  }

  /**
   * `extract_user_quotes`: at most `max_quotes` quotes, in (heat, likes)
   * order, largest first; each a quote the loop gathered, no two with the
   * same content, each within the length bounds.
   */
  lemma {:induction false} UserQuotesFacts(items: seq<Dict>, f: Filters, maxQuotes: int, r: seq<Quote>)
    requires UserQuotes(items, f, maxQuotes) == Ok(r)
    ensures maxQuotes >= 0 ==> |r| <= maxQuotes
    ensures PairOrdered(r)
    ensures multiset(r) <= multiset(Collect(items, |items|, f).value.quotes)
    ensures DistinctContents(r)
    ensures AllBounded(r, f.minLength)
    ensures |r| <= (1 + CommentsPerItem) * |items|
  {
    var p := Collect(items, |items|, f).value;
    CollectPicked(items, |items|, f);
    TakenFacts(p, f.minLength, SortQuotes(p.quotes).value, maxQuotes, r);
  }

  // ------------------------------------------------------- the quote loop

  lemma {:induction false} CommentsStop(p: Picking, item: Dict, url: string, xs: seq<Json>, k: nat, f: Filters)
    requires k <= |xs| && Comments(p, item, url, xs, k, f).Raise?
    ensures Comments(p, item, url, xs, |xs|, f) == Comments(p, item, url, xs, k, f)
    decreases |xs| - k
  {
    if k < |xs| {
      CommentsStop(p, item, url, xs, k + 1, f);
    }
  }

  lemma {:induction false} CollectStop(items: seq<Dict>, k: nat, f: Filters)
    requires k <= |items| && Collect(items, k, f).Raise?
    ensures Collect(items, |items|, f) == Collect(items, k, f)
    decreases |items| - k
  {
    if k < |items| {
      CollectStop(items, k + 1, f);
    }
  }

  /** One more record after a run of the quote loop that went through. */
  lemma {:induction false} CollectAdvance(items: seq<Dict>, i: nat, f: Filters, p: Picking, x: Result<Picking>)
    requires i < |items| && Collect(items, i, f) == Ok(p) && ItemStep(p, items[i], f) == x
    ensures x.Raise? ==> Collect(items, |items|, f) == Raise(x.exc)
    ensures x.Ok? ==> Collect(items, i + 1, f) == x
  {
    var n := i + 1;
    assert n - 1 == i;
    assert Collect(items, n, f) == x;
    if x.Raise? {
      CollectStop(items, n, f);
    }
  }

  /** The bookkeeping shared by both appends: the url, the content and the quote. */
  method FileQuote(p: Picking, item: Dict, url: string, content: string, f: Filters, isComment: bool)
    returns (q: Picking)
    ensures q == Add(p, item, url, content, f, isComment)
  {
    var filed: string;
    var urls := p.urls;
    if url in urls {
      filed := url + (if isComment then "#comment-" else "#content-") + NatText(|p.quotes|);
    } else {
      filed := url;
      urls := urls + {url};
    }
    assert urls == p.urls + {url};
    q := Picking(p.quotes + [QuoteOf(item, content, filed, f.brand, isComment)], urls, p.contents + {content});
  }

  /** One entry of `comments_data[:5]`. */
  method PickComment(p: Picking, item: Dict, url: string, entry: Json, f: Filters) returns (r: Result<Picking>)
    ensures r == CommentStep(p, item, url, entry, f)
  {
    if !Truthy(entry) {
      return Ok(p);
    }
    var has := Member("comment_content", entry);
    if has.Raise? {
      return Raise(has.exc);
    }
    if !has.value {
      return Ok(p);
    }
    var text := GetItem(entry, "comment_content");
    if text.Raise? {
      return Raise(text.exc);
    }
    if !Truthy(text.value) {
      return Ok(p);
    }
    var n := Len(text.value);
    if n.Raise? {
      return Raise(n.exc);
    }
    if n.value < f.minLength {
      return Ok(p);
    }
    var cut := SliceValue(text.value, SnippetLength);
    if cut.Raise? {
      return Raise(cut.exc);
    }
    if !cut.value.JStr? {
      return Raise(Exc(TypeError, "unhashable type: 'list'"));
    }
    var snippet := cut.value.s;
    if snippet in p.contents || !Matches(f.feature, snippet) {
      return Ok(p);
    }
    var q := FileQuote(p, item, url, snippet, f, true);
    r := Ok(q);
  }

  /** The comment loop of one record. */
  method PickComments(p: Picking, item: Dict, url: string, xs: seq<Json>, f: Filters) returns (r: Result<Picking>)
    ensures r == Comments(p, item, url, xs, |xs|, f)
  {
    var picked := p;
    for j := 0 to |xs|
      invariant Comments(p, item, url, xs, j, f) == Ok(picked)
    {
      var step := PickComment(picked, item, url, xs[j], f);
      if step.Raise? {
        CommentsStop(p, item, url, xs, j + 1, f);
        return step;
      }
      picked := step.value;
    }
    r := Ok(picked);
  }

  /** The record's own `detail_desc`; `None` is the `continue` on a repeated snippet. */
  method PickPost(p: Picking, item: Dict, url: string, f: Filters) returns (r: Option<Picking>)
    ensures r == PostStep(p, item, url, f)
  {
    var detail := Lookup(item, "detail_desc");
    if detail.Some? && detail.value.JStr? && |detail.value.s| >= f.minLength {
      var snippet := Take(detail.value.s, SnippetLength);
      if snippet in p.contents {
        return None;
      }
      if Matches(f.feature, detail.value.s) {
        var q := FileQuote(p, item, url, snippet, f, false);
        return Some(q);
      }
    }
    r := Some(p);
  }

  /** One record of the outer loop. */
  method PickRecord(p: Picking, item: Dict, f: Filters) returns (r: Result<Picking>)
    ensures r == ItemStep(p, item, f)
  {
    if !BrandPasses(item, f.brand) {
      return Ok(p);
    }
    var url := Get(item, "url", JStr(""));
    if !Truthy(url) {
      return Ok(p);
    }
    if !url.JStr? {
      return Raise(Exc(OutsideModel, "a url that is not a str"));
    }
    var post := PickPost(p, item, url.s, f);
    if post.None? {
      return Ok(p);
    }
    var comments := CommentsOf(item);
    if comments.Raise? {
      return Raise(comments.exc);
    }
    r := PickComments(post.value, item, url.s, comments.value, f);
  }

  /**
   * `extract_user_quotes(data, min_length, max_quotes, brand_filter,
   * feature_filter)`: the record loop over the quotes, urls and contents
   * gathered so far, then the two sorts and the cut.
   */
  method ExtractUserQuotes(items: seq<Dict>, minLength: int, maxQuotes: int,
                           brandFilter: Option<string>, featureFilter: Option<string>)
    returns (r: Result<seq<Quote>>)
    ensures r == UserQuotes(items, Filters(minLength, brandFilter, featureFilter), maxQuotes)
  {
    var f := Filters(minLength, brandFilter, featureFilter);
    var picked := Picking([], {}, {});
    for i := 0 to |items|
      invariant Collect(items, i, f) == Ok(picked)
    {
      var step := PickRecord(picked, items[i], f);
      CollectAdvance(items, i, f, picked, step);
      if step.Raise? {
        return Raise(step.exc);
      }
      picked := step.value;
    }
    var sorted := SortQuotes(picked.quotes);
    if sorted.Raise? {
      return Raise(sorted.exc);
    }
    r := Ok(Take(sorted.value, maxQuotes));
  }

  // -------------------------------------------------------- hottest posts

  /** What `get_top_heat_posts` keeps of a record. */
  datatype Post = Post(title: Json, detail: Json, heat: Json, url: Json, created: Json, brands: Json)

  const PostDetailLength := 200

  /** `heat and isinstance(heat, (int, float)) and heat > 0` */
  predicate Hot(heat: Json) {
    Truthy(heat) && Numeric(heat).Some? && Numeric(heat).value > 0.0
  }

  /** One record: `None` when its heat does not qualify. */
  function PostOf(item: Dict): Result<Option<Post>> {
    var heat := Get(item, "heat_value", JInt(0));
    if !Hot(heat) then Ok(None)
    else
      match SliceValue(Get(item, "detail_desc", JStr("")), PostDetailLength)
      case Raise(e) => Raise(e)
      case Ok(detail) =>
        Ok(Some(Post(Get(item, "title", JStr("无标题")), detail, heat, Get(item, "url", JStr("")),
                     Get(item, "created_date", JStr("")), Get(item, "brand_mentions", JObj([])))))
  }

  /** The qualifying posts among the first `n` records, in order. */
  function HotPosts(items: seq<Dict>, n: nat): Result<seq<Post>>
    requires n <= |items|
  {
    if n == 0 then Ok([])
    else
      match HotPosts(items, n - 1)
      case Raise(e) => Raise(e)
      case Ok(ps) =>
        match PostOf(items[n - 1])
        case Raise(e) => Raise(e)
        case Ok(None) => Ok(ps)
        case Ok(Some(p)) => Ok(ps + [p])
  }

  /** `int(x["heat_value"])` */
  function PostKey(p: Post): Result<Key> {
    match IntOf(p.heat)
    case Raise(e) => Raise(e)
    case Ok(h) => Ok(IntKey(h))
  }

  /** `get_top_heat_posts(data, top_n)` */
  function TopHeat(items: seq<Dict>, topN: int): Result<seq<Post>> {
    match HotPosts(items, |items|)
    case Raise(e) => Raise(e)
    case Ok(ps) =>
      match KeyAll(PostKey, ps)
      case Raise(e) => Raise(e)
      case Ok(k) => Ok(Take(Firsts(SortDesc(k)), topN))
  }

  predicate AllHot(ps: seq<Post>) {
    forall i :: 0 <= i < |ps| ==> Hot(ps[i].heat)
  }

  /**
   * The posts of the first `n` records: each has a positive numeric heat, and
   * the loop raises exactly when a record with such a heat has a
   * `detail_desc` that cannot be sliced.
   */
  lemma {:induction false} HotPostsFacts(items: seq<Dict>, n: nat)
    requires n <= |items|
    ensures HotPosts(items, n).Ok? <==>
      forall i :: 0 <= i < n ==> PostOf(items[i]).Ok?
    ensures HotPosts(items, n).Ok? ==> AllHot(HotPosts(items, n).value) && |HotPosts(items, n).value| <= n
  {
    if n > 0 {
      HotPostsFacts(items, n - 1);
    }
  }

  /** A record with a qualifying heat is kept, one without is skipped. */
  lemma {:induction false} PostOfHot(item: Dict)
    ensures PostOf(item) == Ok(None) <==> !Hot(Get(item, "heat_value", JInt(0)))
    ensures PostOf(item).Raise? <==>
      Hot(Get(item, "heat_value", JInt(0))) && SliceValue(Get(item, "detail_desc", JStr("")), PostDetailLength).Raise?
  {
  }

  /** A positive numeric heat always converts with `int()`. */
  lemma {:induction false} HotKeys(ps: seq<Post>)
    requires AllHot(ps)
    ensures KeyAll(PostKey, ps).Ok?
  {
    forall i | 0 <= i < |ps| ensures PostKey(ps[i]).Ok? {
      assert Hot(ps[i].heat);
    }
  }

  /**
   * `get_top_heat_posts`: it raises only where the record loop raises; it
   * returns at most `top_n` posts, each with a positive numeric heat, in
   * integer-heat order, largest first.
   */
  lemma {:induction false} TopHeatOrder(items: seq<Dict>, topN: int)
    ensures TopHeat(items, topN).Ok? <==> HotPosts(items, |items|).Ok?
    ensures TopHeat(items, topN).Ok? ==>
      var r := TopHeat(items, topN).value;
      (topN >= 0 ==> |r| <= topN) && AllHot(r)
      && (forall i, j :: 0 <= i < j < |r| ==>
            PostKey(r[i]).Ok? && PostKey(r[j]).Ok? && AtLeast(PostKey(r[i]).value, PostKey(r[j]).value))
  {
    HotPostsFacts(items, |items|);
    if HotPosts(items, |items|).Ok? {
      var ps := HotPosts(items, |items|).value;
      HotKeys(ps);
      var k := KeyAll(PostKey, ps).value;
      var all := Firsts(SortDesc(k));
      var r := Take(all, topN);
      SortedBy(PostKey, ps, k, all);
      var rest := SortedTop(PostKey, ps, k, topN, r);
      forall i | 0 <= i < |r| ensures Hot(r[i].heat) {
        assert r[i] in multiset(r) + multiset(rest);
        assert r[i] in multiset(ps);
      }
      forall i, j | 0 <= i < j < |r|
        ensures PostKey(r[i]).Ok? && PostKey(r[j]).Ok? && AtLeast(PostKey(r[i]).value, PostKey(r[j]).value)
      {
        assert r[i] == all[i] && r[j] == all[j];
      }
    }
  }

  /**
   * Together with the posts it cuts, the result is exactly the qualifying
   * posts, and none of the cut ones is hotter than a returned one.
   */
  lemma {:induction false} TopHeatSplit(items: seq<Dict>, topN: int) returns (rest: seq<Post>)
    ensures TopHeat(items, topN).Ok? ==>
      var r := TopHeat(items, topN).value;
      multiset(r) + multiset(rest) == multiset(HotPosts(items, |items|).value)
      && (forall i, j :: 0 <= i < |r| && 0 <= j < |rest| ==>
            PostKey(r[i]).Ok? && PostKey(rest[j]).Ok? && AtLeast(PostKey(r[i]).value, PostKey(rest[j]).value))
  {
    HotPostsFacts(items, |items|);
    rest := [];
    if HotPosts(items, |items|).Ok? {
      var ps := HotPosts(items, |items|).value;
      HotKeys(ps);
      var k := KeyAll(PostKey, ps).value;
      var all := Firsts(SortDesc(k));
      var r := Take(all, topN);
      SortedBy(PostKey, ps, k, all);
      rest := SortedTop(PostKey, ps, k, topN, r);
    }
  }

  /** `get_top_heat_posts(data, top_n)`: the filtering loop, then the sort and the cut. */
  method GetTopHeatPosts(items: seq<Dict>, topN: int) returns (r: Result<seq<Post>>)
    ensures r == TopHeat(items, topN)
  {
    var valid: seq<Post> := [];
    for i := 0 to |items|
      invariant HotPosts(items, i) == Ok(valid)
    {
      var item := items[i];
      var heat := Get(item, "heat_value", JInt(0));
      if Hot(heat) {
        var detail := SliceValue(Get(item, "detail_desc", JStr("")), PostDetailLength);
        if detail.Raise? {
          HotPostsStop(items, i + 1);
          return Raise(detail.exc);
        }
        valid := valid + [Post(Get(item, "title", JStr("无标题")), detail.value, heat, Get(item, "url", JStr("")),
                               Get(item, "created_date", JStr("")), Get(item, "brand_mentions", JObj([])))];
      }
    }
    var keyed := KeyAll(PostKey, valid);
    if keyed.Raise? {
      return Raise(keyed.exc);
    }
    r := Ok(Take(Firsts(SortDesc(keyed.value)), topN));
  }

  lemma {:induction false} HotPostsStop(items: seq<Dict>, k: nat)
    requires k <= |items| && HotPosts(items, k).Raise?
    ensures HotPosts(items, |items|) == HotPosts(items, k)
    decreases |items| - k
  {
    if k < |items| {
      HotPostsStop(items, k + 1);
    }
  }

  // ------------------------------------------------------ top-k digest

  /** What `extract_top_k_contents` keeps of a record. */
  datatype Entry = Entry(title: Json, detail: Json, heat: Json, comments: seq<string>, url: Json)

  const DetailLength := 500
  const CommentLength := 200

  /** `heat += item.get(name, 0)` (times `factor`) when `name in item`. */
  function Addend(item: Dict, name: string, factor: int): Result<int> {
    match Lookup(item, name)
    case None => Ok(0)
    case Some(JInt(i)) => Ok(factor * i)
    case Some(JBool(b)) => Ok(if b then factor else 0)
    case Some(JFloat(_)) => Raise(Exc(OutsideModel, "float arithmetic"))
    case Some(_) => Raise(Exc(TypeError, "unsupported operand type(s) for +"))
  }

  /** The heat of a record: its `heat_value`, or likes + 4 * comments + collects when it has none. */
  function EntryHeat(item: Dict): Result<Json> {
    match Lookup(item, "heat_value")
    case Some(v) => Ok(v)
    case None =>
      match Addend(item, "like_count", 1)
      case Raise(e) => Raise(e)
      case Ok(likes) =>
        match Addend(item, "comment_count", 4)
        case Raise(e) => Raise(e)
        case Ok(talk) =>
          match Addend(item, "collect_count", 1)
          case Raise(e) => Raise(e)
          case Ok(keeps) => Ok(JInt(likes + talk + keeps))
  }

  /** The non-empty str entries of `comments[:5]`, each cut to 200 characters. */
  function CommentTexts(cs: seq<Json>, n: nat): (r: seq<string>)
    requires n <= |cs|
    ensures |r| <= n && forall i :: 0 <= i < |r| ==> |r[i]| <= CommentLength
  {
    if n == 0 then []
    else
      var before := CommentTexts(cs, n - 1);
      match cs[n - 1]
      case JStr(c) => if c != "" then before + [Take(c, CommentLength)] else before
      case _ => before
  }

  function CommentsField(item: Dict): seq<Json> {
    match Lookup(item, "comments")
    case Some(JArr(cs)) => Take(cs, CommentsPerItem)
    case _ => []
  }

  /** One record of the digest. */
  function EntryOf(item: Dict): (r: Result<Entry>)
    ensures r.Ok? ==> |r.value.comments| <= CommentsPerItem
    ensures r.Ok? ==> forall i :: 0 <= i < |r.value.comments| ==> |r.value.comments[i]| <= CommentLength
  {
    match EntryHeat(item)
    case Raise(e) => Raise(e)
    case Ok(heat) =>
      match SliceValue(Get(item, "detail_desc", JStr("")), DetailLength)
      case Raise(e) => Raise(e)
      case Ok(detail) =>
        var cs := CommentsField(item);
        Ok(Entry(Get(item, "title", JStr("无标题")), detail, heat, CommentTexts(cs, |cs|), Get(item, "url", JStr(""))))
  }

  /** The entries of the first `n` records. */
  function Entries(items: seq<Dict>, n: nat): Result<seq<Entry>>
    requires n <= |items|
  {
    if n == 0 then Ok([])
    else
      match Entries(items, n - 1)
      case Raise(e) => Raise(e)
      case Ok(es) =>
        match EntryOf(items[n - 1])
        case Raise(e) => Raise(e)
        case Ok(x) => Ok(es + [x])
  }

  /** `x["heat"]` as a sort key; heats that are not numbers are outside the model. */
  function EntryKey(e: Entry): Result<Key> {
    match Numeric(e.heat)
    case Some(h) => Ok(Key(h, 0.0))
    case None => Raise(Exc(OutsideModel, "a heat that is not a number"))
  }

  /** `sorted(contents_with_heat, key=lambda x: x["heat"], reverse=True)[:k]` */
  function TopEntries(items: seq<Dict>, k: int): Result<seq<Entry>> {
    match Entries(items, |items|)
    case Raise(e) => Raise(e)
    case Ok(es) =>
      match KeyAll(EntryKey, es)
      case Raise(e) => Raise(e)
      case Ok(keyed) => Ok(Take(Firsts(SortDesc(keyed)), k))
  }

  /** `f"  - 评论{j+1}: {comment}\n"` for the first `n` comments. */
  function CommentLines(cs: seq<string>, n: nat): string
    requires n <= |cs|
  {
    if n == 0 then "" else CommentLines(cs, n - 1) + "  - 评论" + NatText(n) + ": " + cs[n - 1] + "\n"
  }

  function CommentBlock(cs: seq<string>): string {
    if cs == [] then "" else "评论:\n" + CommentLines(cs, |cs|)
  }

  /** The header and the three fixed lines of the `i`-th entry. */
  function EntryHead(c: Codec, i: nat, e: Entry): string {
    "内容" + NatText(i + 1) + "[热度" + Str(c, e.heat) + "]: " + Str(c, e.title) + "\n"
    + "内容详情: " + Str(c, e.detail) + "\n"
    + "链接: " + Str(c, e.url) + "\n"
  }

  const Separator := "\n---\n\n"

  function EntryText(c: Codec, i: nat, e: Entry): string {
    EntryHead(c, i, e) + CommentBlock(e.comments) + Separator
  }

  /** The text of the first `n` entries. */
  function Digest(c: Codec, es: seq<Entry>, n: nat): string
    requires n <= |es|
  {
    if n == 0 then "" else Digest(c, es, n - 1) + EntryText(c, n - 1, es[n - 1])
  }

  /** `extract_top_k_contents(data, k)` */
  function TopKText(c: Codec, items: seq<Dict>, k: int): Result<string> {
    match TopEntries(items, k)
    case Raise(e) => Raise(e)
    case Ok(es) => Ok(Digest(c, es, |es|))
  }

  /** Without a `heat_value`, integer counts give likes + 4 * comments + collects, a missing count adding nothing. */
  lemma {:induction false} FallbackHeat(item: Dict, likes: int, talk: int, keeps: int)
    requires Lookup(item, "heat_value").None?
    requires Lookup(item, "like_count") == Some(JInt(likes)) || (Lookup(item, "like_count").None? && likes == 0)
    requires Lookup(item, "comment_count") == Some(JInt(talk)) || (Lookup(item, "comment_count").None? && talk == 0)
    requires Lookup(item, "collect_count") == Some(JInt(keeps)) || (Lookup(item, "collect_count").None? && keeps == 0)
    ensures EntryHeat(item) == Ok(JInt(likes + 4 * talk + keeps))
  {
  }

  /** A record that has a `heat_value` keeps it as it is, whatever its type. */
  lemma {:induction false} StoredHeat(item: Dict, v: Json)
    requires Lookup(item, "heat_value") == Some(v)
    ensures EntryHeat(item) == Ok(v)
  {
  }

  /** A comment survives exactly when it is a non-empty str among the first five. */
  lemma {:induction false} CommentTextsKept(cs: seq<Json>, n: nat)
    requires n <= |cs|
    ensures |CommentTexts(cs, n)| == |set i | 0 <= i < n && cs[i].JStr? && cs[i].s != ""|
  {
    var kept := set i | 0 <= i < n && cs[i].JStr? && cs[i].s != "";
    if n > 0 {
      CommentTextsKept(cs, n - 1);
      var before := set i | 0 <= i < n - 1 && cs[i].JStr? && cs[i].s != "";
      if cs[n - 1].JStr? && cs[n - 1].s != "" {
        assert kept == before + {n - 1};
      } else {
        assert kept == before;
      }
    }
  }

  /**
   * The `k` entries of the digest: at most `k`, in heat order, largest
   * first; with the entries cut they are exactly the records' entries, none
   * of the cut ones hotter than a kept one.
   */
  lemma {:induction false} TopEntriesFacts(items: seq<Dict>, k: int, r: seq<Entry>) returns (rest: seq<Entry>)
    requires TopEntries(items, k) == Ok(r)
    ensures k >= 0 ==> |r| <= k
    ensures Entries(items, |items|).Ok?
    ensures multiset(r) + multiset(rest) == multiset(Entries(items, |items|).value)
    ensures forall i, j :: 0 <= i < j < |r| ==>
      EntryKey(r[i]).Ok? && EntryKey(r[j]).Ok? && AtLeast(EntryKey(r[i]).value, EntryKey(r[j]).value)
    ensures forall i, j :: 0 <= i < |r| && 0 <= j < |rest| ==>
      EntryKey(r[i]).Ok? && EntryKey(rest[j]).Ok? && AtLeast(EntryKey(r[i]).value, EntryKey(rest[j]).value)
  {
    var es := Entries(items, |items|).value;
    var keyed := KeyAll(EntryKey, es).value;
    var all := Firsts(SortDesc(keyed));
    SortedBy(EntryKey, es, keyed, all);
    rest := SortedTop(EntryKey, es, keyed, k, r);
    forall i, j | 0 <= i < j < |r|
      ensures EntryKey(r[i]).Ok? && EntryKey(r[j]).Ok? && AtLeast(EntryKey(r[i]).value, EntryKey(r[j]).value)
    {
      assert r[i] == all[i] && r[j] == all[j];
    }
  }

  /** The digest is the entries' texts one after another, the first numbered 1. */
  lemma {:induction false} DigestAppend(c: Codec, es: seq<Entry>, x: Entry)
    ensures Digest(c, es + [x], |es| + 1) == Digest(c, es, |es|) + EntryText(c, |es|, x)
  {
    DigestPrefix(c, es, x, |es|);
  }

  lemma {:induction false} DigestPrefix(c: Codec, es: seq<Entry>, x: Entry, n: nat)
    requires n <= |es|
    ensures Digest(c, es + [x], n) == Digest(c, es, n)
  {
    if n > 0 {
      DigestPrefix(c, es, x, n - 1);
      assert (es + [x])[n - 1] == es[n - 1];
    }
  }

  lemma {:induction false} EntriesStop(items: seq<Dict>, k: nat)
    requires k <= |items| && Entries(items, k).Raise?
    ensures Entries(items, |items|) == Entries(items, k)
    decreases |items| - k
  {
    if k < |items| {
      EntriesStop(items, k + 1);
    }
  }

  /** One more record after a run of the first loop that went through. */
  lemma {:induction false} EntriesAdvance(items: seq<Dict>, i: nat, es: seq<Entry>, x: Result<Entry>)
    requires i < |items| && Entries(items, i) == Ok(es) && EntryOf(items[i]) == x
    ensures x.Raise? ==> Entries(items, |items|) == Raise(x.exc)
    ensures x.Ok? ==> Entries(items, i + 1) == Ok(es + [x.value])
  {
    var n := i + 1;
    assert n - 1 == i;
    assert Entries(items, n) == match x case Raise(e) => Raise(e) case Ok(v) => Ok(es + [v]);
    if x.Raise? {
      EntriesStop(items, n);
    }
  }

  method PickEntry(item: Dict) returns (r: Result<Entry>)
    ensures r == EntryOf(item)
  {
    var heat := Get(item, "heat_value", JInt(0));
    if !Truthy(heat) && Lookup(item, "heat_value").None? {
      var total := 0;
      var likes := Addend(item, "like_count", 1);
      if likes.Raise? {
        return Raise(likes.exc);
      }
      total := total + likes.value;
      var talk := Addend(item, "comment_count", 4);
      if talk.Raise? {
        return Raise(talk.exc);
      }
      total := total + talk.value;
      var keeps := Addend(item, "collect_count", 1);
      if keeps.Raise? {
        return Raise(keeps.exc);
      }
      total := total + keeps.value;
      heat := JInt(total);
    }
    var detail := SliceValue(Get(item, "detail_desc", JStr("")), DetailLength);
    if detail.Raise? {
      return Raise(detail.exc);
    }
    var comments: seq<string> := [];
    var cs := CommentsField(item);
    for j := 0 to |cs|
      invariant comments == CommentTexts(cs, j)
    {
      if cs[j].JStr? && cs[j].s != "" {
        comments := comments + [Take(cs[j].s, CommentLength)];
      }
    }
    r := Ok(Entry(Get(item, "title", JStr("无标题")), detail.value, heat, comments, Get(item, "url", JStr(""))));
  }

  /** The text of one entry, as the second loop appends it. */
  method WriteEntry(c: Codec, i: nat, e: Entry) returns (text: string)
    ensures text == EntryText(c, i, e)
  {
    text := EntryHead(c, i, e);
    if e.comments != [] {
      text := text + "评论:\n";
      for j := 0 to |e.comments|
        invariant text == EntryHead(c, i, e) + "评论:\n" + CommentLines(e.comments, j)
      {
        text := text + "  - 评论" + NatText(j + 1) + ": " + e.comments[j] + "\n";
      }
    }
    text := text + Separator;
  }

  /** The first loop of `extract_top_k_contents`: one entry per record, the first exception ending it. */
  method CollectEntries(items: seq<Dict>) returns (r: Result<seq<Entry>>)
    ensures r == Entries(items, |items|)
  {
    var entries: seq<Entry> := [];
    for i := 0 to |items|
      invariant Entries(items, i) == Ok(entries)
    {
      var e := PickEntry(items[i]);
      EntriesAdvance(items, i, entries, e);
      if e.Raise? {
        return Raise(e.exc);
      }
      entries := entries + [e.value];
    }
    r := Ok(entries);
  }

  /** The second loop of `extract_top_k_contents`: the text of each entry in turn. */
  method WriteDigest(c: Codec, top: seq<Entry>) returns (text: string)
    ensures text == Digest(c, top, |top|)
  {
    text := "";
    for i := 0 to |top|
      invariant text == Digest(c, top, i)
    {
      var block := WriteEntry(c, i, top[i]);
      text := text + block;
    }
  }

  /** `extract_top_k_contents(data, k)`: the entries, the sort and cut, then the text. */
  method ExtractTopKContents(c: Codec, items: seq<Dict>, k: int) returns (r: Result<string>)
    ensures r == TopKText(c, items, k)
  {
    var entries := CollectEntries(items);
    if entries.Raise? {
      return Raise(entries.exc);
    }
    var keyed := KeyAll(EntryKey, entries.value);
    if keyed.Raise? {
      return Raise(keyed.exc);
    }
    var top := Take(Firsts(SortDesc(keyed.value)), k);
    assert TopEntries(items, k) == Ok(top);
    var text := WriteDigest(c, top);
    r := Ok(text);
  }
}
