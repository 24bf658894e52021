/**
 * The LLM half of the atomic-insights pipeline (src/tools/atomic_insights.py):
 * three batched passes over the flattened records (brand mentions, user
 * competition, per-brand analysis) and the merge of their results into
 * five reserved keys of every record.
 */
module AtomicInsights {
  import opened Json
  import opened Python
  import opened Codec
  import opened Llm
  import opened AtomicFields
  import ExtractMarkdown
  import Sorting

  /** The wording of the three prompts around the content they embed; the text itself is not modelled. */
  datatype Prompts = Prompts(mentions: string -> string, competition: (string, string) -> string,
                             brand: (string, string) -> string)

  /** Each prompt embeds `content[:2000]`. */
  const ContentLimit := 2000
  /** The slice size of the mention and competition passes, and of the per-brand pass. */
  const PassBatch := 20
  const BrandBatch := 5
  /** The number of brands read from a record's mention counts. */
  const TopCount := 5

  function UserMessages(prompt: string): seq<Json> {
    [JObj([("role", JStr("user")), ("content", JStr(prompt))])]
  }

  /** `llm.batch_generate(batch_messages)`: no system prompt, the instance's model, plain text content. */
  function PassStep(c: Codec, g: Gateway, b: Backend): Step {
    GenerateStep(c, g, b, JNull, None, false, [])
  }

  /**
   * What the passes do with the LLM: `generate` one message list (a request
   * numbered by the clock), and parse one reply.  The passes are stated for
   * any such pair; `Concrete` is the pair `atomic_insights` uses.
   */
  datatype Tools = Tools(generate: Step, parse: Json -> Result<Json>)

  // ------------------------------------------------------------------ slices

  /** The results of one slice, then of the rest, or the first exception. */
  function Then(first: Call<seq<Json>>, rest: Call<seq<Json>>): Call<seq<Json>> {
    if first.result.Raise? then first
    else if rest.result.Raise? then Call(Raise(rest.result.exc), first.sent + rest.sent)
    else Call(Ok(first.result.value + rest.result.value), first.sent + rest.sent)
  }

  /** One more call after `prior`, unless `prior` raised. */
  function Extend(step: Step, clock: nat, prior: Call<seq<Json>>, msgs: seq<Json>): Call<seq<Json>> {
    if prior.result.Raise? then prior
    else
      var call := step(Next(clock, prior), msgs);
      match call.result
      case Raise(e) => Call(Raise(e), prior.sent + call.sent)
      case Ok(v) => Call(Ok(prior.result.value + [v]), prior.sent + call.sent)
  }

  lemma {:induction false} ThenExtend(step: Step, clock: nat, first: Call<seq<Json>>, rest: Call<seq<Json>>, msgs: seq<Json>)
    ensures Extend(step, clock, Then(first, rest), msgs) == Then(first, Extend(step, Next(clock, first), rest, msgs))
  {
    if first.result.Ok? && rest.result.Ok? {
      assert Next(clock, Then(first, rest)) == Next(Next(clock, first), rest);
      var call := step(Next(Next(clock, first), rest), msgs);
      assert first.sent + rest.sent + call.sent == first.sent + (rest.sent + call.sent);
      if call.result.Ok? {
        assert first.result.value + rest.result.value + [call.result.value]
            == first.result.value + (rest.result.value + [call.result.value]);
      }
    }
  }

  lemma {:induction false} BatchEmpty(step: Step, clock: nat, a: seq<seq<Json>>)
    ensures Batch(step, clock, a + []) == Then(Batch(step, clock, a), Batch(step, Next(clock, Batch(step, clock, a)), []))
  {
    var first := Batch(step, clock, a);
    assert a + [] == a;
    if first.result.Ok? {
      assert first.result.value + [] == first.result.value;
      assert first.sent + [] == first.sent;
    }
  }

  lemma {:induction false} BatchSnoc(step: Step, clock: nat, prefix: seq<seq<Json>>, last: seq<Json>)
    ensures Batch(step, clock, prefix + [last]) == Extend(step, clock, Batch(step, clock, prefix), last)
  {
    var l := prefix + [last];
    assert l[..|l| - 1] == prefix;
  }

  /** A batch of two parts is the batch of the first part followed by the batch of the second. */
  lemma {:induction false} BatchAppend(step: Step, clock: nat, a: seq<seq<Json>>, b: seq<seq<Json>>)
    ensures Batch(step, clock, a + b) ==
      Then(Batch(step, clock, a), Batch(step, Next(clock, Batch(step, clock, a)), b))
    decreases |b|
  {
    if b == [] {
      BatchEmpty(step, clock, a);
    } else {
      var first := Batch(step, clock, a);
      var p := b[..|b| - 1];
      var last := b[|b| - 1];
      var rest := Batch(step, Next(clock, first), p);
      assert a + b == (a + p) + [last] && b == p + [last];
      calc {
        Batch(step, clock, a + b);
        Batch(step, clock, (a + p) + [last]);
        { BatchSnoc(step, clock, a + p, last); }
        Extend(step, clock, Batch(step, clock, a + p), last);
        { BatchAppend(step, clock, a, p); }
        Extend(step, clock, Then(first, rest), last);
        { ThenExtend(step, clock, first, rest, last); }
        Then(first, Extend(step, Next(clock, first), rest, last));
        { BatchSnoc(step, Next(clock, first), p, last); }
        Then(first, Batch(step, Next(clock, first), p + [last]));
        Then(first, Batch(step, Next(clock, first), b));
      }
    }
  }

  lemma {:induction false} BatchAfter(step: Step, clock: nat, head: seq<seq<Json>>, slice: seq<seq<Json>>, done: Call<seq<Json>>)
    requires done == Batch(step, clock, head)
    ensures Batch(step, clock, head + slice) == Then(done, Batch(step, Next(clock, done), slice))
  {
    BatchAppend(step, clock, head, slice);
  }

  lemma {:induction false} BatchJoin(step: Step, clock: nat, lists: seq<seq<Json>>, i: nat, j: nat)
    requires i <= j <= |lists|
    ensures Batch(step, clock, lists[..i] + lists[i..j]) == Batch(step, clock, lists[..j])
  {
    assert lists[..i] + lists[i..j] == lists[..j];
  }

  lemma {:induction false} SliceJoin(step: Step, clock: nat, lists: seq<seq<Json>>, i: nat, j: nat, done: Call<seq<Json>>)
    requires i <= j <= |lists| && done == Batch(step, clock, lists[..i])
    ensures Batch(step, clock, lists[..j]) == Then(done, Batch(step, Next(clock, done), lists[i..j]))
  {
    BatchAfter(step, clock, lists[..i], lists[i..j], done);
    BatchJoin(step, clock, lists, i, j);
  }

  /**
   * One slice of the loop: `batch_generate` on `lists[i..i+n]` after the
   * earlier slices continues the one batch over all the lists, and an
   * exception in it ends that batch.
   */
  lemma {:induction false} SliceStep(step: Step, clock: nat, lists: seq<seq<Json>>, i: nat, j: nat,
                  responses: seq<Json>, sent: seq<Request>, part: Result<seq<Json>>, partSent: seq<Request>)
    requires i <= j <= |lists| && Batch(step, clock, lists[..i]) == Call(Ok(responses), sent)
    requires Call(part, partSent) == Batch(step, clock + |sent|, lists[i..j])
    ensures part.Ok? ==> Batch(step, clock, lists[..j]) == Call(Ok(responses + part.value), sent + partSent)
    ensures part.Raise? ==> Batch(step, clock, lists) == Call(Raise(part.exc), sent + partSent)
  {
    SliceJoin(step, clock, lists, i, j, Call(Ok(responses), sent));
    if part.Raise? {
      BatchStopsAtFirstRaise(step, clock, lists, j);
    }
  }

  lemma {:induction false} BatchWhole(step: Step, clock: nat, lists: seq<seq<Json>>, done: Call<seq<Json>>)
    requires Batch(step, clock, lists[..|lists|]) == done
    ensures Batch(step, clock, lists) == done
  {
    assert lists[..|lists|] == lists;
  }

  /** What the per-response loop does: `extract_structured_data(response, 'json')`. */
  function ParseResponse(c: Codec, response: Json): (r: Result<Json>)
    ensures response.JStr? ==> r == Ok(ExtractMarkdown.ExtractJson(c, response.s))
    // `json.loads(None)` when the reply had no content
    ensures !response.JStr? ==> r.Raise? && r.exc.kind == TypeError
  {
    assert LowerAscii("json") == "json";
    match response
    case JStr(s) => ExtractMarkdown.ExtractStructured(c, s, "json", None, _ => JNull)
    case _ => Raise(Exc(TypeError, "the JSON object must be str, bytes or bytearray, not NoneType"))
  }

  function Parser(c: Codec): Json -> Result<Json> {
    response => ParseResponse(c, response)
  }

  /** The LLM instance's `generate` and `extract_structured_data(response, 'json')`. */
  function Concrete(c: Codec, g: Gateway, b: Backend): (t: Tools)
    ensures OneRequestEach(t.generate)
  {
    GenerateStepOneRequest(c, g, b, JNull, None, false, []);
    Tools(PassStep(c, g, b), Parser(c))
  }

  /**
   * One pass: every message list generated in order, then every response
   * parsed.  The slices of `batch_size` lists the code hands to
   * `batch_generate` one after the other do not change the requests or the
   * results (`RunPass`).
   */
  function Pass(t: Tools, clock: nat, lists: seq<seq<Json>>): (r: Call<seq<Json>>)
    ensures r.result.Ok? ==> |r.result.value| == |lists|
  {
    var call := Batch(t.generate, clock, lists);
    match call.result
    case Raise(e) => Call(Raise(e), call.sent)
    case Ok(responses) => Call(MapAll(t.parse, responses), call.sent)
  }

  /**
   * A pass that succeeds gives one parsed result per message list, in input
   * order: the i-th is the parse of the reply to request `clock + i`, which
   * carried the i-th list; every list costs one request.
   */
  lemma {:induction false} PassResults(t: Tools, clock: nat, lists: seq<seq<Json>>)
    requires OneRequestEach(t.generate) && Pass(t, clock, lists).result.Ok?
    ensures var r := Pass(t, clock, lists);
      |r.result.value| == |lists| && |r.sent| == |lists|
      && forall i :: 0 <= i < |lists| ==> exists response ::
           t.generate(clock + i, lists[i]) == Call(Ok(response), [r.sent[i]])
           && t.parse(response) == Ok(r.result.value[i])
  {
    BatchSucceeds(t.generate, clock, lists);
    var responses := Batch(t.generate, clock, lists).result.value;
    var r := Pass(t, clock, lists);
    forall i | 0 <= i < |lists|
      ensures exists response ::
        t.generate(clock + i, lists[i]) == Call(Ok(response), [r.sent[i]]) && t.parse(response) == Ok(r.result.value[i])
    {
      assert t.parse(responses[i]) == Ok(r.result.value[i]);
    }
  }

  /**
   * `for i in range(0, len(messages), size): responses.extend(batch_generate(messages[i:i+size]))`,
   * for any generate step: the slices make the same requests, in the same
   * order, as one batch over all the lists.
   */
  method RunSlices(step: Step, clock: nat, lists: seq<seq<Json>>, size: nat)
    returns (r: Result<seq<Json>>, sent: seq<Request>)
    requires size > 0
    ensures Call(r, sent) == Batch(step, clock, lists)
  {
    var responses: seq<Json> := [];
    sent := [];
    var i := 0;
    while i < |lists|
      invariant 0 <= i <= |lists|
      invariant Batch(step, clock, lists[..i]) == Call(Ok(responses), sent)
    {
      var j := if i + size <= |lists| then i + size else |lists|;
      var part, partSent := RunBatch(step, clock + |sent|, lists[i..j]);
      SliceStep(step, clock, lists, i, j, responses, sent, part, partSent);
      sent := sent + partSent;
      if part.Raise? {
        return Raise(part.exc), sent;
      }
      responses := responses + part.value;
      i := j;
    }
    BatchWhole(step, clock, lists, Call(Ok(responses), sent));
    r := Ok(responses);
  }

  /** The slice loop of a pass with the LLM's `generate`, and the parsing loop after it. */
  method RunPass(t: Tools, clock: nat, lists: seq<seq<Json>>, size: nat)
    returns (r: Result<seq<Json>>, sent: seq<Request>)
    requires size > 0
    ensures Call(r, sent) == Pass(t, clock, lists)
  {
    var responses;
    responses, sent := RunSlices(t.generate, clock, lists, size);
    if responses.Raise? {
      return Raise(responses.exc), sent;
    }
    r := ParseResponses(t.parse, responses.value);
  }

  /** `for response in responses: result = extract_structured_data(response, 'json'); ...append(result)` */
  method ParseResponses(parse: Json -> Result<Json>, responses: seq<Json>) returns (r: Result<seq<Json>>)
    ensures r == MapAll(parse, responses)
  {
    var results: seq<Json> := [];
    for i := 0 to |responses|
      invariant MapPrefix(parse, responses, i) == Ok(results)
    {
      var result := parse(responses[i]);
      if result.Raise? {
        MapStops(parse, responses, i + 1, |responses|);
        return Raise(result.exc);
      }
      results := results + [result.value];
    }
    r := Ok(results);
  }

  // ---------------------------------------------------------- mention counts

  function MentionLists(pr: Prompts, contents: seq<string>): (ls: seq<seq<Json>>)
    ensures |ls| == |contents|
    ensures forall i :: 0 <= i < |contents| ==> ls[i] == UserMessages(pr.mentions(Take(contents[i], ContentLimit)))
  {
    seq(|contents|, i requires 0 <= i < |contents| => UserMessages(pr.mentions(Take(contents[i], ContentLimit))))
  }

  /** `batch_analyze_brand_mentions(full_contents, llm, batch_size=20)` */
  function MentionsPass(t: Tools, clock: nat, pr: Prompts, contents: seq<string>): Call<seq<Json>> {
    Pass(t, clock, MentionLists(pr, contents))
  }

  // ------------------------------------------------------------- top brands

  /** Every count can be compared with the others. */
  predicate AllCounts(ms: Dict) {
    forall i :: 0 <= i < |ms| ==> Numeric(ms[i].1).Some?
  }

  /** Counts in non-increasing order. */
  predicate CountsDesc(ms: Dict) {
    AllCounts(ms) && forall i, j :: 0 <= i < j < |ms| ==> Numeric(ms[i].1).value >= Numeric(ms[j].1).value
  }

  function Keyed(ms: Dict): (r: seq<((string, Json), Sorting.Key)>)
    requires AllCounts(ms)
    ensures |r| == |ms| && forall i :: 0 <= i < |ms| ==> r[i] == (ms[i], Sorting.Key(Numeric(ms[i].1).value, 0.0))
  {
    seq(|ms|, i requires 0 <= i < |ms| => (ms[i], Sorting.Key(Numeric(ms[i].1).value, 0.0)))
  }

  /** Every sorted entry comes from `ms` and carries its own count as key. */
  lemma {:induction false} SortedEntries(ms: Dict)
    requires AllCounts(ms)
    ensures var sorted := Sorting.SortDesc(Keyed(ms));
      forall i :: 0 <= i < |sorted| ==>
        sorted[i].0 in ms && Numeric(sorted[i].0.1) == Some(sorted[i].1.major)
  {
    var keyed := Keyed(ms);
    var sorted := Sorting.SortDesc(keyed);
    forall i | 0 <= i < |sorted|
      ensures sorted[i].0 in ms && Numeric(sorted[i].0.1) == Some(sorted[i].1.major)
    {
      assert sorted[i] in multiset(sorted);
      assert sorted[i] in multiset(keyed);
      var j :| 0 <= j < |keyed| && keyed[j] == sorted[i];
    }
  }

  lemma {:induction false} RankedFacts(ms: Dict, sorted: seq<((string, Json), Sorting.Key)>, r: Dict)
    requires AllCounts(ms) && sorted == Sorting.SortDesc(Keyed(ms)) && r == Sorting.Firsts(sorted)
    ensures |r| == |ms| && CountsDesc(r) && forall x :: x in r ==> x in ms
    ensures multiset(r) == multiset(ms)
  {
    assert Sorting.Firsts(Keyed(ms)) == ms;
    Sorting.FirstsPerm(sorted, Keyed(ms));
    SortedEntries(ms);
    forall i | 0 <= i < |r| ensures r[i] in ms && Numeric(r[i].1) == Some(sorted[i].1.major) {
      assert r[i] == sorted[i].0;
    }
    forall i, j | 0 <= i < j < |r| ensures Numeric(r[i].1).value >= Numeric(r[j].1).value {
      assert Sorting.AtLeast(sorted[i].1, sorted[j].1);
    }
  }

  /** `sorted(counts.items(), key=lambda x: x[1], reverse=True)`, when every count is a number. */
  function Ranked(ms: Dict): (r: Dict)
    requires AllCounts(ms)
    ensures |r| == |ms| && CountsDesc(r)
    ensures forall x :: x in r ==> x in ms
    ensures multiset(r) == multiset(ms)
  {
    var sorted := Sorting.SortDesc(Keyed(ms));
    RankedFacts(ms, sorted, Sorting.Firsts(sorted));
    Sorting.Firsts(sorted)
  }

  lemma {:induction false} TakeDesc(ms: Dict, n: nat)
    requires CountsDesc(ms)
    ensures CountsDesc(Take(ms, n)) && forall x :: x in Take(ms, n) ==> x in ms
  {
    var t := Take(ms, n);
    assert forall i :: 0 <= i < |t| ==> t[i] == ms[i];
  }

  /** Counts that are all str: Python orders them by code point. */
  predicate AllStrCounts(ms: Dict) {
    forall i :: 0 <= i < |ms| ==> ms[i].1.JStr?
  }

  /** Str counts in non-increasing order: no later count is greater. */
  predicate StrCountsDesc(ms: Dict) {
    AllStrCounts(ms) && forall i, j :: 0 <= i < j < |ms| ==> !Sorting.StrBelow(ms[i].1.s, ms[j].1.s)
  }

  /** Counts that are all lists: Python compares them element by element. */
  predicate AllListCounts(ms: Dict) {
    forall i :: 0 <= i < |ms| ==> ms[i].1.JArr?
  }

  function StrKeyed(ms: Dict): (r: seq<((string, Json), string)>)
    requires AllStrCounts(ms)
    ensures |r| == |ms| && forall i :: 0 <= i < |ms| ==> r[i] == (ms[i], ms[i].1.s)
  {
    seq(|ms|, i requires 0 <= i < |ms| => (ms[i], ms[i].1.s))
  }

  /** `sorted(counts.items(), key=lambda x: x[1], reverse=True)`, when every count is a str. */
  function StrRanked(ms: Dict): (r: Dict)
    requires AllStrCounts(ms)
    ensures |r| == |ms| && StrCountsDesc(r)
    ensures multiset(r) == multiset(ms)
  {
    var keyed := StrKeyed(ms);
    var sorted := Sorting.StrSortDesc(keyed);
    var r := Sorting.Firsts(sorted);
    forall i | 0 <= i < |sorted| ensures sorted[i].0.1 == JStr(sorted[i].1) {
      assert sorted[i] in multiset(keyed);
      var j :| 0 <= j < |keyed| && keyed[j] == sorted[i];
    }
    forall i | 0 <= i < |r| ensures r[i].1 == JStr(sorted[i].1) {
      assert r[i] == sorted[i].0;
    }
    forall i, j | 0 <= i < j < |r| ensures !Sorting.StrBelow(r[i].1.s, r[j].1.s) {
      assert r[i].1.s == sorted[i].1 && r[j].1.s == sorted[j].1;
    }
    assert Sorting.Firsts(keyed) == ms;
    Sorting.FirstsPerm(sorted, keyed);
    r
  }

  lemma {:induction false} TakeStrDesc(ms: Dict, n: nat)
    requires StrCountsDesc(ms)
    ensures StrCountsDesc(Take(ms, n))
  {
    var t := Take(ms, n);
    assert forall i :: 0 <= i < |t| ==> t[i] == ms[i];
  }

  lemma {:induction false} TakeWithin(ms: Dict, n: nat)
    ensures |Take(ms, n)| == (if n <= |ms| then n else |ms|)
    ensures forall x :: x in Take(ms, n) ==> x in ms
  {
    var t := Take(ms, n);
    assert forall i :: 0 <= i < |t| ==> t[i] == ms[i];
  }

  /** The first `n` of at most one member: nothing is compared. */
  function SingleTop(ms: Dict, n: nat): (r: Dict)
    requires |ms| <= 1
    ensures |r| == (if n <= |ms| then n else |ms|) && forall x :: x in r ==> x in ms
    ensures AllCounts(ms) ==> CountsDesc(r)
    ensures AllStrCounts(ms) ==> StrCountsDesc(r)
  {
    TakeWithin(ms, n);
    Take(ms, n)
  }

  /** The first `n` of the counts sorted as numbers. */
  function NumberTop(ms: Dict, n: nat): (r: Dict)
    requires AllCounts(ms)
    ensures |r| == (if n <= |ms| then n else |ms|) && forall x :: x in r ==> x in ms
    ensures CountsDesc(r)
  {
    var ranked := Ranked(ms);
    TakeDesc(ranked, n);
    TakeWithin(ranked, n);
    Take(ranked, n)
  }

  /** The first `n` of the counts sorted as str. */
  function StrTop(ms: Dict, n: nat): (r: Dict)
    requires AllStrCounts(ms)
    ensures |r| == (if n <= |ms| then n else |ms|) && forall x :: x in r ==> x in ms
    ensures StrCountsDesc(r)
  {
    var ranked := StrRanked(ms);
    TakeStrDesc(ranked, n);
    TakeWithin(ranked, n);
    assert forall x :: x in ranked ==> x in ms by {
      forall x | x in ranked ensures x in ms {
        assert x in multiset(ranked);
      }
    }
    Take(ranked, n)
  }

  /** A non-empty dict has counts of at most one of the three kinds. */
  lemma {:induction false} CountKinds(ms: Dict)
    requires |ms| >= 1
    ensures !(AllCounts(ms) && AllStrCounts(ms)) && !(AllCounts(ms) && AllListCounts(ms))
    ensures !(AllStrCounts(ms) && AllListCounts(ms))
  {
    var v := ms[0].1;
    assert Numeric(v).Some? ==> !v.JStr? && !v.JArr?;
  }

  /**
   * `sorted(counts.items(), key=lambda x: x[1], reverse=True)[:n]`.  A
   * single member is never compared; numbers compare with numbers and str
   * with str, and any other mix of two or more raises `TypeError`.  Lists
   * compare element by element, which the model does not follow.
   */
  function TopBrands(ms: Dict, n: nat): (r: Result<Dict>)
    ensures r.Ok? <==> |ms| <= 1 || AllCounts(ms) || AllStrCounts(ms)
    ensures r.Raise? ==> (r.exc.kind == OutsideModel <==> AllListCounts(ms))
    ensures r.Ok? ==> |r.value| == (if n <= |ms| then n else |ms|) && forall x :: x in r.value ==> x in ms
    ensures r.Ok? && AllCounts(ms) ==> CountsDesc(r.value)
    ensures r.Ok? && AllStrCounts(ms) ==> StrCountsDesc(r.value)
  {
    if |ms| <= 1 then Ok(SingleTop(ms, n))
    else if AllCounts(ms) then
      CountKinds(ms);
      Ok(NumberTop(ms, n))
    else if AllStrCounts(ms) then Ok(StrTop(ms, n))
    else if AllListCounts(ms) then Raise(Exc(OutsideModel, "comparing list counts"))
    else Raise(Exc(TypeError, "'<' not supported between instances"))
  }

  /** No number count left out is greater than a kept one. */
  predicate NumbersOutrank(top: Dict, rest: Dict) {
    forall x, y :: x in top && y in rest ==>
      Numeric(x.1).Some? && Numeric(y.1).Some? && Numeric(x.1).value >= Numeric(y.1).value
  }

  /** No str count left out is greater than a kept one. */
  predicate StrsOutrank(top: Dict, rest: Dict) {
    forall x, y :: x in top && y in rest ==>
      x.1.JStr? && y.1.JStr? && !Sorting.StrBelow(x.1.s, y.1.s)
  }

  /** The first `n` of a ranked list and the others make up the counts. */
  lemma {:induction false} CutSplit(ranked: Dict, ms: Dict, n: nat) returns (rest: Dict)
    requires multiset(ranked) == multiset(ms)
    ensures ranked == Take(ranked, n) + rest
    ensures multiset(Take(ranked, n)) + multiset(rest) == multiset(ms)
    ensures |Take(ranked, n)| < n ==> rest == []
  {
    var m := |Take(ranked, n)|;
    rest := ranked[m..];
    assert ranked == ranked[..m] + rest;
  }

  lemma {:induction false} NumberCut(ranked: Dict, top: Dict, rest: Dict)
    requires CountsDesc(ranked) && ranked == top + rest
    ensures NumbersOutrank(top, rest)
  {
    forall x, y | x in top && y in rest
      ensures Numeric(x.1).Some? && Numeric(y.1).Some? && Numeric(x.1).value >= Numeric(y.1).value
    {
      var i :| 0 <= i < |top| && top[i] == x;
      var j :| 0 <= j < |rest| && rest[j] == y;
      assert ranked[i] == x && ranked[|top| + j] == y;
    }
  }

  lemma {:induction false} StrCut(ranked: Dict, top: Dict, rest: Dict)
    requires StrCountsDesc(ranked) && ranked == top + rest
    ensures StrsOutrank(top, rest)
  {
    forall x, y | x in top && y in rest
      ensures x.1.JStr? && y.1.JStr? && !Sorting.StrBelow(x.1.s, y.1.s)
    {
      var i :| 0 <= i < |top| && top[i] == x;
      var j :| 0 <= j < |rest| && rest[j] == y;
      assert ranked[i] == x && ranked[|top| + j] == y;
    }
  }

  /**
   * The top `n` are the `n` largest counts: what is kept and what is left
   * out make up the counts, and no count left out is greater than a kept one.
   */
  lemma {:induction false} TopBrandsSplit(ms: Dict, n: nat) returns (rest: Dict)
    requires TopBrands(ms, n).Ok?
    ensures multiset(TopBrands(ms, n).value) + multiset(rest) == multiset(ms)
    ensures |TopBrands(ms, n).value| < n ==> rest == []
    ensures AllCounts(ms) ==> NumbersOutrank(TopBrands(ms, n).value, rest)
    ensures AllStrCounts(ms) ==> StrsOutrank(TopBrands(ms, n).value, rest)
  {
    if |ms| <= 1 {
      rest := CutSplit(ms, ms, n);
      assert rest == [] || Take(ms, n) == [];
    } else if AllCounts(ms) {
      CountKinds(ms);
      var ranked := Ranked(ms);
      rest := CutSplit(ranked, ms, n);
      NumberCut(ranked, Take(ranked, n), rest);
    } else {
      var ranked := StrRanked(ms);
      rest := CutSplit(ranked, ms, n);
      StrCut(ranked, Take(ranked, n), rest);
    }
  }

  /** The parts `f"{b}({c}次)"` of the brand context. */
  function CountText(c: Codec, member: (string, Json)): string {
    member.0 + "(" + Text(c, member.1) + "次)"
  }

  /** The brand context line of a record's competition prompt. */
  function BrandContext(c: Codec, mention: Json): Result<string> {
    match mention
    case JObj(ms) =>
      (match TopBrands(ms, TopCount)
       case Raise(e) => Raise(e)
       case Ok(top) =>
         if top == [] then Ok("")
         else Ok("在此内容中发现的主要品牌：" + Join(", ", seq(|top|, i requires 0 <= i < |top| => CountText(c, top[i])))
                 + "\n\n"))
    // `None.items()`: a failed extraction reaches this pass undegraded
    case _ => Raise(Exc(AttributeError, "object has no attribute 'items'"))
  }

  function ContextAt(c: Codec, mentions: seq<Json>, i: nat): Result<string> {
    if i < |mentions| then BrandContext(c, mentions[i]) else Ok("")
  }

  /** `[0, 1, ..., n - 1]`, the positions `enumerate` walks. */
  function Indices(n: nat): (r: seq<nat>)
    ensures |r| == n && forall i :: 0 <= i < n ==> r[i] == i
  {
    seq(n, i requires 0 <= i < n => i)
  }

  /** The competition prompt of content `i`, after its brand context. */
  function CompetitionPromptAt(c: Codec, pr: Prompts, contents: seq<string>, mentions: seq<Json>, i: nat)
    : Result<seq<Json>>
  {
    if i >= |contents| then Ok([])
    else
      match ContextAt(c, mentions, i)
      case Raise(e) => Raise(e)
      case Ok(context) => Ok(UserMessages(pr.competition(context, Take(contents[i], ContentLimit))))
  }

  function CompetitionPrompt(c: Codec, pr: Prompts, contents: seq<string>, mentions: seq<Json>): nat -> Result<seq<Json>> {
    (i: nat) => CompetitionPromptAt(c, pr, contents, mentions, i)
  }

  /** The competition prompts, one per content, in order; the first failing brand context raises. */
  function CompetitionLists(c: Codec, pr: Prompts, contents: seq<string>, mentions: seq<Json>): Result<seq<seq<Json>>> {
    MapAll(CompetitionPrompt(c, pr, contents, mentions), Indices(|contents|))
  }

  /** Mapping over the positions `0..n` visits `f(0)`, ..., `f(n - 1)`. */
  lemma {:induction false} MapIndices<B>(f: nat -> Result<B>, n: nat)
    ensures var r := MapAll(f, Indices(n));
      (r.Ok? <==> forall i :: 0 <= i < n ==> f(i).Ok?)
      && (r.Ok? ==> |r.value| == n && forall i :: 0 <= i < n ==> f(i) == Ok(r.value[i]))
  {
    var ix := Indices(n);
    var r := MapAll(f, ix);
    forall i | 0 <= i < n ensures f(ix[i]) == f(i) {
      assert ix[i] == i;
    }
    if forall i :: 0 <= i < n ==> f(i).Ok? {
      assert forall i :: 0 <= i < |ix| ==> f(ix[i]).Ok?;
    } else {
      var j :| 0 <= j < n && !f(j).Ok?;
      assert !f(ix[j]).Ok?;
    }
  }

  /**
   * The prompts are built only when every brand context is, and each
   * prompt carries the context of its own record.
   */
  lemma {:induction false} CompetitionListsShape(c: Codec, pr: Prompts, contents: seq<string>, mentions: seq<Json>)
    ensures var r := CompetitionLists(c, pr, contents, mentions);
      (r.Ok? <==> forall i :: 0 <= i < |contents| ==> ContextAt(c, mentions, i).Ok?)
      && (r.Ok? ==> |r.value| == |contents|)
      && (r.Ok? ==> forall i :: 0 <= i < |contents| ==>
            r.value[i] == UserMessages(pr.competition(ContextAt(c, mentions, i).value, Take(contents[i], ContentLimit))))
  {
    var f := CompetitionPrompt(c, pr, contents, mentions);
    MapIndices(f, |contents|);
    forall i | 0 <= i < |contents|
      ensures f(i).Ok? <==> ContextAt(c, mentions, i).Ok?
      ensures f(i).Ok? ==> f(i).value == UserMessages(pr.competition(ContextAt(c, mentions, i).value, Take(contents[i], ContentLimit)))
    {
    }
  }

  /** A record whose mention counts are not a dict (a failed extraction) makes the pass raise. */
  lemma {:induction false} CompetitionRaises(c: Codec, pr: Prompts, contents: seq<string>, mentions: seq<Json>, i: nat)
    requires i < |contents| && i < |mentions| && !mentions[i].JObj?
    ensures CompetitionLists(c, pr, contents, mentions).Raise?
  {
    var f := CompetitionPrompt(c, pr, contents, mentions);
    MapIndices(f, |contents|);
    assert ContextAt(c, mentions, i).Raise?;
    assert f(i).Raise?;
  }

  /** One prompt of `batch_analyze_user_competition`, after the brand context of its record. */
  method BuildCompetitionPrompt(c: Codec, pr: Prompts, contents: seq<string>, mentions: seq<Json>, i: nat)
    returns (r: Result<seq<Json>>)
    requires i < |contents|
    ensures r == CompetitionPromptAt(c, pr, contents, mentions, i)
  {
    var context := "";
    if i < |mentions| {
      var built := BrandContext(c, mentions[i]);
      if built.Raise? {
        return Raise(built.exc);
      }
      context := built.value;
    }
    r := Ok(UserMessages(pr.competition(context, Take(contents[i], ContentLimit))));
  }

  /** The prompt-building loop of `batch_analyze_user_competition`. */
  method BuildCompetitionLists(c: Codec, pr: Prompts, contents: seq<string>, mentions: seq<Json>)
    returns (r: Result<seq<seq<Json>>>)
    ensures r == CompetitionLists(c, pr, contents, mentions)
  {
    ghost var f := CompetitionPrompt(c, pr, contents, mentions);
    ghost var ix := Indices(|contents|);
    var lists: seq<seq<Json>> := [];
    for i := 0 to |contents|
      invariant MapPrefix(f, ix, i) == Ok(lists)
    {
      var one := BuildCompetitionPrompt(c, pr, contents, mentions, i);
      assert ix[i] == i && f(i) == CompetitionPromptAt(c, pr, contents, mentions, i);
      MapAdvance(f, ix, i, lists, one);
      if one.Raise? {
        return Raise(one.exc);
      }
      lists := lists + [one.value];
    }
    r := Ok(lists);
  }

  /** `batch_analyze_user_competition(full_contents, brand_mentions_list, llm, batch_size=20)` */
  function CompetitionPass(t: Tools, c: Codec, clock: nat, pr: Prompts, contents: seq<string>,
                           mentions: seq<Json>): Call<seq<Json>> {
    match CompetitionLists(c, pr, contents, mentions)
    case Raise(e) => Call(Raise(e), [])
    case Ok(lists) => Pass(t, clock, lists)
  }

  // --------------------------------------------------------- per-brand pass

  /** `[brand for brand, _ in main_brands if brand]` */
  function Named(top: Dict): (r: seq<string>)
    ensures |r| <= |top|
    ensures forall x :: x in r ==> x != "" && exists m :: m in top && m.0 == x
    ensures forall m :: m in top && m.0 != "" ==> m.0 in r
    decreases |top|
  {
    if top == [] then []
    else
      var p := top[..|top| - 1];
      var last := top[|top| - 1];
      assert forall m :: m in top ==> m in p || m == last;
      Named(p) + (if last.0 != "" then [last.0] else [])
  }

  /** The brands a record is analysed for: none unless its mention counts are truthy. */
  function RecordBrands(mention: Json): Result<seq<string>> {
    if !Truthy(mention) then Ok([])
    else
      match mention
      case JObj(ms) =>
        (match TopBrands(ms, TopCount)
         case Raise(e) => Raise(e)
         case Ok(top) => Ok(Named(top)))
      case _ => Raise(Exc(AttributeError, "object has no attribute 'items'"))
  }

  /** No named entry left out of `brands` has a greater number count than `e`. */
  predicate NumberLeads(ms: Dict, brands: seq<string>, e: (string, Json)) {
    forall m :: m in ms && m.0 != "" && m.0 !in brands ==>
      Numeric(e.1).Some? && Numeric(m.1).Some? && Numeric(e.1).value >= Numeric(m.1).value
  }

  /** No named entry left out of `brands` has a greater str count than `e`. */
  predicate StrLeads(ms: Dict, brands: seq<string>, e: (string, Json)) {
    forall m :: m in ms && m.0 != "" && m.0 !in brands ==>
      e.1.JStr? && m.1.JStr? && !Sorting.StrBelow(e.1.s, m.1.s)
  }

  /** A named entry of the counts that is not a brand was left out of the top. */
  lemma {:induction false} LeftOut(ms: Dict, top: Dict, rest: Dict, m: (string, Json))
    requires multiset(top) + multiset(rest) == multiset(ms)
    requires m in ms && m.0 != "" && m.0 !in Named(top)
    ensures m in rest
  {
    assert m in multiset(ms);
    assert m !in top;
    assert m !in multiset(top);
  }

  /** At most five brands, never the empty name, each one a key of the counts. */
  lemma {:induction false} RecordBrandsBound(mention: Json)
    requires RecordBrands(mention).Ok?
    ensures var brands := RecordBrands(mention).value;
      |brands| <= TopCount
      && forall x :: x in brands ==> x != "" && mention.JObj? && x in Keys(mention.members)
  {
    if Truthy(mention) {
      var top := TopBrands(mention.members, TopCount).value;
      forall x | x in Named(top) ensures x in Keys(mention.members) {
        var m :| m in top && m.0 == x;
        assert m in mention.members;
        var i :| 0 <= i < |mention.members| && mention.members[i] == m;
      }
    }
  }

  /** A record's brands are the names of the kept entries; every named entry not a brand was left out. */
  lemma {:induction false} BrandsCut(mention: Json) returns (top: Dict, rest: Dict)
    requires RecordBrands(mention).Ok? && mention.JObj? && Truthy(mention)
    ensures top == TopBrands(mention.members, TopCount).value
    ensures RecordBrands(mention).value == Named(top)
    ensures AllCounts(mention.members) ==> NumbersOutrank(top, rest)
    ensures AllStrCounts(mention.members) ==> StrsOutrank(top, rest)
    ensures forall m :: m in mention.members && m.0 != "" && m.0 !in Named(top) ==> m in rest
  {
    var ms := mention.members;
    top := TopBrands(ms, TopCount).value;
    rest := TopBrandsSplit(ms, TopCount);
    forall m | m in ms && m.0 != "" && m.0 !in Named(top) ensures m in rest {
      LeftOut(ms, top, rest, m);
    }
  }

  /**
   * The brands are the top five by number count: each comes with an entry of
   * the counts that no named entry left out exceeds.
   */
  lemma {:induction false} RecordBrandsTop(mention: Json)
    requires RecordBrands(mention).Ok? && mention.JObj?
    ensures var brands := RecordBrands(mention).value;
      AllCounts(mention.members) ==>
        forall b :: b in brands ==> exists e :: e in mention.members && e.0 == b && NumberLeads(mention.members, brands, e)
  {
    var ms := mention.members;
    var brands := RecordBrands(mention).value;
    if Truthy(mention) && AllCounts(ms) {
      var top, rest := BrandsCut(mention);
      forall b | b in brands
        ensures exists e :: e in ms && e.0 == b && NumberLeads(ms, brands, e)
      {
        var e :| e in top && e.0 == b;
        assert NumberLeads(ms, brands, e);
      }
    }
  }

  /** The same for str counts, ordered by code points. */
  lemma {:induction false} RecordBrandsTopStr(mention: Json)
    requires RecordBrands(mention).Ok? && mention.JObj?
    ensures var brands := RecordBrands(mention).value;
      AllStrCounts(mention.members) ==>
        forall b :: b in brands ==> exists e :: e in mention.members && e.0 == b && StrLeads(mention.members, brands, e)
  {
    var ms := mention.members;
    var brands := RecordBrands(mention).value;
    if Truthy(mention) && AllStrCounts(ms) {
      var top, rest := BrandsCut(mention);
      forall b | b in brands
        ensures exists e :: e in ms && e.0 == b && StrLeads(ms, brands, e)
      {
        var e :| e in top && e.0 == b;
        assert StrLeads(ms, brands, e);
      }
    }
  }

  function BrandsAt(mentions: seq<Json>, i: nat): Result<seq<string>> {
    if i < |mentions| then RecordBrands(mentions[i]) else Ok([])
  }

  function BrandLists(pr: Prompts, content: string, brands: seq<string>): (ls: seq<seq<Json>>)
    ensures |ls| == |brands|
  {
    seq(|brands|, i requires 0 <= i < |brands| => UserMessages(pr.brand(brands[i], Take(content, ContentLimit))))
  }

  /** The names among the first `n` of `xs`. */
  function Among(xs: seq<string>, n: nat): set<string> {
    set i | 0 <= i < n && i < |xs| :: xs[i]
  }

  /** `brand_analysis[brand] = result` over the first `n` pairs of `zip(brands, results)`. */
  function Zip(brands: seq<string>, results: seq<Json>, n: nat): Dict
    requires n <= |brands| && n <= |results|
  {
    if n == 0 then [] else Set(Zip(brands, results, n - 1), brands[n - 1], results[n - 1])
  }

  /** Every brand is a key, holding the result of its last occurrence. */
  lemma {:induction false} ZipFacts(brands: seq<string>, results: seq<Json>, n: nat)
    requires n <= |brands| && n <= |results|
    ensures Keys(Zip(brands, results, n)) == Among(brands, n)
    ensures forall i :: 0 <= i < n && (forall j :: i < j < n ==> brands[j] != brands[i]) ==>
      Lookup(Zip(brands, results, n), brands[i]) == Some(results[i])
    decreases n
  {
    if n > 0 {
      ZipFacts(brands, results, n - 1);
      ZipStep(brands, results, n, Zip(brands, results, n - 1));
    }
  }

  lemma {:induction false} ZipStep(brands: seq<string>, results: seq<Json>, n: nat, prior: Dict)
    requires 0 < n <= |brands| && n <= |results|
    requires Keys(prior) == Among(brands, n - 1)
    requires forall i :: 0 <= i < n - 1 && (forall j :: i < j < n - 1 ==> brands[j] != brands[i]) ==>
      Lookup(prior, brands[i]) == Some(results[i])
    ensures var d := Set(prior, brands[n - 1], results[n - 1]);
      Keys(d) == Among(brands, n)
      && forall i :: 0 <= i < n && (forall j :: i < j < n ==> brands[j] != brands[i]) ==>
           Lookup(d, brands[i]) == Some(results[i])
  {
    var k := brands[n - 1];
    KeysSet(prior, k, results[n - 1]);
    assert Among(brands, n) == Among(brands, n - 1) + {k};
    forall i | 0 <= i < n
      ensures Lookup(Set(prior, k, results[n - 1]), brands[i]) == if brands[i] == k then Some(results[n - 1]) else Lookup(prior, brands[i])
    {
      LookupSet(prior, k, results[n - 1], brands[i]);
    }
  }

  /** `analyze_brands_for_content(content, brands, llm)`: nothing is sent for no brands. */
  function AnalyzeBrands(t: Tools, clock: nat, pr: Prompts, content: string,
                         brands: seq<string>): (r: Call<Dict>)
    ensures brands == [] ==> r == Call(Ok([]), [])
    ensures r.result.Ok? ==> Keys(r.result.value) == Among(brands, |brands|)
  {
    if brands == [] then Call(Ok([]), [])
    else
      var call := Pass(t, clock, BrandLists(pr, content, brands));
      match call.result
      case Raise(e) => Call(Raise(e), call.sent)
      case Ok(results) =>
        ZipFacts(brands, results, |brands|);
        Call(Ok(Zip(brands, results, |brands|)), call.sent)
  }

  /** Every brand of the record gets the parsed reply to its own prompt. */
  lemma {:induction false} AnalyzeBrandsResults(t: Tools, clock: nat, pr: Prompts, content: string,
                             brands: seq<string>, i: nat)
    requires OneRequestEach(t.generate) && AnalyzeBrands(t, clock, pr, content, brands).result.Ok? && i < |brands|
    requires forall j :: i < j < |brands| ==> brands[j] != brands[i]
    ensures var r := AnalyzeBrands(t, clock, pr, content, brands);
      |r.sent| == |brands|
      && exists response ::
           t.generate(clock + i, UserMessages(pr.brand(brands[i], Take(content, ContentLimit))))
             == Call(Ok(response), [r.sent[i]])
           && Lookup(r.result.value, brands[i]).Some?
           && t.parse(response) == Ok(Lookup(r.result.value, brands[i]).value)
  {
    var lists := BrandLists(pr, content, brands);
    PassResults(t, clock, lists);
    ZipFacts(brands, Pass(t, clock, lists).result.value, |brands|);
    assert lists[i] == UserMessages(pr.brand(brands[i], Take(content, ContentLimit)));
  }

  /** The brand slices of one record and the zip after them. */
  method AnalyzeBrandsForContent(t: Tools, clock: nat, pr: Prompts, content: string,
                                 brands: seq<string>) returns (r: Result<Dict>, sent: seq<Request>)
    ensures Call(r, sent) == AnalyzeBrands(t, clock, pr, content, brands)
  {
    if brands == [] {
      return Ok([]), [];
    }
    var results;
    results, sent := RunPass(t, clock, BrandLists(pr, content, brands), BrandBatch);
    if results.Raise? {
      return Raise(results.exc), sent;
    }
    var analysis := ZipResults(brands, results.value);
    r := Ok(analysis);
  }

  /** `for brand, result in zip(brands, results): brand_analysis[brand] = result` */
  method ZipResults(brands: seq<string>, results: seq<Json>) returns (d: Dict)
    requires |brands| == |results|
    ensures d == Zip(brands, results, |brands|)
  {
    d := [];
    for i := 0 to |brands|
      invariant d == Zip(brands, results, i)
    {
      d := Set(d, brands[i], results[i]);
    }
  }

  /**
   * `n` steps one after the other, step `i` numbering its requests after
   * those of the steps before it; the first exception ends the run.
   */
  function Chain<B>(f: (nat, nat) -> Call<B>, clock: nat, n: nat): (r: Call<seq<B>>)
    ensures r.result.Ok? ==> |r.result.value| == n
    decreases n
  {
    if n == 0 then Call(Ok([]), [])
    else
      var prior := Chain(f, clock, n - 1);
      if prior.result.Raise? then prior
      else
        var one := f(Next(clock, prior), n - 1);
        match one.result
        case Raise(e) => Call(Raise(e), prior.sent + one.sent)
        case Ok(d) => Call(Ok(prior.result.value + [d]), prior.sent + one.sent)
  }

  /** A run that succeeds holds, at `i`, what step `i` gave after the requests of the earlier steps. */
  lemma {:induction false} ChainResults<B>(f: (nat, nat) -> Call<B>, clock: nat, n: nat)
    requires Chain(f, clock, n).result.Ok?
    ensures forall i :: 0 <= i < n ==>
      Chain(f, clock, i).result.Ok?
      && f(Next(clock, Chain(f, clock, i)), i).result == Ok(Chain(f, clock, n).result.value[i])
    decreases n
  {
    if n > 0 {
      ChainResults(f, clock, n - 1);
    }
  }

  /** One more step after a run that succeeded. */
  lemma {:induction false} ChainNext<B>(f: (nat, nat) -> Call<B>, clock: nat, i: nat, done: seq<B>, sent: seq<Request>,
                     n: nat, one: Call<B>)
    requires Chain(f, clock, i) == Call(Ok(done), sent) && n == clock + |sent| && f(n, i) == one
    ensures Chain(f, clock, i + 1) ==
      if one.result.Raise? then Call(Raise(one.result.exc), sent + one.sent)
      else Call(Ok(done + [one.result.value]), sent + one.sent)
  {
  }

  lemma {:induction false} ChainStops<B>(f: (nat, nat) -> Call<B>, clock: nat, k: nat, n: nat)
    requires k <= n && Chain(f, clock, k).result.Raise?
    ensures Chain(f, clock, n) == Chain(f, clock, k)
    decreases n
  {
    if k < n {
      ChainStops(f, clock, k, n - 1);
    }
  }

  /** The step after a run that succeeded: either the run goes on, or it ends with that step's exception. */
  lemma {:induction false} ChainAdvance<B>(f: (nat, nat) -> Call<B>, clock: nat, i: nat, total: nat, done: seq<B>,
                        sent: seq<Request>, n: nat, one: Call<B>)
    requires i < total && Chain(f, clock, i) == Call(Ok(done), sent) && n == clock + |sent| && f(n, i) == one
    ensures one.result.Raise? ==> Chain(f, clock, total) == Call(Raise(one.result.exc), sent + one.sent)
    ensures one.result.Ok? ==> Chain(f, clock, i + 1) == Call(Ok(done + [one.result.value]), sent + one.sent)
  {
    ChainNext(f, clock, i, done, sent, n, one);
    if one.result.Raise? {
      ChainStops(f, clock, i + 1, total);
    }
  }

  /** Step 6 for record `i`: its brands, then their analysis. */
  function BrandStep(t: Tools, pr: Prompts, contents: seq<string>, mentions: seq<Json>,
                     n: nat, i: nat): Call<Dict>
  {
    if i >= |contents| then Call(Ok([]), [])
    else
      match BrandsAt(mentions, i)
      case Raise(e) => Call(Raise(e), [])
      case Ok(brands) => AnalyzeBrands(t, n, pr, contents[i], brands)
  }

  function BrandStage(t: Tools, pr: Prompts, contents: seq<string>, mentions: seq<Json>)
    : (nat, nat) -> Call<Dict>
  {
    (n: nat, i: nat) => BrandStep(t, pr, contents, mentions, n, i)
  }

  /** The per-record loop of step 6. */
  function BrandPasses(t: Tools, clock: nat, pr: Prompts, contents: seq<string>,
                       mentions: seq<Json>): Call<seq<Dict>>
  {
    Chain(BrandStage(t, pr, contents, mentions), clock, |contents|)
  }

  /** Step `i` of the chain is the analysis of record `i`'s brands, or the exception finding them. */
  lemma {:induction false} BrandStageAt(t: Tools, pr: Prompts, contents: seq<string>, mentions: seq<Json>,
                     n: nat, i: nat)
    requires i < |contents|
    ensures var call := BrandStep(t, pr, contents, mentions, n, i);
      (BrandsAt(mentions, i).Raise? ==> call == Call(Raise(BrandsAt(mentions, i).exc), []))
      && (BrandsAt(mentions, i).Ok? ==> call == AnalyzeBrands(t, n, pr, contents[i], BrandsAt(mentions, i).value))
  {
  }

  /** After step 6, every record's analysis has exactly that record's brands as keys. */
  lemma {:induction false} BrandPassesKeys(t: Tools, clock: nat, pr: Prompts,
                        contents: seq<string>, mentions: seq<Json>)
    requires BrandPasses(t, clock, pr, contents, mentions).result.Ok?
    ensures var r := BrandPasses(t, clock, pr, contents, mentions).result.value;
      |r| == |contents|
      && forall i :: 0 <= i < |contents| ==>
           BrandsAt(mentions, i).Ok? && Keys(r[i]) == Among(BrandsAt(mentions, i).value, |BrandsAt(mentions, i).value|)
  {
    var f := BrandStage(t, pr, contents, mentions);
    ChainResults(f, clock, |contents|);
    var r := Chain(f, clock, |contents|).result.value;
    forall i | 0 <= i < |contents|
      ensures BrandsAt(mentions, i).Ok? && Keys(r[i]) == Among(BrandsAt(mentions, i).value, |BrandsAt(mentions, i).value|)
    {
      BrandStageAt(t, pr, contents, mentions, Next(clock, Chain(f, clock, i)), i);
    }
  }

  /** One record of step 6: its brands, then their analysis. */
  method RunBrandStage(t: Tools, clock: nat, pr: Prompts, contents: seq<string>,
                       mentions: seq<Json>, i: nat) returns (one: Call<Dict>)
    requires i < |contents|
    ensures one == BrandStage(t, pr, contents, mentions)(clock, i)
  {
    var brands := if i < |mentions| then RecordBrands(mentions[i]) else Ok([]);
    if brands.Raise? {
      one := Call(Raise(brands.exc), []);
    } else {
      var r, sent := AnalyzeBrandsForContent(t, clock, pr, contents[i], brands.value);
      one := Call(r, sent);
    }
    BrandStageAt(t, pr, contents, mentions, clock, i);
  }

  method RunBrandPasses(t: Tools, clock: nat, pr: Prompts, contents: seq<string>,
                        mentions: seq<Json>) returns (r: Result<seq<Dict>>, sent: seq<Request>)
    ensures Call(r, sent) == BrandPasses(t, clock, pr, contents, mentions)
  {
    ghost var f := BrandStage(t, pr, contents, mentions);
    assert BrandPasses(t, clock, pr, contents, mentions) == Chain(f, clock, |contents|);
    var all: seq<Dict> := [];
    sent := [];
    for i := 0 to |contents|
      invariant Chain(f, clock, i) == Call(Ok(all), sent)
    {
      var n: nat := clock + |sent|;
      var one := RunBrandStage(t, n, pr, contents, mentions, i);
      ChainAdvance(f, clock, i, |contents|, all, sent, n, one);
      if one.result.Raise? {
        return Raise(one.result.exc), sent + one.sent;
      }
      sent := sent + one.sent;
      all := all + [one.result.value];
    }
    r := Ok(all);
  }

  // ------------------------------------------------------------------ merge

  /** What a brand's entry in each of the three dicts is, with the code's defaults. */
  function SentimentOf(ms: Dict): Json {
    Get(ms, "sentiment", JStr("neutral"))
  }

  function FeaturesOf(ms: Dict): Json {
    Get(ms, "features", JObj([]))
  }

  function Sides(ms: Dict): Json {
    JObj([("strengths", Get(ms, "strengths", JArr([]))), ("weaknesses", Get(ms, "weaknesses", JArr([])))])
  }

  /** Each brand's sentiment, features, and strengths and weaknesses, in order. */
  function SentimentColumn(d: Dict): (r: seq<Json>)
    ensures |r| == |d| && forall i :: 0 <= i < |d| && d[i].1.JObj? ==> r[i] == SentimentOf(d[i].1.members)
  {
    seq(|d|, i requires 0 <= i < |d| => if d[i].1.JObj? then SentimentOf(d[i].1.members) else JNull)
  }

  function FeaturesColumn(d: Dict): (r: seq<Json>)
    ensures |r| == |d| && forall i :: 0 <= i < |d| && d[i].1.JObj? ==> r[i] == FeaturesOf(d[i].1.members)
  {
    seq(|d|, i requires 0 <= i < |d| => if d[i].1.JObj? then FeaturesOf(d[i].1.members) else JNull)
  }

  function SidesColumn(d: Dict): (r: seq<Json>)
    ensures |r| == |d| && forall i :: 0 <= i < |d| && d[i].1.JObj? ==> r[i] == Sides(d[i].1.members)
  {
    seq(|d|, i requires 0 <= i < |d| => if d[i].1.JObj? then Sides(d[i].1.members) else JNull)
  }

  /**
   * The three per-brand dicts of one record, from its brand analysis: each
   * brand is assigned, in order, its sentiment, its features and its
   * strengths and weaknesses.  A brand whose analysis is not a dict (a
   * failed extraction) raises on `analysis.get`.
   */
  function Summaries(analysis: Dict): Result<(Dict, Dict, Dict)> {
    if AllDicts(analysis, |analysis|) then
      var names := KeyList(analysis);
      Ok((Zip(names, SentimentColumn(analysis), |analysis|), Zip(names, FeaturesColumn(analysis), |analysis|),
          Zip(names, SidesColumn(analysis), |analysis|)))
    else Raise(Exc(AttributeError, "object has no attribute 'get'"))
  }

  lemma {:induction false} NamesKeys(d: Dict)
    ensures Among(KeyList(d), |d|) == Keys(d)
  {
  }

  /**
   * When the brand loop succeeds, the three dicts have the analysed brands
   * as keys, and a brand's entries come from its analysis, with `neutral`,
   * `{}` and `[]` for what it lacks.
   */
  lemma {:induction false} SummariesFacts(analysis: Dict)
    ensures Summaries(analysis).Ok? <==> forall i :: 0 <= i < |analysis| ==> analysis[i].1.JObj?
    ensures Summaries(analysis).Ok? ==>
      var (s, f, w) := Summaries(analysis).value;
      Keys(s) == Keys(analysis) && Keys(f) == Keys(analysis) && Keys(w) == Keys(analysis)
      && forall i :: 0 <= i < |analysis| && (forall j :: i < j < |analysis| ==> analysis[j].0 != analysis[i].0) ==>
           Lookup(s, analysis[i].0) == Some(SentimentOf(analysis[i].1.members))
           && Lookup(f, analysis[i].0) == Some(FeaturesOf(analysis[i].1.members))
           && Lookup(w, analysis[i].0) == Some(Sides(analysis[i].1.members))
  {
    NamesKeys(analysis);
    if Summaries(analysis).Ok? {
      var names := KeyList(analysis);
      ZipFacts(names, SentimentColumn(analysis), |analysis|);
      ZipFacts(names, FeaturesColumn(analysis), |analysis|);
      ZipFacts(names, SidesColumn(analysis), |analysis|);
    }
  }

  lemma {:induction false} ZipNext(brands: seq<string>, results: seq<Json>, i: nat, v: Json)
    requires i < |brands| && i < |results| && results[i] == v
    ensures Zip(brands, results, i + 1) == Set(Zip(brands, results, i), brands[i], v)
  {
  }

  /** Every one of the first `n` brands' analyses is a dict. */
  predicate AllDicts(analysis: Dict, n: nat) {
    forall j :: 0 <= j < n && j < |analysis| ==> analysis[j].1.JObj?
  }

  lemma {:induction false} AllDictsNext(analysis: Dict, i: nat)
    requires AllDicts(analysis, i) && i < |analysis| && analysis[i].1.JObj?
    ensures AllDicts(analysis, i + 1)
  {
  }

  /** After `i` brands: each of them a dict, and the three dicts filled in for them. */
  predicate SummaryPrefix(analysis: Dict, i: nat, s: Dict, f: Dict, w: Dict)
    requires i <= |analysis|
  {
    var names := KeyList(analysis);
    AllDicts(analysis, i) && s == Zip(names, SentimentColumn(analysis), i)
    && f == Zip(names, FeaturesColumn(analysis), i) && w == Zip(names, SidesColumn(analysis), i)
  }

  lemma {:induction false} SummaryNext(analysis: Dict, i: nat, s: Dict, f: Dict, w: Dict)
    requires i < |analysis| && SummaryPrefix(analysis, i, s, f, w) && analysis[i].1.JObj?
    ensures var (brand, a) := analysis[i];
      SummaryPrefix(analysis, i + 1, Set(s, brand, SentimentOf(a.members)), Set(f, brand, FeaturesOf(a.members)),
                    Set(w, brand, Sides(a.members)))
  {
    var names := KeyList(analysis);
    var a := analysis[i].1;
    AllDictsNext(analysis, i);
    ZipNext(names, SentimentColumn(analysis), i, SentimentOf(a.members));
    ZipNext(names, FeaturesColumn(analysis), i, FeaturesOf(a.members));
    ZipNext(names, SidesColumn(analysis), i, Sides(a.members));
  }

  lemma {:induction false} SummaryRaise(analysis: Dict, i: nat)
    requires i < |analysis| && !analysis[i].1.JObj?
    ensures Summaries(analysis) == Raise(Exc(AttributeError, "object has no attribute 'get'"))
  {
    assert !AllDicts(analysis, |analysis|);
  }

  /** The brand loop of step 7, filling the three per-brand dicts. */
  method Summarize(analysis: Dict) returns (r: Result<(Dict, Dict, Dict)>)
    ensures r == Summaries(analysis)
  {
    var sentiments: Dict, features: Dict, sides: Dict := [], [], [];
    for i := 0 to |analysis|
      invariant SummaryPrefix(analysis, i, sentiments, features, sides)
    {
      var (brand, a) := analysis[i];
      if !a.JObj? {
        SummaryRaise(analysis, i);
        return Raise(Exc(AttributeError, "object has no attribute 'get'"));
      }
      SummaryNext(analysis, i, sentiments, features, sides);
      sentiments := Set(sentiments, brand, SentimentOf(a.members));
      features := Set(features, brand, FeaturesOf(a.members));
      sides := Set(sides, brand, Sides(a.members));
    }
    r := Ok((sentiments, features, sides));
  }

  /** The five keys the merge overwrites. */
  predicate Reserved(k: string) {
    k == "brand_mentions" || k == "user_competition" || k == "brand_sentiments" || k == "brand_features"
    || k == "brand_analysis"
  }

  /** The five assignments of step 7, in the order the code makes them. */
  function Merged(item: Dict, mention: Json, competition: Json, s: Dict, f: Dict, w: Dict): Dict {
    var d := Set(Set(item, "brand_mentions", mention), "user_competition", competition);
    Set(Set(Set(d, "brand_sentiments", JObj(s)), "brand_features", JObj(f)), "brand_analysis", JObj(w))
  }

  /** Step 7 for one record: a copy of it with the five reserved keys set. */
  function MergeRecord(item: Dict, mention: Json, competition: Json, analysis: Dict): Result<Dict> {
    match Summaries(analysis)
    case Raise(e) => Raise(e)
    case Ok((s, f, w)) => Ok(Merged(item, mention, competition, s, f, w))
  }

  /** `KeysSet` and `LookupSet` at one key. */
  lemma {:induction false} SetFacts(d: Dict, k: string, v: Json, j: string)
    ensures j in Keys(Set(d, k, v)) <==> j in Keys(d) || j == k
    ensures Lookup(Set(d, k, v), j) == if j == k then Some(v) else Lookup(d, j)
  {
    KeysSet(d, k, v);
    LookupSet(d, k, v, j);
  }

  /** What the merged record holds under key `k`. */
  function MergedAt(item: Dict, mention: Json, competition: Json, s: Dict, f: Dict, w: Dict, k: string): Option<Json> {
    if k == "brand_analysis" then Some(JObj(w))
    else if k == "brand_features" then Some(JObj(f))
    else if k == "brand_sentiments" then Some(JObj(s))
    else if k == "user_competition" then Some(competition)
    else if k == "brand_mentions" then Some(mention)
    else Lookup(item, k)
  }

  lemma {:induction false} MergedFacts(item: Dict, mention: Json, competition: Json, s: Dict, f: Dict, w: Dict, k: string)
    ensures var out := Merged(item, mention, competition, s, f, w);
      (k in Keys(out) <==> k in Keys(item) || Reserved(k))
      && Lookup(out, k) == MergedAt(item, mention, competition, s, f, w, k)
  {
    var d1 := Set(item, "brand_mentions", mention);
    var d2 := Set(d1, "user_competition", competition);
    var d3 := Set(d2, "brand_sentiments", JObj(s));
    var d4 := Set(d3, "brand_features", JObj(f));
    SetFacts(item, "brand_mentions", mention, k);
    SetFacts(d1, "user_competition", competition, k);
    SetFacts(d2, "brand_sentiments", JObj(s), k);
    SetFacts(d3, "brand_features", JObj(f), k);
    SetFacts(d4, "brand_analysis", JObj(w), k);
  }

  /**
   * The merged record keeps every other key of the normalised record and
   * holds the pass results under the reserved keys; its three per-brand
   * dicts have the brands of the record's analysis as keys.
   */
  lemma {:induction false} MergeRecordLookup(item: Dict, mention: Json, competition: Json, analysis: Dict, k: string)
    ensures MergeRecord(item, mention, competition, analysis).Ok? <==> forall i :: 0 <= i < |analysis| ==> analysis[i].1.JObj?
    ensures MergeRecord(item, mention, competition, analysis).Ok? ==>
      var out := MergeRecord(item, mention, competition, analysis).value;
      var (s, f, w) := Summaries(analysis).value;
      (k in Keys(out) <==> k in Keys(item) || Reserved(k))
      && Keys(s) == Keys(analysis) && Keys(f) == Keys(analysis) && Keys(w) == Keys(analysis)
      && Lookup(out, k) == MergedAt(item, mention, competition, s, f, w, k)
  {
    SummariesFacts(analysis);
    if Summaries(analysis).Ok? {
      var (s, f, w) := Summaries(analysis).value;
      MergedFacts(item, mention, competition, s, f, w, k);
    }
  }

  function MentionAt(mentions: seq<Json>, i: nat): Json {
    if i < |mentions| then mentions[i] else JObj([])
  }

  function AnalysisAt(analyses: seq<Dict>, i: nat): Dict {
    if i < |analyses| then analyses[i] else []
  }

  /** Record `i` merged with its pass results, `{}` where a pass gave fewer results. */
  function MergeAt(normalized: seq<Dict>, mentions: seq<Json>, competitions: seq<Json>, analyses: seq<Dict>, i: nat)
    : Result<Json>
  {
    if i >= |normalized| then Ok(JNull)
    else
      match MergeRecord(normalized[i], MentionAt(mentions, i), MentionAt(competitions, i), AnalysisAt(analyses, i))
      case Raise(e) => Raise(e)
      case Ok(d) => Ok(JObj(d))
  }

  function Merger(normalized: seq<Dict>, mentions: seq<Json>, competitions: seq<Json>, analyses: seq<Dict>)
    : nat -> Result<Json>
  {
    (i: nat) => MergeAt(normalized, mentions, competitions, analyses, i)
  }

  /** Step 7: one merged record per normalised record, in order. */
  function MergeAll(normalized: seq<Dict>, mentions: seq<Json>, competitions: seq<Json>, analyses: seq<Dict>)
    : Result<seq<Json>>
  {
    MapAll(Merger(normalized, mentions, competitions, analyses), Indices(|normalized|))
  }

  lemma {:induction false} MergeAllShape(normalized: seq<Dict>, mentions: seq<Json>, competitions: seq<Json>, analyses: seq<Dict>)
    ensures var r := MergeAll(normalized, mentions, competitions, analyses);
      (r.Ok? <==> forall i :: 0 <= i < |normalized| ==>
         MergeRecord(normalized[i], MentionAt(mentions, i), MentionAt(competitions, i), AnalysisAt(analyses, i)).Ok?)
      && (r.Ok? ==> |r.value| == |normalized|)
      && (r.Ok? ==> forall i :: 0 <= i < |normalized| ==>
            r.value[i] == JObj(MergeRecord(normalized[i], MentionAt(mentions, i), MentionAt(competitions, i),
                                           AnalysisAt(analyses, i)).value))
  {
    var f := Merger(normalized, mentions, competitions, analyses);
    MapIndices(f, |normalized|);
    forall i | 0 <= i < |normalized|
      ensures f(i).Ok? <==>
        MergeRecord(normalized[i], MentionAt(mentions, i), MentionAt(competitions, i), AnalysisAt(analyses, i)).Ok?
    {
    }
  }

  /** Step 7 for record `i`: the five keys set one after the other on a copy. */
  method MergeOne(normalized: seq<Dict>, mentions: seq<Json>, competitions: seq<Json>, analyses: seq<Dict>, i: nat)
    returns (r: Result<Json>)
    requires i < |normalized|
    ensures r == MergeAt(normalized, mentions, competitions, analyses, i)
  {
    var item := normalized[i];
    var mention := if i < |mentions| then mentions[i] else JObj([]);
    var competition := if i < |competitions| then competitions[i] else JObj([]);
    item := Set(item, "brand_mentions", mention);
    item := Set(item, "user_competition", competition);
    var summaries := Summarize(if i < |analyses| then analyses[i] else []);
    if summaries.Raise? {
      return Raise(summaries.exc);
    }
    var (sentiments, features, sides) := summaries.value;
    item := Set(item, "brand_sentiments", JObj(sentiments));
    item := Set(item, "brand_features", JObj(features));
    item := Set(item, "brand_analysis", JObj(sides));
    r := Ok(JObj(item));
  }

  /** The merge loop of step 7. */
  method MergeRecords(normalized: seq<Dict>, mentions: seq<Json>, competitions: seq<Json>, analyses: seq<Dict>)
    returns (r: Result<seq<Json>>)
    ensures r == MergeAll(normalized, mentions, competitions, analyses)
  {
    ghost var f := Merger(normalized, mentions, competitions, analyses);
    ghost var ix := Indices(|normalized|);
    var processed: seq<Json> := [];
    for i := 0 to |normalized|
      invariant MapPrefix(f, ix, i) == Ok(processed)
    {
      var one := MergeOne(normalized, mentions, competitions, analyses, i);
      assert ix[i] == i && f(i) == MergeAt(normalized, mentions, competitions, analyses, i);
      MapAdvance(f, ix, i, processed, one);
      if one.Raise? {
        return Raise(one.exc);
      }
      processed := processed + [one.value];
    }
    r := Ok(processed);
  }

  // --------------------------------------------------------------- pipeline

  function AsDict(v: Json): Result<Dict> {
    if v.JObj? then Ok(v.members) else Raise(Exc(AttributeError, "object has no attribute 'items'"))
  }

  function Normalizer(c: Codec, fields: Dict): Dict -> Result<Dict> {
    item => Normalize(c, item, fields)
  }

  function Flattener(c: Codec): Dict -> Result<string> {
    item => FullContent(c, item)
  }

  /** Steps 1 to 3: the field table, the normalised records, and their flattened texts. */
  function Prepare(c: Codec, records: seq<Json>): (r: Result<(seq<Dict>, seq<string>)>)
    ensures r.Ok? ==> |r.value.0| == |records| && |r.value.1| == |records|
    ensures r.Ok? ==> forall i :: 0 <= i < |records| ==> records[i].JObj?
  {
    match MapAll(AsDict, records)
    case Raise(e) => Raise(e)
    case Ok(dicts) =>
      assert forall i :: 0 <= i < |records| ==> AsDict(records[i]).Ok?;
      var fields := Fields(dicts);
      match MapAll(Normalizer(c, fields), dicts)
      case Raise(e) => Raise(e)
      case Ok(normalized) =>
        match MapAll(Flattener(c), normalized)
        case Raise(e) => Raise(e)
        case Ok(contents) => Ok((normalized, contents))
  }

  /** A record that is not a dict stops the run before any field is collected. */
  method ToDicts(records: seq<Json>) returns (r: Result<seq<Dict>>)
    ensures r == MapAll(AsDict, records)
  {
    var dicts: seq<Dict> := [];
    for i := 0 to |records|
      invariant MapPrefix(AsDict, records, i) == Ok(dicts)
    {
      if !records[i].JObj? {
        MapStops(AsDict, records, i + 1, |records|);
        return Raise(Exc(AttributeError, "object has no attribute 'items'"));
      }
      dicts := dicts + [records[i].members];
    }
    r := Ok(dicts);
  }

  /** `normalized_data = [normalize_data_fields(item, all_fields) for item in parsed_data]` */
  method NormalizeAll(c: Codec, dicts: seq<Dict>, fields: Dict) returns (r: Result<seq<Dict>>)
    ensures r == MapAll(Normalizer(c, fields), dicts)
  {
    ghost var f := Normalizer(c, fields);
    var normalized: seq<Dict> := [];
    for i := 0 to |dicts|
      invariant MapPrefix(f, dicts, i) == Ok(normalized)
    {
      var item := NormalizeDataFields(c, dicts[i], fields);
      assert f(dicts[i]) == Normalize(c, dicts[i], fields);
      MapAdvance(f, dicts, i, normalized, item);
      if item.Raise? {
        return Raise(item.exc);
      }
      normalized := normalized + [item.value];
    }
    r := Ok(normalized);
  }

  /** The content-building loop: one flattened text per normalised record. */
  method FlattenAll(c: Codec, normalized: seq<Dict>) returns (r: Result<seq<string>>)
    ensures r == MapAll(Flattener(c), normalized)
  {
    ghost var f := Flattener(c);
    var contents: seq<string> := [];
    for i := 0 to |normalized|
      invariant MapPrefix(f, normalized, i) == Ok(contents)
    {
      var text := FlattenRecord(c, normalized[i]);
      assert f(normalized[i]) == FullContent(c, normalized[i]);
      MapAdvance(f, normalized, i, contents, text);
      if text.Raise? {
        return Raise(text.exc);
      }
      contents := contents + [text.value];
    }
    r := Ok(contents);
  }

  method PrepareRecords(c: Codec, records: seq<Json>) returns (r: Result<(seq<Dict>, seq<string>)>)
    ensures r == Prepare(c, records)
  {
    var dicts := ToDicts(records);
    if dicts.Raise? {
      return Raise(dicts.exc);
    }
    var fields := CollectAllFields(dicts.value);
    var normalized := NormalizeAll(c, dicts.value, fields);
    if normalized.Raise? {
      return Raise(normalized.exc);
    }
    var contents := FlattenAll(c, normalized.value);
    if contents.Raise? {
      return Raise(contents.exc);
    }
    r := Ok((normalized.value, contents.value));
  }

  /** Steps 4 to 6, each pass taking the request numbers after the previous one's. */
  function Passes(t: Tools, c: Codec, clock: nat, pr: Prompts, contents: seq<string>)
    : Call<(seq<Json>, seq<Json>, seq<Dict>)>
  {
    AfterMentions(t, c, clock, pr, contents, MentionsPass(t, clock, pr, contents))
  }

  /** Steps 5 and 6 after the mention pass `m`, which started at request `clock`. */
  function AfterMentions(t: Tools, c: Codec, clock: nat, pr: Prompts, contents: seq<string>, m: Call<seq<Json>>)
    : Call<(seq<Json>, seq<Json>, seq<Dict>)>
  {
    match m.result
    case Raise(e) => Call(Raise(e), m.sent)
    case Ok(mentions) =>
      var later := LaterPasses(t, c, Next(clock, m), pr, contents, mentions);
      Call(later.result, m.sent + later.sent)
  }

  /** Steps 5 and 6, from request `clock` on. */
  function LaterPasses(t: Tools, c: Codec, clock: nat, pr: Prompts, contents: seq<string>, mentions: seq<Json>)
    : Call<(seq<Json>, seq<Json>, seq<Dict>)>
  {
    var k := CompetitionPass(t, c, clock, pr, contents, mentions);
    AfterCompetition(t, Next(clock, k), pr, contents, mentions, k)
  }

  /** Step 6 after the competition pass `k`, its requests numbered from `n` on. */
  function AfterCompetition(t: Tools, n: nat, pr: Prompts, contents: seq<string>, mentions: seq<Json>,
                            k: Call<seq<Json>>)
    : Call<(seq<Json>, seq<Json>, seq<Dict>)>
  {
    Joined(mentions, k, BrandPasses(t, n, pr, contents, mentions))
  }

  /** The competition pass `k` followed, when it succeeded, by the brand passes `a`. */
  function Joined(mentions: seq<Json>, k: Call<seq<Json>>, a: Call<seq<Dict>>): Call<(seq<Json>, seq<Json>, seq<Dict>)> {
    match k.result
    case Raise(e) => Call(Raise(e), k.sent)
    case Ok(competitions) =>
      match a.result
      case Raise(e) => Call(Raise(e), k.sent + a.sent)
      case Ok(analyses) => Call(Ok((mentions, competitions, analyses)), k.sent + a.sent)
  }

  /** `Passes` in terms of the mention pass `m` and, when it succeeded, the later passes. */
  lemma {:induction false} PassesOf(t: Tools, c: Codec, clock: nat, pr: Prompts, contents: seq<string>,
                 m: Call<seq<Json>>, later: Call<(seq<Json>, seq<Json>, seq<Dict>)>)
    requires m == MentionsPass(t, clock, pr, contents)
    requires m.result.Ok? ==> later == LaterPasses(t, c, Next(clock, m), pr, contents, m.result.value)
    ensures m.result.Raise? ==> Passes(t, c, clock, pr, contents) == Call(Raise(m.result.exc), m.sent)
    ensures m.result.Ok? ==> Passes(t, c, clock, pr, contents) == Call(later.result, m.sent + later.sent)
  {
  }

  method RunPasses(t: Tools, c: Codec, clock: nat, pr: Prompts, contents: seq<string>)
    returns (r: Result<(seq<Json>, seq<Json>, seq<Dict>)>, sent: seq<Request>)
    ensures Call(r, sent) == Passes(t, c, clock, pr, contents)
  {
    var mentions, ms := RunPass(t, clock, MentionLists(pr, contents), PassBatch);
    ghost var m := MentionsPass(t, clock, pr, contents);
    if mentions.Raise? {
      PassesOf(t, c, clock, pr, contents, m, Call(Raise(mentions.exc), []));
      return Raise(mentions.exc), ms;
    }
    var n: nat := clock + |ms|;
    var rest, later := RunLaterPasses(t, c, n, pr, contents, mentions.value);
    ghost var l := LaterPasses(t, c, Next(clock, m), pr, contents, m.result.value);
    SameLaterPasses(t, c, n, Next(clock, m), pr, contents, mentions.value, m.result.value);
    PassesOf(t, c, clock, pr, contents, m, l);
    r, sent := rest, ms + later;
  }

  /** The later passes depend on the first request number and the mentions only. */
  lemma {:induction false} SameLaterPasses(t: Tools, c: Codec, n1: nat, n2: nat, pr: Prompts, contents: seq<string>,
                        mentions1: seq<Json>, mentions2: seq<Json>)
    requires n1 == n2 && mentions1 == mentions2
    ensures LaterPasses(t, c, n1, pr, contents, mentions1) == LaterPasses(t, c, n2, pr, contents, mentions2)
  {
  }

  /** `LaterPasses` in terms of the competition pass `k` and, when it succeeded, the brand passes `a`. */
  lemma {:induction false} LaterPassesOf(t: Tools, c: Codec, clock: nat, pr: Prompts, contents: seq<string>, mentions: seq<Json>,
                      k: Call<seq<Json>>, a: Call<seq<Dict>>)
    requires k == CompetitionPass(t, c, clock, pr, contents, mentions)
    requires k.result.Ok? ==> a == BrandPasses(t, Next(clock, k), pr, contents, mentions)
    ensures k.result.Raise? ==> LaterPasses(t, c, clock, pr, contents, mentions) == Call(Raise(k.result.exc), k.sent)
    ensures k.result.Ok? && a.result.Raise? ==>
      LaterPasses(t, c, clock, pr, contents, mentions) == Call(Raise(a.result.exc), k.sent + a.sent)
    ensures k.result.Ok? && a.result.Ok? ==>
      LaterPasses(t, c, clock, pr, contents, mentions)
        == Call(Ok((mentions, k.result.value, a.result.value)), k.sent + a.sent)
  {
    var n := Next(clock, k);
    assert LaterPasses(t, c, clock, pr, contents, mentions) == AfterCompetition(t, n, pr, contents, mentions, k);
    assert AfterCompetition(t, n, pr, contents, mentions, k) == Joined(mentions, k, BrandPasses(t, n, pr, contents, mentions));
    if k.result.Raise? {
      assert LaterPasses(t, c, clock, pr, contents, mentions) == Call(Raise(k.result.exc), k.sent);
    } else {
      assert LaterPasses(t, c, clock, pr, contents, mentions) == Joined(mentions, k, a);
    }
  }

  /** The brand passes depend on the first request number only. */
  lemma {:induction false} SameBrandPasses(t: Tools, n1: nat, n2: nat, pr: Prompts, contents: seq<string>, mentions: seq<Json>)
    requires n1 == n2
    ensures BrandPasses(t, n1, pr, contents, mentions) == BrandPasses(t, n2, pr, contents, mentions)
  {
  }

  method RunLaterPasses(t: Tools, c: Codec, clock: nat, pr: Prompts, contents: seq<string>, mentions: seq<Json>)
    returns (r: Result<(seq<Json>, seq<Json>, seq<Dict>)>, sent: seq<Request>)
    ensures Call(r, sent) == LaterPasses(t, c, clock, pr, contents, mentions)
  {
    var competitions, ks := RunCompetitionPass(t, c, clock, pr, contents, mentions);
    ghost var k := CompetitionPass(t, c, clock, pr, contents, mentions);
    if competitions.Raise? {
      LaterPassesOf(t, c, clock, pr, contents, mentions, k, Call(Ok([]), []));
      return Raise(competitions.exc), ks;
    }
    var n: nat := clock + |ks|;
    var analyses, bs := RunBrandPasses(t, n, pr, contents, mentions);
    ghost var a := BrandPasses(t, Next(clock, k), pr, contents, mentions);
    SameBrandPasses(t, n, Next(clock, k), pr, contents, mentions);
    LaterPassesOf(t, c, clock, pr, contents, mentions, k, a);
    sent := ks + bs;
    if analyses.Raise? {
      return Raise(analyses.exc), sent;
    }
    r := Ok((mentions, competitions.value, analyses.value));
  }

  method RunCompetitionPass(t: Tools, c: Codec, clock: nat, pr: Prompts, contents: seq<string>,
                            mentions: seq<Json>) returns (r: Result<seq<Json>>, sent: seq<Request>)
    ensures Call(r, sent) == CompetitionPass(t, c, clock, pr, contents, mentions)
  {
    var lists := BuildCompetitionLists(c, pr, contents, mentions);
    if lists.Raise? {
      return Raise(lists.exc), [];
    }
    r, sent := RunPass(t, clock, lists.value, PassBatch);
  }

  /** `atomic_insights(parsed_data, output_dir, model_id)`, without the file it may write. */
  function Insights(c: Codec, b: Backend, clock: nat, pr: Prompts, modelId: string, records: seq<Json>)
    : Call<seq<Json>>
  {
    match NewGateway(modelId)
    case Raise(e) => Call(Raise(e), [])
    case Ok(g) =>
      if records == [] then Call(Ok([]), [])
      else
        match Prepare(c, records)
        case Raise(e) => Call(Raise(e), [])
        case Ok((normalized, contents)) =>
          var passes := Passes(Concrete(c, g, b), c, clock, pr, contents);
          match passes.result
          case Raise(e) => Call(Raise(e), passes.sent)
          case Ok((mentions, competitions, analyses)) =>
            Call(MergeAll(normalized, mentions, competitions, analyses), passes.sent)
  }

  /** The model is resolved before the empty check; an empty batch then sends nothing. */
  lemma {:induction false} EmptyBatch(c: Codec, b: Backend, clock: nat, pr: Prompts, modelId: string)
    ensures Insights(c, b, clock, pr, modelId, []) ==
      if modelId in Aliases then Call(Ok([]), []) else Call(Raise(NewGateway(modelId).exc), [])
  {
  }

  /**
   * A successful run gives one record per input record, in order: the
   * normalised record with the reserved keys overwritten and every other
   * key kept.
   */
  lemma {:induction false} InsightsShape(c: Codec, b: Backend, clock: nat, pr: Prompts, modelId: string, records: seq<Json>, i: nat)
    requires Insights(c, b, clock, pr, modelId, records).result.Ok? && i < |records|
    ensures Prepare(c, records).Ok?
    ensures var out := Insights(c, b, clock, pr, modelId, records).result.value;
      var normalized := Prepare(c, records).value.0;
      |out| == |records| && out[i].JObj?
      && (forall k :: k in Keys(out[i].members) <==> k in Keys(normalized[i]) || Reserved(k))
      && forall k :: !Reserved(k) ==> Lookup(out[i].members, k) == Lookup(normalized[i], k)
  {
    var g := NewGateway(modelId).value;
    var (normalized, contents) := Prepare(c, records).value;
    var (mentions, competitions, analyses) := Passes(Concrete(c, g, b), c, clock, pr, contents).result.value;
    MergeAllShape(normalized, mentions, competitions, analyses);
    var out := MergeAll(normalized, mentions, competitions, analyses).value;
    forall k
      ensures k in Keys(out[i].members) <==> k in Keys(normalized[i]) || Reserved(k)
      ensures !Reserved(k) ==> Lookup(out[i].members, k) == Lookup(normalized[i], k)
    {
      MergeRecordLookup(normalized[i], MentionAt(mentions, i), MentionAt(competitions, i), AnalysisAt(analyses, i), k);
    }
  }

  /**
   * A record whose mention extraction failed (`None`) is not degraded to an
   * empty dict: the competition pass raises on it before sending anything,
   * after the first pass's requests were sent.
   */
  lemma {:induction false} FailedExtractionRaises(t: Tools, c: Codec, clock: nat, pr: Prompts, contents: seq<string>, i: nat)
    requires MentionsPass(t, clock, pr, contents).result.Ok? && i < |contents|
    requires i < |MentionsPass(t, clock, pr, contents).result.value|
    requires MentionsPass(t, clock, pr, contents).result.value[i] == JNull
    ensures Passes(t, c, clock, pr, contents).result.Raise?
    ensures Passes(t, c, clock, pr, contents).sent == MentionsPass(t, clock, pr, contents).sent
  {
    var m := MentionsPass(t, clock, pr, contents);
    CompetitionRaises(c, pr, contents, m.result.value, i);
    assert m.sent + [] == m.sent;
  }

  /** `atomic_insights`, step by step. */
  method AtomicInsightsRun(c: Codec, b: Backend, clock: nat, pr: Prompts, modelId: string, records: seq<Json>)
    returns (r: Result<seq<Json>>, sent: seq<Request>)
    ensures Call(r, sent) == Insights(c, b, clock, pr, modelId, records)
  {
    var g := NewGateway(modelId);
    if g.Raise? {
      return Raise(g.exc), [];
    }
    if records == [] {
      return Ok([]), [];
    }
    var prepared := PrepareRecords(c, records);
    if prepared.Raise? {
      return Raise(prepared.exc), [];
    }
    var (normalized, contents) := prepared.value;
    var passes;
    passes, sent := RunPasses(Concrete(c, g.value, b), c, clock, pr, contents);
    if passes.Raise? {
      return Raise(passes.exc), sent;
    }
    var (mentions, competitions, analyses) := passes.value;
    r := MergeRecords(normalized, mentions, competitions, analyses);
  }
}
