/**
 * The LLM gateway (src/llm.py): model-alias table, endpoint routing, request
 * shaping, the retry bound of `ask_tool`, JSON recovery in `generate`, and
 * `batch_generate`.
 *
 * The chat-completions service is an oracle.  Every request the program
 * sends is numbered by a global call counter (`clock`); the reply to request
 * number n is `blocking(n)` for a blocking call and `streaming(n)` for a
 * streaming one.  Each operation returns the requests it sent.
 */
module Llm {
  import opened Json
  import opened Python
  import opened Codec
  import ExtractMarkdown

  // ------------------------------------------------------- models, endpoints

  const DefaultAlias := "deepseek-v3"
  const BotModelId := "bot-20250321210824-76l48"
  const BotsBaseUrl := "https://ark.cn-beijing.volces.com/api/v3/bots"
  const ApiBaseUrl := "https://ark.cn-beijing.volces.com/api/v3"
  const Aliases: set<string> := {"deepseek-v3", "deepseek-v3-online", "doubao-lite"}
  const MaxAttempts := 3

  /** `model_map.get(alias)` */
  function TableId(alias: string): Option<string> {
    if alias == "deepseek-v3" then Some("deepseek-v3-250324")
    else if alias == "deepseek-v3-online" then Some(BotModelId)
    else if alias == "doubao-lite" then Some("doubao-1-5-lite-32k-250115")
    else None
  }

  /** An `LLM` instance: the default model ID it resolved at construction. */
  datatype Gateway = Gateway(model: string)

  /** `LLM(model=alias)`: `model_map[alias]` raises `KeyError` outside the table. */
  function NewGateway(alias: string): (r: Result<Gateway>)
    ensures r.Ok? <==> alias in Aliases
    ensures r.Ok? ==> Some(r.value.model) == TableId(alias)
    ensures r.Raise? ==> r.exc.kind == KeyError
  {
    match TableId(alias)
    case Some(id) => Ok(Gateway(id))
    case None => Raise(Exc(KeyError, "'" + alias + "'"))
  }

  /**
   * `self.model_map.get(model, self.model) if model else self.model`: an
   * override is looked up in the same table, and anything else (no override,
   * an empty one, an unknown alias, a raw model ID) means the default.
   */
  function ResolveModel(g: Gateway, model: Option<string>): (id: string)
    ensures model.Some? && model.value in Aliases ==> Some(id) == TableId(model.value)
    ensures !(model.Some? && model.value in Aliases) ==> id == g.model
  {
    if model.Some? && model.value != "" then
      match TableId(model.value)
      case Some(id) => id
      case None => g.model
    else g.model
  }

  /** `_get_client_for_model(model_id)`'s base URL. */
  function BaseUrl(modelId: string): (url: string)
    ensures url == BotsBaseUrl <==> modelId == BotModelId
    ensures url == ApiBaseUrl <==> modelId != BotModelId
  {
    if modelId == BotModelId then BotsBaseUrl else ApiBaseUrl
  }

  /** Only the alias `deepseek-v3-online` reaches the bots endpoint. */
  lemma {:induction false} BotsEndpointAlias(g: Gateway, model: Option<string>)
    requires g.model != BotModelId
    ensures BaseUrl(ResolveModel(g, model)) == BotsBaseUrl <==> model == Some("deepseek-v3-online")
  {
    if model.Some? && model.value in Aliases {
      assert model.value == "deepseek-v3" || model.value == "deepseek-v3-online" || model.value == "doubao-lite";
    }
  }

  // ----------------------------------------------------------------- messages

  function SystemMessage(sp: Json): Json {
    JObj([("role", JStr("system")), ("content", sp)])
  }

  predicate IsSystem(m: Json) {
    m.JObj? && Lookup(m.members, "role") == Some(JStr("system"))
  }

  /**
   * The shaping each of `ask_tool`, `generate` and `generate_stream` does:
   * a truthy system prompt is inserted as a new first message, or, when the
   * first message already is a system message, replaces its content.
   */
  function ShapeMessages(msgs: seq<Json>, sp: Json): (r: Result<seq<Json>>)
    ensures !Truthy(sp) ==> r == Ok(msgs)
    ensures Truthy(sp) && (msgs == [] || (msgs[0].JObj? && !IsSystem(msgs[0]))) ==>
      r == Ok([SystemMessage(sp)] + msgs)
    ensures Truthy(sp) && msgs != [] && IsSystem(msgs[0]) ==>
      r.Ok? && |r.value| == |msgs| && r.value[1..] == msgs[1..]
      && IsSystem(r.value[0]) && Lookup(r.value[0].members, "content") == Some(sp)
      && forall k :: k != "content" ==> Lookup(r.value[0].members, k) == Lookup(msgs[0].members, k)
    // `.get` on a first message that is not a dict
    ensures Truthy(sp) && msgs != [] && !msgs[0].JObj? ==> r.Raise? && r.exc.kind == AttributeError
    ensures r.Ok? ==> |msgs| <= |r.value| <= |msgs| + 1
  {
    if !Truthy(sp) then Ok(msgs)
    else if msgs == [] then Ok([SystemMessage(sp)] + msgs)
    else match msgs[0]
      case JObj(m) =>
        if !IsSystem(msgs[0]) then Ok([SystemMessage(sp)] + msgs)
        else
          LookupSet(m, "content", sp, "role");
          LookupSet(m, "content", sp, "content");
          SetKeepsOthers(m, "content", sp);
          Ok([JObj(Set(m, "content", sp))] + msgs[1..])
      case _ => Raise(Exc(AttributeError, "object has no attribute 'get'"))
  }

  // ----------------------------------------------------------------- requests

  /** What reaches the service: the endpoint and the keyword arguments of `create`. */
  datatype Request = Request(baseUrl: string, params: Dict)

  const JsonFormat := JObj([("type", JStr("json_object"))])

  function Head(model: string, msgs: seq<Json>, stream: bool): Dict {
    [("model", JStr(model)), ("messages", JArr(msgs)), ("stream", JBool(stream))]
  }

  /** `{"model": ..., "messages": ..., "stream": ..., **kwargs}` */
  function BaseParams(model: string, msgs: seq<Json>, stream: bool, kwargs: Dict): (p: Dict)
  {
    Update(Head(model, msgs, stream), kwargs)
  }

  /** Keyword arguments override the fixed parameters. */
  lemma {:induction false} LookupBaseParams(model: string, msgs: seq<Json>, stream: bool, kwargs: Dict, j: string)
    ensures Lookup(BaseParams(model, msgs, stream, kwargs), j) ==
      if Lookup(kwargs, j).Some? then Lookup(kwargs, j)
      else if j == "model" then Some(JStr(model))
      else if j == "messages" then Some(JArr(msgs))
      else if j == "stream" then Some(JBool(stream))
      else None
  {
    var head := Head(model, msgs, stream);
    assert Lookup(head, j) == if j == "stream" then Some(JBool(stream)) else Lookup(head[..2], j);
    assert head[..2][..1] == [head[0]];
    assert Lookup(head[..2], j) == if j == "messages" then Some(JArr(msgs)) else Lookup([head[0]], j);
    assert Lookup([head[0]], j) == if j == "model" then Some(JStr(model)) else Lookup([head[0]][..0], j);
    LookupUpdate(head, kwargs, j);
  }

  /** The request parameters of `ask_tool`. */
  function AskToolParams(model: string, msgs: seq<Json>, tools: Json, toolChoice: Json,
                         jsonOutput: bool, kwargs: Dict): (p: Dict)
    // tools win over JSON mode
    ensures Truthy(tools) ==>
      Lookup(p, "tools") == Some(tools) && Lookup(p, "tool_choice") == Some(toolChoice)
      && Lookup(p, "response_format") == Lookup(kwargs, "response_format")
    ensures !Truthy(tools) && jsonOutput ==> Lookup(p, "response_format") == Some(JsonFormat)
    ensures Lookup(kwargs, "model").None? ==> Lookup(p, "model") == Some(JStr(model))
    ensures Lookup(kwargs, "stream").None? ==> Lookup(p, "stream") == Some(JBool(false))
  {
    var base := BaseParams(model, msgs, false, kwargs);
    LookupBaseParams(model, msgs, false, kwargs, "model");
    LookupBaseParams(model, msgs, false, kwargs, "stream");
    LookupBaseParams(model, msgs, false, kwargs, "response_format");
    if Truthy(tools) then
      LookupSet(base, "tools", tools, "response_format");
      LookupSet(Set(base, "tools", tools), "tool_choice", toolChoice, "response_format");
      LookupSet(base, "tools", tools, "tools");
      LookupSet(Set(base, "tools", tools), "tool_choice", toolChoice, "tools");
      LookupSet(Set(base, "tools", tools), "tool_choice", toolChoice, "tool_choice");
      LookupSet(base, "tools", tools, "model");
      LookupSet(Set(base, "tools", tools), "tool_choice", toolChoice, "model");
      LookupSet(base, "tools", tools, "stream");
      LookupSet(Set(base, "tools", tools), "tool_choice", toolChoice, "stream");
      Set(Set(base, "tools", tools), "tool_choice", toolChoice)
    else if jsonOutput then
      LookupSet(base, "response_format", JsonFormat, "response_format");
      LookupSet(base, "response_format", JsonFormat, "model");
      LookupSet(base, "response_format", JsonFormat, "stream");
      Set(base, "response_format", JsonFormat)
    else base
  }

  /** The request parameters of `generate`: JSON mode only, never tools. */
  function GenerateParams(model: string, msgs: seq<Json>, jsonOutput: bool, kwargs: Dict): (p: Dict)
    ensures jsonOutput ==> Lookup(p, "response_format") == Some(JsonFormat)
    ensures !jsonOutput ==> Lookup(p, "response_format") == Lookup(kwargs, "response_format")
    ensures Lookup(p, "tools") == Lookup(kwargs, "tools")
  {
    var base := BaseParams(model, msgs, false, kwargs);
    LookupBaseParams(model, msgs, false, kwargs, "response_format");
    LookupBaseParams(model, msgs, false, kwargs, "tools");
    if jsonOutput then
      LookupSet(base, "response_format", JsonFormat, "response_format");
      LookupSet(base, "response_format", JsonFormat, "tools");
      Set(base, "response_format", JsonFormat)
    else base
  }

  /** Shaping, model resolution and routing shared by the three calls. */
  function ShapedRequest(g: Gateway, msgs: seq<Json>, sp: Json, model: Option<string>,
                         build: (string, seq<Json>) -> Dict): Result<Request>
  {
    match ShapeMessages(msgs, sp)
    case Raise(e) => Raise(e)
    case Ok(final) =>
      var id := ResolveModel(g, model);
      Ok(Request(BaseUrl(id), build(id, final)))
  }

  function AskToolRequest(g: Gateway, msgs: seq<Json>, sp: Json, model: Option<string>,
                          tools: Json, toolChoice: Json, jsonOutput: bool, kwargs: Dict): Result<Request>
  {
    ShapedRequest(g, msgs, sp, model,
      (id, final) => AskToolParams(id, final, tools, toolChoice, jsonOutput, kwargs))
  }

  function GenerateRequest(g: Gateway, msgs: seq<Json>, sp: Json, model: Option<string>,
                           jsonOutput: bool, kwargs: Dict): Result<Request>
  {
    ShapedRequest(g, msgs, sp, model, (id, final) => GenerateParams(id, final, jsonOutput, kwargs))
  }

  function StreamRequest(g: Gateway, msgs: seq<Json>, sp: Json, model: Option<string>,
                         kwargs: Dict): Result<Request>
  {
    ShapedRequest(g, msgs, sp, model, (id, final) => BaseParams(id, final, true, kwargs))
  }

  // ------------------------------------------------------------------ service

  datatype ToolCall = ToolCall(name: string, arguments: string)

  /** A `ChatCompletionMessage`: its `content` (None allowed) and its `tool_calls`. */
  datatype Reply = Reply(content: Option<string>, toolCalls: seq<ToolCall>)

  /** The answer to a blocking request: its `choices`, or an exception from the client. */
  datatype Outcome = Answered(choices: seq<Reply>) | Failed(exc: Exc)

  /** A `ChatCompletionChunk`: `delta.content` of each of its choices. */
  datatype Chunk = Chunk(deltas: seq<Option<string>>)

  /** A streaming answer: the chunks delivered, then possibly an exception. */
  datatype StreamOutcome = StreamOutcome(chunks: seq<Chunk>, failure: Option<Exc>)

  datatype Backend = Backend(blocking: nat -> Outcome, streaming: nat -> StreamOutcome)

  /** The service's answer to request number n. */
  function Answer(b: Backend, n: nat): Outcome {
    b.blocking(n)
  }

  /** `retry_if_exception_type((RateLimitError, APIError))`: every openai API error. */
  predicate Retryable(o: Outcome) {
    o.Failed? && o.exc.kind.OpenAiError?
  }

  /** The end of one `ask_tool` attempt that is not retried. */
  function AttemptResult(o: Outcome): (r: Result<Reply>)
    ensures o.Answered? && o.choices == [] ==> r.Raise? && r.exc.kind == ValueError
    ensures o.Answered? && o.choices != [] ==> r == Ok(o.choices[0])
    ensures o.Failed? ==> r == Raise(o.exc)
  {
    match o
    case Answered(choices) =>
      if choices == [] then Raise(Exc(ValueError, "LLM response missing 'choices'"))
      else Ok(choices[0])
    case Failed(e) => Raise(e)
  }

  /** A blocking call's result together with the requests it sent. */
  datatype Call<T> = Call(result: Result<T>, sent: seq<Request>)

  /** The number of the first request after `call`, which started at request `clock`. */
  function Next<T>(clock: nat, call: Call<T>): nat {
    clock + |call.sent|
  }

  /** The service's answer to the last request of `call`, which started at request `clock`. */
  function LastAnswer<T>(b: Backend, clock: nat, call: Call<T>): Outcome
    requires call.sent != []
  {
    Answer(b, Next(clock, call) - 1)
  }

  const RetryErrorExc := Exc(RetryError, "RetryError")

  /** Attempt number `attempt` of `ask_tool` and, after an API error, the ones after it. */
  function Retry(b: Backend, clock: nat, req: Request, attempt: nat): Call<Reply>
    requires attempt < MaxAttempts
    decreases MaxAttempts - attempt
  {
    var o := Answer(b, clock + attempt);
    if !Retryable(o) then Call(AttemptResult(o), [req])
    else if attempt + 1 == MaxAttempts then Call(Raise(RetryErrorExc), [req])
    else
      var rest := Retry(b, clock, req, attempt + 1);
      Call(rest.result, [req] + rest.sent)
  }

  lemma {:induction false} RetryBound(b: Backend, clock: nat, req: Request, attempt: nat)
    requires attempt < MaxAttempts
    ensures var r := Retry(b, clock, req, attempt);
      1 <= |r.sent| <= MaxAttempts - attempt
      && (forall i :: 0 <= i < |r.sent| ==> r.sent[i] == req)
      && (forall n :: clock + attempt <= n < clock + attempt + |r.sent| - 1 ==> Retryable(Answer(b, n)))
      && (!Retryable(Answer(b, clock + attempt + |r.sent| - 1)) ==>
            r.result == AttemptResult(Answer(b, clock + attempt + |r.sent| - 1)))
      && (Retryable(Answer(b, clock + attempt + |r.sent| - 1)) ==>
            attempt + |r.sent| == MaxAttempts && r.result == Raise(RetryErrorExc))
    decreases MaxAttempts - attempt
  {
    if Retryable(Answer(b, clock + attempt)) && attempt + 1 < MaxAttempts {
      RetryBound(b, clock, req, attempt + 1);
    }
  }

  /** `RetryBound` from the first attempt on. */
  lemma {:induction false} RetryFromFirst(b: Backend, clock: nat, req: Request)
    ensures var r := Retry(b, clock, req, 0);
      1 <= |r.sent| <= MaxAttempts
      && (forall i :: 0 <= i < |r.sent| ==> r.sent[i] == req)
      && (forall n :: clock <= n < Next(clock, r) - 1 ==> Retryable(Answer(b, n)))
      && (!Retryable(LastAnswer(b, clock, r)) ==> r.result == AttemptResult(LastAnswer(b, clock, r)))
      && (Retryable(LastAnswer(b, clock, r)) ==> |r.sent| == MaxAttempts && r.result == Raise(RetryErrorExc))
  {
    RetryBound(b, clock, req, 0);
    var r := Retry(b, clock, req, 0);
    var last := clock + 0 + |r.sent| - 1;
    assert last == Next(clock, r) - 1;
    assert Answer(b, last) == LastAnswer(b, clock, r);
  }

  /**
   * `ask_tool`, with its `@retry(stop=stop_after_attempt(3), retry=...)`
   * decorator: the same request is sent again after an openai API error, at
   * most three times in all; when the third attempt fails that way too,
   * tenacity raises `RetryError`.  Any other outcome ends the call.
   */
  function AskToolCall(g: Gateway, b: Backend, clock: nat, msgs: seq<Json>, sp: Json, model: Option<string>,
                       tools: Json, toolChoice: Json, jsonOutput: bool, kwargs: Dict): (r: Call<Reply>)
    ensures AskToolRequest(g, msgs, sp, model, tools, toolChoice, jsonOutput, kwargs).Raise? ==>
      r == Call(Raise(AskToolRequest(g, msgs, sp, model, tools, toolChoice, jsonOutput, kwargs).exc), [])
    ensures AskToolRequest(g, msgs, sp, model, tools, toolChoice, jsonOutput, kwargs).Ok? ==>
      1 <= |r.sent| <= MaxAttempts
      && forall i :: 0 <= i < |r.sent| ==>
           r.sent[i] == AskToolRequest(g, msgs, sp, model, tools, toolChoice, jsonOutput, kwargs).value
    // every attempt but the last ended in an API error
    ensures forall n :: clock <= n < Next(clock, r) - 1 ==> Retryable(Answer(b, n))
    ensures r.sent != [] && !Retryable(LastAnswer(b, clock, r)) ==> r.result == AttemptResult(LastAnswer(b, clock, r))
    ensures r.sent != [] && Retryable(LastAnswer(b, clock, r)) ==>
      |r.sent| == MaxAttempts && r.result == Raise(RetryErrorExc)
  {
    match AskToolRequest(g, msgs, sp, model, tools, toolChoice, jsonOutput, kwargs)
    case Raise(e) => Call(Raise(e), [])
    case Ok(req) =>
      RetryFromFirst(b, clock, req);
      Retry(b, clock, req, 0)
  }

  /** The attempt loop tenacity runs around one `ask_tool` request. */
  method RetryLoop(b: Backend, clock: nat, req: Request) returns (r: Result<Reply>, sent: seq<Request>)
    ensures Call(r, sent) == Retry(b, clock, req, 0)
  {
    ghost var spec := Retry(b, clock, req, 0);
    sent := [];
    var attempt := 0;
    while attempt < MaxAttempts
      invariant 0 <= attempt <= MaxAttempts
      invariant attempt < MaxAttempts ==>
        spec == Call(Retry(b, clock, req, attempt).result, sent + Retry(b, clock, req, attempt).sent)
      invariant attempt == MaxAttempts ==> spec == Call(Raise(RetryErrorExc), sent)
    {
      var outcome := Answer(b, clock + attempt);
      sent := sent + [req];
      if !Retryable(outcome) {
        return AttemptResult(outcome), sent;
      }
      attempt := attempt + 1;
    }
    r := Raise(RetryErrorExc);
  }

  method AskTool(g: Gateway, b: Backend, clock: nat, msgs: seq<Json>, sp: Json, model: Option<string>,
                 tools: Json, toolChoice: Json, jsonOutput: bool, kwargs: Dict)
    returns (r: Result<Reply>, sent: seq<Request>)
    ensures Call(r, sent) == AskToolCall(g, b, clock, msgs, sp, model, tools, toolChoice, jsonOutput, kwargs)
  {
    var req := AskToolRequest(g, msgs, sp, model, tools, toolChoice, jsonOutput, kwargs);
    if req.Raise? {
      return Raise(req.exc), [];
    }
    r, sent := RetryLoop(b, clock, req.value);
  }

  /** `generate_stream`: the request it sends, then the chunks the service streams back. */
  datatype Streamed = StreamFailed(exc: Exc) | Streaming(request: Request, outcome: StreamOutcome)

  /**
   * `generate_stream(...)`: the messages are shaped as for the other calls,
   * the request asks for a stream, and the chunks are passed on unchanged;
   * there is no retry.
   */
  function GenerateStream(g: Gateway, b: Backend, clock: nat, msgs: seq<Json>, sp: Json,
                          model: Option<string>, kwargs: Dict): (r: Streamed)
    ensures ShapeMessages(msgs, sp).Raise? ==> r == StreamFailed(ShapeMessages(msgs, sp).exc)
    ensures ShapeMessages(msgs, sp).Ok? ==>
      r.Streaming? && r.outcome == b.streaming(clock)
      && r.request.baseUrl == BaseUrl(ResolveModel(g, model))
      && (Lookup(kwargs, "stream").None? ==> Lookup(r.request.params, "stream") == Some(JBool(true)))
      && (Lookup(kwargs, "messages").None? ==>
            Lookup(r.request.params, "messages") == Some(JArr(ShapeMessages(msgs, sp).value)))
  {
    match StreamRequest(g, msgs, sp, model, kwargs)
    case Raise(e) => StreamFailed(e)
    case Ok(req) =>
      var id := ResolveModel(g, model);
      LookupBaseParams(id, ShapeMessages(msgs, sp).value, true, kwargs, "stream");
      LookupBaseParams(id, ShapeMessages(msgs, sp).value, true, kwargs, "messages");
      Streaming(req, b.streaming(clock))
  }

  /** The value `generate` returns: the content (or parsed JSON), or the message object. */
  datatype Generated = Content(value: Json) | MessageObject(reply: Reply)

  /** What `generate` makes of the service's answer. */
  function GenerateResult(c: Codec, o: Outcome, jsonOutput: bool, contentOnly: bool): (r: Result<Generated>)
    ensures o.Failed? ==> r == Raise(o.exc)
    // `completion.choices[0]` is not guarded here
    ensures o.Answered? && o.choices == [] ==> r.Raise? && r.exc.kind == IndexError
    // JSON mode: a direct parse, else markdown recovery, else ValueError
    ensures o.Answered? && o.choices != [] && jsonOutput && o.choices[0].content.Some? ==>
      var s := o.choices[0].content.value;
      (c.parse(s).Some? ==> r == Ok(Content(c.parse(s).value)))
      && (c.parse(s).None? && ExtractMarkdown.ExtractJson(c, s) != JNull ==>
            r == Ok(Content(ExtractMarkdown.ExtractJson(c, s))))
      && (c.parse(s).None? && ExtractMarkdown.ExtractJson(c, s) == JNull ==>
            r.Raise? && r.exc.kind == ValueError)
    ensures o.Answered? && o.choices != [] && jsonOutput && o.choices[0].content.None? ==>
      r.Raise? && r.exc.kind == TypeError
    ensures o.Answered? && o.choices != [] && !jsonOutput ==>
      r == Ok(if contentOnly then Content(ContentValue(o.choices[0])) else MessageObject(o.choices[0]))
  {
    match o
    case Failed(e) => Raise(e)
    case Answered(choices) =>
      if choices == [] then Raise(Exc(IndexError, "list index out of range"))
      else if jsonOutput then
        match choices[0].content
        case None => Raise(Exc(TypeError, "the JSON object must be str, bytes or bytearray, not NoneType"))
        case Some(s) =>
          match c.parse(s)
          case Some(v) => Ok(Content(v))
          case None =>
            var extracted := ExtractMarkdown.ExtractJson(c, s);
            if extracted != JNull then Ok(Content(extracted))
            else Raise(Exc(ValueError, "LLM response has no JSON structure"))
      else if contentOnly then Ok(Content(ContentValue(choices[0])))
      else Ok(MessageObject(choices[0]))
  }

  function ContentValue(m: Reply): Json {
    match m.content
    case Some(s) => JStr(s)
    case None => JNull
  }

  /**
   * With `json_output`, `generate` returns `None` only when the reply is the
   * JSON text `null` itself: a failed recovery raises instead.
   */
  lemma {:induction false} GenerateJsonNoneOnlyForNull(c: Codec, o: Outcome, contentOnly: bool)
    requires GenerateResult(c, o, true, contentOnly) == Ok(Content(JNull))
    ensures o.Answered? && o.choices != [] && o.choices[0].content.Some?
    ensures c.parse(o.choices[0].content.value) == Some(JNull)
  {
  }

  /** `generate(...)`: one request at most, and no retry. */
  function Generate(c: Codec, g: Gateway, b: Backend, clock: nat, msgs: seq<Json>, sp: Json,
                    model: Option<string>, jsonOutput: bool, contentOnly: bool, kwargs: Dict): (r: Call<Generated>)
    ensures GenerateRequest(g, msgs, sp, model, jsonOutput, kwargs).Ok? ==>
      r.sent == [GenerateRequest(g, msgs, sp, model, jsonOutput, kwargs).value]
      && r.result == GenerateResult(c, b.blocking(clock), jsonOutput, contentOnly)
    ensures GenerateRequest(g, msgs, sp, model, jsonOutput, kwargs).Raise? ==>
      r.sent == [] && r.result == Raise(GenerateRequest(g, msgs, sp, model, jsonOutput, kwargs).exc)
  {
    match GenerateRequest(g, msgs, sp, model, jsonOutput, kwargs)
    case Raise(e) => Call(Raise(e), [])
    case Ok(req) => Call(GenerateResult(c, b.blocking(clock), jsonOutput, contentOnly), [req])
  }

  /** The value of a `generate` call that returns content only. */
  function ContentOf(r: Result<Generated>): Result<Json> {
    match r
    case Ok(Content(v)) => Ok(v)
    case Ok(MessageObject(m)) => Ok(ContentValue(m))
    case Raise(e) => Raise(e)
  }

  /** `generate(..., return_content_only=True)`: at most one request, and a value only after one. */
  function GenerateContent(c: Codec, g: Gateway, b: Backend, n: nat, msgs: seq<Json>, sp: Json,
                           model: Option<string>, jsonOutput: bool, kwargs: Dict): (r: Call<Json>)
    ensures |r.sent| <= 1
    ensures r.result.Ok? ==> |r.sent| == 1
  {
    var call := Generate(c, g, b, n, msgs, sp, model, jsonOutput, true, kwargs);
    Call(ContentOf(call.result), call.sent)
  }

  /** One `generate` call of a batch, as a function of its request number and message list. */
  type Step = (nat, seq<Json>) -> Call<Json>

  function GenerateStep(c: Codec, g: Gateway, b: Backend, sp: Json, model: Option<string>,
                        jsonOutput: bool, kwargs: Dict): Step
  {
    (n: nat, msgs: seq<Json>) => GenerateContent(c, g, b, n, msgs, sp, model, jsonOutput, kwargs)
  }

  /** Every call sends at most one request, and returns a value only after one. */
  ghost predicate OneRequestEach(step: Step) {
    forall n, msgs :: |step(n, msgs).sent| <= 1 && (step(n, msgs).result.Ok? ==> |step(n, msgs).sent| == 1)
  }

  lemma {:induction false} GenerateStepOneRequest(c: Codec, g: Gateway, b: Backend, sp: Json, model: Option<string>,
                               jsonOutput: bool, kwargs: Dict)
    ensures OneRequestEach(GenerateStep(c, g, b, sp, model, jsonOutput, kwargs))
  {
  }

  /**
   * What `batch_generate` does: one `generate` call per message list, in
   * order, each taking the next request number; the first exception ends
   * the batch.
   */
  function Batch(step: Step, clock: nat, lists: seq<seq<Json>>): (r: Call<seq<Json>>)
    ensures r.result.Ok? ==> |r.result.value| == |lists|
    decreases |lists|
  {
    if lists == [] then Call(Ok([]), [])
    else
      var prior := Batch(step, clock, lists[..|lists| - 1]);
      if prior.result.Raise? then prior
      else
        var call := step(Next(clock, prior), lists[|lists| - 1]);
        match call.result
        case Raise(e) => Call(Raise(e), prior.sent + call.sent)
        case Ok(v) => Call(Ok(prior.result.value + [v]), prior.sent + call.sent)
  }

  /**
   * A batch that succeeds returns one value per message list, in input
   * order; the i-th is the answer to request number `clock + i`, and
   * nothing is cached: every list, repeated or not, costs one request.
   */
  lemma {:induction false} BatchSucceeds(step: Step, clock: nat, lists: seq<seq<Json>>)
    requires OneRequestEach(step)
    requires Batch(step, clock, lists).result.Ok?
    ensures var r := Batch(step, clock, lists);
      |r.result.value| == |lists| && |r.sent| == |lists|
      && forall i :: 0 <= i < |lists| ==> step(clock + i, lists[i]) == Call(Ok(r.result.value[i]), [r.sent[i]])
    decreases |lists|
  {
    if lists != [] {
      var p := lists[..|lists| - 1];
      var prior := Batch(step, clock, p);
      BatchSucceeds(step, clock, p);
      var last := |lists| - 1;
      var call := step(clock + last, lists[last]);
      var r := Batch(step, clock, lists);
      assert call.result.Ok? && |call.sent| == 1;
      forall i | 0 <= i < |lists|
        ensures step(clock + i, lists[i]) == Call(Ok(r.result.value[i]), [r.sent[i]])
      {
        if i < last {
          assert lists[i] == p[i];
        } else {
          assert call.sent == [call.sent[0]];
        }
      }
    }
  }

  /** Once a call has raised, the rest of the batch is never sent. */
  lemma {:induction false} BatchStopsAtFirstRaise(step: Step, clock: nat, lists: seq<seq<Json>>, k: nat)
    requires k <= |lists|
    requires Batch(step, clock, lists[..k]).result.Raise?
    ensures Batch(step, clock, lists) == Batch(step, clock, lists[..k])
    decreases |lists|
  {
    if k < |lists| {
      var p := lists[..|lists| - 1];
      assert p[..k] == lists[..k];
      BatchStopsAtFirstRaise(step, clock, p, k);
    } else {
      assert lists[..k] == lists;
    }
  }

  /** The loop of `batch_generate`, over any step function. */
  method RunBatch(step: Step, clock: nat, lists: seq<seq<Json>>) returns (r: Result<seq<Json>>, sent: seq<Request>)
    ensures Call(r, sent) == Batch(step, clock, lists)
  {
    var results: seq<Json> := [];
    sent := [];
    var i := 0;
    while i < |lists|
      invariant 0 <= i <= |lists|
      invariant Batch(step, clock, lists[..i]) == Call(Ok(results), sent)
    {
      assert lists[..i + 1][..i] == lists[..i];
      var call := step(clock + |sent|, lists[i]);
      sent := sent + call.sent;
      if call.result.Raise? {
        BatchStopsAtFirstRaise(step, clock, lists, i + 1);
        return Raise(call.result.exc), sent;
      }
      results := results + [call.result.value];
      i := i + 1;
    }
    assert lists[..i] == lists;
    r := Ok(results);
  }

  /**
   * `batch_generate(messages_list, ...)`: `batch_size` plays no part; the
   * lists are sent one after the other.
   */
  method BatchGenerate(c: Codec, g: Gateway, b: Backend, clock: nat, lists: seq<seq<Json>>, sp: Json,
                       model: Option<string>, batchSize: int, jsonOutput: bool, kwargs: Dict)
    returns (r: Result<seq<Json>>, sent: seq<Request>)
    ensures Call(r, sent) == Batch(GenerateStep(c, g, b, sp, model, jsonOutput, kwargs), clock, lists)
  {
    r, sent := RunBatch(GenerateStep(c, g, b, sp, model, jsonOutput, kwargs), clock, lists);
  }
}
