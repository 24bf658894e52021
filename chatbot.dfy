/**
 * The greeting bot's two-stage protocol (src/agent/chatbot/chatbot.py): ask
 * the model whether to call a tool; run the first tool call and yield its
 * envelope as JSON, or else stream the reply as one envelope per text delta.
 * An exception inside the protocol becomes one error envelope.
 */
module Chatbot {
  import opened Json
  import opened Python
  import opened Codec
  import opened Llm
  import opened Executor

  /** `GreetingBot()` builds `LLM(model="deepseek-v3")`. */
  const BotGateway := Gateway("deepseek-v3-250324")

  lemma {:induction false} BotGatewayResolved()
    ensures NewGateway("deepseek-v3") == Ok(BotGateway)
  {
  }

  const RewriterName := "query_rewriter_instance"
  const ToolName := "query_rewrite"
  const ChatErrorText := "Chatbot 处理时发生错误"
  const QueryRewriteDescription := "当用户需要进行社交媒体数据分析（如品牌分析、竞品分析、用户评价分析等）时，使用此工具将用户查询或对话历史改写为结构化的分析任务。"
  const QueryDescription := "用户的原始查询或相关对话历史摘要"

  /** `llm_tools_definition`: the one tool offered in stage 1. */
  const Tools := JArr([JObj([
    ("type", JStr("function")),
    ("function", JObj([
      ("name", JStr(ToolName)),
      ("description", JStr(QueryRewriteDescription)),
      ("parameters", JObj([
        ("type", JStr("object")),
        ("properties", JObj([("query", JObj([("type", JStr("string")), ("description", JStr(QueryDescription))]))])),
        ("required", JArr([JStr("query")]))]))]))])])

  /** The content of the last user message, scanning from the end; `""` when there is none. */
  function LastUserContent(msgs: seq<Json>): (r: Result<Json>)
    ensures msgs == [] ==> r == Ok(JStr(""))
    ensures msgs != [] && !msgs[|msgs| - 1].JObj? ==> r.Raise? && r.exc.kind == AttributeError
    ensures msgs != [] && IsUser(msgs[|msgs| - 1]) ==>
      r == Ok(Get(msgs[|msgs| - 1].members, "content", JStr("")))
    decreases |msgs|
  {
    if msgs == [] then Ok(JStr(""))
    else
      var m := msgs[|msgs| - 1];
      match m
      case JObj(ms) =>
        if Lookup(ms, "role") == Some(JStr("user")) then Ok(Get(ms, "content", JStr("")))
        else LastUserContent(msgs[..|msgs| - 1])
      case _ => Raise(Exc(AttributeError, "object has no attribute 'get'"))
  }

  predicate IsUser(m: Json) {
    m.JObj? && Lookup(m.members, "role") == Some(JStr("user"))
  }

  /** The `for msg in reversed(messages)` loop, with its `break`. */
  method FindLastUserContent(msgs: seq<Json>) returns (r: Result<Json>)
    ensures r == LastUserContent(msgs)
  {
    var i := |msgs|;
    assert msgs[..i] == msgs;
    while i > 0
      invariant 0 <= i <= |msgs|
      invariant LastUserContent(msgs) == LastUserContent(msgs[..i])
    {
      assert msgs[..i][..i - 1] == msgs[..i - 1];
      var m := msgs[i - 1];
      if !m.JObj? {
        return Raise(Exc(AttributeError, "object has no attribute 'get'"));
      }
      if Lookup(m.members, "role") == Some(JStr("user")) {
        return Ok(Get(m.members, "content", JStr("")));
      }
      i := i - 1;
    }
    r := Ok(JStr(""));
  }

  /**
   * The system prompt and the messages sent: a leading system message gives
   * its content as the prompt and is dropped; otherwise the default prompt
   * is used and every message is sent.
   */
  function Conversation(msgs: seq<Json>, defaultPrompt: string): (r: Result<(Json, seq<Json>)>)
    ensures msgs != [] && msgs[0].JObj? && Lookup(msgs[0].members, "role") == Some(JStr("system")) ==>
      (Lookup(msgs[0].members, "content").Some? ==> r == Ok((Lookup(msgs[0].members, "content").value, msgs[1..])))
      && (Lookup(msgs[0].members, "content").None? ==> r.Raise? && r.exc.kind == KeyError)
    ensures (msgs == [] || (msgs[0].JObj? && Lookup(msgs[0].members, "role") != Some(JStr("system")))) ==>
      r == Ok((JStr(defaultPrompt), msgs))
    ensures msgs != [] && !msgs[0].JObj? ==> r.Raise? && r.exc.kind == AttributeError
  {
    if msgs == [] then Ok((JStr(defaultPrompt), msgs))
    else match msgs[0]
      case JObj(ms) =>
        if Lookup(ms, "role") == Some(JStr("system")) then
          match GetItem(msgs[0], "content")
          case Ok(sp) => Ok((sp, msgs[1..]))
          case Raise(e) => Raise(e)
        else Ok((JStr(defaultPrompt), msgs))
      case _ => Raise(Exc(AttributeError, "object has no attribute 'get'"))
  }

  /** Everything `chat` does before its `try`: what can fail there escapes the generator. */
  function Prelude(msgs: seq<Json>, defaultPrompt: string): Result<(Json, seq<Json>)> {
    match LastUserContent(msgs)
    case Raise(e) => Raise(e)
    case Ok(content) =>
      // the logger's name, `f"Chat: {content[:50]}..."`
      match SliceValue(content, 50)
      case Raise(e) => Raise(e)
      case Ok(_) => Conversation(msgs, defaultPrompt)
  }

  function ErrorLine(c: Codec, e: Exc): string {
    Dumps(c, Envelope("error", JObj([("error", JStr(ChatErrorText)), ("details", JStr(e.text))])))
  }

  function StreamLine(c: Codec, delta: string): string {
    Dumps(c, Envelope("stream", JObj([("content", JStr(delta))])))
  }

  /** `delta.content` of a chunk when it is there and not empty. */
  function DeltaText(ch: Chunk): Option<string> {
    if ch.deltas != [] && ch.deltas[0].Some? && ch.deltas[0].value != "" then ch.deltas[0] else None
  }

  /** The text deltas of a stream, in chunk order; other chunks contribute nothing. */
  function Deltas(chunks: seq<Chunk>): (ds: seq<string>)
    ensures |ds| <= |chunks|
    ensures forall i :: 0 <= i < |ds| ==> ds[i] != ""
    decreases |chunks|
  {
    if chunks == [] then []
    else
      var rest := Deltas(chunks[..|chunks| - 1]);
      match DeltaText(chunks[|chunks| - 1])
      case Some(d) => rest + [d]
      case None => rest
  }

  function Concat(ds: seq<string>): string
    decreases |ds|
  {
    if ds == [] then "" else Concat(ds[..|ds| - 1]) + ds[|ds| - 1]
  }

  /** Every delta of a stream, and nothing else, gets one `"stream"` envelope. */
  lemma {:induction false} DeltasExact(chunks: seq<Chunk>)
    ensures |Deltas(chunks)| == |set i | 0 <= i < |chunks| && DeltaText(chunks[i]).Some?|
    decreases |chunks|
  {
    if chunks != [] {
      var p := chunks[..|chunks| - 1];
      DeltasExact(p);
      var n := |chunks| - 1;
      var before := set i | 0 <= i < |p| && DeltaText(p[i]).Some?;
      var all := set i | 0 <= i < |chunks| && DeltaText(chunks[i]).Some?;
      assert before == set i | 0 <= i < n && DeltaText(chunks[i]).Some?;
      if DeltaText(chunks[n]).Some? {
        assert all == before + {n};
      } else {
        assert all == before;
      }
    }
  }

  /** The stream loop: one envelope per delta, and `full_response` gathering the text. */
  method StreamText(c: Codec, chunks: seq<Chunk>) returns (lines: seq<string>, full: string)
    ensures |lines| == |Deltas(chunks)|
    ensures forall i :: 0 <= i < |lines| ==> lines[i] == StreamLine(c, Deltas(chunks)[i])
    ensures full == Concat(Deltas(chunks))
  {
    lines := [];
    full := "";
    for k := 0 to |chunks|
      invariant |lines| == |Deltas(chunks[..k])|
      invariant forall i :: 0 <= i < |lines| ==> lines[i] == StreamLine(c, Deltas(chunks[..k])[i])
      invariant full == Concat(Deltas(chunks[..k]))
    {
      assert chunks[..k + 1][..k] == chunks[..k];
      var ch := chunks[k];
      if ch.deltas != [] && ch.deltas[0].Some? && ch.deltas[0].value != "" {
        var d := ch.deltas[0].value;
        full := full + d;
        lines := lines + [StreamLine(c, d)];
      }
    }
    assert chunks[..|chunks|] == chunks;
  }

  /** What the tool path yields: the executor's envelope, or the error that replaced it. */
  function ToolLine(c: Codec, r: Result<Json>): string {
    match r
    case Ok(v) => Dumps(c, v)
    case Raise(e) => ErrorLine(c, e)
  }

  /** The lines of the text path: the deltas, then one error line if the stream broke off. */
  function StreamLines(c: Codec, s: Streamed): seq<string> {
    match s
    case StreamFailed(e) => [ErrorLine(c, e)]
    case Streaming(_, so) =>
      seq(|Deltas(so.chunks)|, i requires 0 <= i < |Deltas(so.chunks)| => StreamLine(c, Deltas(so.chunks)[i]))
      + (if so.failure.Some? then [ErrorLine(c, so.failure.value)] else [])
  }

  /** The requests the text path sends. */
  function StreamSent(s: Streamed): seq<Request> {
    match s
    case StreamFailed(_) => []
    case Streaming(req, _) => [req]
  }

  /** The text path: the deltas of the stream, each in its envelope. */
  method TextPath(c: Codec, b: Backend, clock: nat, sp: Json, llmMsgs: seq<Json>)
    returns (lines: seq<string>, sent: seq<Request>)
    ensures lines == StreamLines(c, GenerateStream(BotGateway, b, clock, llmMsgs, sp, None, []))
    ensures sent == StreamSent(GenerateStream(BotGateway, b, clock, llmMsgs, sp, None, []))
  {
    var stream := GenerateStream(BotGateway, b, clock, llmMsgs, sp, None, []);
    if stream.StreamFailed? {
      return [ErrorLine(c, stream.exc)], [];
    }
    sent := [stream.request];
    var full;
    lines, full := StreamText(c, stream.outcome.chunks);
    if stream.outcome.failure.Some? {
      lines := lines + [ErrorLine(c, stream.outcome.failure.value)];
    }
  }

  /** The `try` block of `chat`: every exception in it becomes one error line. */
  method Respond(c: Codec, b: Backend, clock: nat, rewriter: Instance, sp: Json, llmMsgs: seq<Json>)
    returns (lines: seq<string>, sent: seq<Request>)
    ensures var decision := AskToolCall(BotGateway, b, clock, llmMsgs, sp, None, Tools, JStr("auto"), false, []);
      (decision.result.Raise? ==>
         lines == [ErrorLine(c, decision.result.exc)] && sent == decision.sent)
      // tool calls win over any text: only the first one runs, and one line is yielded
      && (decision.result.Ok? && decision.result.value.toolCalls != [] ==>
            var call := decision.result.value.toolCalls[0];
            lines == [ToolLine(c, Execute(c, [(RewriterName, rewriter)], call.name, Some(call.arguments), RepoLogger))]
            && sent == decision.sent)
      && (decision.result.Ok? && decision.result.value.toolCalls == [] ==>
            var s := GenerateStream(BotGateway, b, Next(clock, decision), llmMsgs, sp, None, []);
            lines == StreamLines(c, s) && sent == decision.sent + StreamSent(s))
  {
    // Stage 1: the tool decision
    var decision;
    decision, sent := AskTool(BotGateway, b, clock, llmMsgs, sp, None, Tools, JStr("auto"), false, []);
    if decision.Raise? {
      return [ErrorLine(c, decision.exc)], sent;
    }
    // Stage 2: the tool, or the streamed text
    if decision.value.toolCalls != [] {
      var call := decision.value.toolCalls[0];
      var result := ExecuteTool(c, [(RewriterName, rewriter)], call.name, Some(call.arguments), RepoLogger);
      if result.Raise? {
        return [ErrorLine(c, result.exc)], sent;
      }
      return [Dumps(c, result.value)], sent;
    }
    ghost var call := AskToolCall(BotGateway, b, clock, llmMsgs, sp, None, Tools, JStr("auto"), false, []);
    var next := clock + |sent|;
    assert next == Next(clock, call);
    var more;
    lines, more := TextPath(c, b, next, sp, llmMsgs);
    sent := sent + more;
  }

  /**
   * `GreetingBot.chat(messages)`, run to its end.  `rewriter` is the
   * `QueryRewriter` instance the bot registers; `defaultPrompt` is
   * `GREETING_BOT_SYSTEM_PROMPT`.  A failure before the `try` escapes with
   * nothing yielded; inside it nothing escapes.
   */
  method Chat(c: Codec, b: Backend, clock: nat, rewriter: Instance, defaultPrompt: string, msgs: seq<Json>)
    returns (run: Run<string>, sent: seq<Request>)
    ensures Prelude(msgs, defaultPrompt).Raise? ==>
      run == Run([], Some(Prelude(msgs, defaultPrompt).exc)) && sent == []
    ensures Prelude(msgs, defaultPrompt).Ok? ==>
      run.raised.None?
      && var (sp, llmMsgs) := Prelude(msgs, defaultPrompt).value;
      var decision := AskToolCall(BotGateway, b, clock, llmMsgs, sp, None, Tools, JStr("auto"), false, []);
      (decision.result.Raise? ==> run.items == [ErrorLine(c, decision.result.exc)])
      && (decision.result.Ok? && decision.result.value.toolCalls != [] ==> |run.items| == 1)
  {
    var content := FindLastUserContent(msgs);
    if content.Raise? {
      return Run([], Some(content.exc)), [];
    }
    var logName := SliceValue(content.value, 50);
    if logName.Raise? {
      return Run([], Some(logName.exc)), [];
    }
    var conversation := Conversation(msgs, defaultPrompt);
    if conversation.Raise? {
      return Run([], Some(conversation.exc)), [];
    }
    var (sp, llmMsgs) := conversation.value;
    var lines;
    lines, sent := Respond(c, b, clock, rewriter, sp, llmMsgs);
    run := Run(lines, None);
  }

  /** `RiskControlBot.check_content`: every content passes. */
  function CheckContent(content: string): (ok: bool)
    ensures ok
  {
    true
  }
}
