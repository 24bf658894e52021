/**
 * The HTTP layer (app/routes.py): the streaming query endpoint, which turns
 * what the chatbot and the planner yield into one JSON line per event, and
 * the data endpoint, which lays the atomic-insight records over the raw
 * records.
 *
 * What the chatbot and the planner yield are parameters of the two branches
 * (the modules Chatbot and Planner compute them; `ServerRun` is the planner's
 * run that a server query starts).
 * The clock, the directory the run is given, and the report file are the
 * `Host` parameter.
 */
module Routes {
  import opened Json
  import opened Python
  import opened Codec
  import Llm
  import Executor
  import Planner
  import AtomicInsights

  // ---------------------------------------------------------------- events

  /** The identifiers every event echoes from the request. */
  datatype Ids = Ids(qaId: string, userId: string, conversationId: string)

  /** One event before it is written: its `task_type` and its `content`. */
  datatype Frame = Frame(taskType: Json, content: Json)

  function Payload(ids: Ids, f: Frame): Json {
    JObj([("qa_id", JStr(ids.qaId)), ("user_id", JStr(ids.userId)), ("conversation_id", JStr(ids.conversationId)),
          ("task_type", f.taskType), ("content", f.content)])
  }

  /** `format_stream_response(qa_id, user_id, conversation_id, task_type, content_data)` */
  function FormatStreamResponse(c: Codec, ids: Ids, f: Frame): string {
    Dumps(c, Payload(ids, f)) + "\n"
  }

  /** The text of a stream of events. */
  function Lines(c: Codec, ids: Ids, fs: seq<Frame>): (ls: seq<string>)
    ensures |ls| == |fs| && forall i :: 0 <= i < |fs| ==> ls[i] == FormatStreamResponse(c, ids, fs[i])
  {
    seq(|fs|, i requires 0 <= i < |fs| => FormatStreamResponse(c, ids, fs[i]))
  }

  lemma {:induction false} LinesAppend(c: Codec, ids: Ids, a: seq<Frame>, b: seq<Frame>)
    ensures Lines(c, ids, a + b) == Lines(c, ids, a) + Lines(c, ids, b)
  {
  }

  /** Each event is one line: `json.dumps` writes no line break of its own. */
  lemma {:induction false} OneLinePerEvent(c: Codec, ids: Ids, f: Frame)
    requires FloatsOnOneLine(c)
    ensures var line := FormatStreamResponse(c, ids, f);
      |line| >= 1 && line[|line| - 1] == '\n' && '\n' !in line[..|line| - 1]
  {
    DumpsOneLine(c, Payload(ids, f));
    var line := FormatStreamResponse(c, ids, f);
    assert line[..|line| - 1] == Dumps(c, Payload(ids, f));
  }

  /** The five keys of an event are distinct, so an event is a value `json.loads` can give back. */
  lemma {:induction false} PayloadWellFormed(ids: Ids, f: Frame)
    requires WellFormed(f.taskType) && WellFormed(f.content)
    ensures WellFormed(Payload(ids, f))
  {
    var ms := Payload(ids, f).members;
    assert ms[1].0[0] != ms[4].0[0];
    assert DistinctKeys(ms);
    forall m | m in ms ensures WellFormed(m.1) {
    }
  }

  /** An event holds the five members, the identifiers being those of the request. */
  lemma {:induction false} PayloadMembers(ids: Ids, f: Frame)
    ensures var ms := Payload(ids, f).members;
      Keys(ms) == {"qa_id", "user_id", "conversation_id", "task_type", "content"}
      && Lookup(ms, "qa_id") == Some(JStr(ids.qaId))
      && Lookup(ms, "user_id") == Some(JStr(ids.userId))
      && Lookup(ms, "conversation_id") == Some(JStr(ids.conversationId))
      && Lookup(ms, "task_type") == Some(f.taskType)
      && Lookup(ms, "content") == Some(f.content)
  {
    var ms := Payload(ids, f).members;
    assert ms[1].0[0] != ms[4].0[0];
    assert DistinctKeys(ms);
    LookupDistinct(ms, 0);
    LookupDistinct(ms, 1);
    LookupDistinct(ms, 2);
    assert Keys(ms) == {"qa_id", "user_id", "conversation_id", "task_type", "content"} by {
      assert ms == [ms[0], ms[1], ms[2], ms[3], ms[4]];
    }
  }

  /** The line, without its line break, reads back as the event. */
  lemma {:induction false} EventReadsBack(c: Codec, ids: Ids, f: Frame)
    requires RoundTrips(c) && WellFormed(f.taskType) && WellFormed(f.content)
    ensures var line := FormatStreamResponse(c, ids, f);
      c.parse(line[..|line| - 1]) == Some(Payload(ids, f))
  {
    PayloadWellFormed(ids, f);
    var line := FormatStreamResponse(c, ids, f);
    assert line[..|line| - 1] == Dumps(c, Payload(ids, f));
  }

  function StreamFrame(text: string): Frame {
    Frame(JStr("stream"), JObj([("content", JStr(text))]))
  }

  function ErrorFrame(text: string): Frame {
    Frame(JStr("error"), JObj([("error", JStr(text))]))
  }

  function ReportFrame(line: string): Frame {
    Frame(JStr("report"), JObj([("content", JStr(line))]))
  }

  function DoneFrame(summary: Dict): Frame {
    Frame(JStr("done"), JObj(summary))
  }

  /** `ERROR_CODES["INTERNAL_ERROR_500"]` */
  const InternalError := JObj([("code", JStr("INTERNAL_ERROR_500")), ("message", JStr("Internal server error")),
                               ("retryable", JBool(true))])

  /** What the outer handler of the stream yields for any exception. */
  const FailureFrame := Frame(JStr("error"), InternalError)

  predicate IsDone(f: Frame) {
    f.taskType == JStr("done")
  }

  /** `not xs` for an optional list. */
  predicate Present<T>(xs: Option<seq<T>>) {
    xs.Some? && xs.value != []
  }

  // ------------------------------------------------------------ user query

  /** `type(v).__name__` */
  function TypeName(v: Json): string {
    match v
    case JNull => "NoneType"
    case JBool(_) => "bool"
    case JInt(_) => "int"
    case JFloat(_) => "float"
    case JStr(_) => "str"
    case JArr(_) => "list"
    case JObj(_) => "dict"
  }

  const MissingContent := JObj([("error", JStr("Missing content from chatbot"))])

  /**
   * The event for one string the chatbot yielded: its own task type and
   * content when it is a JSON object, the raw text when it is not JSON, an
   * error when it is JSON but not an object (`.get` raises).
   */
  function ChunkFrame(c: Codec, s: string): Frame {
    match c.parse(s)
    case None => StreamFrame("[Chatbot Raw]: " + s)
    case Some(JObj(ms)) => Frame(Get(ms, "task_type", JStr("error")), Get(ms, "content", MissingContent))
    case Some(v) => ErrorFrame("Error processing chatbot response: '" + TypeName(v) + "' object has no attribute 'get'")
  }

  /** One event per string the chatbot yielded, then the failure event if it raised. */
  function ChatFrames(c: Codec, chat: Run<string>): seq<Frame> {
    seq(|chat.items|, i requires 0 <= i < |chat.items| => ChunkFrame(c, chat.items[i]))
      + (if chat.raised.Some? then [FailureFrame] else [])
  }

  /** The `user` branch; `chat` is what `GreetingBot().chat(messages)` yields. */
  function UserFrames(c: Codec, messages: Option<seq<Json>>, chat: Run<string>): seq<Frame> {
    if !Present(messages) then [ErrorFrame("Missing 'messages' in content")]
    else ChatFrames(c, chat)
  }

  /** A string that parses as an envelope gives the envelope's task type and content. */
  lemma {:induction false} ChunkOfEnvelope(c: Codec, s: string, taskType: string, content: Json)
    requires c.parse(s) == Some(Executor.Envelope(taskType, content))
    ensures ChunkFrame(c, s) == Frame(JStr(taskType), content)
  {
    var ms := Executor.Envelope(taskType, content).members;
    assert DistinctKeys(ms);
    LookupDistinct(ms, 0);
    LookupDistinct(ms, 1);
    assert ChunkFrame(c, s) == Frame(Get(ms, "task_type", JStr("error")), Get(ms, "content", MissingContent));
  }

  /** An envelope the chatbot writes reads back as itself. */
  lemma {:induction false} EnvelopeReadsBack(c: Codec, taskType: string, content: Json)
    requires RoundTrips(c) && WellFormed(content)
    ensures c.parse(Dumps(c, Executor.Envelope(taskType, content))) == Some(Executor.Envelope(taskType, content))
  {
    var e := Executor.Envelope(taskType, content);
    assert DistinctKeys(e.members);
    assert WellFormed(e) by {
      forall m | m in e.members ensures WellFormed(m.1) {
      }
    }
  }

  /** The envelopes the chatbot writes are forwarded with their own task type and content. */
  lemma {:induction false} ChatbotEnvelopeForwarded(c: Codec, taskType: string, content: Json)
    requires RoundTrips(c) && WellFormed(content)
    ensures ChunkFrame(c, Dumps(c, Executor.Envelope(taskType, content))) == Frame(JStr(taskType), content)
  {
    EnvelopeReadsBack(c, taskType, content);
    ChunkOfEnvelope(c, Dumps(c, Executor.Envelope(taskType, content)), taskType, content);
  }

  /** The try/except around one chatbot string. */
  method ForwardChunk(c: Codec, ids: Ids, s: string) returns (line: string)
    ensures line == FormatStreamResponse(c, ids, ChunkFrame(c, s))
  {
    var parsed := c.parse(s);
    if parsed.None? {
      return FormatStreamResponse(c, ids, StreamFrame("[Chatbot Raw]: " + s));
    }
    if !parsed.value.JObj? {
      var text := "Error processing chatbot response: '" + TypeName(parsed.value) + "' object has no attribute 'get'";
      return FormatStreamResponse(c, ids, ErrorFrame(text));
    }
    var taskType := Get(parsed.value.members, "task_type", JStr("error"));
    var contentData := Get(parsed.value.members, "content", MissingContent);
    line := FormatStreamResponse(c, ids, Frame(taskType, contentData));
  }

  /** The loop over the chatbot's strings, inside the stream's `try`. */
  method StreamChat(c: Codec, ids: Ids, chat: Run<string>) returns (lines: seq<string>)
    ensures lines == Lines(c, ids, ChatFrames(c, chat))
  {
    lines := [];
    for i := 0 to |chat.items|
      invariant |lines| == i
      invariant forall j :: 0 <= j < i ==> lines[j] == FormatStreamResponse(c, ids, ChunkFrame(c, chat.items[j]))
    {
      var line := ForwardChunk(c, ids, chat.items[i]);
      lines := lines + [line];
    }
    if chat.raised.Some? {
      lines := lines + [FormatStreamResponse(c, ids, FailureFrame)];
    }
    ghost var fs := ChatFrames(c, chat);
    assert |lines| == |fs|;
    forall j | 0 <= j < |fs| ensures lines[j] == Lines(c, ids, fs)[j] {
    }
  }

  // ---------------------------------------------------------- server query

  /** `os.path.basename(p)`: what follows the last `/`. */
  function Basename(p: string): (r: string)
    ensures '/' !in r && EndsWith(p, r)
    decreases |p|
  {
    if p == [] || p[|p| - 1] == '/' then ""
    else
      var prior := Basename(p[..|p| - 1]);
      assert p[..|p| - 1][|p| - 1 - |prior|..] == prior;
      assert p[|p| - |prior| - 1..] == p[..|p| - 1][|p| - 1 - |prior|..] + [p[|p| - 1]];
      prior + [p[|p| - 1]]
  }

  /**
   * The environment of a server run: the time stamp in the directory name,
   * whether `os.makedirs` fails, and the report file (`os.path.exists`, and
   * the lines it reads, each with its line break, up to an exception).
   */
  datatype Host = Host(timestamp: string, makedirs: string -> Option<Exc>, pathExists: string -> bool,
                       readLines: string -> Run<string>)

  /** `data/server_runs/conv_<conversation>_qa_<qa>_<timestamp>` */
  function RunDir(ids: Ids, timestamp: string): string {
    PathJoin(PathJoin("data", "server_runs"), "conv_" + ids.conversationId + "_qa_" + ids.qaId + "_" + timestamp)
  }

  function SetupText(dir: string): string {
    "[SETUP] Analysis setup complete. Output Dir: " + dir + ". Starting analysis..."
  }

  /** `PlanningAgent(output_dir=run_output_dir, logger=run_logger)`; the run logger is an `ExecutionLogger`. */
  function ServerAgent(base: Planner.Agent, dir: string): Planner.Agent {
    base.(outputDir := dir, lg := Executor.RepoLogger)
  }

  /** The planner's `structured_query` argument. */
  function QueryArg(query: Option<Dict>): Json {
    match query
    case None => JNull
    case Some(d) => JObj(d)
  }

  /** What the stream sends for one item the planner yielded: a dict is kept back. */
  function PlannerFrame(c: Codec, e: Planner.Event): Option<Frame> {
    match e
    case Text(s) => Some(StreamFrame(s))
    case Summary(JObj(_)) => None
    case Summary(v) => Some(StreamFrame("[WARN] Unexpected output from planner: " + Take(Str(c, v), 100)))
  }

  /** The events for one planner item: none for a dict, otherwise one. */
  function FramesOf(c: Codec, e: Planner.Event): seq<Frame> {
    match PlannerFrame(c, e) case None => [] case Some(f) => [f]
  }

  /** The dict kept after one more item: that item when it is a dict, the one before otherwise. */
  function KeptSummary(e: Planner.Event, kept: Option<Dict>): Option<Dict> {
    match e case Summary(JObj(ms)) => Some(ms) case _ => kept
  }

  /** The events for the planner's items, in order; all of them are stream events. */
  function PlannerFrames(c: Codec, items: seq<Planner.Event>): (fs: seq<Frame>)
    ensures |fs| <= |items|
    ensures forall i :: 0 <= i < |fs| ==> fs[i].taskType == JStr("stream")
    decreases |items|
  {
    if items == [] then []
    else
      var prior := PlannerFrames(c, items[..|items| - 1]);
      match PlannerFrame(c, items[|items| - 1])
      case None => prior
      case Some(f) => prior + [f]
  }

  /** `final_summary`: the last dict the planner yielded. */
  function LastSummary(items: seq<Planner.Event>): Option<Dict>
    decreases |items|
  {
    if items == [] then None
    else match items[|items| - 1]
      case Summary(JObj(ms)) => Some(ms)
      case _ => LastSummary(items[..|items| - 1])
  }

  /** Progress lines are forwarded one for one, in order. */
  lemma {:induction false} PlannerTexts(c: Codec, items: seq<Planner.Event>)
    requires forall i :: 0 <= i < |items| ==> items[i].Text?
    ensures PlannerFrames(c, items) == seq(|items|, i requires 0 <= i < |items| => StreamFrame(items[i].line))
    ensures LastSummary(items).None?
    decreases |items|
  {
    if items != [] {
      PlannerTexts(c, items[..|items| - 1]);
    }
  }

  /** The report line for the end of the transmission, or for the exception that cut it short. */
  function ReportEnd(path: string, raised: Option<Exc>): Frame {
    match raised
    case None => StreamFrame("[REPORT] Report transmission complete.")
    case Some(e) =>
      if e.kind.FileNotFound? then StreamFrame("[ERROR] Report file not found at path: " + path)
      else StreamFrame("[ERROR] Failed to stream report file: " + e.text)
  }

  function ReportFrames(lines: seq<string>): (fs: seq<Frame>)
    ensures |fs| == |lines| && forall i :: 0 <= i < |lines| ==> fs[i] == ReportFrame(lines[i])
  {
    seq(|lines|, i requires 0 <= i < |lines| => ReportFrame(lines[i]))
  }

  const NotAPath := Exc(OutsideModel, "final_report_path is truthy but not a string")

  /**
   * Step 2 of the server branch: the report file, line by line, when the
   * summary names one that exists.  Reading errors are reported in the
   * stream and do not end it.
   */
  function ReportStage(host: Host, summary: Dict): Run<Frame> {
    var path := Get(summary, "final_report_path", JNull);
    if !Truthy(path) then Run([], None)
    else match path
      case JStr(p) =>
        if host.pathExists(p) then Run(FileFrames(p, host.readLines(p)), None)
        else Run([StreamFrame("[WARN] Report path exists in summary but file not found: " + p)], None)
      case _ => Run([], Some(NotAPath))
  }

  /** The start frame, one frame per line of the report file read from `p`, and the end frame. */
  function FileFrames(p: string, file: Run<string>): seq<Frame> {
    [StreamFrame("[REPORT] Starting report transmission from " + Basename(p) + "...")]
    + ReportFrames(file.items) + [ReportEnd(p, file.raised)]
  }

  /** What follows the planner's lines: the failure, the missing summary, or the report and `done`. */
  function Ending(host: Host, run: Run<Planner.Event>): seq<Frame> {
    if run.raised.Some? then [FailureFrame]
    else match LastSummary(run.items)
      case None => [ErrorFrame("Internal error: Analysis completed without summary")]
      case Some(d) =>
        var report := ReportStage(host, d);
        report.items + (if report.raised.Some? then [FailureFrame] else [DoneFrame(d)])
  }

  /** The server branch after the setup line, for the items the planner yielded. */
  function AfterSetup(host: Host, c: Codec, run: Run<Planner.Event>): seq<Frame> {
    PlannerFrames(c, run.items) + Ending(host, run)
  }

  /** The planner's `result_data` argument: the collected records as a list. */
  function DataArg(collected: Option<seq<Json>>): Json {
    JArr(if collected.Some? then collected.value else [])
  }

  /** What the planner yields when the server branch gets as far as starting it. */
  function ServerRun(c: Codec, b: Llm.Backend, clock: nat, base: Planner.Agent, host: Host, ids: Ids,
                     collected: Option<seq<Json>>, query: Option<Dict>): Run<Planner.Event>
  {
    Planner.Analysis(c, b, clock, ServerAgent(base, RunDir(ids, host.timestamp)), DataArg(collected), QueryArg(query)).0
  }

  /**
   * The events of the server branch; `run` is what the planner yields
   * (`ServerRun`), and it is used only once the output directory exists.
   */
  function ServerFrames(c: Codec, host: Host, ids: Ids, collected: Option<seq<Json>>,
                        run: Run<Planner.Event>): seq<Frame>
  {
    if !Present(collected) then [ErrorFrame("Missing or empty 'collected_data' in content")]
    else
      var dir := RunDir(ids, host.timestamp);
      match host.makedirs(dir)
      case Some(e) =>
        if e.kind.OsError? || e.kind.FileNotFound? then [ErrorFrame("Failed to create output directory")]
        else [FailureFrame]
      case None => [StreamFrame(SetupText(dir))] + AfterSetup(host, c, run)
  }

  /** The report stage sends no `done`. */
  lemma {:induction false} ReportNoDone(host: Host, summary: Dict)
    ensures forall i :: 0 <= i < |ReportStage(host, summary).items| ==> !IsDone(ReportStage(host, summary).items[i])
  {
  }

  /** The end of the server branch: `done` only last, exactly when nothing failed. */
  lemma {:induction false} EndingDone(host: Host, run: Run<Planner.Event>)
    ensures var es := Ending(host, run);
      |es| >= 1
      && (forall i :: 0 <= i < |es| - 1 ==> !IsDone(es[i]))
      && (IsDone(es[|es| - 1]) <==>
            run.raised.None? && LastSummary(run.items).Some? && ReportStage(host, LastSummary(run.items).value).raised.None?)
      && (IsDone(es[|es| - 1]) ==> es[|es| - 1] == DoneFrame(LastSummary(run.items).value))
  {
    if run.raised.None? && LastSummary(run.items).Some? {
      ReportNoDone(host, LastSummary(run.items).value);
    }
  }

  /**
   * `done` comes at most once, and only last: it comes exactly when the
   * planner ended normally with a dict and the report stage did not raise,
   * and it carries the last dict.
   */
  lemma {:induction false} DoneOnlyLast(host: Host, c: Codec, run: Run<Planner.Event>)
    ensures var fs := AfterSetup(host, c, run);
      |fs| >= 1
      && (forall i :: 0 <= i < |fs| - 1 ==> !IsDone(fs[i]))
      && (IsDone(fs[|fs| - 1]) <==>
            run.raised.None? && LastSummary(run.items).Some? && ReportStage(host, LastSummary(run.items).value).raised.None?)
      && (IsDone(fs[|fs| - 1]) ==> fs[|fs| - 1] == DoneFrame(LastSummary(run.items).value))
  {
    EndingDone(host, run);
    var texts := PlannerFrames(c, run.items);
    var es := Ending(host, run);
    var fs := AfterSetup(host, c, run);
    forall i | 0 <= i < |fs| - 1 ensures !IsDone(fs[i]) {
      if i >= |texts| {
        assert fs[i] == es[i - |texts|];
      }
    }
    assert fs[|fs| - 1] == es[|es| - 1];
  }

  /** The planner's lines before its final dict are forwarded one for one. */
  lemma {:induction false} FinalTexts(c: Codec, run: Run<Planner.Event>, path: Option<string>)
    requires |run.items| >= 1 && run.items[|run.items| - 1] == Planner.Summary(Planner.FinalDict(path))
    requires forall i :: 0 <= i < |run.items| - 1 ==> run.items[i].Text?
    ensures var items := run.items;
      PlannerFrames(c, items) == seq(|items| - 1, i requires 0 <= i < |items| - 1 => StreamFrame(items[i].line))
  {
    var items := run.items;
    var texts := items[..|items| - 1];
    PlannerTexts(c, texts);
    assert PlannerFrames(c, items) == PlannerFrames(c, texts);
  }

  /** After the final dict come the report stage, which cannot raise, and `done`. */
  lemma {:induction false} FinalEnding(host: Host, run: Run<Planner.Event>, path: Option<string>)
    requires run.raised.None? && |run.items| >= 1
    requires run.items[|run.items| - 1] == Planner.Summary(Planner.FinalDict(path))
    ensures var d := Planner.FinalDict(path).members;
      Ending(host, run) == ReportStage(host, d).items + [DoneFrame(d)]
      && (path.None? ==> ReportStage(host, d).items == [])
  {
    var d := Planner.FinalDict(path).members;
    assert LastSummary(run.items) == Some(d);
    assert Get(d, "final_report_path", JNull) == (if path.Some? then JStr(path.value) else JNull);
  }

  /**
   * After the setup line, for a planner run that ended normally with its
   * progress lines and then the final dict: one stream line per progress
   * line in order, possibly the report, and `done` with the final dict
   * last.  Without a report path there is nothing between the planner's
   * lines and `done`.
   */
  lemma {:induction false} StartedShape(host: Host, c: Codec, dir: string, run: Run<Planner.Event>, path: Option<string>)
    requires run.raised.None? && |run.items| >= 1
    requires run.items[|run.items| - 1] == Planner.Summary(Planner.FinalDict(path))
    requires forall i :: 0 <= i < |run.items| - 1 ==> run.items[i].Text?
    ensures var items := run.items;
      var fs := [StreamFrame(SetupText(dir))] + AfterSetup(host, c, run);
      |fs| >= |items| + 1
      && fs[0] == StreamFrame(SetupText(dir))
      && (forall i :: 0 <= i < |items| - 1 ==> fs[i + 1] == StreamFrame(items[i].line))
      && fs[|fs| - 1] == DoneFrame(Planner.FinalDict(path).members)
      && (path.None? ==> |fs| == |items| + 1)
  {
    FinalTexts(c, run, path);
    FinalEnding(host, run, path);
    var texts := PlannerFrames(c, run.items);
    var ending := Ending(host, run);
    var head := [StreamFrame(SetupText(dir))] + texts;
    var fs := [StreamFrame(SetupText(dir))] + AfterSetup(host, c, run);
    assert |texts| == |run.items| - 1;
    assert fs == head + ending;
    assert ending[|ending| - 1] == DoneFrame(Planner.FinalDict(path).members);
    forall i | 0 <= i < |run.items| - 1 ensures fs[i + 1] == StreamFrame(run.items[i].line) {
      assert fs[i + 1] == head[i + 1] == texts[i];
    }
  }

  /**
   * What the planner of a server query yields when it ends normally: its
   * progress lines, then the final dict, which names the run's report or no
   * report.
   */
  lemma {:induction false} PlannerRunEnds(c: Codec, b: Llm.Backend, clock: nat, base: Planner.Agent, host: Host, ids: Ids,
                       collected: Option<seq<Json>>, query: Option<Dict>, run: Run<Planner.Event>)
    requires run == ServerRun(c, b, clock, base, host, ids, collected, query) && run.raised.None?
    ensures |run.items| >= 2
    ensures var last := run.items[|run.items| - 1];
      last == Planner.Summary(Planner.FinalDict(None))
      || last == Planner.Summary(Planner.FinalDict(Some(Planner.ReportPath(ServerAgent(base, RunDir(ids, host.timestamp))))))
    ensures forall i :: 0 <= i < |run.items| - 1 ==> run.items[i].Text?
  {
    Planner.SummaryLast(c, b, clock, ServerAgent(base, RunDir(ids, host.timestamp)), DataArg(collected), QueryArg(query));
  }

  /**
   * A server query whose planner ends normally: the setup line, the
   * planner's progress lines, possibly the report, and `done` with the
   * planner's final dict (which names the report path, or none) last.
   */
  lemma {:induction false} ServerRunShape(c: Codec, host: Host, ids: Ids, collected: Option<seq<Json>>, run: Run<Planner.Event>,
                       reportPath: string)
    requires Present(collected) && host.makedirs(RunDir(ids, host.timestamp)).None?
    requires run.raised.None? && |run.items| >= 2
    requires var last := run.items[|run.items| - 1];
      last == Planner.Summary(Planner.FinalDict(None)) || last == Planner.Summary(Planner.FinalDict(Some(reportPath)))
    requires forall i :: 0 <= i < |run.items| - 1 ==> run.items[i].Text?
    ensures var items := run.items;
      var fs := ServerFrames(c, host, ids, collected, run);
      |fs| >= |items| + 1
      && fs[0] == StreamFrame(SetupText(RunDir(ids, host.timestamp)))
      && (forall i :: 0 <= i < |items| - 1 ==> fs[i + 1] == StreamFrame(items[i].line))
      && (fs[|fs| - 1] == DoneFrame(Planner.FinalDict(None).members)
          || fs[|fs| - 1] == DoneFrame(Planner.FinalDict(Some(reportPath)).members))
      && (items[|items| - 1] == Planner.Summary(Planner.FinalDict(None)) ==> |fs| == |items| + 1)
  {
    var dir := RunDir(ids, host.timestamp);
    assert ServerFrames(c, host, ids, collected, run) == [StreamFrame(SetupText(dir))] + AfterSetup(host, c, run);
    if run.items[|run.items| - 1] == Planner.Summary(Planner.FinalDict(None)) {
      StartedShape(host, c, dir, run, None);
    } else {
      StartedShape(host, c, dir, run, Some(reportPath));
    }
  }

  /** The item loop of the server branch: progress lines are sent, the last dict is kept. */
  method StreamPlanner(c: Codec, ids: Ids, items: seq<Planner.Event>)
    returns (lines: seq<string>, finalSummary: Option<Dict>)
    ensures lines == Lines(c, ids, PlannerFrames(c, items))
    ensures finalSummary == LastSummary(items)
  {
    lines, finalSummary := [], None;
    for i := 0 to |items|
      invariant lines == Lines(c, ids, PlannerFrames(c, items[..i]))
      invariant finalSummary == LastSummary(items[..i])
    {
      PlannerStep(c, items, i);
      var more;
      more, finalSummary := ForwardItem(c, ids, items[i], finalSummary);
      LinesAppend(c, ids, PlannerFrames(c, items[..i]), FramesOf(c, items[i]));
      lines := lines + more;
    }
    assert items[..|items|] == items;
  }

  /** One planner item in the server branch: a progress line is sent, a dict is kept. */
  method ForwardItem(c: Codec, ids: Ids, e: Planner.Event, kept: Option<Dict>)
    returns (more: seq<string>, now: Option<Dict>)
    ensures more == Lines(c, ids, FramesOf(c, e))
    ensures now == KeptSummary(e, kept)
  {
    match e
    case Text(s) =>
      more, now := [FormatStreamResponse(c, ids, StreamFrame(s))], kept;
    case Summary(v) =>
      if v.JObj? {
        more, now := [], Some(v.members);
      } else {
        var warning := StreamFrame("[WARN] Unexpected output from planner: " + Take(Str(c, v), 100));
        more, now := [FormatStreamResponse(c, ids, warning)], kept;
      }
  }

  /** One more planner item: its event, if it has one, and the summary it may replace. */
  lemma {:induction false} PlannerStep(c: Codec, items: seq<Planner.Event>, i: nat)
    requires i < |items|
    ensures PlannerFrames(c, items[..i + 1]) == PlannerFrames(c, items[..i]) + FramesOf(c, items[i])
    ensures LastSummary(items[..i + 1]) == KeptSummary(items[i], LastSummary(items[..i]))
  {
    var n := i + 1;
    var now := items[..n];
    assert now[..|now| - 1] == items[..i] && now[|now| - 1] == items[i];
  }

  /** The report file's lines, one `report` event each. */
  method StreamFileLines(c: Codec, ids: Ids, file: seq<string>) returns (lines: seq<string>)
    ensures lines == Lines(c, ids, ReportFrames(file))
  {
    lines := [];
    for i := 0 to |file|
      invariant |lines| == i
      invariant forall j :: 0 <= j < i ==> lines[j] == FormatStreamResponse(c, ids, ReportFrame(file[j]))
    {
      lines := lines + [FormatStreamResponse(c, ids, ReportFrame(file[i]))];
    }
  }

  /** Step 2 of the server branch, line by line. */
  method StreamReport(c: Codec, ids: Ids, host: Host, summary: Dict) returns (lines: seq<string>, raised: Option<Exc>)
    ensures lines == Lines(c, ids, ReportStage(host, summary).items)
    ensures raised == ReportStage(host, summary).raised
  {
    var path := Get(summary, "final_report_path", JNull);
    if !Truthy(path) {
      return [], None;
    }
    if !path.JStr? {
      return [], Some(NotAPath);
    }
    var p := path.s;
    if !host.pathExists(p) {
      return [FormatStreamResponse(c, ids, StreamFrame("[WARN] Report path exists in summary but file not found: " + p))], None;
    }
    lines := StreamFile(c, ids, p, host.readLines(p));
    raised := None;
  }

  /** The report file's transmission, line by line. */
  method StreamFile(c: Codec, ids: Ids, p: string, file: Run<string>) returns (lines: seq<string>)
    ensures lines == Lines(c, ids, FileFrames(p, file))
  {
    var start := StreamFrame("[REPORT] Starting report transmission from " + Basename(p) + "...");
    var body := StreamFileLines(c, ids, file.items);
    LinesAppend(c, ids, [start], ReportFrames(file.items));
    LinesAppend(c, ids, [start] + ReportFrames(file.items), [ReportEnd(p, file.raised)]);
    lines := [FormatStreamResponse(c, ids, start)] + body + [FormatStreamResponse(c, ids, ReportEnd(p, file.raised))];
  }

  /** The server branch after the setup line. */
  method StreamAfterSetup(c: Codec, ids: Ids, host: Host, run: Run<Planner.Event>) returns (lines: seq<string>)
    ensures lines == Lines(c, ids, AfterSetup(host, c, run))
  {
    var finalSummary;
    lines, finalSummary := StreamPlanner(c, ids, run.items);
    ghost var texts := PlannerFrames(c, run.items);
    if run.raised.Some? {
      LinesAppend(c, ids, texts, [FailureFrame]);
      return lines + [FormatStreamResponse(c, ids, FailureFrame)];
    }
    if finalSummary.None? {
      var missing := ErrorFrame("Internal error: Analysis completed without summary");
      LinesAppend(c, ids, texts, [missing]);
      return lines + [FormatStreamResponse(c, ids, missing)];
    }
    var d := finalSummary.value;
    var reportLines, raised := StreamReport(c, ids, host, d);
    ghost var report := ReportStage(host, d);
    var last := if raised.Some? then FailureFrame else DoneFrame(d);
    AfterSummary(host, c, run, d);
    LinesAppend(c, ids, texts, report.items);
    LinesAppend(c, ids, texts + report.items, [last]);
    assert Lines(c, ids, [last]) == [FormatStreamResponse(c, ids, last)];
    lines := lines + reportLines + [FormatStreamResponse(c, ids, last)];
  }

  /** A planner run that ended normally with a dict: its events, the report stage, then `done` or the failure. */
  lemma {:induction false} AfterSummary(host: Host, c: Codec, run: Run<Planner.Event>, d: Dict)
    requires run.raised.None? && LastSummary(run.items) == Some(d)
    ensures AfterSetup(host, c, run) == PlannerFrames(c, run.items) + ReportStage(host, d).items
      + [if ReportStage(host, d).raised.Some? then FailureFrame else DoneFrame(d)]
  {
  }

  /** The server branch from the setup line on. */
  method StreamStarted(c: Codec, ids: Ids, host: Host, dir: string, run: Run<Planner.Event>) returns (lines: seq<string>)
    ensures lines == Lines(c, ids, [StreamFrame(SetupText(dir))] + AfterSetup(host, c, run))
  {
    var setup := StreamFrame(SetupText(dir));
    var rest := StreamAfterSetup(c, ids, host, run);
    LinesAppend(c, ids, [setup], AfterSetup(host, c, run));
    lines := [FormatStreamResponse(c, ids, setup)] + rest;
  }

  /**
   * The server branch; `planner` is what `run_analysis` yields once it is
   * started (`ServerRun`).
   */
  method StreamServer(c: Codec, host: Host, ids: Ids, collected: Option<seq<Json>>, planner: Run<Planner.Event>)
    returns (lines: seq<string>)
    ensures lines == Lines(c, ids, ServerFrames(c, host, ids, collected, planner))
  {
    if !Present(collected) {
      return [FormatStreamResponse(c, ids, ErrorFrame("Missing or empty 'collected_data' in content"))];
    }
    var dir := RunDir(ids, host.timestamp);
    var failure := host.makedirs(dir);
    if failure.Some? {
      if failure.value.kind.OsError? || failure.value.kind.FileNotFound? {
        return [FormatStreamResponse(c, ids, ErrorFrame("Failed to create output directory"))];
      }
      return [FormatStreamResponse(c, ids, FailureFrame)];
    }
    lines := StreamStarted(c, ids, host, dir, planner);
  }

  // --------------------------------------------------------------- endpoint

  datatype Content = Content(messages: Option<seq<Json>>, collectedData: Option<seq<Json>>,
                             interruptReason: Option<string>, structuredQuery: Option<Dict>)

  datatype QueryRequest = QueryRequest(ids: Ids, queryType: string, content: Content)

  /** A JSON body, an `HTTPException`, or a streamed body. */
  datatype Response = Body(body: Json) | HttpError(status: int, detail: Json) | Streaming(lines: seq<string>)

  /** The inner generator `generate()`: the events of the stream. */
  function GenerateFrames(c: Codec, host: Host, req: QueryRequest, chat: Run<string>,
                          planner: Run<Planner.Event>): seq<Frame>
  {
    if req.queryType == "user" then UserFrames(c, req.content.messages, chat)
    else if req.queryType == "server" then
      ServerFrames(c, host, req.ids, req.content.collectedData, planner)
    else [ErrorFrame("Invalid query_type: " + req.queryType)]
  }

  /**
   * `streaming_query(request)`.  An interrupt is answered at once; the 400
   * for a missing reason is caught by the endpoint's own handler and comes
   * out as 500.  Every other request gets a stream.
   */
  function StreamingQuery(c: Codec, host: Host, req: QueryRequest, chat: Run<string>,
                          planner: Run<Planner.Event>): (r: Response)
    ensures r.Streaming? <==> req.queryType != "interrupt"
    ensures r.HttpError? <==> req.queryType == "interrupt" && (req.content.interruptReason.None? || req.content.interruptReason.value == "")
    ensures r.HttpError? ==> r.status == 500 && r.detail == InternalError
    ensures r.Body? ==> r.body == JObj([("status", JStr("interrupted")), ("reason", JStr(req.content.interruptReason.value))])
  {
    if req.queryType == "interrupt" then
      match req.content.interruptReason
      case Some(reason) =>
        if reason == "" then HttpError(500, InternalError)
        else Body(JObj([("status", JStr("interrupted")), ("reason", JStr(reason))]))
      case None => HttpError(500, InternalError)
    else Streaming(Lines(c, req.ids, GenerateFrames(c, host, req, chat, planner)))
  }

  /**
   * Only a server query can send `done` of its own: in a user query a
   * `done` event would have to come from the chatbot, and an unknown query
   * type gets one error event.
   */
  lemma {:induction false} DoneOnlyFromServer(c: Codec, host: Host, req: QueryRequest, chat: Run<string>,
                           planner: Run<Planner.Event>, i: nat)
    requires req.queryType != "server"
    requires i < |GenerateFrames(c, host, req, chat, planner)|
    requires IsDone(GenerateFrames(c, host, req, chat, planner)[i])
    ensures req.queryType == "user" && i < |chat.items| && IsDone(ChunkFrame(c, chat.items[i]))
  {
  }

  /**
   * A user query without messages, a server query without collected data
   * and an unknown query type each get exactly one error event, and nothing
   * else is run.
   */
  lemma {:induction false} RejectedRequests(c: Codec, host: Host, req: QueryRequest, chat: Run<string>, planner: Run<Planner.Event>)
    ensures req.queryType == "user" && !Present(req.content.messages) ==>
      GenerateFrames(c, host, req, chat, planner) == [ErrorFrame("Missing 'messages' in content")]
    ensures req.queryType == "server" && !Present(req.content.collectedData) ==>
      GenerateFrames(c, host, req, chat, planner) == [ErrorFrame("Missing or empty 'collected_data' in content")]
    ensures req.queryType != "user" && req.queryType != "server" ==>
      GenerateFrames(c, host, req, chat, planner) == [ErrorFrame("Invalid query_type: " + req.queryType)]
  {
  }

  /** A chatbot that raised: what it yielded before is kept, then one failure event ends the stream. */
  lemma {:induction false} ChatFailureLast(c: Codec, messages: Option<seq<Json>>, chat: Run<string>)
    requires Present(messages) && chat.raised.Some?
    ensures var fs := UserFrames(c, messages, chat);
      |fs| == |chat.items| + 1 && fs[|fs| - 1] == FailureFrame
      && forall i :: 0 <= i < |chat.items| ==> fs[i] == ChunkFrame(c, chat.items[i])
  {
  }

  /** The stream, step by step. */
  method Generate(c: Codec, host: Host, req: QueryRequest, chat: Run<string>, planner: Run<Planner.Event>)
    returns (lines: seq<string>)
    ensures lines == Lines(c, req.ids, GenerateFrames(c, host, req, chat, planner))
  {
    if req.queryType == "user" {
      if !Present(req.content.messages) {
        return [FormatStreamResponse(c, req.ids, ErrorFrame("Missing 'messages' in content"))];
      }
      lines := StreamChat(c, req.ids, chat);
    } else if req.queryType == "server" {
      lines := StreamServer(c, host, req.ids, req.content.collectedData, planner);
    } else {
      lines := [FormatStreamResponse(c, req.ids, ErrorFrame("Invalid query_type: " + req.queryType))];
    }
  }

  method StreamingQueryRun(c: Codec, host: Host, req: QueryRequest, chat: Run<string>, planner: Run<Planner.Event>)
    returns (r: Response)
    ensures r == StreamingQuery(c, host, req, chat, planner)
  {
    if req.queryType == "interrupt" {
      var reason := req.content.interruptReason;
      if reason.None? || reason.value == "" {
        // HTTPException(400), caught below and raised again as 500
        return HttpError(500, InternalError);
      }
      return Body(JObj([("status", JStr("interrupted")), ("reason", JStr(reason.value))]));
    }
    var lines := Generate(c, host, req, chat, planner);
    r := Streaming(lines);
  }

  // ------------------------------------------------------- data processing

  /** Item `i` of the result: `raw_data[i]` with the processed record's members assigned over it. */
  function OverlayAt(raw: seq<Dict>, processed: seq<Json>, i: nat): Result<Json> {
    if i >= |processed| then Ok(JNull)
    else if i >= |raw| then Ok(processed[i])
    else match processed[i]
      case JObj(ms) => Ok(JObj(Update(raw[i], ms)))
      case v => Raise(Exc(AttributeError, "'" + TypeName(v) + "' object has no attribute 'items'"))
  }

  function Overlayer(raw: seq<Dict>, processed: seq<Json>): nat -> Result<Json> {
    (i: nat) => OverlayAt(raw, processed, i)
  }

  function Overlay(raw: seq<Dict>, processed: seq<Json>): Result<seq<Json>> {
    MapAll(Overlayer(raw, processed), AtomicInsights.Indices(|processed|))
  }

  /**
   * The overlay succeeds exactly when every processed record with a raw
   * record beside it is a dict; then it has one item per processed record,
   * and in item `i` the processed members win over the raw ones.
   */
  lemma {:induction false} OverlayFacts(raw: seq<Dict>, processed: seq<Json>)
    ensures Overlay(raw, processed).Ok? <==> forall i :: 0 <= i < |processed| && i < |raw| ==> processed[i].JObj?
    ensures Overlay(raw, processed).Ok? ==>
      var out := Overlay(raw, processed).value;
      |out| == |processed|
      && forall i :: 0 <= i < |out| ==>
        if i < |raw| then
          out[i].JObj? && Keys(out[i].members) == Keys(raw[i]) + Keys(processed[i].members)
          && forall k :: Lookup(out[i].members, k) ==
               if k in Keys(processed[i].members) then Lookup(processed[i].members, k) else Lookup(raw[i], k)
        else out[i] == processed[i]
  {
    var f := Overlayer(raw, processed);
    AtomicInsights.MapIndices(f, |processed|);
    if Overlay(raw, processed).Ok? {
      var out := Overlay(raw, processed).value;
      forall i | 0 <= i < |out| && i < |raw|
        ensures out[i].JObj? && Keys(out[i].members) == Keys(raw[i]) + Keys(processed[i].members)
        ensures forall k :: (Lookup(out[i].members, k) ==
          (if k in Keys(processed[i].members) then Lookup(processed[i].members, k) else Lookup(raw[i], k)))
      {
        assert f(i) == Ok(out[i]);
        var ms := processed[i].members;
        KeysUpdate(raw[i], ms);
        forall k ensures Lookup(out[i].members, k) ==
          if k in Keys(ms) then Lookup(ms, k) else Lookup(raw[i], k)
        {
          LookupUpdate(raw[i], ms, k);
          LookupKeys(ms, k);
        }
      }
    } else {
      var i :| 0 <= i < |processed| && f(i).Raise?;
      assert i < |raw| && !processed[i].JObj?;
    }
  }

  /** `atomic_insights(parsed_data=raw_data)`, with its default model. */
  const InsightsModel := "doubao-lite"

  function Objects(raw: seq<Dict>): (vs: seq<Json>)
    ensures |vs| == |raw| && forall i :: 0 <= i < |raw| ==> vs[i] == JObj(raw[i])
  {
    seq(|raw|, i requires 0 <= i < |raw| => JObj(raw[i]))
  }

  /**
   * The answer for what `atomic_insights` gave: every exception, whatever
   * its detail, reaches the client as the endpoint handler's plain 500.
   */
  function Answer(raw: seq<Dict>, processed: Result<seq<Json>>): Response {
    match processed
    case Raise(_) => HttpError(500, InternalError)
    case Ok(records) =>
      match Overlay(raw, records)
      case Raise(_) => HttpError(500, InternalError)
      case Ok(out) => Body(JObj([("content", JArr(out))]))
  }

  /** `data_processing(request)` */
  function DataProcessing(c: Codec, b: Llm.Backend, clock: nat, pr: AtomicInsights.Prompts, raw: seq<Dict>): Response {
    Answer(raw, AtomicInsights.Insights(c, b, clock, pr, InsightsModel, Objects(raw)).result)
  }

  /**
   * The records `atomic_insights` returns are dicts, one per raw record, so
   * the overlay never fails: the endpoint fails exactly when the pipeline
   * raises, and otherwise returns one record per raw record.
   */
  lemma {:induction false} DataProcessingAnswers(c: Codec, b: Llm.Backend, clock: nat, pr: AtomicInsights.Prompts, raw: seq<Dict>)
    ensures var r := DataProcessing(c, b, clock, pr, raw);
      (r.HttpError? <==> AtomicInsights.Insights(c, b, clock, pr, InsightsModel, Objects(raw)).result.Raise?)
      && (r.Body? ==> r.body.JObj? && |r.body.members| == 1 && r.body.members[0].0 == "content"
                      && r.body.members[0].1.JArr? && |r.body.members[0].1.items| == |raw|)
  {
    var call := AtomicInsights.Insights(c, b, clock, pr, InsightsModel, Objects(raw));
    if call.result.Ok? {
      var records := call.result.value;
      forall i | 0 <= i < |records| && i < |raw| ensures records[i].JObj? {
        AtomicInsights.InsightsShape(c, b, clock, pr, InsightsModel, Objects(raw), i);
      }
      if |raw| > 0 {
        AtomicInsights.InsightsShape(c, b, clock, pr, InsightsModel, Objects(raw), 0);
      } else {
        assert Objects(raw) == [];
      }
      OverlayFacts(raw, records);
    }
  }

  method OverlayRecords(raw: seq<Dict>, processed: seq<Json>) returns (r: Result<seq<Json>>)
    ensures r == Overlay(raw, processed)
  {
    ghost var ix := AtomicInsights.Indices(|processed|);
    ghost var f := Overlayer(raw, processed);
    var out: seq<Json> := [];
    for i := 0 to |processed|
      invariant MapPrefix(f, ix, i) == Ok(out)
    {
      var item := processed[i];
      var one: Result<Json>;
      if i < |raw| {
        if !item.JObj? {
          one := Raise(Exc(AttributeError, "'" + TypeName(item) + "' object has no attribute 'items'"));
        } else {
          var finalItem := raw[i];
          for k := 0 to |item.members|
            invariant finalItem == Update(raw[i], item.members[..k])
          {
            assert item.members[..k + 1][..k] == item.members[..k];
            finalItem := Set(finalItem, item.members[k].0, item.members[k].1);
          }
          assert item.members[..|item.members|] == item.members;
          one := Ok(JObj(finalItem));
        }
      } else {
        one := Ok(item);
      }
      assert ix[i] == i && f(i) == OverlayAt(raw, processed, i);
      MapAdvance(f, ix, i, out, one);
      if one.Raise? {
        return Raise(one.exc);
      }
      out := out + [one.value];
    }
    r := Ok(out);
  }

  method DataProcessingRun(c: Codec, b: Llm.Backend, clock: nat, pr: AtomicInsights.Prompts, raw: seq<Dict>)
    returns (r: Response)
    ensures r == DataProcessing(c, b, clock, pr, raw)
  {
    var processed, sent := AtomicInsights.AtomicInsightsRun(c, b, clock, pr, InsightsModel, Objects(raw));
    if processed.Raise? {
      return HttpError(500, InternalError);
    }
    var merged := OverlayRecords(raw, processed.value);
    if merged.Raise? {
      return HttpError(500, InternalError);
    }
    r := Body(JObj([("content", JArr(merged.value))]));
  }
}
