/**
 * The planning agent (src/agent/planning/planner.py): `plan_tasks` asks the
 * model which analyzers to run, and `run_analysis` runs them, yielding a
 * fixed grammar of progress lines and one final dict.
 */
module Planner {
  import opened Json
  import opened Python
  import opened Codec
  import opened Llm
  import opened Executor

  const ReportTool := "generate_final_report"

  /** The keys of `self.analyzers`, in their order. */
  const AnalyzerNames := [
    "analyze_brand_mentions", "analyze_brand_sentiment", "analyze_competitor_relationships",
    "analyze_product_features", "analyze_keywords", "analyze_trends", "analyze_ip_distribution"]

  /** The description of each tool in `_get_analyzer_tools_schema`, and of its `data` argument. */
  const ToolDescriptions: seq<(string, string, string)> := [
    ("analyze_brand_mentions", "分析品牌提及频次和占比，生成品牌声量分析报告。用于了解哪些品牌最受关注。",
     "待分析的数据集，包含内容文本、评论等信息"),
    ("analyze_brand_sentiment", "分析用户对各品牌的情感倾向（正面、中性、负面）。用于了解品牌口碑。",
     "待分析的数据集，包含品牌情感信息"),
    ("analyze_competitor_relationships", "分析主要品牌与其竞争对手的关系，识别用户在不同品牌间的讨论提及情况。",
     "待分析的数据集，包含多个品牌的提及和对比信息"),
    ("analyze_product_features", "分析用户讨论中涉及的产品特征/维度，并评估各品牌在这些维度上的表现。",
     "待分析的数据集，包含产品特征和用户评价"),
    ("analyze_keywords", "提取用户讨论中的高频关键词，识别正面和负面讨论焦点。",
     "待分析的数据集，包含文本内容和评论"),
    ("analyze_trends", "分析讨论热点和趋势，提取热门话题和相关用户原声。",
     "待分析的数据集，包含时间序列信息和热度"),
    ("analyze_ip_distribution", "分析发帖和评论用户的地理位置分布，了解用户地域特征。",
     "待分析的数据集，包含用户位置信息")]

  const ReportToolDescription := "在完成所有选定的分析任务后，调用此工具来整合结果并生成最终的综合分析报告。"

  function AnalyzerTool(name: string, description: string, dataDescription: string): Json {
    JObj([("type", JStr("function")), ("function", JObj([
      ("name", JStr(name)),
      ("description", JStr(description)),
      ("parameters", JObj([
        ("type", JStr("object")),
        ("properties", JObj([("data", JObj([("type", JStr("array")), ("description", JStr(dataDescription))]))])),
        ("required", JArr([JStr("data")]))]))]))])
  }

  /** `self.tools`: one tool per analyzer, then `generate_final_report`. */
  function AnalyzerTools(): Json {
    JArr(seq(|ToolDescriptions|, i requires 0 <= i < |ToolDescriptions| =>
           AnalyzerTool(ToolDescriptions[i].0, ToolDescriptions[i].1, ToolDescriptions[i].2))
         + [JObj([("type", JStr("function")), ("function", JObj([
              ("name", JStr(ReportTool)),
              ("description", JStr(ReportToolDescription)),
              ("parameters", JObj([("type", JStr("object")), ("properties", JObj([]))]))]))])])
  }

  /**
   * A `PlanningAgent`: its analyzer registry, its logger, its output
   * directory, the planning prompt, and what `generate_report` of its report
   * generator does (`Some(e)` when it raises `e`).
   */
  datatype Agent = Agent(analyzers: Registry, lg: Logger, outputDir: string, planningPrompt: string,
                         reportFailure: Option<Exc>)

  /** `PlanningAgent(...)` registers the seven analyzers under their names. */
  predicate Registered(p: Agent) {
    |p.analyzers| == |AnalyzerNames| && forall i :: 0 <= i < |AnalyzerNames| ==> p.analyzers[i].0 == AnalyzerNames[i]
  }

  /** `PlanningAgent` builds `LLM(model="deepseek-v3")`. */
  const PlannerGateway := Gateway("deepseek-v3-250324")

  lemma {:induction false} RegisteredNames(p: Agent)
    requires Registered(p)
    ensures KeyList(p.analyzers) == AnalyzerNames
  {
  }

  // ----------------------------------------------------------------- planning

  /** What `plan_tasks` returns: `[]` when no tool was called, else the plan dict. */
  datatype Planned = EmptyList | Plan(tasks: seq<string>, report: bool)

  /** The number of calls, other than `generate_final_report`, that name a registered analyzer. */
  function CountRegistered(calls: seq<ToolCall>, names: seq<string>): nat
    decreases |calls|
  {
    if calls == [] then 0
    else CountRegistered(calls[..|calls| - 1], names) + (if calls[|calls| - 1].name != ReportTool && calls[|calls| - 1].name in names then 1 else 0)
  }

  /**
   * The classification of the tool calls, in order: `generate_final_report`
   * sets the flag; a registered name is kept, duplicates too; anything else
   * is dropped.
   */
  function Classify(calls: seq<ToolCall>, names: seq<string>): (r: (seq<string>, bool))
    ensures forall i :: 0 <= i < |r.0| ==> r.0[i] in names
    ensures |r.0| == CountRegistered(calls, names)
    ensures r.1 <==> exists i :: 0 <= i < |calls| && calls[i].name == ReportTool
    decreases |calls|
  {
    if calls == [] then ([], false)
    else
      var prior := Classify(calls[..|calls| - 1], names);
      var name := calls[|calls| - 1].name;
      assert forall i :: 0 <= i < |calls| - 1 ==> calls[..|calls| - 1][i] == calls[i];
      if name == ReportTool then
        assert calls[|calls| - 1].name == ReportTool;
        (prior.0, true)
      else if name in names then (prior.0 + [name], prior.1)
      else prior
  }

  /** Registered names keep their order and multiplicity: classifying one more call extends the list. */
  lemma {:induction false} ClassifyAppend(calls: seq<ToolCall>, call: ToolCall, names: seq<string>)
    requires call.name != ReportTool
    ensures Classify(calls + [call], names).0 ==
      Classify(calls, names).0 + (if call.name in names then [call.name] else [])
  {
    assert (calls + [call])[..|calls|] == calls;
  }

  /** The `for tool_call in response_message.tool_calls` loop. */
  method ClassifyCalls(calls: seq<ToolCall>, names: seq<string>) returns (tasks: seq<string>, report: bool)
    ensures (tasks, report) == Classify(calls, names)
  {
    tasks := [];
    report := false;
    for k := 0 to |calls|
      invariant (tasks, report) == Classify(calls[..k], names)
    {
      assert calls[..k + 1][..k] == calls[..k];
      var name := calls[k].name;
      if name == ReportTool {
        report := true;
      } else if name in names {
        tasks := tasks + [name];
      }
    }
    assert calls[..|calls|] == calls;
  }

  /** The one user message of `plan_tasks`, holding the indented query. */
  function PlanningMessages(c: Codec, query: Json): seq<Json> {
    [JObj([("role", JStr("user")),
           ("content", JStr("请根据以下结构化查询规划分析任务:\n```json\n" + c.indented(query) + "\n```"))])]
  }

  const PlanningKwargs: Dict := [("temperature", JFloat(0.0))]

  /** The `ask_tool` call of `plan_tasks`, at temperature 0 with every analyzer tool offered. */
  function Decision(c: Codec, b: Backend, clock: nat, p: Agent, query: Json): Call<Reply> {
    AskToolCall(PlannerGateway, b, clock, PlanningMessages(c, query), JStr(p.planningPrompt),
                None, AnalyzerTools(), JStr("auto"), false, PlanningKwargs)
  }

  /** `plan_tasks(structured_query)` */
  function PlanTasks(c: Codec, b: Backend, clock: nat, p: Agent, query: Json): (r: (Result<Planned>, seq<Request>))
    ensures var decision := Decision(c, b, clock, p, query);
      r.1 == decision.sent
      && (decision.result.Raise? ==> r.0 == Raise(decision.result.exc))
      // no tool call at all gives the empty list, not a plan
      && (decision.result.Ok? && decision.result.value.toolCalls == [] ==> r.0 == Ok(EmptyList))
      && (decision.result.Ok? && decision.result.value.toolCalls != [] ==>
            var (tasks, report) := Classify(decision.result.value.toolCalls, KeyList(p.analyzers));
            r.0 == Ok(Plan(tasks, report)))
  {
    var decision := Decision(c, b, clock, p, query);
    match decision.result
    case Raise(e) => (Raise(e), decision.sent)
    case Ok(reply) =>
      if reply.toolCalls == [] then (Ok(EmptyList), decision.sent)
      else
        var (tasks, report) := Classify(reply.toolCalls, KeyList(p.analyzers));
        (Ok(Plan(tasks, report)), decision.sent)
  }

  method PlanTasksLoop(c: Codec, b: Backend, clock: nat, p: Agent, query: Json)
    returns (r: Result<Planned>, sent: seq<Request>)
    ensures (r, sent) == PlanTasks(c, b, clock, p, query)
  {
    var decision;
    decision, sent := AskTool(PlannerGateway, b, clock, PlanningMessages(c, query), JStr(p.planningPrompt),
                              None, AnalyzerTools(), JStr("auto"), false, PlanningKwargs);
    if decision.Raise? {
      return Raise(decision.exc), sent;
    }
    if decision.value.toolCalls == [] {
      return Ok(EmptyList), sent;
    }
    var tasks, report := ClassifyCalls(decision.value.toolCalls, KeyList(p.analyzers));
    r := Ok(Plan(tasks, report));
  }

  // ---------------------------------------------------------------- execution

  /** A yielded item of `run_analysis`: a progress string, or the final dict. */
  datatype Event = Text(line: string) | Summary(dict: Json)

  const StatusLine := "[STATUS] 开始执行完整分析流程"
  const WarningLine := "[WARNING] 输入数据为空，分析结果可能不准确"
  const ReportStartLine := "[REPORT_START] 生成最终报告"

  function StartLine(task: string): string {
    "[TASK_START] " + task
  }

  function SuccessLine(task: string): string {
    "[TASK_SUCCESS] " + task
  }

  function FailureLine(c: Codec, task: string, error: Json, details: Json): string {
    "[TASK_ERROR] " + task + ": " + Str(c, error) + " - " + Str(c, details)
  }

  /** `os.path.join(self.reports_dir, "final_report.html")` */
  function ReportPath(p: Agent): string {
    PathJoin(PathJoin(p.outputDir, "reports"), "final_report.html")
  }

  function FinalDict(path: Option<string>): Json {
    JObj([("status", JStr("success")), ("message", JStr("分析完成")),
          ("final_report_path", if path.Some? then JStr(path.value) else JNull)])
  }

  /** `json.dumps({"data": result_data})`, the argument string every analyzer gets. */
  function DataArgument(c: Codec, data: Json): string {
    c.asciiText(JObj([("data", data)]))
  }

  /** The line for a task's envelope: `[TASK_ERROR] ...` for an error envelope, else `[TASK_SUCCESS] ...`. */
  function OutcomeLine(c: Codec, task: string, result: Json): Result<string> {
    match GetItem(result, "task_type")
    case Raise(e) => Raise(e)
    case Ok(taskType) =>
      if taskType != JStr("error") then Ok(SuccessLine(task))
      else
        match GetItem(result, "content")
        case Raise(e) => Raise(e)
        case Ok(content) =>
          match GetAttr(content, "details", JStr(""))
          case Raise(e) => Raise(e)
          case Ok(details) =>
            match GetItem(content, "error")
            case Raise(e) => Raise(e)
            case Ok(error) => Ok(FailureLine(c, task, error, details))
  }

  /** The executor's two envelopes give the two outcome lines. */
  lemma {:induction false} OutcomeOfEnvelope(c: Codec, task: string, content: Json, msg: string)
    ensures OutcomeLine(c, task, Envelope("crawl_task", content)) == Ok(SuccessLine(task))
    ensures OutcomeLine(c, task, Envelope("error", JObj([("error", JStr(msg))]))) ==
      Ok("[TASK_ERROR] " + task + ": " + msg + " - ")
  {
    var e := Envelope("error", JObj([("error", JStr(msg))]));
    assert e.members[..1] == [("task_type", JStr("error"))];
    assert e.members[..1][..0] == [];
    assert "content" != "task_type" by { assert "content"[0] != "task_type"[0]; }
    assert Lookup(e.members[..1], "task_type") == Some(JStr("error"));
    assert Lookup(e.members, "task_type") == Some(JStr("error"));
    assert GetItem(e, "task_type") == Ok(JStr("error"));
    assert GetItem(e, "content") == Ok(JObj([("error", JStr(msg))]));
    assert [("error", JStr(msg))][..0] == [];
    assert "error" != "details" by { assert "error"[0] != "details"[0]; }
    var inner: Dict := [("error", JStr(msg))];
    assert inner[|inner| - 1].0 != "details";
    assert inner[..|inner| - 1] == [];
    assert Lookup(inner, "details") == None;
    assert GetAttr(JObj(inner), "details", JStr("")) == Ok(JStr(""));
    assert GetItem(JObj(inner), "error") == Ok(JStr(msg));
    assert FailureLine(c, task, JStr(msg), JStr("")) == "[TASK_ERROR] " + task + ": " + msg + " - ";
    assert OutcomeLine(c, task, e) == Ok(FailureLine(c, task, JStr(msg), JStr("")));
    assert Str(c, JStr(msg)) == msg;
    assert Str(c, JStr("")) == "";
    var s := Envelope("crawl_task", content);
    assert s.members[..1] == [("task_type", JStr("crawl_task"))];
    assert s.members[..1][..0] == [];
    assert Lookup(s.members, "task_type") == Some(JStr("crawl_task"));
    assert GetItem(s, "task_type") == Ok(JStr("crawl_task"));
  }

  /** One task: its start line, then its outcome line unless an exception aborts the run. */
  function TaskStep(c: Codec, p: Agent, task: string, data: Json): (seq<string>, Option<Exc>) {
    match Execute(c, p.analyzers, task, Some(DataArgument(c, data)), p.lg)
    case Raise(e) => ([StartLine(task)], Some(e))
    case Ok(result) =>
      match OutcomeLine(c, task, result)
      case Raise(e) => ([StartLine(task)], Some(e))
      case Ok(line) => ([StartLine(task), line], None)
  }

  /** What one task yields, and the exception that aborts the run, if any. */
  type Step = string -> (seq<string>, Option<Exc>)

  function StepOf(c: Codec, p: Agent, data: Json): Step {
    task => TaskStep(c, p, task, data)
  }

  /** A task yields its start line, then its outcome line exactly when it does not raise. */
  ghost predicate Shaped(step: Step) {
    forall task :: |step(task).0| == (if step(task).1.None? then 2 else 1) && step(task).0[0] == StartLine(task)
  }

  lemma {:induction false} StepShape(c: Codec, p: Agent, task: string, data: Json)
    ensures var (lines, raised) := TaskStep(c, p, task, data);
      lines == if raised.None? then [StartLine(task), lines[|lines| - 1]] else [StartLine(task)]
  {
  }

  lemma {:induction false} TaskStepsShaped(c: Codec, p: Agent, data: Json)
    ensures Shaped(StepOf(c, p, data))
  {
    forall task ensures |StepOf(c, p, data)(task).0| == (if StepOf(c, p, data)(task).1.None? then 2 else 1)
      && StepOf(c, p, data)(task).0[0] == StartLine(task)
    {
      StepShape(c, p, task, data);
    }
  }

  /** The task loop over `tasks` for one step function: the first exception ends it. */
  function Steps(step: Step, tasks: seq<string>): Run<string>
    decreases |tasks|
  {
    if tasks == [] then Run([], None)
    else
      var prior := Steps(step, tasks[..|tasks| - 1]);
      if prior.raised.Some? then prior
      else
        var (lines, raised) := step(tasks[|tasks| - 1]);
        Run(prior.items + lines, raised)
  }

  /** The task loop, run over `tasks`: the first exception ends it. */
  function TaskLines(c: Codec, p: Agent, tasks: seq<string>, data: Json): Run<string> {
    Steps(StepOf(c, p, data), tasks)
  }

  lemma {:induction false} StepsComplete(step: Step, tasks: seq<string>)
    requires Shaped(step) && Steps(step, tasks).raised.None?
    ensures var run := Steps(step, tasks);
      |run.items| == 2 * |tasks|
      && forall i :: 0 <= i < |tasks| ==>
           run.items[2 * i] == StartLine(tasks[i]) && step(tasks[i]) == ([StartLine(tasks[i]), run.items[2 * i + 1]], None)
    decreases |tasks|
  {
    if tasks != [] {
      var q := tasks[..|tasks| - 1];
      StepsComplete(step, q);
      forall i | 0 <= i < |q| ensures tasks[i] == q[i] { }
      var t := tasks[|tasks| - 1];
      assert step(t).0 == [StartLine(t), step(t).0[|step(t).0| - 1]];
    }
  }

  /** Each task yields its start line and exactly one outcome line, in task order. */
  lemma {:induction false} TaskLinesComplete(c: Codec, p: Agent, tasks: seq<string>, data: Json)
    requires TaskLines(c, p, tasks, data).raised.None?
    ensures var run := TaskLines(c, p, tasks, data);
      |run.items| == 2 * |tasks|
      && forall i :: 0 <= i < |tasks| ==>
           run.items[2 * i] == StartLine(tasks[i])
           && TaskStep(c, p, tasks[i], data) == ([StartLine(tasks[i]), run.items[2 * i + 1]], None)
  {
    TaskStepsShaped(c, p, data);
    StepsComplete(StepOf(c, p, data), tasks);
  }

  lemma {:induction false} StepsAbort(step: Step, tasks: seq<string>)
    requires Shaped(step) && Steps(step, tasks).raised.Some?
    ensures exists k :: (0 <= k < |tasks|
      && Steps(step, tasks[..k]).raised.None?
      && step(tasks[k]).1.Some?
      && Steps(step, tasks) == Run(Steps(step, tasks[..k]).items + [StartLine(tasks[k])], step(tasks[k]).1))
    decreases |tasks|
  {
    var q := tasks[..|tasks| - 1];
    if Steps(step, q).raised.Some? {
      StepsAbort(step, q);
      var k :| 0 <= k < |q|
        && Steps(step, q[..k]).raised.None?
        && step(q[k]).1.Some?
        && Steps(step, q) == Run(Steps(step, q[..k]).items + [StartLine(q[k])], step(q[k]).1);
      assert q[..k] == tasks[..k] && q[k] == tasks[k];
    } else {
      var k := |q|;
      assert step(tasks[k]).0 == [StartLine(tasks[k])];
      assert tasks[..k] == q;
    }
  }

  /**
   * An exception from a task (an analyzer, or the executor itself) is not
   * caught: the tasks after it never start.
   */
  lemma {:induction false} TaskLinesAbort(c: Codec, p: Agent, tasks: seq<string>, data: Json)
    requires TaskLines(c, p, tasks, data).raised.Some?
    ensures exists k :: (0 <= k < |tasks|
      && TaskLines(c, p, tasks[..k], data).raised.None?
      && TaskStep(c, p, tasks[k], data).1.Some?
      && TaskLines(c, p, tasks, data) ==
           Run(TaskLines(c, p, tasks[..k], data).items + [StartLine(tasks[k])], TaskStep(c, p, tasks[k], data).1))
  {
    var step := StepOf(c, p, data);
    TaskStepsShaped(c, p, data);
    StepsAbort(step, tasks);
    var k :| 0 <= k < |tasks|
      && Steps(step, tasks[..k]).raised.None?
      && step(tasks[k]).1.Some?
      && Steps(step, tasks) == Run(Steps(step, tasks[..k]).items + [StartLine(tasks[k])], step(tasks[k]).1);
    assert step(tasks[k]) == TaskStep(c, p, tasks[k], data);
  }

  /** One pass of the task loop: the start line, the executor call, the outcome line. */
  method RunTask(c: Codec, p: Agent, task: string, data: Json) returns (lines: seq<string>, raised: Option<Exc>)
    ensures lines == TaskStep(c, p, task, data).0
    ensures raised == TaskStep(c, p, task, data).1
  {
    lines := [StartLine(task)];
    var result := ExecuteTool(c, p.analyzers, task, Some(DataArgument(c, data)), p.lg);
    if result.Raise? {
      assert TaskStep(c, p, task, data) == ([StartLine(task)], Some(result.exc));
      return lines, Some(result.exc);
    }
    var line := OutcomeLine(c, task, result.value);
    if line.Raise? {
      assert TaskStep(c, p, task, data) == ([StartLine(task)], Some(line.exc));
      return lines, Some(line.exc);
    }
    assert TaskStep(c, p, task, data) == ([StartLine(task), line.value], None);
    lines, raised := lines + [line.value], None;
  }

  /** The `for task_name in selected_tasks` loop. */
  method RunTasks(c: Codec, p: Agent, tasks: seq<string>, data: Json) returns (lines: seq<string>, raised: Option<Exc>)
    ensures Run(lines, raised) == TaskLines(c, p, tasks, data)
  {
    ghost var step := StepOf(c, p, data);
    lines := [];
    for i := 0 to |tasks|
      invariant Steps(step, tasks[..i]) == Run(lines, None)
    {
      StepsNext(step, tasks, i);
      var more, failure := RunTask(c, p, tasks[i], data);
      assert step(tasks[i]) == (more, failure);
      lines := lines + more;
      if failure.Some? {
        StopsAfter(step, tasks, i + 1);
        return lines, failure;
      }
    }
    assert tasks[..|tasks|] == tasks;
    raised := None;
  }

  /** One more pass of the task loop, after passes that raised nothing. */
  lemma {:induction false} StepsNext(step: Step, tasks: seq<string>, i: nat)
    requires i < |tasks| && Steps(step, tasks[..i]).raised.None?
    ensures Steps(step, tasks[..i + 1])
      == Run(Steps(step, tasks[..i]).items + step(tasks[i]).0, step(tasks[i]).1)
  {
    assert tasks[..i + 1][..i] == tasks[..i];
  }

  lemma {:induction false} StopsAfter(step: Step, tasks: seq<string>, k: nat)
    requires k <= |tasks|
    requires Steps(step, tasks[..k]).raised.Some?
    ensures Steps(step, tasks) == Steps(step, tasks[..k])
    decreases |tasks|
  {
    if k < |tasks| {
      var q := tasks[..|tasks| - 1];
      assert q[..k] == tasks[..k];
      StopsAfter(step, q, k);
    } else {
      assert tasks[..k] == tasks;
    }
  }

  function Texts(lines: seq<string>): (es: seq<Event>)
    ensures |es| == |lines| && forall i :: 0 <= i < |lines| ==> es[i] == Text(lines[i])
  {
    seq(|lines|, i requires 0 <= i < |lines| => Text(lines[i]))
  }

  /** The report stage and the final dict. */
  function Closing(p: Agent, report: bool): Run<Event> {
    if !report then Run([Summary(FinalDict(None))], None)
    else if p.reportFailure.Some? then Run([Text(ReportStartLine)], p.reportFailure)
    else Run([Text(ReportStartLine), Text("[REPORT_DONE] " + ReportPath(p)), Summary(FinalDict(Some(ReportPath(p))))], None)
  }

  const EmptyPlanExc := Exc(AttributeError, "'list' object has no attribute 'get'")

  /** The status line, then the empty-data warning (whose logging may raise). */
  function Opening(p: Agent, data: Json): Run<Event> {
    if Truthy(data) then Run([Text(StatusLine)], None)
    else match Warn(p.lg)
      case Raise(e) => Run([Text(StatusLine)], Some(e))
      case Ok(_) => Run([Text(StatusLine), Text(WarningLine)], None)
  }

  /** The tasks to run and whether to report: planned for a query, every analyzer otherwise. */
  function Selection(c: Codec, b: Backend, clock: nat, p: Agent, query: Json): (Result<Planned>, seq<Request>) {
    if Truthy(query) then PlanTasks(c, b, clock, p, query) else (Ok(Plan(KeyList(p.analyzers), true)), [])
  }

  /** The task loop, then the report stage and the final dict unless a task raised. */
  function Execution(c: Codec, p: Agent, data: Json, tasks: seq<string>, report: bool): Run<Event> {
    var run := TaskLines(c, p, tasks, data);
    if run.raised.Some? then Run(Texts(run.items), run.raised)
    else
      var closing := Closing(p, report);
      Run(Texts(run.items) + closing.items, closing.raised)
  }

  /** What follows the opening lines, once the tasks are selected (or selecting them raised). */
  function Proceed(c: Codec, p: Agent, data: Json, items: seq<Event>, planned: Result<Planned>): Run<Event> {
    match planned
    case Raise(e) => Run(items, Some(e))
    // `plan.get("error")` on the list `[]`
    case Ok(EmptyList) => Run(items, Some(EmptyPlanExc))
    case Ok(Plan(tasks, report)) =>
      var run := Execution(c, p, data, tasks, report);
      Run(items + run.items, run.raised)
  }

  /** `run_analysis(result_data, structured_query)`, run to its end, with the requests it sent. */
  function Analysis(c: Codec, b: Backend, clock: nat, p: Agent, data: Json, query: Json): (Run<Event>, seq<Request>) {
    var opening := Opening(p, data);
    if opening.raised.Some? then (opening, [])
    else
      var (planned, sent) := Selection(c, b, clock, p, query);
      (Proceed(c, p, data, opening.items, planned), sent)
  }

  method SelectTasks(c: Codec, b: Backend, clock: nat, p: Agent, query: Json)
    returns (planned: Result<Planned>, sent: seq<Request>)
    ensures planned == Selection(c, b, clock, p, query).0
    ensures sent == Selection(c, b, clock, p, query).1
  {
    if Truthy(query) {
      planned, sent := PlanTasksLoop(c, b, clock, p, query);
    } else {
      planned, sent := Ok(Plan(KeyList(p.analyzers), true)), [];
    }
  }

  method RunPlan(c: Codec, p: Agent, data: Json, tasks: seq<string>, report: bool) returns (run: Run<Event>)
    ensures run == Execution(c, p, data, tasks, report)
  {
    var lines, raised := RunTasks(c, p, tasks, data);
    if raised.Some? {
      return Run(Texts(lines), raised);
    }
    var closing := Close(p, report);
    run := Run(Texts(lines) + closing.items, closing.raised);
  }

  /** The report stage, then the final dict. */
  method Close(p: Agent, report: bool) returns (closing: Run<Event>)
    ensures closing == Closing(p, report)
  {
    if !report {
      return Run([Summary(FinalDict(None))], None);
    }
    var items := [Text(ReportStartLine)];
    if p.reportFailure.Some? {
      return Run(items, p.reportFailure);
    }
    var path := ReportPath(p);
    closing := Run(items + [Text("[REPORT_DONE] " + path), Summary(FinalDict(Some(path)))], None);
  }

  /** The generator `run_analysis`, step by step. */
  method RunAnalysis(c: Codec, b: Backend, clock: nat, p: Agent, data: Json, query: Json)
    returns (run: Run<Event>, sent: seq<Request>)
    ensures run == Analysis(c, b, clock, p, data, query).0
    ensures sent == Analysis(c, b, clock, p, data, query).1
  {
    var opening := Open(p, data);
    if opening.raised.Some? {
      return opening, [];
    }
    var planned;
    planned, sent := SelectTasks(c, b, clock, p, query);
    run := RunSelected(c, p, data, opening.items, planned);
  }

  method Open(p: Agent, data: Json) returns (opening: Run<Event>)
    ensures opening == Opening(p, data)
  {
    var items := [Text(StatusLine)];
    if !Truthy(data) {
      if !p.lg.hasLogWarning {
        return Run(items, Some(Warn(p.lg).exc));
      }
      items := items + [Text(WarningLine)];
    }
    opening := Run(items, None);
  }

  method RunSelected(c: Codec, p: Agent, data: Json, items: seq<Event>, planned: Result<Planned>) returns (run: Run<Event>)
    ensures run == Proceed(c, p, data, items, planned)
  {
    if planned.Raise? {
      return Run(items, Some(planned.exc));
    }
    if planned.value.EmptyList? {
      return Run(items, Some(EmptyPlanExc));
    }
    var rest := RunPlan(c, p, data, planned.value.tasks, planned.value.report);
    run := Run(items + rest.items, rest.raised);
  }

  // --------------------------------------------------------------- properties

  /** The first item of every run is the status line. */
  lemma {:induction false} StatusFirst(c: Codec, b: Backend, clock: nat, p: Agent, data: Json, query: Json)
    ensures var run := Analysis(c, b, clock, p, data, query).0;
      |run.items| >= 1 && run.items[0] == Text(StatusLine)
  {
  }

  /**
   * With the repository's logger, empty data ends the run right after the
   * status line: the warning call itself raises.
   */
  lemma {:induction false} EmptyDataRaises(c: Codec, b: Backend, clock: nat, p: Agent, data: Json, query: Json)
    requires p.lg == RepoLogger && !Truthy(data)
    ensures Analysis(c, b, clock, p, data, query) ==
      (Run([Text(StatusLine)], Some(Exc(AttributeError, "'ExecutionLogger' object has no attribute 'log_warning'"))), [])
  {
  }

  /**
   * A query for which the model calls no tool crashes the run with
   * `AttributeError`; no task starts, and the failure dict is never yielded.
   */
  lemma {:induction false} EmptyPlanCrashes(c: Codec, b: Backend, clock: nat, p: Agent, data: Json, query: Json)
    requires Opening(p, data).raised.None? && Truthy(query)
    requires PlanTasks(c, b, clock, p, query).0 == Ok(EmptyList)
    ensures var run := Analysis(c, b, clock, p, data, query).0;
      run.raised == Some(EmptyPlanExc) && run.items == Opening(p, data).items
      && forall i :: 0 <= i < |run.items| ==> run.items[i] == Text(StatusLine) || run.items[i] == Text(WarningLine)
  {
  }

  /** Without a query, every registered analyzer runs, in registry order, and a report is made. */
  lemma {:induction false} NoQueryRunsAll(c: Codec, b: Backend, clock: nat, p: Agent, data: Json, query: Json)
    requires Registered(p) && !Truthy(query) && Opening(p, data).raised.None?
    ensures var (run, sent) := Analysis(c, b, clock, p, data, query);
      sent == []
      && run == (var rest := Execution(c, p, data, AnalyzerNames, true);
              Run(Opening(p, data).items + rest.items, rest.raised))
  {
    RegisteredNames(p);
  }

  /**
   * Tasks that all complete are followed by the final dict, the only dict
   * yielded; it carries the report's path exactly when a report was asked for.
   */
  lemma {:induction false} ExecutionSummaryLast(c: Codec, p: Agent, data: Json, tasks: seq<string>, report: bool)
    requires Execution(c, p, data, tasks, report).raised.None?
    ensures var items := Execution(c, p, data, tasks, report).items;
      |items| >= 1
      && items[|items| - 1] == Summary(FinalDict(if report then Some(ReportPath(p)) else None))
      && forall i :: 0 <= i < |items| - 1 ==> items[i].Text?
  {
    var run := TaskLines(c, p, tasks, data);
    var texts := Texts(run.items);
    var closing := Closing(p, report);
    assert Execution(c, p, data, tasks, report).items == texts + closing.items;
    ClosingShape(p, report);
    TextsBefore(texts, closing.items);
  }

  /** The closing stage that completes yields text lines, then the final dict. */
  lemma {:induction false} ClosingShape(p: Agent, report: bool)
    requires Closing(p, report).raised.None?
    ensures var items := Closing(p, report).items;
      |items| >= 1
      && items[|items| - 1] == Summary(FinalDict(if report then Some(ReportPath(p)) else None))
      && forall i :: 0 <= i < |items| - 1 ==> items[i].Text?
  {
  }

  /**
   * A run that ends normally ends with the final dict, and it is the only
   * dict yielded.
   */
  lemma {:induction false} SummaryLast(c: Codec, b: Backend, clock: nat, p: Agent, data: Json, query: Json)
    requires Analysis(c, b, clock, p, data, query).0.raised.None?
    ensures var items := Analysis(c, b, clock, p, data, query).0.items;
      |items| >= 2
      && (items[|items| - 1] == Summary(FinalDict(None)) || items[|items| - 1] == Summary(FinalDict(Some(ReportPath(p)))))
      && forall i :: 0 <= i < |items| - 1 ==> items[i].Text?
  {
    var opening := Opening(p, data);
    var planned := Selection(c, b, clock, p, query).0;
    assert Analysis(c, b, clock, p, data, query).0 == Proceed(c, p, data, opening.items, planned);
    var tasks, report := planned.value.tasks, planned.value.report;
    ExecutionSummaryLast(c, p, data, tasks, report);
    var rest := Execution(c, p, data, tasks, report).items;
    assert Analysis(c, b, clock, p, data, query).0.items == opening.items + rest;
    OpeningTexts(p, data);
    TextsBefore(opening.items, rest);
  }

  /** The opening yields status lines only, at least one. */
  lemma {:induction false} OpeningTexts(p: Agent, data: Json)
    ensures |Opening(p, data).items| >= 1 && forall i :: 0 <= i < |Opening(p, data).items| ==> Opening(p, data).items[i].Text?
  {
  }

  /** Text lines in front keep the last event last and everything before it text. */
  lemma {:induction false} TextsBefore(a: seq<Event>, b: seq<Event>)
    requires forall i :: 0 <= i < |a| ==> a[i].Text?
    requires |b| >= 1 && forall i :: 0 <= i < |b| - 1 ==> b[i].Text?
    ensures (a + b)[|a + b| - 1] == b[|b| - 1]
    ensures forall i :: 0 <= i < |a + b| - 1 ==> (a + b)[i].Text?
  {
    var ab := a + b;
    forall i | 0 <= i < |ab| - 1 ensures ab[i].Text? {
      if i >= |a| {
        assert ab[i] == b[i - |a|];
      }
    }
  }

  /** A report path always ends in `final_report.html`. */
  lemma {:induction false} ReportPathName(p: Agent)
    ensures EndsWith(ReportPath(p), "final_report.html")
  {
  }

  /**
   * When `json.loads` reads back `json.dumps`, every analyzer is called with
   * exactly one keyword argument, `data`, holding the input records.
   */
  lemma {:induction false} AnalyzersGetData(c: Codec, data: Json, params: set<string>)
    requires RoundTrips(c) && WellFormed(data)
    ensures Arguments(c, DataArgument(c, data), params) == Ok([("data", data)])
  {
    var arg := JObj([("data", data)]);
    assert WellFormed(arg) by {
      forall m | m in arg.members ensures WellFormed(m.1) {
      }
    }
    assert c.parse(c.asciiText(arg)) == Some(arg);
    assert DataArgument(c, data) != "";
    RenameResultData([("data", data)], params, "data");
  }
}
