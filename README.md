# Expert agent core: a verified model of the LLM orchestration layer

This project models, in Dafny, the deterministic orchestration layer of the
Expert_agent_core service. That layer sits around an untrusted large
language model and does the following:

- **Gateway.** The LLM gateway resolves model aliases, routes each model to
  its endpoint and shapes the messages and request parameters. It retries
  `ask_tool` at most three times, recovers JSON from `generate` and runs
  `batch_generate` in order.
- **Structured-output recovery.** It pulls JSON out of noisy model text in
  three stages: direct parse, fenced block, brace span.
- **Tool executor.** It looks tools up by name and wraps their results in
  success or error envelopes.
- **Greeting chatbot.** It works in two stages: first a tool decision, then
  either one tool envelope or a stream of text deltas.
- **Planning agent.** It classifies tool calls into an ordered task list,
  then runs the tasks as an event generator with a fixed grammar of
  progress lines ending in one summary dict.
- **Atomic-insights pipeline.** It unifies the schema of a batch of
  records, normalises and flattens them, runs three batched LLM passes and
  merges their results into five reserved keys.
- **HTTP layer.** The streaming endpoint writes one JSON line per event for
  user, server, interrupt and unknown queries. The data endpoint lays the
  processed records over the raw ones.
- **Aggregation helpers.** These cover content heat, heat-weighted brand
  counts, quote selection and ordering, the hottest posts and the top-k
  digest. Three analyzer methods (brand mentions, brand sentiment, IP
  distribution) build on them.
- **Report generator.** Its data handling covers the guard, the output path,
  insight extraction, the title and quote formatting.

The orchestration code is written in Python, so the model needs a few
conventions:

- **Values and dicts.** A Python value is a `Json` (modules `Json`,
  `Python`). A dict is an ordered member list, because several results
  depend on insertion order.
- **Exceptions.** An operation that can raise returns a `Result`, whose
  `Raise` case names the Python exception.
- **The model service.** It is an oracle (`Llm.Backend`). Each request is
  numbered by a call counter, and each operation returns the requests it
  sent.
- **Generators.** A generator is modelled by the items it yields and the
  exception it ends with, if any (`Run`).
- **`json.loads`.** It is a parameter, a partial parser (`Codec.parse`).
- **`json.dumps`.** It is written out for the form the code uses, with
  `ensure_ascii=False` and the default separators.
- **`sorted`.** It is sorted stably on precomputed keys (module `Sorting`).

An imperative source function becomes a method with loops and invariants.
Each such method is proved equal to a specification function, and the
behaviour the code promises is proved about that function as lemmas. A
pure source function becomes a function.

The code is modelled as written where it departs from what it evidently
means to do:

- **An empty plan crashes.** A planning reply without tool calls makes
  `plan_tasks` return `[]`. `run_analysis` then calls `.get` on that list
  and raises `AttributeError`, so its failure branch is unreachable
  (`Planner.EmptyPlanCrashes`).
- **A failing analyzer aborts the run.** An exception raised by an analyzer
  is not caught in `run_analysis`. It aborts the remaining tasks, and the
  stream ends with one failure event (`Planner.TaskLinesAbort`,
  `Routes.ChatFailureLast`).
- **The logger has no `log_warning`.** The repository's `ExecutionLogger`
  defines no `log_warning`. So the executor's tool-not-found path and
  `run_analysis`'s empty-data path raise `AttributeError` with that logger,
  instead of returning an error (`Executor.RepoLoggerMissingToolRaises`,
  `Planner.EmptyDataRaises`). The logger is a parameter of the model.
- **A failed extraction is not degraded.** A mention extraction that finds
  no JSON yields `None`, and the competition pass then raises on
  `None.items()` (`AtomicInsights.FailedExtractionRaises`). Nothing turns
  it into an empty result.
- **A missing interrupt reason answers 500.** The 400 raised for an
  interrupt without a reason is caught by the endpoint's own handler,
  which answers 500 instead (`Routes.StreamingQuery`).
- **Unknown aliases are handled two ways.** An unknown model alias raises
  at construction, but as a per-call override it silently falls back to the
  default model (`Llm.NewGateway`, `Llm.ResolveModel`).
- **Every client error is retried.** The openai client's authentication,
  permission and request errors are all `APIError`s, so `ask_tool`
  retries them as well.
- **The retry error is not re-raised as the last failure.** Three
  retryable failures end in tenacity's `RetryError`, not in the last
  failure itself (`Llm.RetryBound`).

## Model

| member | source | states |
|---|---|---|
| ExtractMarkdown.FirstParsed | src/utils/extract_markdown.py:31-35 | the fenced-block loop yields nothing exactly when no candidate's stripped text parses, and otherwise the value of the first candidate that does, of any type |
| ExtractMarkdown.FirstDict | src/utils/extract_markdown.py:41-49 | the brace loop yields nothing exactly when no candidate parses to a dict, and otherwise the first dict; lists and scalars are skipped |
| ExtractMarkdown.ExtractJson | src/utils/extract_markdown.py:11-51 | a text that parses whole is returned as parsed, whatever its type; otherwise the first fenced block that parses; otherwise the first brace candidate that parses to a dict, so only a dict can come back; `None` when all three stages fail, never a partial value |
| ExtractMarkdown.BraceSpanShape | src/utils/extract_markdown.py:38-39 | every brace candidate runs from a `{` to the first `}` after it, so a nested object is cut at its inner `}` |
| ExtractMarkdown.FirstBraceNone | src/utils/extract_markdown.py:37-38 | the brace pattern finds nothing exactly when no `{` in the text has a `}` somewhere after it |
| ExtractMarkdown.BraceSpanStripped | src/utils/extract_markdown.py:44 | stripping a brace candidate changes nothing, since it starts with `{` and ends with `}` |
| ExtractMarkdown.ExtractHtml | src/utils/extract_markdown.py:53-68 | when a fenced block exists the first one's stripped body is returned; otherwise the tag-based fallbacks decide; the result is always a str or None |
| ExtractMarkdown.ExtractStructured | src/utils/extract_markdown.py:91-120 | `json` and `html` are matched in any letter case; without original data the cascade's value is returned; a failed extraction gives `None` even with original data; a dict merge keeps every original key with the extracted keys winning; merging a non-dict raises `TypeError`; any other data type gives `None` |
| ExtractMarkdown.MergeWins | src/utils/extract_markdown.py:110 | `{**original, **data}` has the keys of both, and a key of `data` reads its value from `data` |
| Llm.NewGateway | src/llm.py:9-22 | construction succeeds exactly for the three aliases of the table and stores the aliased model ID; any other alias raises `KeyError` |
| Llm.ResolveModel | src/llm.py:67 | a per-call alias from the table resolves through it; no override, an empty one, an unknown alias or a raw model ID all mean the default model |
| Llm.BaseUrl | src/llm.py:24-34 | the bots base URL is chosen exactly for the ID `bot-20250321210824-76l48`, the plain `/api/v3` URL for every other ID |
| Llm.BotsEndpointAlias | src/llm.py:16-67 | with a default model other than the bot ID, only the override `deepseek-v3-online` reaches the bots endpoint |
| Llm.ShapeMessages | src/llm.py:60-65 | without a truthy system prompt the messages pass unchanged; otherwise a system message is prepended when the first message is not one, or the first message's content is replaced when it is, its other keys kept; the list grows by at most one and the rest keep their order; a non-dict first message raises `AttributeError` |
| Llm.LookupBaseParams | src/llm.py:71-76 | in the request parameters the keyword arguments override `model`, `messages` and `stream` |
| Llm.AskToolParams | src/llm.py:71-82 | with tools, `tools` and `tool_choice` are sent and `response_format` is not set even in JSON mode; without tools, JSON mode sets the `json_object` format; `stream` is false unless overridden |
| Llm.GenerateParams | src/llm.py:122-129 | `generate` sets the JSON format exactly in JSON mode and never adds tools |
| Llm.AttemptResult | src/llm.py:85-88 | an answer with no choices raises `ValueError`; otherwise the first choice's message; a client exception propagates |
| Llm.RetryBound | src/llm.py:36-37 | from any attempt the same request is sent between one and the remaining number of times; every attempt but the last ended in an API error; the call ends with the last attempt's result, or with `RetryError` after the third API error |
| Llm.AskToolCall | src/llm.py:36-88 | a shaping failure sends nothing; otherwise one to three identical requests, retried only after openai API errors, ending in the first non-retryable outcome or in `RetryError` |
| Llm.RetryLoop | src/llm.py:36-37 | the attempt loop sends exactly the requests, and returns exactly the result, of the retry specification |
| Llm.AskTool | src/llm.py:36-88 | `ask_tool` returns the result and sends the requests of `AskToolCall` |
| Llm.GenerateStream | src/llm.py:176-213 | shaping as in the other calls, one streaming request to the resolved endpoint with `stream` true and the shaped messages, chunks passed on as delivered, no retry |
| Llm.GenerateResult | src/llm.py:135-154 | a client exception propagates; no choices raises `IndexError`; in JSON mode a direct parse, else markdown recovery, else `ValueError`; a missing content in JSON mode raises `TypeError`; otherwise the content or the message object |
| Llm.GenerateJsonNoneOnlyForNull | src/llm.py:138-149 | in JSON mode `generate` returns `None` only when the reply is the JSON text `null`; a failed recovery raises instead |
| Llm.Generate | src/llm.py:90-154 | `generate` sends exactly one request, with no retry, and its result is what `GenerateResult` makes of the answer; a shaping failure sends nothing |
| Llm.GenerateContent | src/llm.py:90-154 | a content-only `generate` sends at most one request and returns a value only after sending one |
| Llm.GenerateStepOneRequest | src/llm.py:90-154 | every `generate` call, whatever its inputs, sends at most one request |
| Llm.Batch | src/llm.py:156-174 | a batch that succeeds has one result per message list |
| Llm.BatchSucceeds | src/llm.py:165-174 | a successful batch returns one value per list in input order; the i-th value answers request number `clock + i`; every list, repeated or not, costs one request, so nothing is cached |
| Llm.BatchStopsAtFirstRaise | src/llm.py:165-174 | once a call raises, the rest of the batch is never sent |
| Llm.RunBatch | src/llm.py:165-174 | the loop returns exactly the results, and sends exactly the requests, of the batch specification |
| Llm.BatchGenerate | src/llm.py:156-174 | `batch_generate` is the batch of `generate` calls; `batch_size` plays no part |
| Executor.FindTool | src/tools/executor.py:16-23 | no position exactly when no instance offers a callable of that name; otherwise the first such instance in registry order, none before it offering one |
| Executor.LookupTool | src/tools/executor.py:16-23 | the lookup loop stops at exactly the instance `FindTool` names |
| Executor.RenameArguments | src/tools/executor.py:41-51 | the renaming loop produces the arguments of the mapping table's specification |
| Executor.RenameResultData | src/tools/executor.py:41-51 | `result_data` moves to `data` exactly when it is given, is not itself a parameter and `data` is; every other argument keeps its value, and otherwise nothing changes |
| Executor.Arguments | src/tools/executor.py:32-51 | an empty argument string gives no keyword arguments; malformed JSON raises `JSONDecodeError`; a str that contains `result_data`, for a method taking `data` but not `result_data`, raises `AttributeError` at `pop`; any other non-dict raises `TypeError`; a dict is renamed as above |
| Executor.Execute | src/tools/executor.py:6-59 | `None` arguments raise at the log slice before lookup; a missing tool gives the `error` envelope with no method invoked (or raises when the logger has no `log_warning`); otherwise the method's result in a `crawl_task` envelope, its exceptions and argument errors propagating unwrapped |
| Executor.ExecuteTool | src/tools/executor.py:6-59 | the imperative `execute_tool` returns what `Execute` specifies |
| Executor.RepoLoggerMissingToolRaises | src/tools/executor.py:25-29 | with the repository's logger, which has no `log_warning`, a missing tool raises instead of returning the error envelope |
| Chatbot.BotGatewayResolved | src/agent/chatbot/chatbot.py:20 | the bot's gateway is the one `LLM(model="deepseek-v3")` builds |
| Chatbot.LastUserContent | src/agent/chatbot/chatbot.py:42-46 | `""` for no messages; scanning from the end, the content of the last user message (default `""`); a non-dict met first raises `AttributeError` |
| Chatbot.FindLastUserContent | src/agent/chatbot/chatbot.py:42-46 | the reversed scan with its `break` returns what `LastUserContent` specifies |
| Chatbot.Conversation | src/agent/chatbot/chatbot.py:52-57 | a leading system message gives its content as the prompt and is dropped; otherwise the default prompt is used and every message is sent; a non-dict first message raises `AttributeError` |
| Chatbot.Deltas | src/agent/chatbot/chatbot.py:134-136 | the text deltas are at most one per chunk, and none is empty |
| Chatbot.DeltasExact | src/agent/chatbot/chatbot.py:134-136 | there are exactly as many deltas as chunks with a first choice whose content is non-empty |
| Chatbot.StreamText | src/agent/chatbot/chatbot.py:133-144 | the stream loop yields one `stream` envelope per delta, in chunk order, and `full_response` is the deltas' concatenation |
| Chatbot.TextPath | src/agent/chatbot/chatbot.py:123-144 | the text path sends one streaming request with the chosen prompt and yields the delta envelopes, then one error envelope if the stream broke off |
| Chatbot.Respond | src/agent/chatbot/chatbot.py:80-157 | stage 1 offers exactly the `query_rewrite` tool with `tool_choice="auto"`; a failed decision gives exactly one error line; tool calls win over text, only the first runs and exactly one line is yielded; otherwise the text path's lines; every exception becomes exactly one final error envelope |
| Chatbot.Chat | src/agent/chatbot/chatbot.py:42-157 | a failure before the `try` (a non-dict message, an unsliceable content) escapes with nothing yielded; otherwise nothing escapes, a failed decision yields exactly its error line and the tool path exactly one line |
| Chatbot.CheckContent | src/agent/chatbot/chatbot.py:169-179 | every content passes the risk check |
| Python.KeyList | src/agent/planning/planner.py:283 | `list(d.keys())` has one key per entry, in insertion order; a run without a query takes the registry's keys as its task list |
| Planner.RegisteredNames | src/agent/planning/planner.py:42-50 | a planning agent's registry keys are the seven analyzer names, in their order |
| Planner.Classify | src/agent/planning/planner.py:230-241 | every kept task is a registered name; exactly the calls that are not `generate_final_report` and name a registered analyzer are kept; the flag is set exactly when some call is `generate_final_report` |
| Planner.ClassifyAppend | src/agent/planning/planner.py:232-241 | one more call extends the task list by its name when registered and by nothing otherwise, so order and duplicates are kept |
| Planner.ClassifyCalls | src/agent/planning/planner.py:227-241 | the classification loop computes the tasks and flag of `Classify` |
| Planner.PlanTasks | src/agent/planning/planner.py:194-252 | the planning request's own failure propagates; no tool call at all gives the empty list, not a plan dict; otherwise the plan holds the classified tasks and flag |
| Planner.PlanTasksLoop | src/agent/planning/planner.py:194-252 | `plan_tasks` returns the result, and sends the requests, of `PlanTasks` |
| Planner.OutcomeOfEnvelope | src/agent/planning/planner.py:295-299 | a `crawl_task` envelope gives the `[TASK_SUCCESS] name` line and the executor's error envelope the `[TASK_ERROR] name: msg - ` line |
| Planner.TaskLinesComplete | src/agent/planning/planner.py:287-299 | when no task raises, each task in order yields `[TASK_START] name` followed by exactly one outcome line, two lines per task |
| Planner.TaskLinesAbort | src/agent/planning/planner.py:289-294 | an exception from a task is not caught: the tasks before it complete, it yields only its start line, and no later task starts |
| Planner.StopsAfter | src/agent/planning/planner.py:289-294 | once a prefix of the tasks has raised, the tasks after it change nothing |
| Planner.RunTask | src/agent/planning/planner.py:288-299 | one pass of the task loop yields the start line, calls the executor with `{"data": result_data}`, and yields the outcome line or raises |
| Planner.RunTasks | src/agent/planning/planner.py:287-299 | the task loop yields the lines, and raises the exception, of its specification |
| Planner.SelectTasks | src/agent/planning/planner.py:274-284 | a truthy query is planned; otherwise every registry key runs and a report is made, with no request sent |
| Planner.RunPlan | src/agent/planning/planner.py:287-314 | the task loop, then (when asked) the report lines, then the final dict, as `Execution` specifies |
| Planner.RunAnalysis | src/agent/planning/planner.py:254-314 | the generator `run_analysis` yields the items, raises the exception and sends the requests of `Analysis` |
| Planner.Open | src/agent/planning/planner.py:265-271 | the status line, then for empty data the warning line, unless the warning call raises |
| Planner.RunSelected | src/agent/planning/planner.py:275-314 | a planning failure or the empty plan list ends the run after the opening lines; a plan is executed |
| Planner.StatusFirst | src/agent/planning/planner.py:266 | the first item of every run is the `[STATUS]` line |
| Planner.EmptyDataRaises | src/agent/planning/planner.py:269-271 | with the repository's logger, empty data ends the run with `AttributeError` right after the status line |
| Planner.EmptyPlanCrashes | src/agent/planning/planner.py:242-278 | when the model calls no tool the run raises `AttributeError` at `.get`; no task starts and the failure dict is never yielded |
| Planner.NoQueryRunsAll | src/agent/planning/planner.py:281-284 | without a query all seven analyzers run in registry order with a report, and no planning request is sent |
| Planner.ExecutionSummaryLast | src/agent/planning/planner.py:301-314 | tasks that all complete are followed by the final dict, the only dict yielded, whose path is the report path exactly when a report was asked for |
| Planner.SummaryLast | src/agent/planning/planner.py:254-314 | a run that ends normally has at least two items and ends with the final dict, the only dict yielded |
| Planner.ReportPathName | src/agent/planning/planner.py:305 | the report path always ends in `final_report.html` |
| Planner.AnalyzersGetData | src/agent/planning/planner.py:289-294 | when `json.loads` reads back `json.dumps`, every analyzer gets exactly one keyword argument, `data`, holding the input records |
| AtomicFields.FirstIn | src/tools/atomic_insights.py:172-173 | a record gives a first value for a key exactly when it has that key |
| AtomicFields.AddFieldsTable | src/tools/atomic_insights.py:172-188 | one record's pass adds exactly its keys; a key already in the table keeps its default, a new one gets the default of its first value |
| AtomicFields.FieldsTable | src/tools/atomic_insights.py:166-190 | the field table's keys are the union of all record keys, and each default is fixed by the first value seen for that key: `""`, `[]`, `{}`, `0`, `0.0` or `None` by type |
| AtomicFields.BoolFieldDefaultsToZero | src/tools/atomic_insights.py:181-187 | a field first seen with a bool gets the default `0`, not `False`, because the int test comes first |
| AtomicFields.CollectAllFields | src/tools/atomic_insights.py:166-190 | the two loops of `collect_all_fields` build exactly the field table |
| AtomicFields.DecodeFieldLookup | src/tools/atomic_insights.py:202-223 | decoding one field keeps the keys and changes only that field, to its decoded value |
| AtomicFields.NormalizeLookup | src/tools/atomic_insights.py:192-225 | a normalised record has the keys of the table and of the record; the record's values override the defaults; `comments_data` is present; the three encoded fields hold their decoded values (`""` becoming `[]` or `{}`) |
| AtomicFields.NoCommentsFieldRaises | src/tools/atomic_insights.py:202 | in a batch where no record has `comments_data`, normalising any record raises `KeyError` |
| AtomicFields.MergeLookup | src/tools/atomic_insights.py:195-199 | overriding the defaults with a record's values: the record's keys win |
| AtomicFields.NormalizeIdempotent | src/tools/atomic_insights.py:192-225 | normalising a normalised record again with the same table changes nothing, once its decoded fields are not strings |
| AtomicFields.NormalizeDataFields | src/tools/atomic_insights.py:192-225 | the override loop and the three in-place decodings give the record `Normalize` specifies, or its exception |
| AtomicFields.CommentsTextAppend | src/tools/atomic_insights.py:259-270 | the comment text of a list is the texts of its parts, one after the other |
| AtomicFields.CommentsTextOne | src/tools/atomic_insights.py:260-270 | one comment dict contributes exactly its `user[loc](date)：content` line; a non-dict contributes nothing |
| AtomicFields.FlattenComments | src/tools/atomic_insights.py:257-270 | the `comments_text +=` loop builds exactly the comment text |
| AtomicFields.FullContent | src/tools/atomic_insights.py:249-272 | the text is `author：title detail` and a newline, then the comment lines of every dict comment in order; a missing `author_name`, `title` or `source` raises `KeyError`; a non-string `source` raises |
| AtomicFields.FlattenRecord | src/tools/atomic_insights.py:249-273 | the content-building loop body computes `FullContent` |
| Python.MapAll | src/tools/atomic_insights.py:56-112 | applying a step to every element in order succeeds exactly when every element does, and then gives one result per element, the i-th from the i-th input |
| Python.MapStops | src/tools/atomic_insights.py:56-58 | once an element has raised, the later ones are never looked at |
| AtomicInsights.ParseResponse | src/tools/atomic_insights.py:57-161 | a string reply is parsed by the markdown cascade, so a failed extraction is `None`; a non-string reply raises `TypeError` |
| AtomicInsights.Concrete | src/tools/atomic_insights.py:51-155 | the LLM's `generate` sends at most one request per message list |
| AtomicInsights.Pass | src/tools/atomic_insights.py:48-112 | a pass that succeeds has one result per message list |
| AtomicInsights.PassResults | src/tools/atomic_insights.py:48-114 | a pass that succeeds returns exactly one parsed result per input text, in input order: the i-th is the parse of the reply to request `clock + i`, which carried the i-th list |
| AtomicInsights.SliceStep | src/tools/atomic_insights.py:49-52 | one slice of `batch_size` lists after the earlier ones continues a single batch over all the lists, and an exception in it ends that batch |
| AtomicInsights.RunSlices | src/tools/atomic_insights.py:49-156 | the slice loop makes the same requests, in the same order, with the same results, as one batch over all the lists |
| AtomicInsights.RunPass | src/tools/atomic_insights.py:48-58 | the slice loop then the parse loop give exactly `Pass` |
| AtomicInsights.ParseResponses | src/tools/atomic_insights.py:55-112 | the parse loop gives exactly the in-order map of the parse step |
| AtomicInsights.MentionLists | src/tools/atomic_insights.py:26-45 | one single user message per content, embedding its first 2000 characters |
| AtomicInsights.Ranked | src/tools/atomic_insights.py:69 | sorting number counts descending gives a permutation of the entries, in non-increasing order of count |
| AtomicInsights.TopBrands | src/tools/atomic_insights.py:69 | the top-n sort succeeds exactly when there is at most one count, or the counts are all numbers, or all str; two or more list counts are outside the model and every other mix of two or more raises; it keeps `min(n, size)` of the entries, numbers in descending value and str in descending code-point order |
| AtomicInsights.TopBrandsSplit | src/tools/atomic_insights.py:69 | the kept entries are the largest counts: with the entries left out they make up the counts, none left out is greater than a kept one (as numbers, or as str), and nothing is left out when fewer than n are kept |
| AtomicInsights.StrRanked | src/tools/atomic_insights.py:69 | str counts are sorted as Python compares str, largest first: a permutation of the entries in non-increasing code-point order |
| Sorting.StrSortDesc | src/tools/atomic_insights.py:69 | the stable descending str sort: a permutation, no later key greater by code point than an earlier one |
| AtomicInsights.CompetitionListsShape | src/tools/atomic_insights.py:64-99 | the prompts are built only when every brand context is, one per content, each carrying its own record's context and the first 2000 characters |
| AtomicInsights.CompetitionRaises | src/tools/atomic_insights.py:68-69 | a record whose mention result is not a dict (a failed extraction) makes the competition pass raise |
| AtomicInsights.BuildCompetitionPrompt | src/tools/atomic_insights.py:66-96 | one prompt of the competition pass, after its record's brand context |
| AtomicInsights.BuildCompetitionLists | src/tools/atomic_insights.py:64-99 | the prompt-building loop gives exactly the specified message lists |
| AtomicInsights.Named | src/tools/atomic_insights.py:290 | the kept names are at most the entries, never empty, each from an entry; every non-empty name is kept |
| AtomicInsights.RecordBrandsBound | src/tools/atomic_insights.py:288-290 | a record is analysed for at most five brands, never the empty name, each one a key of its mention counts |
| AtomicInsights.BrandsCut | src/tools/atomic_insights.py:288-290 | a record's brands are the names of the top five entries, and every named entry that is not a brand is among those left out |
| AtomicInsights.RecordBrandsTop | src/tools/atomic_insights.py:288-290 | with number counts, each brand a record is analysed for has an entry in its mention counts whose count no named entry left out of the brands exceeds |
| AtomicInsights.RecordBrandsTopStr | src/tools/atomic_insights.py:288-290 | with str counts, the same in code-point order |
| AtomicInsights.ZipFacts | src/tools/atomic_insights.py:159-162 | the brand dict has exactly the brands as keys, each holding the result of its last occurrence |
| AtomicInsights.AnalyzeBrands | src/tools/atomic_insights.py:116-164 | no brands gives `{}` with no request; a successful result is keyed exactly by the brands |
| AtomicInsights.AnalyzeBrandsResults | src/tools/atomic_insights.py:116-164 | each brand costs one request, and each brand holds the parsed reply to its own prompt |
| AtomicInsights.AnalyzeBrandsForContent | src/tools/atomic_insights.py:116-164 | the brand slices and the zip after them give exactly `AnalyzeBrands` |
| AtomicInsights.ZipResults | src/tools/atomic_insights.py:159-162 | the zip loop builds exactly the brand dict |
| AtomicInsights.Chain | src/tools/atomic_insights.py:286-297 | a successful run of the per-record steps has one result per record |
| AtomicInsights.ChainResults | src/tools/atomic_insights.py:286-297 | each record's result is what its own step gave, numbered after the requests of the steps before it |
| AtomicInsights.BrandStageAt | src/tools/atomic_insights.py:288-297 | record i's step is the analysis of its top brands, or `{}` for a missing or falsy mention result, or the exception finding the brands |
| AtomicInsights.BrandPassesKeys | src/tools/atomic_insights.py:284-297 | after the per-brand pass every record's analysis has exactly that record's brands as keys |
| AtomicInsights.RunBrandStage | src/tools/atomic_insights.py:288-297 | one iteration of the per-record loop computes its specified step |
| AtomicInsights.RunBrandPasses | src/tools/atomic_insights.py:284-297 | the per-record loop gives exactly the brand passes |
| AtomicInsights.SentimentColumn | src/tools/atomic_insights.py:322 | one sentiment per brand, in order, with `neutral` when missing |
| AtomicInsights.FeaturesColumn | src/tools/atomic_insights.py:325 | one features entry per brand, in order, with `{}` when missing |
| AtomicInsights.SidesColumn | src/tools/atomic_insights.py:328-333 | one strengths/weaknesses pair per brand, in order, with `[]` when missing |
| AtomicInsights.SummariesFacts | src/tools/atomic_insights.py:315-333 | the brand loop succeeds exactly when every analysis is a dict; then the three dicts share the analysed brands as keys, with `neutral`, `{}` and `[]` for what an analysis lacks |
| AtomicInsights.Summarize | src/tools/atomic_insights.py:315-333 | the brand loop fills the three dicts as `Summaries` specifies |
| AtomicInsights.MergedFacts | src/tools/atomic_insights.py:306-337 | the merged record holds the reserved keys and every key of the record |
| AtomicInsights.MergeRecordLookup | src/tools/atomic_insights.py:304-339 | the merged record's keys are the record's keys and the five reserved keys; every other key keeps its normalised value, the reserved ones hold the pass results, and the three per-brand dicts share the analysis's brands |
| AtomicInsights.MergeAllShape | src/tools/atomic_insights.py:302-339 | the merge succeeds exactly when every record merges, and then gives one merged record per normalised record, in order |
| AtomicInsights.MergeOne | src/tools/atomic_insights.py:305-337 | one merge iteration sets the five keys on a copy of the record |
| AtomicInsights.MergeRecords | src/tools/atomic_insights.py:302-339 | the merge loop gives exactly `MergeAll` |
| AtomicInsights.Prepare | src/tools/atomic_insights.py:237-273 | fields, normalisation and flattening give one normalised record and one text per input record, every input being a dict |
| AtomicInsights.ToDicts | src/tools/atomic_insights.py:171-172 | a record that is not a dict stops the run before any field is collected |
| AtomicInsights.NormalizeAll | src/tools/atomic_insights.py:242-244 | the records are normalised in input order, as the order-preserving `map` does |
| AtomicInsights.FlattenAll | src/tools/atomic_insights.py:248-273 | one flattened text per normalised record, in order |
| AtomicInsights.PrepareRecords | src/tools/atomic_insights.py:237-273 | steps 1 to 3 give exactly `Prepare` |
| AtomicInsights.RunPasses | src/tools/atomic_insights.py:275-297 | the three passes one after the other give exactly `Passes` |
| AtomicInsights.RunLaterPasses | src/tools/atomic_insights.py:279-297 | the competition pass then the per-brand pass give exactly `LaterPasses` |
| AtomicInsights.RunCompetitionPass | src/tools/atomic_insights.py:62-114 | the competition prompts then their pass give exactly `CompetitionPass` |
| AtomicInsights.EmptyBatch | src/tools/atomic_insights.py:232-235 | the model alias is resolved first; then an empty batch returns `[]` and sends nothing |
| AtomicInsights.InsightsShape | src/tools/atomic_insights.py:227-339 | a successful run gives one record per input record, in order: every non-reserved key keeps its normalised value and the five reserved keys are overwritten |
| AtomicInsights.FailedExtractionRaises | src/tools/atomic_insights.py:57-69 | a failed mention extraction (`None`) is not degraded to `{}`: the competition pass raises on it before sending anything |
| AtomicInsights.AtomicInsightsRun | src/tools/atomic_insights.py:227-339 | `atomic_insights` returns the records, and sends the requests, of `Insights` |
| Routes.Lines | app/routes.py:76-84 | a stream has exactly one written line per event, in order |
| Routes.LinesAppend | app/routes.py:114-242 | the text of two event streams one after the other is the text of the first followed by that of the second |
| Routes.OneLinePerEvent | app/routes.py:76-84 | when `json.dumps` writes no line break, each event line ends in its single `\n` and holds no other |
| Routes.PayloadWellFormed | app/routes.py:78-84 | the five keys of an event are distinct, so the event is a value `json.loads` can return |
| Routes.PayloadMembers | app/routes.py:78-84 | an event holds exactly `qa_id`, `user_id`, `conversation_id`, `task_type` and `content`, and the identifiers are the request's |
| Routes.EventReadsBack | app/routes.py:76-84 | with a codec whose `loads` inverts `dumps`, an event line without its line break reads back as the event |
| Routes.ChunkOfEnvelope | app/routes.py:131-135 | a chatbot string that parses as an envelope is forwarded with that envelope's task type and content |
| Routes.EnvelopeReadsBack | app/routes.py:131 | an envelope the chatbot writes reads back as itself |
| Routes.ChatbotEnvelopeForwarded | app/routes.py:129-135 | each envelope the chatbot writes reaches the client with its own task type and content |
| Routes.ForwardChunk | app/routes.py:130-141 | one chatbot string becomes the event of `ChunkFrame`: a raw stream event for non-JSON, `task_type` and `content` with their defaults for a dict, an error event for other JSON |
| Routes.StreamChat | app/routes.py:129-241 | the chatbot loop writes one event per chatbot string, then one failure event when the chatbot raised |
| Routes.Basename | app/routes.py:207 | the base name holds no `/` and ends the path |
| Routes.PlannerFrames | app/routes.py:181-193 | every event sent while the planner runs is a stream event, and there are no more of them than planner items |
| Routes.PlannerTexts | app/routes.py:181-186 | progress lines are forwarded one for one, in order, and no summary is kept from them |
| Routes.ReportFrames | app/routes.py:210-213 | one `report` event per line of the report file, in order |
| Routes.ReportNoDone | app/routes.py:203-226 | the report stage never sends `done` |
| Routes.EndingDone | app/routes.py:197-230 | the end of the server branch sends `done` only last, exactly when a summary dict was kept and the report stage did not raise |
| Routes.DoneOnlyLast | app/routes.py:178-230 | `done` comes at most once and only last; it comes exactly when the planner ended normally with a dict and the report stage did not raise, and it carries the last dict |
| Routes.FinalTexts | app/routes.py:181-189 | the planner's lines before its final dict are forwarded one for one and the final dict is the one kept |
| Routes.FinalEnding | app/routes.py:197-230 | after the final dict come the report stage, which then cannot raise, and `done` with that dict |
| Routes.StartedShape | app/routes.py:172-230 | after the setup line: one stream event per progress line in order, possibly the report, and `done` with the final dict last; without a report path nothing comes between the progress lines and `done` |
| Routes.PlannerRunEnds | src/agent/planning/planner.py:254-314 | what `run_analysis` yields when it ends normally is its progress lines followed by one final dict naming the report path or none |
| Routes.ServerRunShape | app/routes.py:144-230 | a server query whose planner ends normally sends the setup line, the planner's progress lines, possibly the report, and `done` with the final dict last |
| Routes.StreamPlanner | app/routes.py:181-193 | the item loop sends exactly the planner events and keeps the last dict the planner yields |
| Routes.StreamReport | app/routes.py:203-226 | the report step sends exactly the lines of `ReportStage`, and raises exactly when it does |
| Routes.StreamAfterSetup | app/routes.py:176-230 | the server branch after the setup line sends exactly `AfterSetup` |
| Routes.StreamStarted | app/routes.py:172-230 | the server branch from the setup line on sends the setup line, then `AfterSetup` |
| Routes.StreamServer | app/routes.py:144-241 | the server branch sends exactly `ServerFrames`: an error event for missing data or a failed `makedirs`, the failure event for any other exception |
| Routes.StreamingQuery | app/routes.py:88-242 | a stream exactly when the query is not an interrupt; an error exactly for an interrupt without a reason, and that 400 comes out as 500 with the internal-error detail; otherwise `{status: interrupted, reason}` |
| Routes.DoneOnlyFromServer | app/routes.py:114-233 | outside a server query a `done` event can only be a chatbot string forwarded as it is |
| Routes.RejectedRequests | app/routes.py:119-233 | a user query without messages, a server query without collected data and an unknown query type each get exactly their one error event |
| Routes.ChatFailureLast | app/routes.py:129-241 | when the chatbot raises, what it yielded before is forwarded, then one failure event ends the stream |
| Routes.Generate | app/routes.py:114-241 | `generate()` writes exactly the lines of `GenerateFrames` |
| Routes.StreamingQueryRun | app/routes.py:88-242 | the endpoint answers exactly `StreamingQuery` |
| Routes.OverlayFacts | app/routes.py:274-289 | the overlay succeeds exactly when every processed record with a raw record beside it is a dict; then it has one item per processed record, processed keys win over raw ones, and items past the raw data are kept as they are |
| Routes.Objects | app/routes.py:67-68 | each raw record is carried as the dict it is, one per record |
| Routes.DataProcessingAnswers | app/routes.py:254-305 | the endpoint fails exactly when `atomic_insights` raises; otherwise it answers `{"content": list}` with one record per raw record |
| Routes.OverlayRecords | app/routes.py:274-289 | the overlay loop gives exactly `Overlay` |
| Routes.DataProcessingRun | app/routes.py:254-305 | the endpoint answers exactly `DataProcessing` |
| AnalysisTools.ZeroPercentages | src/tools/analysis_tools.py:17-21 | the zero branch is taken exactly when the counts sum to 0, and then keeps every key, in order, mapped to 0 |
| AnalysisTools.ZeroTotal | src/tools/analysis_tools.py:17-19 | with counts that cannot be negative, the total is 0 exactly when every count is 0 |
| AnalysisTools.ContentHeatFormula | src/tools/analysis_tools.py:771-835 | the heat is defined exactly when every count it reads converts, and is then 4 × comments + likes + collects for a post and 4 × replies + likes for a comment |
| AnalysisTools.SameCounts | src/tools/analysis_tools.py:771-835 | the heat depends only on what the counts it reads convert to |
| AnalysisTools.SameCount | src/tools/analysis_tools.py:788-830 | replacing one count by another that converts to the same number leaves the heat unchanged |
| AnalysisTools.MissingCount | src/tools/analysis_tools.py:788-825 | a missing count counts as 0 |
| AnalysisTools.NumericString | src/tools/analysis_tools.py:789-791 | a numeric string counts as its number |
| AnalysisTools.NonNumericString | src/tools/analysis_tools.py:792-793 | a string that is not a number counts as 0 |
| AnalysisTools.Weight | src/tools/analysis_tools.py:39-41 | the weight is never 0: a zero `heat_value` weighs 1; otherwise it is `int(heat_value)`, and it raises exactly when that conversion does |
| AnalysisTools.DictIncrements | src/tools/analysis_tools.py:45-49 | a dict of mentions adds count × weight to each of its brands, in order; it raises exactly when a product fails |
| AnalysisTools.ListIncrements | src/tools/analysis_tools.py:50-54 | a list of mentions adds the weight once per entry; it raises exactly when an entry is not a str |
| AnalysisTools.ApplyCounts | src/tools/analysis_tools.py:35-54 | after the Counter updates, each brand's count is its old count plus the sum of its increments, and the Counter holds exactly the brands that were incremented |
| AnalysisTools.BrandCountsBySum | src/tools/analysis_tools.py:35-57 | when counting goes through, a brand's count is the sum over the records of weight × count (dict), weight per entry (list) or nothing, and the brands counted are exactly those mentioned |
| AnalysisTools.NoMentions | src/tools/analysis_tools.py:44-54 | a record without mentions, or with mentions that are neither dict nor list, adds nothing |
| AnalysisTools.DictShare | src/tools/analysis_tools.py:47-49 | a dict of mentions gives a brand its count times the weight |
| AnalysisTools.ListShare | src/tools/analysis_tools.py:52-54 | a list of mentions gives a brand the weight once per entry naming it |
| AnalysisTools.AddDict | src/tools/analysis_tools.py:47-49 | the dict loop applies exactly the dict increments to the Counter, or raises their exception |
| AnalysisTools.AddList | src/tools/analysis_tools.py:52-54 | the list loop applies exactly the list increments to the Counter, or raises their exception |
| AnalysisTools.NextIncrements | src/tools/analysis_tools.py:37-54 | one more record either adds its increments after the earlier ones or its exception ends the count |
| AnalysisTools.CalculateBrandMentions | src/tools/analysis_tools.py:35-57 | the record loop computes exactly `BrandCounts` |
| AnalysisTools.CommentsOf | src/tools/analysis_tools.py:149 | at most five comments of a record are looked at |
| AnalysisTools.AddPicked | src/tools/analysis_tools.py:127-182 | appending a fresh snippet keeps the gathered quotes distinct and bounded, and adds exactly one quote |
| AnalysisTools.SnippetBounds | src/tools/analysis_tools.py:117-153 | a snippet of a long enough text is at most 200 characters, and shorter than `min_length` only if it is 200 long |
| AnalysisTools.CollectPicked | src/tools/analysis_tools.py:84-182 | what the loop gathers has no two quotes with the same content, every snippet within its bounds, every url filed as the loop files it, and at most one quote per record plus one per each of its first five comments |
| AnalysisTools.Skipped | src/tools/analysis_tools.py:90-114 | a record that fails the brand filter, or has no url, gives no quote |
| AnalysisTools.SortQuotesFacts | src/tools/analysis_tools.py:186-189 | the two sorts permute the quotes and leave them in (heat, likes) order, largest first |
| AnalysisTools.TakenFacts | src/tools/analysis_tools.py:186-191 | after the sort and the cut the quotes are ordered, taken from those gathered, distinct and bounded |
| AnalysisTools.UserQuotesFacts | src/tools/analysis_tools.py:70-191 | `extract_user_quotes` returns at most `max_quotes` quotes, in (heat, likes) order, each gathered by the loop, no two with the same content, each within the length bounds, and at most six per record |
| AnalysisTools.FileQuote | src/tools/analysis_tools.py:127-182 | one append files the url, the content and the quote as `Add` does |
| AnalysisTools.PickComment | src/tools/analysis_tools.py:150-182 | one comment entry is handled as `CommentStep` specifies |
| AnalysisTools.PickComments | src/tools/analysis_tools.py:149-182 | the comment loop of one record is exactly `Comments` |
| AnalysisTools.PickPost | src/tools/analysis_tools.py:117-146 | the record's own description is handled as `PostStep` specifies |
| AnalysisTools.PickRecord | src/tools/analysis_tools.py:88-182 | one record of the outer loop is handled as `ItemStep` specifies |
| AnalysisTools.ExtractUserQuotes | src/tools/analysis_tools.py:70-191 | the loops, the sorts and the cut compute exactly `UserQuotes` |
| AnalysisTools.HotPostsFacts | src/tools/analysis_tools.py:411-423 | the kept posts each have a positive numeric heat and there is at most one per record; the loop raises exactly when such a record has a `detail_desc` that cannot be sliced |
| AnalysisTools.PostOfHot | src/tools/analysis_tools.py:414-423 | a record is skipped exactly when its heat is not a positive number, and raises exactly when it qualifies and its description cannot be sliced |
| AnalysisTools.HotKeys | src/tools/analysis_tools.py:426 | the sort key `int(heat_value)` never fails on the kept posts |
| AnalysisTools.TopHeatOrder | src/tools/analysis_tools.py:401-426 | `get_top_heat_posts` raises only where the record loop raises; it returns at most `top_n` posts, each with a positive numeric heat, largest integer heat first |
| AnalysisTools.TopHeatSplit | src/tools/analysis_tools.py:426 | the result and the posts it cuts are together exactly the qualifying posts, and no cut post is hotter than a returned one |
| AnalysisTools.GetTopHeatPosts | src/tools/analysis_tools.py:401-426 | the filtering loop, the sort and the cut compute exactly `TopHeat` |
| AnalysisTools.CommentTexts | src/tools/analysis_tools.py:229-232 | at most five comments are kept, each cut to 200 characters |
| AnalysisTools.EntryOf | src/tools/analysis_tools.py:206-234 | an entry holds at most five comments of at most 200 characters each |
| AnalysisTools.FallbackHeat | src/tools/analysis_tools.py:208-217 | without a `heat_value`, integer counts give likes + 4 × comments + collects, a missing count adding nothing |
| AnalysisTools.StoredHeat | src/tools/analysis_tools.py:208-209 | a record that has a `heat_value` keeps it as it is, whatever its type |
| AnalysisTools.CommentTextsKept | src/tools/analysis_tools.py:229-232 | a comment survives exactly when it is a non-empty str among the first five |
| AnalysisTools.TopEntriesFacts | src/tools/analysis_tools.py:206-237 | the digest keeps at most `k` entries, in heat order, largest first; with the cut ones they are exactly the records' entries, none of the cut ones hotter than a kept one |
| AnalysisTools.DigestAppend | src/tools/analysis_tools.py:240-251 | the digest is the entries' texts one after another, numbered from 1 |
| AnalysisTools.PickEntry | src/tools/analysis_tools.py:206-234 | one record of the first loop gives exactly `EntryOf` |
| AnalysisTools.WriteEntry | src/tools/analysis_tools.py:242-251 | one entry's text is exactly `EntryText` |
| AnalysisTools.ExtractTopKContents | src/tools/analysis_tools.py:193-253 | the entries, the sort and cut, and the text loop compute exactly `TopKText` |
| Analyzers.EntryCount | src/agent/analyzer/analyzers.py:43-46 | in a Counter without repeated brands an entry holds that brand's count |
| Analyzers.FilterUrlsTaken | src/agent/analyzer/analyzers.py:56-64 | the url filter keeps at most five quotes, with non-empty, pairwise distinct urls |
| Analyzers.FilterUrlsOrder | src/agent/analyzer/analyzers.py:58-62 | the quotes kept are taken from the input in its order |
| Analyzers.FilterUrlsCovers | src/agent/analyzer/analyzers.py:58-64 | while fewer than five are kept, every non-empty url of the input is among them |
| Analyzers.HighestOrder | src/agent/analyzer/analyzers.py:46 | the top holds at most `n` Counter entries, by count, largest first |
| Analyzers.HighestSplit | src/agent/analyzer/analyzers.py:46 | the top and the entries cut are together exactly the Counter, and no cut entry has a larger count than a kept one |
| Analyzers.TopBrandsCounts | src/agent/analyzer/analyzers.py:43-46 | each top brand appears once with its full weighted count, the sum over the records of what each gives it; there is none exactly when no record gives any brand an increment |
| Analyzers.BrandQuotesFacts | src/agent/analyzer/analyzers.py:49-66 | without a top brand there are no quotes; otherwise at most five, with pairwise distinct non-empty urls, taken in order from the top brand's quotes |
| Analyzers.PickDistinctUrls | src/agent/analyzer/analyzers.py:56-66 | the filter loop with its `break` at five gives exactly `FilterUrls` |
| Analyzers.AnalyzeBrandMentions | src/agent/analyzer/analyzers.py:33-104 | `analyze_brand_mentions` computes exactly `BrandMentions` |
| Analyzers.MentionRows | src/agent/analyzer/analyzers.py:149-161 | one mention bumps the named brand's row and leaves every other brand's row alone |
| Analyzers.MentionNames | src/agent/analyzer/analyzers.py:151-153 | one mention adds the brand to the keys |
| Analyzers.MentionShape | src/agent/analyzer/analyzers.py:149-161 | a mention keeps the keys distinct and every brand's counted sentiments within its mentions |
| Analyzers.TallyBrandsCounts | src/agent/analyzer/analyzers.py:149-155 | counting one record's brands adds one mention per occurrence |
| Analyzers.TallyBrandsNames | src/agent/analyzer/analyzers.py:149-153 | counting one record's brands adds exactly those brands to the keys |
| Analyzers.MentionedFiltered | src/agent/analyzer/analyzers.py:144-147 | with a brand filter a record's brands are only that brand |
| Analyzers.TalliesFacts | src/agent/analyzer/analyzers.py:132-161 | every brand's mentions are the number of times the records name it; the keys are distinct and exactly the brands named, only the filter brand when filtering; no brand has more counted sentiments than mentions |
| Analyzers.SortedTalliesFacts | src/agent/analyzer/analyzers.py:170 | the sort permutes the tallies and orders them by mentions, largest first |
| Analyzers.SpreadFacts | src/agent/analyzer/analyzers.py:172-178 | a brand's spread is the all-neutral default exactly when none of its sentiments was counted |
| Analyzers.SentimentErrors | src/agent/analyzer/analyzers.py:125-165 | no data gives the no-data error exactly when the data is empty; data naming no brand gives the no-brand error |
| Analyzers.SentimentRowsFacts | src/agent/analyzer/analyzers.py:129-188 | one row per brand named, by mentions, largest first, each with the number of times the records name it and the neutral default exactly when none of its sentiments counted; with a filter only that brand |
| Analyzers.RowsOfTallies | src/agent/analyzer/analyzers.py:168-188 | the rows read the tallies as a dict in mention order: distinct brands, their mentions, the default exactly for brands without sentiments |
| Analyzers.CombineFacts | src/agent/analyzer/analyzers.py:191-222 | at most ten quotes; when too few carry a sentiment word, the general ones marked unmarked; otherwise positive, then negative, then neutral, each marked with its word |
| Analyzers.TallyRecord | src/agent/analyzer/analyzers.py:134-161 | the brand loop of one record gives exactly `TallyItem` |
| Analyzers.AppendTagged | src/agent/analyzer/analyzers.py:204-219 | each tagging loop appends the quotes, in order, each marked with its word |
| Analyzers.TagSentiments | src/agent/analyzer/analyzers.py:208-222 | the three tagged selections one after another, cut to ten |
| Analyzers.TagGeneral | src/agent/analyzer/analyzers.py:203-222 | the general selection raises exactly when `extract_user_quotes` does, and otherwise gives its quotes marked unmarked, cut to ten |
| Analyzers.CombineQuotes | src/agent/analyzer/analyzers.py:202-222 | the general selection is consulted only when too few sentiment quotes were found, as `Combine` specifies |
| Analyzers.PickSentimentQuotes | src/agent/analyzer/analyzers.py:191-222 | the four selections and their tagging give exactly `SentimentQuotes` |
| Analyzers.BuildRows | src/agent/analyzer/analyzers.py:168-188 | the result loop gives one row per tally, in mention order |
| Analyzers.AnalyzeBrandSentiment | src/agent/analyzer/analyzers.py:106-227 | `analyze_brand_sentiment` on given data computes exactly `BrandSentiment` |
| Analyzers.RecordAllHeat | src/agent/analyzer/analyzers.py:1113-1135 | the heat table has each visited location once, exactly the visited locations, each with the heat of its posts plus that of its comments |
| Analyzers.RecordAllCounts | src/agent/analyzer/analyzers.py:1114-1135 | posts and comments are counted apart: each location's count of each kind is its number of visits of that kind |
| Analyzers.DistributionEmpty | src/agent/analyzer/analyzers.py:1138-1151 | the result raises `IndexError` exactly when no location was visited |
| Analyzers.DistributionOrder | src/agent/analyzer/analyzers.py:1138-1144 | between 1 and 15 locations, by heat descending, each once |
| Analyzers.DistributionRows | src/agent/analyzer/analyzers.py:1141-1144 | each row is a visited location with the heat of its posts and comments and its two counts |
| Analyzers.DistributionCut | src/agent/analyzer/analyzers.py:1138 | a visited location left out has no more heat than the last row, and is left out only when all 15 places are taken |
| Analyzers.VisitsKnown | src/agent/analyzer/analyzers.py:1120-1131 | empty and unknown (`未知`) locations are ignored: no visit has one |
| Analyzers.VisitComment | src/agent/analyzer/analyzers.py:1130-1135 | one comment updates the tables as its visit specifies |
| Analyzers.VisitComments | src/agent/analyzer/analyzers.py:1128-1135 | the comment loop updates the tables with exactly the comments' visits |
| Analyzers.VisitRecord | src/agent/analyzer/analyzers.py:1118-1135 | one record updates the tables with its poster's visit, then its comments' |
| Analyzers.AnalyzeIpDistribution | src/agent/analyzer/analyzers.py:1103-1164 | `analyze_ip_distribution` computes exactly `IpDistribution` |
| ReportGenerator.HtmlPathEnds | src/agent/report_generator/report_generator.py:81-85 | the output path always ends in `.html`, and a path that already does is kept as it is |
| ReportGenerator.HtmlPathMdFree | src/agent/report_generator/report_generator.py:82-85 | a path that did not end in `.html` keeps no `.md` at all once fixed |
| ReportGenerator.HtmlPathIdempotent | src/agent/report_generator/report_generator.py:81-85 | fixing a fixed path changes nothing |
| ReportGenerator.ReplacedMdFree | src/agent/report_generator/report_generator.py:83 | `replace(".md", ".html")` leaves no `.md`: a replacement cannot form a new one |
| ReportGenerator.PickedOrder | src/agent/report_generator/report_generator.py:141-147 | a report's insights are its dict insights that have `content`, in order, each once, each with the report's title; no other entry gives one |
| ReportGenerator.PickInsights | src/agent/report_generator/report_generator.py:142-147 | the inner loop gives exactly `Picked` |
| ReportGenerator.InsightsOfReport | src/agent/report_generator/report_generator.py:141-147 | one report gives exactly `ReportInsights` |
| ReportGenerator.ExtractInsights | src/agent/report_generator/report_generator.py:139-148 | `_extract_insights` gives exactly `AllInsights` |
| ReportGenerator.TitleCases | src/agent/report_generator/report_generator.py:159-177 | the default title for no reports, or for a first report with neither `brand` nor `insights`; a first report naming a string brand gives that brand's title whatever else it holds |
| ReportGenerator.FormattedQuotes | src/agent/report_generator/report_generator.py:189-202 | no quotes give `[]`; otherwise the loop raises exactly when one of the first `limit` quotes cannot be formatted, and else gives at most `limit` entries, the i-th being the i-th kept quote formatted |
| ReportGenerator.FormatQuoteFacts | src/agent/report_generator/report_generator.py:195-199 | a string title is cut to 30 characters and a missing one is `无标题`; a string content is cut to 100; a list of brand strings is joined with `", "` |
| ReportGenerator.BrandTextsStrings | src/agent/report_generator/report_generator.py:198 | a list of strings joins to exactly those strings |
| ReportGenerator.JoinLength | src/agent/report_generator/report_generator.py:198 | the joined text is the parts plus one separator between each two |
| ReportGenerator.FormatOne | src/agent/report_generator/report_generator.py:195-199 | one quote is formatted as `FormatQuote` specifies |
| ReportGenerator.FormatUserQuotes | src/agent/report_generator/report_generator.py:179-202 | `format_user_quotes` gives exactly `FormattedQuotes` |
| ReportGenerator.GeneratedFacts | src/agent/report_generator/report_generator.py:50-99 | `None` exactly when no sub-report is given or loadable; a returned path ends in `.html`, and a default one is the timestamped name in the output directory |
| ReportGenerator.ReportGenerator.constructor | src/agent/report_generator/report_generator.py:21-30 | a new generator writes to `reports` and has no data directory |
| ReportGenerator.ReportGenerator.SetOutputDir | src/agent/report_generator/report_generator.py:32-39 | only the output directory changes |
| ReportGenerator.ReportGenerator.SetDataDir | src/agent/report_generator/report_generator.py:41-48 | only the data directory changes |
| ReportGenerator.ReportGenerator.GenerateReport | src/agent/report_generator/report_generator.py:50-99 | `generate_report` returns exactly `Generated` for the generator's directories |
| Codec.DumpsOneLine | app/routes.py:78-84 | the text `json.dumps` writes never holds a line break, since every one inside a string is escaped |

## Left out

- Network I/O: the openai client and its chat-completions calls are the oracle `Llm.Backend`, and tenacity's randomised exponential waits are not modelled (only the attempt count is).
- What the model says: prompt wording and LLM-generated text are left out, because they are data for the oracle. So are the LLM-driven analyzers (competitor, feature, keyword, trend), `BaseAnalyzer.generate_data_driven_insight`, `analyze_content_with_llm`, the `extract_feature_dimensions`/`extract_keyword_analysis`/`extract_competitor_relationships` helpers and `llm_generator.py`.
- Rendering: HTML templating, charts and visualisation tools are left out, because they are presentation with float geometry. `_generate_visualizations` is taken not to raise.
- Floating point: the non-zero branch of `calculate_percentages`, the `percentage` field of `calculate_brand_mentions` and `calculate_sentiment_distribution` are left out. The texts the analyzers build from those percentages are left out too.
- AnalysisTools.ZeroPercentages: only the zero-total branch is stated; the other branch is `None` in the model, because its values are rounded floats.
- AnalysisTools.CalculateBrandMentions: computes the weighted counts only, not the percentages, for the same reason.
- Analyzers.RecordAllHeat: the location heat is an integer sum, while Python accumulates it in a `defaultdict(float)`. The values agree, but not their type.
- Files, clock and logging are parameters or are left out, the model having no file system:
  - the JSON files the analyzers and the pipeline write;
  - the run directory (`Host.makedirs` gives its outcome);
  - the report file (given as its lines);
  - the clock (timestamps are parameters);
  - `_load_reports_from_data_dir` (its result is a parameter);
  - the log messages.
- ReportGenerator.ReportGenerator.SetOutputDir, ReportGenerator.ReportGenerator.SetDataDir: the directory creation is not modelled, because the model has no file system.
- Llm.ShapeMessages: the result is a fresh value. Python's `list(messages)` is a shallow copy, so replacing the system prompt also rewrites the caller's first message dict; that aliasing is not modelled.
- Concurrency and progress bars: the `ThreadPoolExecutor` map preserves order and is modelled as a sequential map, and `tqdm` is dropped.
- Framework wiring: the FastAPI/pydantic layer, its 422 validation, the unused timeouts and the conversation-summary endpoint are left out, because they are wiring with no logic of the core. Request bodies are taken as pydantic delivers them.
- Thin wrappers and scripts: `summarizer.py`, `query_rewriter.py`, `deep_retail.py` and the scripts are left out. The `query_rewrite` tool the chatbot calls is a registry entry given as a parameter.
- Regular expressions whose results the code only consumes are parameters: the `<html>`, `<body>` and generic-tag fallbacks of `extract_html_from_markdown` (`tagScan`, which gives a str or None as they do) and the brand search of `_get_report_title` (`search`). The html fence scan and the two JSON candidate patterns are written out as scanners.
- Python.LowerAscii: `str.lower()` is modelled on ASCII letters only, because Unicode case mapping is out of scope; it decides the `data_type` dispatch and the quote feature filter.
- Python.ParseInt: `int()` of a str accepts ASCII digits only, while Python also accepts other Unicode decimal digits (`int("１２")` is 12); the model reads such a count as not a number, so `CountOf` gives 0 for it. Unicode digit tables are out of scope.
- Values of a type the code does not expect reach the `OutsideModel` exception rather than Python's exact `TypeError` or duck-typed behaviour: floats in heat arithmetic, non-str urls, locations and brands, a truthy non-str report path, two or more list-valued brand counts in the top-brand sort (Python compares lists element by element), and a `heat` of the top-k digest that is not a number (`AnalysisTools.EntryKey`), even for a single record or all-str heats, where Python's `sorted` would not raise. Exception messages are close to Python's but not exact.
- The `json.loads` parameter may give a dict with a repeated key, which Python's never does. `Lookup` then reads the last occurrence, as Python's dict keeps it; iterating such a dict would see the key twice, a case the source cannot meet.
- Codec.DumpsOneLine: Python's float rendering and the `str()` of lists and dicts are codec parameters. The one-line property of `json.dumps` therefore assumes (`FloatsOnOneLine`) that a float renders without a line break.
