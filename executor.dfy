/**
 * By-name tool dispatch (src/tools/executor.py): the first registry instance
 * that has a callable attribute of the tool's name is chosen, the argument
 * string is parsed, one argument is renamed, and the method's result is
 * wrapped in an envelope.
 */
module Executor {
  import opened Json
  import opened Python
  import opened Codec

  /** A bound method: the names in its signature, and what calling it with keyword arguments does. */
  datatype Callable = Callable(params: set<string>, invoke: Dict -> Result<Json>)

  /** An attribute of an object: a method, or a value that cannot be called. */
  datatype Attr = Method(callable: Callable) | Field(value: Json)

  datatype Instance = Instance(attrs: map<string, Attr>)

  /** The `tool_instances` dict, in its iteration order. */
  type Registry = seq<(string, Instance)>

  /** The logger passed in.  `ExecutionLogger` has no `log_warning` method. */
  datatype Logger = Logger(hasLogWarning: bool)

  const RepoLogger := Logger(false)

  /** `logger.log_warning(msg)` */
  function Warn(lg: Logger): Result<()> {
    if lg.hasLogWarning then Ok(())
    else Raise(Exc(AttributeError, "'ExecutionLogger' object has no attribute 'log_warning'"))
  }

  /** `{"task_type": taskType, "content": content}` */
  function Envelope(taskType: string, content: Json): Json {
    JObj([("task_type", JStr(taskType)), ("content", content)])
  }

  function NotFoundMessage(name: string): string {
    "Tool method '" + name + "' not found in provided instances."
  }

  /** `hasattr(instance, name) and callable(getattr(instance, name))` */
  predicate Offers(inst: Instance, name: string) {
    name in inst.attrs && inst.attrs[name].Method?
  }

  /** The position of the first instance, in registry order, that offers the tool. */
  function FindTool(reg: Registry, name: string): (r: Option<nat>)
    ensures r.None? <==> forall i :: 0 <= i < |reg| ==> !Offers(reg[i].1, name)
    ensures r.Some? ==>
      r.value < |reg| && Offers(reg[r.value].1, name)
      && forall j :: 0 <= j < r.value ==> !Offers(reg[j].1, name)
  {
    if reg == [] then None
    else if Offers(reg[0].1, name) then Some(0)
    else
      var r := FindTool(reg[1..], name);
      assert forall i :: 1 <= i < |reg| ==> reg[i] == reg[1..][i - 1];
      if r.Some? then Some(r.value + 1) else None
  }

  /** The method `FindTool` selects. */
  function ToolAt(reg: Registry, name: string, i: nat): Callable
    requires i < |reg| && Offers(reg[i].1, name)
  {
    reg[i].1.attrs[name].callable
  }

  /** The lookup loop: stops at the first instance offering the tool. */
  method LookupTool(reg: Registry, name: string) returns (found: Option<nat>)
    ensures found == FindTool(reg, name)
  {
    found := None;
    var i := 0;
    while i < |reg|
      invariant 0 <= i <= |reg|
      invariant forall j :: 0 <= j < i ==> !Offers(reg[j].1, name)
    {
      var (_, instance) := reg[i];
      if name in instance.attrs && instance.attrs[name].Method? {
        found := Some(i);
        return;
      }
      i := i + 1;
    }
  }

  /** `param_mappings`: argument names the LLM may use, and the parameter they stand for. */
  const ParamMappings: seq<(string, string)> := [("result_data", "data")]

  /** One mapping: `arguments[dst] = arguments.pop(src)` when the signature asks for it. */
  function MapParameter(args: Dict, params: set<string>, src: string, dst: string): Dict {
    if Lookup(args, src).Some? && src !in params && dst in params then
      Set(Remove(args, src), dst, Lookup(args, src).value)
    else args
  }

  function MapParameters(args: Dict, params: set<string>, mappings: seq<(string, string)>): Dict
    decreases |mappings|
  {
    if mappings == [] then args
    else
      var last := mappings[|mappings| - 1];
      MapParameter(MapParameters(args, params, mappings[..|mappings| - 1]), params, last.0, last.1)
  }

  /** The renaming loop, over the mapping table. */
  method RenameArguments(args: Dict, params: set<string>) returns (out: Dict)
    ensures out == MapParameters(args, params, ParamMappings)
  {
    out := args;
    for k := 0 to |ParamMappings|
      invariant out == MapParameters(args, params, ParamMappings[..k])
    {
      var (src, dst) := ParamMappings[k];
      assert ParamMappings[..k + 1][..k] == ParamMappings[..k];
      if Lookup(out, src).Some? && src !in params && dst in params {
        out := Set(Remove(out, src), dst, Lookup(out, src).value);
      }
    }
    assert ParamMappings[..|ParamMappings|] == ParamMappings;
  }

  /**
   * The only rename is `result_data` to `data`: it happens exactly when
   * `result_data` is given, is not itself a parameter, and `data` is; every
   * other argument is left as it was.
   */
  lemma {:induction false} RenameResultData(args: Dict, params: set<string>, j: string)
    ensures var out := MapParameters(args, params, ParamMappings);
      var moves := Lookup(args, "result_data").Some? && "result_data" !in params && "data" in params;
      (moves ==>
         Lookup(out, "data") == Lookup(args, "result_data") && Lookup(out, "result_data").None?
         && (j != "data" && j != "result_data" ==> Lookup(out, j) == Lookup(args, j)))
      && (!moves ==> out == args)
  {
    assert ParamMappings[..0] == [];
    var removed := Remove(args, "result_data");
    var v := Lookup(args, "result_data");
    if v.Some? {
      LookupSet(removed, "data", v.value, j);
      LookupSet(removed, "data", v.value, "data");
      LookupSet(removed, "data", v.value, "result_data");
      LookupRemove(args, "result_data", j);
      LookupRemove(args, "result_data", "result_data");
    }
  }

  /**
   * The rename's test on a parsed str: `"result_data" in arguments` is then
   * a substring test, and when the other two conditions hold the rename
   * calls `pop` on the str.
   */
  predicate PopsStr(v: Json, params: set<string>) {
    v.JStr? && Contains(v.s, "result_data") && "result_data" !in params && "data" in params
  }

  /** What the tool's keyword arguments are, from the argument string. */
  function Arguments(c: Codec, text: string, params: set<string>): (r: Result<Dict>)
    ensures text == "" ==> r == Ok([])
    ensures text != "" && c.parse(text).None? ==> r.Raise? && r.exc.kind == JsonDecodeError
    // `str.pop` does not exist
    ensures text != "" && c.parse(text).Some? && PopsStr(c.parse(text).value, params) ==>
      r.Raise? && r.exc.kind == AttributeError
    // `in` on a scalar, `list.pop` with a str index, or `**arguments` on anything but a dict
    ensures text != "" && c.parse(text).Some? && !c.parse(text).value.JObj? && !PopsStr(c.parse(text).value, params) ==>
      r.Raise? && r.exc.kind == TypeError
    ensures text != "" && c.parse(text).Some? && c.parse(text).value.JObj? ==>
      r == Ok(MapParameters(c.parse(text).value.members, params, ParamMappings))
  {
    if text == "" then Ok([])
    else match c.parse(text)
      case None => Raise(Exc(JsonDecodeError, "Expecting value"))
      case Some(JObj(ms)) => Ok(MapParameters(ms, params, ParamMappings))
      case Some(v) =>
        if PopsStr(v, params) then Raise(Exc(AttributeError, "'str' object has no attribute 'pop'"))
        else Raise(Exc(TypeError, "argument after ** must be a mapping"))
  }

  /**
   * `execute_tool(tool_name, tool_arguments_str, tool_instances, logger)`.
   * `None` arguments fail at the log line's slice before anything else; a
   * missing tool gives the error envelope (once the warning is logged); the
   * method's own exception propagates unwrapped.
   */
  function Execute(c: Codec, reg: Registry, name: string, argsText: Option<string>, lg: Logger): (r: Result<Json>)
    ensures argsText.None? ==> r.Raise? && r.exc.kind == TypeError
    ensures argsText.Some? && FindTool(reg, name).None? ==>
      (lg.hasLogWarning ==> r == Ok(Envelope("error", JObj([("error", JStr(NotFoundMessage(name)))]))))
      && (!lg.hasLogWarning ==> r.Raise? && r.exc.kind == AttributeError)
    ensures argsText.Some? && FindTool(reg, name).Some? ==>
      var m := ToolAt(reg, name, FindTool(reg, name).value);
      match Arguments(c, argsText.value, m.params)
      case Raise(e) => r == Raise(e)
      case Ok(args) =>
        match m.invoke(args)
        case Ok(v) => r == Ok(Envelope("crawl_task", v))
        case Raise(e) => r == Raise(e)
  {
    match argsText
    case None => Raise(Exc(TypeError, "'NoneType' object is not subscriptable"))
    case Some(text) =>
      match FindTool(reg, name)
      case None =>
        (match Warn(lg)
         case Raise(e) => Raise(e)
         case Ok(_) => Ok(Envelope("error", JObj([("error", JStr(NotFoundMessage(name)))]))))
      case Some(i) =>
        var m := ToolAt(reg, name, i);
        match Arguments(c, text, m.params)
        case Raise(e) => Raise(e)
        case Ok(args) =>
          match m.invoke(args)
          case Raise(e) => Raise(e)
          case Ok(v) => Ok(Envelope("crawl_task", v))
  }

  /** The imperative `execute_tool`: the lookup loop, then parsing and the renaming loop. */
  method ExecuteTool(c: Codec, reg: Registry, name: string, argsText: Option<string>, lg: Logger)
    returns (r: Result<Json>)
    ensures r == Execute(c, reg, name, argsText, lg)
  {
    if argsText.None? {
      return Raise(Exc(TypeError, "'NoneType' object is not subscriptable"));
    }
    var found := LookupTool(reg, name);
    if found.None? {
      if !lg.hasLogWarning {
        return Raise(Exc(AttributeError, "'ExecutionLogger' object has no attribute 'log_warning'"));
      }
      return Ok(Envelope("error", JObj([("error", JStr(NotFoundMessage(name)))])));
    }
    var m := reg[found.value].1.attrs[name].callable;
    var arguments: Dict := [];
    if argsText.value != "" {
      var parsed := c.parse(argsText.value);
      if parsed.None? {
        return Raise(Exc(JsonDecodeError, "Expecting value"));
      }
      if PopsStr(parsed.value, m.params) {
        return Raise(Exc(AttributeError, "'str' object has no attribute 'pop'"));
      }
      if !parsed.value.JObj? {
        return Raise(Exc(TypeError, "argument after ** must be a mapping"));
      }
      arguments := RenameArguments(parsed.value.members, m.params);
    }
    var result := m.invoke(arguments);
    if result.Raise? {
      return Raise(result.exc);
    }
    r := Ok(Envelope("crawl_task", result.value));
  }

  /**
   * With the repository's own logger, a missing tool raises instead of
   * returning the error envelope.
   */
  lemma {:induction false} RepoLoggerMissingToolRaises(c: Codec, reg: Registry, name: string, text: string)
    requires FindTool(reg, name).None?
    ensures Execute(c, reg, name, Some(text), RepoLogger).Raise?
  {
  }
}
