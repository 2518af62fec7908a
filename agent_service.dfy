/**
 * The agent service the pages call: it checks object names, shapes the
 * attribute dicts of tools, tasks, agents and teams, hands them to the
 * database wrapper and turns the outcome into a success or error banner.
 * Whether a database call raises, and with what text, is a parameter.
 */
module AgentService {
  import opened Wrappers
  import opened Strings
  import opened PyJson
  import opened PlsqlBlock
  import opened AgentBuilder
  import opened DbmsAgent

  /** The banner shown after an operation. */
  datatype Notice = Succeeded(text: string) | Failed(text: string)

  /** A create operation: the procedure call it makes and the banner it shows. */
  datatype Outcome = Outcome(call: ProcCall, notice: Notice)

  /** `validate_name`: the database check it makes, whether the name is available, and the message. */
  datatype Validation = Validation(call: ProcCall, available: bool, message: string)

  // ---------------------------------------------------------------------
  // Name validation

  /** `validate_name(object_type, object_name)`; `raises` says whether the database check raised. */
  function ValidateName(objectType: string, objectName: string, raises: bool): (r: Validation)
    ensures r.call == ValidateCall(Upper(objectType), objectName)
    ensures r.available <==> !raises
    ensures Contains(r.message, Upper(objectType)) && Contains(r.message, "'" + objectName + "'")
    ensures StartsWith(r.message, "[Error] ") <==> raises
  {
    var t := Upper(objectType);
    if raises then Validation(ValidateCall(t, objectName), false, TakenMessage(t, objectName))
    else Validation(ValidateCall(t, objectName), true, AvailableMessage(t, objectName))
  }

  /** The message for a name the database refused. */
  function TakenMessage(t: string, name: string): (m: string)
    ensures Contains(m, t) && Contains(m, "'" + name + "'")
    ensures StartsWith(m, "[Error] ")
  {
    MessagePieces("[Error] ", t, " ", "'" + name + "'", " already exists or is invalid.");
    "[Error] " + t + " " + ("'" + name + "'") + " already exists or is invalid."
  }

  /** The message for a free name. */
  function AvailableMessage(t: string, name: string): (m: string)
    ensures Contains(m, t) && Contains(m, "'" + name + "'")
    ensures !StartsWith(m, "[Error] ")
  {
    var head := "[Agent AI] Name available for ";
    var m := head + t + ": " + ("'" + name + "'") + ".";
    MessagePieces(head, t, ": ", "'" + name + "'", ".");
    assert head[..8] != "[Error] " by { assert head[..8][1] == 'A'; }
    PrefixExcludes(m, head, "[Error] ");
    m
  }

  /** A message `a + x + b + y + c` starts with `a` and contains `x` and `y`. */
  lemma MessagePieces(a: string, x: string, b: string, y: string, c: string)
    ensures var m := a + x + b + y + c;
      Contains(m, x) && Contains(m, y) && StartsWith(m, a)
  {
    var m := a + x + b + y + c;
    assert m == a + x + (b + y + c);
    ContainsInfix(a, x, b + y + c);
    ContainsInfix(a + x + b, y, c);
    assert m[..|a|] == a;
  }

  /** A text that starts with `a` does not start with `p` when `a` does not. */
  lemma PrefixExcludes(m: string, a: string, p: string)
    requires StartsWith(m, a) && |p| <= |a| && a[..|p|] != p
    ensures !StartsWith(m, p)
  {
    assert m[..|p|] == a[..|p|];
  }

  // ---------------------------------------------------------------------
  // Banners

  /** The object noun in the banners. */
  function Noun(kind: ObjectKind): string {
    match kind
    case ToolObject => "Tool"
    case TaskObject => "Task"
    case AgentObject => "Agent"
    case TeamObject => "Team"
  }

  /** The product named in the banners: teams are announced by the team service. */
  function Product(kind: ObjectKind): string {
    if kind == TeamObject then "Team AI" else "Agent AI"
  }

  /** The banner after a create call; `dbError` is the text of the exception it raised, if any. */
  function CreateNotice(kind: ObjectKind, name: string, dbError: Option<string>): (r: Notice)
    ensures r.Succeeded? <==> dbError.None?
    ensures r.Succeeded? ==> Contains(r.text, "'" + name + "'")
    ensures r.Failed? ==> |r.text| >= |dbError.value| && r.text[|r.text| - |dbError.value|..] == dbError.value
  {
    match dbError
    case None =>
      var head := "[" + Product(kind) + "] " + Noun(kind) + " ";
      ContainsInfix(head, "'" + name + "'", " has been created successfully.");
      Succeeded(head + ("'" + name + "'") + " has been created successfully.")
    case Some(e) =>
      var head := "[Error] " + Product(kind) + " - Create " + Noun(kind) + ":\n";
      SuffixOfConcat(head, e);
      Failed(head + e)
  }

  // ---------------------------------------------------------------------
  // _to_json

  /**
   * What `dict(pair)` makes of one item of a pair list; only string keys are
   * modelled. An item is unpacked by iterating it: a list gives its elements,
   * a string its characters and a dict its keys.
   */
  function PairOf(item: PyVal): Option<(string, PyVal)> {
    match item
    case PList(xs) => if |xs| == 2 && xs[0].PStr? then Some((xs[0].s, xs[1])) else None
    case PStr(s) => if |s| == 2 then Some((s[..1], PStr(s[1..]))) else None
    case PDict(es) => if |es| == 2 then Some((es[0].0, PStr(es[1].0))) else None
    case _ => None
  }

  /** `dict(items)` for a list of pairs: later pairs overwrite earlier ones; `None` when `dict` raises. */
  function PairsDict(items: seq<PyVal>): Option<seq<(string, PyVal)>>
    decreases |items|
  {
    if items == [] then Some([])
    else
      match PairsDict(items[..|items| - 1])
      case None => None
      case Some(es) =>
        match PairOf(items[|items| - 1])
        case None => None
        case Some(p) => Some(DictSet(es, p.0, p.1))
  }

  /** `[[k, v] for k, v in d.items()]`, the pair list of a dict. */
  function ItemPairs(es: seq<(string, PyVal)>): (r: seq<PyVal>)
    ensures |r| == |es|
  {
    seq(|es|, i requires 0 <= i < |es| => PList([PStr(es[i].0), es[i].1]))
  }

  /**
   * `_to_json(attributes)`: `None` and unparsable text give `{}`, text is
   * parsed by `loads`, anything else goes through `dict(...)`; the result is
   * `None` when that raises.
   */
  function ToJson(attributes: PyVal, loads: string -> Option<PyVal>): (r: Option<PyVal>)
    ensures attributes.PNone? ==> r == Some(PDict([]))
    ensures attributes.PStr? && loads(attributes.s).None? ==> r == Some(PDict([]))
    ensures attributes.PDict? ==> r == Some(attributes)
    ensures attributes.PBool? || attributes.PInt? ==> r.None?
  {
    match attributes
    case PNone => Some(PDict([]))
    case PStr(s) => Some(loads(s).GetOr(PDict([])))
    case PDict(_) => Some(attributes)
    case PBool(_) => None
    case PInt(_) => None
    case PList(items) =>
      match PairsDict(items)
      case None => None
      case Some(es) => Some(PDict(es))
  }

  /** `dict([{a: x, b: y}])` unpacks the one dict item into its two keys: `{a: b}`. */
  lemma DictItemUnpacksKeys(a: string, b: string, x: PyVal, y: PyVal, loads: string -> Option<PyVal>)
    ensures ToJson(PList([PDict([(a, x), (b, y)])]), loads) == Some(PDict([(a, PStr(b))]))
  {
    assert PairsDict([PDict([(a, x), (b, y)])][..0]) == Some([]);
  }

  /** `dict(d.items())` rebuilds `d`: a dict survives the trip through its pair list. */
  lemma {:induction false} PairsDictItems(es: seq<(string, PyVal)>)
    requires DistinctKeys(es)
    ensures PairsDict(ItemPairs(es)) == Some(es)
    decreases |es|
  {
    if es != [] {
      var n := |es| - 1;
      ItemPairsInit(es);
      LastKeyFresh(es);
      PairsDictItems(es[..n]);
      PairsDictSnoc(ItemPairs(es), es[..n], es[n]);
      assert es[..n] + [es[n]] == es;
    }
  }

  /** The pair list of a dict without its last entry is the pair list without its last item. */
  lemma ItemPairsInit(es: seq<(string, PyVal)>)
    requires es != []
    ensures ItemPairs(es)[..|es| - 1] == ItemPairs(es[..|es| - 1])
    ensures PairOf(ItemPairs(es)[|es| - 1]) == Some(es[|es| - 1])
  {
  }

  /** With distinct keys, the last key is not among the earlier ones. */
  lemma LastKeyFresh(es: seq<(string, PyVal)>)
    requires es != [] && DistinctKeys(es)
    ensures DistinctKeys(es[..|es| - 1])
    ensures es[|es| - 1].0 !in Keys(es[..|es| - 1])
  {
    var init := es[..|es| - 1];
    forall i | 0 <= i < |init| ensures Keys(init)[i] != es[|es| - 1].0 {
      assert init[i] == es[i];
    }
  }

  /** A pair with a new key is appended to the dict built so far. */
  lemma PairsDictSnoc(items: seq<PyVal>, es: seq<(string, PyVal)>, p: (string, PyVal))
    requires items != []
    requires PairsDict(items[..|items| - 1]) == Some(es)
    requires PairOf(items[|items| - 1]) == Some(p)
    requires p.0 !in Keys(es)
    ensures PairsDict(items) == Some(es + [p])
  {
  }

  /** A pair list made from a dict converts back to that dict. */
  lemma ToJsonOfItems(es: seq<(string, PyVal)>, loads: string -> Option<PyVal>)
    requires DistinctKeys(es)
    ensures ToJson(PList(ItemPairs(es)), loads) == Some(PDict(es))
  {
    PairsDictItems(es);
  }

  /** Converting a dict result once more changes nothing. */
  lemma ToJsonIdempotent(attributes: PyVal, loads: string -> Option<PyVal>)
    requires ToJson(attributes, loads).Some? && ToJson(attributes, loads).value.PDict?
    ensures ToJson(ToJson(attributes, loads).value, loads) == ToJson(attributes, loads)
  {
  }

  // ---------------------------------------------------------------------
  // create_tool

  /** `tool_params`: the profile, when one is given. */
  function ToolParams(profile: PyVal): seq<(string, PyVal)> {
    With([], Truthy(profile), "profile_name", profile)
  }

  /** The attribute dict `create_tool` fills step by step. */
  function ToolAttrs(toolType: PyVal, instruction: PyVal, callable: PyVal, profile: PyVal, schema: PyVal): seq<(string, PyVal)> {
    var params := ToolParams(profile);
    With(With(With(With([("tool_type", toolType)],
      Truthy(instruction), "instruction", instruction),
      Truthy(callable), "function", callable),
      Truthy(schema), "schema", schema),
      params != [], "tool_params", PDict(params))
  }

  /** The tool's dict always holds `tool_type`; every other key only when its argument is given. */
  lemma ToolAttrsShape(toolType: PyVal, instruction: PyVal, callable: PyVal, profile: PyVal, schema: PyVal)
    ensures var r := ToolAttrs(toolType, instruction, callable, profile, schema);
      && Lookup(r, "tool_type") == Some(toolType)
      && Lookup(r, "instruction") == IfThen(Truthy(instruction), instruction)
      && Lookup(r, "function") == IfThen(Truthy(callable), callable)
      && Lookup(r, "schema") == IfThen(Truthy(schema), schema)
      && Lookup(r, "tool_params") == IfThen(Truthy(profile), PDict([("profile_name", profile)]))
      && DistinctKeys(r)
  {
    ToolServiceKeysDiffer();
    var params := ToolParams(profile);
    ToolParamsShape(profile);
    Steps4("tool_type", toolType, Truthy(instruction), "instruction", instruction, Truthy(callable), "function", callable,
           Truthy(schema), "schema", schema, params != [], "tool_params", PDict(params));
  }

  /** The keys a tool's dict can hold differ from each other. */
  lemma ToolServiceKeysDiffer()
    ensures "tool_type" != "instruction" && "tool_type" != "function" && "tool_type" != "schema"
    ensures "instruction" != "function" && "instruction" != "schema" && "function" != "schema"
    ensures "tool_params" != "tool_type" && "tool_params" != "instruction"
    ensures "tool_params" != "function" && "tool_params" != "schema"
  {
    assert "tool_type"[0] != "instruction"[0] && "tool_type"[0] != "function"[0] && "tool_type"[0] != "schema"[0];
    assert "instruction"[0] != "function"[0] && "instruction"[0] != "schema"[0] && "function"[0] != "schema"[0];
    assert |"tool_params"| != |"tool_type"| && "tool_params"[0] != "instruction"[0];
    assert "tool_params"[0] != "function"[0] && "tool_params"[0] != "schema"[0];
  }

  /** `tool_params` is non-empty exactly when a profile is given, and then holds just the profile. */
  lemma ToolParamsShape(profile: PyVal)
    ensures ToolParams(profile) != [] <==> Truthy(profile)
    ensures Truthy(profile) ==> ToolParams(profile) == [("profile_name", profile)]
  {
  }

  /** `create_tool(...)`: the tool's dict goes to the database as its JSON text. */
  function CreateTool(name: string, toolType: PyVal, instruction: PyVal, callable: PyVal, profile: PyVal, schema: PyVal,
                      dbError: Option<string>): (r: Outcome)
    ensures r.call.procedure == Procedure(ToolObject)
    ensures r.call.args == [name, Dumps(PDict(ToolAttrs(toolType, instruction, callable, profile, schema)))]
    ensures r.notice.Succeeded? <==> dbError.None?
  {
    Outcome(CreateCall(ToolObject, name, PDict(ToolAttrs(toolType, instruction, callable, profile, schema))),
            CreateNotice(ToolObject, name, dbError))
  }

  // ---------------------------------------------------------------------
  // create_task

  /**
   * The task's tool names: text is split at commas, anything else goes
   * through `list(tools or [])` and `str`; each name is trimmed and blanks
   * dropped. `None` when `list` raises (a true flag or a nonzero number).
   */
  function TaskTools(tools: PyVal): (r: Option<seq<string>>)
    ensures r.None? <==> (tools.PBool? || tools.PInt?) && Truthy(tools)
    ensures r.Some? ==> forall i :: 0 <= i < |r.value| ==> r.value[i] != "" && r.value[i] == Strip(r.value[i])
    ensures !Truthy(tools) && !tools.PStr? ==> r == Some([])
  {
    match tools
    case PStr(_) => Some(ParseGenericList(tools))
    case PList(_) => Some(ParseGenericList(tools))
    case PDict(es) => Some(KeepStripped(Keys(es)))
    case _ => if Truthy(tools) then None else Some([])
  }

  /** Clean names survive both spellings of a tool list: comma-separated text and a list. */
  lemma TaskToolsRoundTrip(names: seq<string>)
    requires CleanNames(names)
    ensures TaskTools(PStr(Join(names, ","))) == Some(names)
    ensures TaskTools(PList(StrValues(names))) == Some(names)
  {
    ParseJoined(names);
    ParseListed(names);
  }

  /** The task's dict: the instruction (or `""`), the tools, then `extra` on top. */
  function TaskAttrs(instruction: PyVal, tools: seq<string>, extra: seq<(string, PyVal)>): seq<(string, PyVal)> {
    var base := [("instruction", Or(instruction, PStr(""))), ("tools", PList(StrValues(tools)))];
    if extra != [] then DictUpdate(base, extra) else base
  }

  /** A key of `extra` reads as `extra` says; otherwise the instruction and the tools are there. */
  lemma TaskAttrsLookup(instruction: PyVal, tools: seq<string>, extra: seq<(string, PyVal)>, k: string)
    requires DistinctKeys(extra)
    ensures Lookup(TaskAttrs(instruction, tools, extra), k)
         == if k in Keys(extra) then Lookup(extra, k)
            else if k == "instruction" then Some(Or(instruction, PStr("")))
            else if k == "tools" then Some(PList(StrValues(tools)))
            else None
  {
    var base := [("instruction", Or(instruction, PStr(""))), ("tools", PList(StrValues(tools)))];
    LookupPair("instruction", Or(instruction, PStr("")), "tools", PList(StrValues(tools)), k);
    if extra != [] {
      LookupDictUpdate(base, extra, k);
    }
  }

  /** `create_task(...)`: `None` when the tool list cannot be read. */
  function CreateTask(name: string, instruction: PyVal, tools: PyVal, extra: seq<(string, PyVal)>,
                      dbError: Option<string>): (r: Option<Outcome>)
    ensures r.Some? <==> TaskTools(tools).Some?
    ensures r.Some? ==> r.value.call.args == [name, Dumps(PDict(TaskAttrs(instruction, TaskTools(tools).value, extra)))]
    ensures r.Some? ==> r.value.call.procedure == Procedure(TaskObject) && (r.value.notice.Succeeded? <==> dbError.None?)
  {
    match TaskTools(tools)
    case None => None
    case Some(names) =>
      Some(Outcome(CreateCall(TaskObject, name, PDict(TaskAttrs(instruction, names, extra))),
                   CreateNotice(TaskObject, name, dbError)))
  }

  // ---------------------------------------------------------------------
  // create_agent

  /** The agent's dict, with the human-tool flag spelled as PL/SQL expects. */
  function AgentAttrs(profile: PyVal, role: PyVal, enable: PyVal): seq<(string, PyVal)> {
    [("profile_name", profile), ("role", role), ("enable_human_tool", PStr(ToBoolLiteral(enable)))]
  }

  /** The agent's dict reads its profile, its role and `"True"` exactly for the accepted spellings of yes. */
  lemma AgentAttrsShape(profile: PyVal, role: PyVal, enable: PyVal)
    ensures var r := AgentAttrs(profile, role, enable);
      && Lookup(r, "profile_name") == Some(profile)
      && Lookup(r, "role") == Some(role)
      && Lookup(r, "enable_human_tool") == Some(PStr(if TrueWord(Lower(Strip(StrOf(enable)))) then "True" else "False"))
  {
    var r := AgentAttrs(profile, role, enable);
    assert r[1..] == [("role", role), ("enable_human_tool", PStr(ToBoolLiteral(enable)))];
    LookupPair("role", role, "enable_human_tool", PStr(ToBoolLiteral(enable)), "role");
    LookupPair("role", role, "enable_human_tool", PStr(ToBoolLiteral(enable)), "enable_human_tool");
  }

  /** Without a flag the agent gets no human tool. */
  lemma AgentFlagDefault(profile: PyVal, role: PyVal)
    ensures AgentAttrs(profile, role, PStr("false"))[2] == ("enable_human_tool", PStr("False"))
  {
    FlagDefault();
  }

  /** `create_agent(...)`. */
  function CreateAgent(name: string, profile: PyVal, role: PyVal, enable: PyVal, dbError: Option<string>): (r: Outcome)
    ensures r.call.procedure == Procedure(AgentObject)
    ensures r.call.args == [name, Dumps(PDict(AgentAttrs(profile, role, enable)))]
    ensures r.notice.Succeeded? <==> dbError.None?
  {
    Outcome(CreateCall(AgentObject, name, PDict(AgentAttrs(profile, role, enable))), CreateNotice(AgentObject, name, dbError))
  }

  // ---------------------------------------------------------------------
  // create_team

  /** `list(agents or [])`: `None` when that raises (a true flag or a nonzero number). */
  function TeamItems(agents: PyVal): (r: Option<seq<PyVal>>)
    ensures r.None? <==> (agents.PBool? || agents.PInt?) && Truthy(agents)
    ensures agents.PList? ==> r == Some(agents.items)
  {
    match agents
    case PList(xs) => Some(xs)
    case PStr(s) => Some(CharItems(s))
    case PDict(es) => Some(StrValues(Keys(es)))
    case _ => if Truthy(agents) then None else Some([])
  }

  /** Iterating over text: its characters, one string each. */
  function CharItems(s: string): (r: seq<PyVal>)
    ensures |r| == |s|
  {
    seq(|s|, i requires 0 <= i < |s| => PStr([s[i]]))
  }

  /** The loop in `create_team` that rebuilds each assigned entry as `{"name", "task"}`. */
  method CleanTeamAgents(items: seq<PyVal>) returns (clean: seq<PyVal>)
    ensures clean == KeepAssigned(items)
  {
    clean := [];
    var i := 0;
    while i < |items|
      invariant 0 <= i <= |items|
      invariant clean == KeepAssigned(items[..i])
    {
      KeepAssignedSnoc(items, i);
      var a := items[i];
      if !Truthy(a) || a.PDict? {
        var d := if a.PDict? then a else PDict([]);
        var name, task := DictGet(d, "name"), DictGet(d, "task");
        if Truthy(name) && Truthy(task) {
          clean := clean + [Assignment(name, task)];
        }
      }
      i := i + 1;
    }
    assert items[..i] == items;
  }

  /** One more entry adds what the filter keeps of it. */
  lemma KeepAssignedSnoc(items: seq<PyVal>, i: nat)
    requires i < |items|
    ensures KeepAssigned(items[..i + 1])
         == KeepAssigned(items[..i])
            + if Assigned(items[i]) then [Assignment(DictGet(items[i], "name"), DictGet(items[i], "task"))] else []
  {
    assert items[..i + 1] == items[..i] + [items[i]];
    KeepAssignedConcat(items[..i], [items[i]]);
    assert [items[i]][1..] == [];
  }

  /** Every kept entry has a name and a task. */
  lemma {:induction false} KeptAreAssigned(items: seq<PyVal>)
    ensures forall i :: 0 <= i < |KeepAssigned(items)| ==> Assigned(KeepAssigned(items)[i])
    decreases |items|
  {
    if items != [] {
      KeptAreAssigned(items[1..]);
      var a := items[0];
      if Assigned(a) {
        AssignmentFields(DictGet(a, "name"), DictGet(a, "task"));
      }
    }
  }

  /** The filter drops an entry exactly when it lacks a name or a task. */
  lemma {:induction false} KeepAssignedEmpty(items: seq<PyVal>)
    ensures KeepAssigned(items) == [] <==> forall i :: 0 <= i < |items| ==> !Assigned(items[i])
    decreases |items|
  {
    if items != [] {
      KeepAssignedEmpty(items[1..]);
      assert forall i :: 1 <= i < |items| ==> items[i] == items[1..][i - 1];
    }
  }

  /** Filtering twice keeps what filtering once keeps. */
  lemma {:induction false} KeepAssignedIdempotent(items: seq<PyVal>)
    ensures KeepAssigned(KeepAssigned(items)) == KeepAssigned(items)
    decreases |items|
  {
    if items != [] {
      KeepAssignedIdempotent(items[1..]);
      var a := items[0];
      var head := if Assigned(a) then [Assignment(DictGet(a, "name"), DictGet(a, "task"))] else [];
      KeepAssignedConcat(head, KeepAssigned(items[1..]));
      if Assigned(a) {
        KeepAssignedSingle(DictGet(a, "name"), DictGet(a, "task"));
      }
    }
  }

  /** The team's dict: the kept assignments, and the process, `"sequential"` unless one is given. */
  function TeamAttrs(clean: seq<PyVal>, process: PyVal): seq<(string, PyVal)> {
    [("agents", PList(clean)), ("process", Or(process, PStr("sequential")))]
  }

  /** A team runs sequentially unless a process is given. */
  lemma TeamProcess(clean: seq<PyVal>, process: PyVal)
    ensures Lookup(TeamAttrs(clean, process), "agents") == Some(PList(clean))
    ensures Lookup(TeamAttrs(clean, process), "process") == Some(if Truthy(process) then process else PStr("sequential"))
  {
    LookupPair("agents", PList(clean), "process", Or(process, PStr("sequential")), "agents");
    LookupPair("agents", PList(clean), "process", Or(process, PStr("sequential")), "process");
  }

  /** `create_team(...)`: `None` when the agent list cannot be read. */
  method CreateTeam(teamName: string, agents: PyVal, process: PyVal, dbError: Option<string>) returns (r: Option<Outcome>)
    ensures r.Some? <==> TeamItems(agents).Some?
    ensures r.Some? ==> r.value.call == CreateCall(TeamObject, teamName, PDict(TeamAttrs(KeepAssigned(TeamItems(agents).value), process)))
    ensures r.Some? ==> (r.value.notice.Succeeded? <==> dbError.None?)
  {
    var items := TeamItems(agents);
    if items.None? {
      return None;
    }
    var clean := CleanTeamAgents(items.value);
    r := Some(Outcome(CreateCall(TeamObject, teamName, PDict(TeamAttrs(clean, process))), CreateNotice(TeamObject, teamName, dbError)));
  }
}
