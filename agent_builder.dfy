/**
 * The Agent Builder page: the attribute dictionaries of the tool, task, agent
 * and team nodes of a flow, the `DBMS_CLOUD_AI_AGENT` PL/SQL block generated
 * for each of them, the team derived from the flow's edges, and the deletion
 * of a node together with its edges.
 */
module AgentBuilder {
  import opened Wrappers
  import opened Strings
  import opened PyJson
  import opened PlsqlBlock

  // ---------------------------------------------------------------------
  // Attributes of each node type

  /** `data.get(k)`: `None` for a missing key. */
  function Field(data: Data, k: string): PyVal {
    Get(data, k, PNone)
  }

  /** The string `'CUSTOM'`. */
  const Custom: PyVal := PStr("CUSTOM")

  /** The tool type a tool node declares, `'SQL'` by default. */
  function ToolType(data: Data): PyVal {
    Get(data, "tool_type_attr", PStr("SQL"))
  }

  /** The profile a non-custom tool is bound to. */
  function ToolProfile(data: Data): PyVal {
    Or(Field(data, "tool_profile_name_attr"), Field(data, "profile_name_attr"))
  }

  /** `_build_tool_attributes(data)`. */
  function BuildToolAttributes(data: Data): seq<(string, PyVal)> {
    var toolType := ToolType(data);
    var attrs := With([("tool_type", toolType)], Truthy(Field(data, "instruction_attr")), "instruction", Field(data, "instruction_attr"));
    var attrs :=
      if toolType == Custom then With(attrs, Truthy(Field(data, "function_attr")), "function", Field(data, "function_attr"))
      else With(attrs, Truthy(ToolProfile(data)), "tool_params", PDict([("profile_name", ToolProfile(data))]));
    With(attrs, Truthy(Field(data, "description")), "description", Field(data, "description"))
  }

  /**
   * A tool's attributes: its type, its instruction when it has one, the
   * function of a custom tool or the profile of any other, and its
   * description when it has one; no key twice.
   */
  lemma ToolAttributes(data: Data)
    ensures var r := BuildToolAttributes(data);
      && Lookup(r, "tool_type") == Some(ToolType(data))
      && Lookup(r, "instruction") == IfThen(Truthy(Field(data, "instruction_attr")), Field(data, "instruction_attr"))
      && Lookup(r, "function") == IfThen(ToolType(data) == Custom && Truthy(Field(data, "function_attr")), Field(data, "function_attr"))
      && Lookup(r, "tool_params")
         == IfThen(ToolType(data) != Custom && Truthy(ToolProfile(data)), PDict([("profile_name", ToolProfile(data))]))
      && Lookup(r, "description") == IfThen(Truthy(Field(data, "description")), Field(data, "description"))
      && DistinctKeys(r)
  {
    var t := ToolType(data);
    var c1, v1 := Truthy(Field(data, "instruction_attr")), Field(data, "instruction_attr");
    var c3, v3 := Truthy(Field(data, "description")), Field(data, "description");
    ToolKeysDiffer();
    if t == Custom {
      Steps3("tool_type", t, c1, "instruction", v1, Truthy(Field(data, "function_attr")), "function", Field(data, "function_attr"),
             c3, "description", v3, "tool_params");
    } else {
      Steps3("tool_type", t, c1, "instruction", v1, Truthy(ToolProfile(data)), "tool_params", PDict([("profile_name", ToolProfile(data))]),
             c3, "description", v3, "function");
    }
  }

  /** The keys a tool's dict can hold differ from each other. */
  lemma ToolKeysDiffer()
    ensures var ks := ["tool_type", "instruction", "function", "tool_params", "description"];
      forall i, j :: 0 <= i < j < |ks| ==> ks[i] != ks[j]
  {
  }

  /** The trimmed, non-blank pieces, in order. */
  function KeepStripped(parts: seq<string>): (r: seq<string>)
    ensures |r| <= |parts|
    ensures forall i :: 0 <= i < |r| ==> r[i] != "" && r[i] == Strip(r[i])
  {
    if parts == [] then []
    else
      var rest := KeepStripped(parts[1..]);
      if Blank(parts[0]) then rest
      else
        StripCharsIdempotent(parts[0], Whitespace);
        [Strip(parts[0])] + rest
  }

  /** `str(t)` of each item. */
  function StrOfEach(xs: seq<PyVal>): (r: seq<string>)
    ensures |r| == |xs| && forall i :: 0 <= i < |r| ==> r[i] == StrOf(xs[i])
  {
    seq(|xs|, i requires 0 <= i < |xs| => StrOf(xs[i]))
  }

  /**
   * `_parse_generic_list(value)`: a comma-separated text or a list, trimmed,
   * blanks dropped, in order; anything else gives no names.
   */
  function ParseGenericList(value: PyVal): (r: seq<string>)
    ensures forall i :: 0 <= i < |r| ==> r[i] != "" && r[i] == Strip(r[i])
    ensures !value.PStr? && !value.PList? ==> r == []
  {
    match value
    case PStr(s) => KeepStripped(Split(s, ','))
    case PList(xs) => KeepStripped(StrOfEach(xs))
    case _ => []
  }

  /** Names that are already trimmed, non-blank and free of commas. */
  predicate CleanNames(names: seq<string>) {
    forall i :: 0 <= i < |names| ==> names[i] != "" && Strip(names[i]) == names[i] && ',' !in names[i]
  }

  /** Clean names keep everything. */
  lemma {:induction false} KeepStrippedClean(names: seq<string>)
    requires CleanNames(names)
    ensures KeepStripped(names) == names
  {
    if names != [] {
      var head, tail := names[0], names[1..];
      assert CleanNames(tail) by {
        forall i | 0 <= i < |tail| ensures tail[i] == names[i + 1] {}
      }
      KeepStrippedClean(tail);
      assert Strip(head) == head != "";
      assert names == [head] + tail;
    }
  }

  /** Writing clean names as a comma-separated text and parsing it gives back the names. */
  lemma ParseJoined(names: seq<string>)
    requires CleanNames(names)
    ensures ParseGenericList(PStr(Join(names, ","))) == names
  {
    if names == [] {
      assert Split("", ',') == [""];
      assert Blank("");
    } else {
      SplitJoin(names, ',');
      KeepStrippedClean(names);
    }
  }

  /** A list of clean names as strings parses to the same names. */
  lemma ParseListed(names: seq<string>)
    requires CleanNames(names)
    ensures ParseGenericList(PList(StrValues(names))) == names
  {
    var values := StrValues(names);
    assert forall i :: 0 <= i < |names| ==> StrOf(values[i]) == names[i];
    assert StrOfEach(values) == names;
    KeepStrippedClean(names);
  }

  /** Names as Python strings. */
  function StrValues(names: seq<string>): (r: seq<PyVal>)
    ensures |r| == |names| && forall i :: 0 <= i < |r| ==> r[i] == PStr(names[i])
  {
    seq(|names|, i requires 0 <= i < |names| => PStr(names[i]))
  }

  /** The `input` attribute: one input as itself, several as a list. */
  function InputValue(inputs: seq<string>): (r: PyVal)
    ensures |inputs| == 1 ==> r == PStr(inputs[0])
    ensures |inputs| > 1 ==> r == PList(StrValues(inputs))
  {
    if |inputs| == 1 then PStr(inputs[0]) else PList(StrValues(inputs))
  }

  /** `_build_task_attributes(data)`. */
  function BuildTaskAttributes(data: Data): seq<(string, PyVal)> {
    var tools := ParseGenericList(Field(data, "tools_attr"));
    var inputs := ParseGenericList(Field(data, "input_attr"));
    var attrs := With([("instruction", Get(data, "instruction_attr", PStr("")))], tools != [], "tools", PList(StrValues(tools)));
    var attrs := With(attrs, inputs != [], "input", InputValue(inputs));
    var attrs :=
      With(attrs, Field(data, "enable_human_tool") != PNone, "enable_human_tool", PStr(ToBoolLiteral(Field(data, "enable_human_tool"))));
    With(attrs, Truthy(Field(data, "description")), "description", Field(data, "description"))
  }

  /**
   * A task's attributes: its instruction (empty by default), its tools and
   * inputs when it names any, its human-tool flag as a boolean literal when
   * it sets one, and its description when it has one; no key twice.
   */
  lemma TaskAttributes(data: Data)
    ensures var r := BuildTaskAttributes(data);
      var tools := ParseGenericList(Field(data, "tools_attr"));
      var inputs := ParseGenericList(Field(data, "input_attr"));
      && Lookup(r, "instruction") == Some(Get(data, "instruction_attr", PStr("")))
      && Lookup(r, "tools") == IfThen(tools != [], PList(StrValues(tools)))
      && Lookup(r, "input") == IfThen(inputs != [], InputValue(inputs))
      && Lookup(r, "enable_human_tool")
         == IfThen(Field(data, "enable_human_tool") != PNone, PStr(ToBoolLiteral(Field(data, "enable_human_tool"))))
      && Lookup(r, "description") == IfThen(Truthy(Field(data, "description")), Field(data, "description"))
      && DistinctKeys(r)
  {
    var tools := ParseGenericList(Field(data, "tools_attr"));
    var inputs := ParseGenericList(Field(data, "input_attr"));
    TaskKeysDiffer();
    Steps4("instruction", Get(data, "instruction_attr", PStr("")),
           tools != [], "tools", PList(StrValues(tools)),
           inputs != [], "input", InputValue(inputs),
           Field(data, "enable_human_tool") != PNone, "enable_human_tool", PStr(ToBoolLiteral(Field(data, "enable_human_tool"))),
           Truthy(Field(data, "description")), "description", Field(data, "description"));
  }

  /** The keys a task's dict can hold differ from each other. */
  lemma TaskKeysDiffer()
    ensures var ks := ["instruction", "tools", "input", "enable_human_tool", "description"];
      forall i, j :: 0 <= i < j < |ks| ==> ks[i] != ks[j]
  {
  }

  /** The profile an agent runs with: its own, else the node's `profile`, else the user's. */
  function AgentProfile(data: Data, profileSql: string): PyVal {
    Or(Field(data, "profile_name_attr"), Get(data, "profile", PStr(profileSql)))
  }

  /** `_build_agent_attributes(data)`, `profileSql` being the user's SQL profile. */
  function BuildAgentAttributes(data: Data, profileSql: string): seq<(string, PyVal)> {
    var attrs := [("profile_name", AgentProfile(data, profileSql)), ("role", Get(data, "role_attr", PStr("")))];
    var attrs := DictSet(attrs, "enable_human_tool", PStr(ToBoolLiteral(Get(data, "enable_human_tool_attr", PStr("false")))));
    With(attrs, Truthy(Field(data, "description")), "description", Field(data, "description"))
  }

  /**
   * An agent's attributes: its profile, its role (empty by default), its
   * human-tool flag as a boolean literal, and its description when it has
   * one; the first three in that order, no key twice.
   */
  lemma AgentAttributes(data: Data, profileSql: string)
    ensures var r := BuildAgentAttributes(data, profileSql);
      && |r| >= 3
      && r[0] == ("profile_name", AgentProfile(data, profileSql))
      && r[1] == ("role", Get(data, "role_attr", PStr("")))
      && r[2] == ("enable_human_tool", PStr(ToBoolLiteral(Get(data, "enable_human_tool_attr", PStr("false")))))
      && Lookup(r, "description") == IfThen(Truthy(Field(data, "description")), Field(data, "description"))
      && DistinctKeys(r)
  {
    var p, role := AgentProfile(data, profileSql), Get(data, "role_attr", PStr(""));
    var v := PStr(ToBoolLiteral(Get(data, "enable_human_tool_attr", PStr("false"))));
    var c, d := Truthy(Field(data, "description")), Field(data, "description");
    AgentSteps(p, role, v, c, d);
  }

  /** The agent's dict, its values left open: three fixed keys, then an optional fresh description. */
  lemma AgentSteps(p: PyVal, role: PyVal, v: PyVal, c: bool, d: PyVal)
    ensures var a := DictSet([("profile_name", p), ("role", role)], "enable_human_tool", v);
      var r := With(a, c, "description", d);
      && a == [("profile_name", p), ("role", role), ("enable_human_tool", v)]
      && |r| >= 3 && r[..3] == a
      && Lookup(r, "description") == IfThen(c, d)
      && DistinctKeys(r)
  {
    var a := [("profile_name", p), ("role", role), ("enable_human_tool", v)];
    AgentFresh(p, role, v);
    LookupWith(a, c, "description", d, "description");
    WithDistinct(a, c, "description", d);
  }

  /** Setting the human-tool flag appends it, and the three keys leave room for a description. */
  lemma AgentFresh(p: PyVal, role: PyVal, v: PyVal)
    ensures var a := [("profile_name", p), ("role", role), ("enable_human_tool", v)];
      && DictSet([("profile_name", p), ("role", role)], "enable_human_tool", v) == a
      && DistinctKeys(a) && Lookup(a, "description") == None
  {
    AgentFlagFresh(p, role);
    AgentDistinct(p, role, v);
  }

  lemma AgentFlagFresh(p: PyVal, role: PyVal)
    ensures "enable_human_tool" !in Keys([("profile_name", p), ("role", role)])
  {
    assert Keys([("profile_name", p), ("role", role)]) == ["profile_name", "role"];
  }

  lemma AgentDistinct(p: PyVal, role: PyVal, v: PyVal)
    ensures var a := [("profile_name", p), ("role", role), ("enable_human_tool", v)];
      DistinctKeys(a) && "description" !in Keys(a)
  {
    var a := [("profile_name", p), ("role", role), ("enable_human_tool", v)];
    assert Keys(a) == ["profile_name", "role", "enable_human_tool"];
  }

  /** An agent without an `enable_human_tool_attr` is created with the human tool disabled. */
  lemma AgentHumanToolDefault(data: Data, profileSql: string)
    requires "enable_human_tool_attr" !in data
    ensures var r := BuildAgentAttributes(data, profileSql);
      |r| >= 3 && r[2] == ("enable_human_tool", PStr("False"))
  {
    AgentAttributes(data, profileSql);
    FlagDefault();
  }


  // ---------------------------------------------------------------------
  // Teams

  /** `a.get(k)` on a dict value. */
  function DictGet(a: PyVal, k: string): PyVal {
    if a.PDict? then Lookup(a.entries, k).GetOr(PNone) else PNone
  }

  /** `{"name": name, "task": task}`. */
  function Assignment(name: PyVal, task: PyVal): PyVal {
    PDict([("name", name), ("task", task)])
  }

  /** A dict with a truthy name and a truthy task. */
  predicate Assigned(a: PyVal) {
    a.PDict? && Truthy(DictGet(a, "name")) && Truthy(DictGet(a, "task"))
  }

  lemma AssignmentFields(name: PyVal, task: PyVal)
    ensures DictGet(Assignment(name, task), "name") == name
    ensures DictGet(Assignment(name, task), "task") == task
  {
    NameIsNotTask();
    LookupPair("name", name, "task", task, "name");
    LookupPair("name", name, "task", task, "task");
  }

  lemma NameIsNotTask()
    ensures "name" != "task"
  {
    assert "name"[0] != "task"[0];
  }

  /** The pieces `part` gives for each element, joined in order. */
  function Collected<T>(part: T -> seq<PyVal>, xs: seq<T>): seq<PyVal>
    decreases |xs|
  {
    if xs == [] then [] else Collected(part, xs[..|xs| - 1]) + part(xs[|xs| - 1])
  }

  /** A value is in the joined pieces exactly when it is in the piece of some element. */
  lemma {:induction false} CollectedMembers<T>(part: T -> seq<PyVal>, xs: seq<T>, a: PyVal)
    ensures a in Collected(part, xs) <==> exists i :: 0 <= i < |xs| && a in part(xs[i])
    decreases |xs|
  {
    if xs != [] {
      var init := xs[..|xs| - 1];
      CollectedMembers(part, init, a);
      assert Collected(part, xs) == Collected(part, init) + part(xs[|xs| - 1]);
      assert forall i :: 0 <= i < |init| ==> init[i] == xs[i];
    }
  }

  /** The entries of the team's `agents` list: assigned dicts, rebuilt with just their name and task. */
  function KeepAssigned(agents: seq<PyVal>): (r: seq<PyVal>)
    ensures |r| <= |agents|
  {
    if agents == [] then []
    else
      (if Assigned(agents[0]) then [Assignment(DictGet(agents[0], "name"), DictGet(agents[0], "task"))] else [])
      + KeepAssigned(agents[1..])
  }

  /** `_build_team_attributes(agents)`: the assigned agents, run one after the other. */
  function BuildTeamAttributes(agents: seq<PyVal>): (r: seq<(string, PyVal)>)
    ensures Lookup(r, "process") == Some(PStr("sequential"))
    ensures Lookup(r, "agents") == Some(PList(KeepAssigned(agents)))
  {
    [("agents", PList(KeepAssigned(agents))), ("process", PStr("sequential"))]
  }

  /** The entry names an agent and a task: a dict by `agent` or `name` and by `task`, a list by its first two items. */
  predicate NamesAgentAndTask(entry: PyVal) {
    || (entry.PDict? && Truthy(Or(DictGet(entry, "agent"), DictGet(entry, "name"))) && Truthy(DictGet(entry, "task")))
    || (entry.PList? && |entry.items| >= 2 && Truthy(entry.items[0]) && Truthy(entry.items[1]))
  }

  /** One entry of a team's assignments, normalised: nothing unless it names both an agent and a task. */
  function EntryAgent(entry: PyVal): (r: seq<PyVal>)
    ensures |r| <= 1
    ensures r != [] ==> Assigned(r[0])
    ensures r != [] <==> NamesAgentAndTask(entry)
    ensures NamesAgentAndTask(entry) && entry.PDict? ==>
      r == [Assignment(Or(DictGet(entry, "agent"), DictGet(entry, "name")), DictGet(entry, "task"))]
    ensures NamesAgentAndTask(entry) && entry.PList? ==> r == [Assignment(entry.items[0], entry.items[1])]
  {
    if entry.PDict? then
      var name := Or(DictGet(entry, "agent"), DictGet(entry, "name"));
      var task := DictGet(entry, "task");
      AssignmentFields(name, task);
      if Truthy(name) && Truthy(task) then [Assignment(name, task)] else []
    else if entry.PList? && |entry.items| >= 2 then
      var name := entry.items[0];
      var task := entry.items[1];
      AssignmentFields(name, task);
      if Truthy(name) && Truthy(task) then [Assignment(name, task)] else []
    else []
  }

  /** The normalised assignments of a list of entries, in order. */
  function EntryAgents(entries: seq<PyVal>): (r: seq<PyVal>)
    ensures |r| <= |entries|
    ensures forall i :: 0 <= i < |r| ==> Assigned(r[i])
    decreases |entries|
  {
    if entries == [] then []
    else EntryAgents(entries[..|entries| - 1]) + EntryAgent(entries[|entries| - 1])
  }

  /**
   * What `_normalize_team_agents` iterates over: the parsed JSON text, or the
   * value itself, when it is a list; `loads` is `json.loads`, `None` when
   * it raises.
   */
  function TeamEntries(raw: PyVal, loads: string -> Option<PyVal>): seq<PyVal> {
    if !Truthy(raw) then []
    else
      var parsed := if raw.PStr? then loads(raw.s).GetOr(PList([])) else raw;
      if parsed.PList? then parsed.items else []
  }

  /** `_normalize_team_agents(raw)`: the entries that name both an agent and a task, in order. */
  function TeamAgents(raw: PyVal, loads: string -> Option<PyVal>): (r: seq<PyVal>)
    ensures forall i :: 0 <= i < |r| ==> Assigned(r[i])
    ensures raw.PStr? && loads(raw.s).None? ==> r == []
  {
    EntryAgents(TeamEntries(raw, loads))
  }

  /** `_normalize_team_agents(raw)`, the loop that appends each normalised entry. */
  method NormalizeTeamAgents(raw: PyVal, loads: string -> Option<PyVal>) returns (items: seq<PyVal>)
    ensures items == TeamAgents(raw, loads)
  {
    items := [];
    var entries := TeamEntries(raw, loads);
    var i := 0;
    while i < |entries|
      invariant 0 <= i <= |entries|
      invariant items == EntryAgents(entries[..i])
    {
      EntryAgentsSnoc(entries, i);
      items := items + EntryAgent(entries[i]);
      i := i + 1;
    }
    assert entries[..i] == entries;
  }

  /** One more entry adds its normalised assignment. */
  lemma EntryAgentsSnoc(entries: seq<PyVal>, i: nat)
    requires i < |entries|
    ensures EntryAgents(entries[..i + 1]) == EntryAgents(entries[..i]) + EntryAgent(entries[i])
  {
    assert entries[..i + 1][..i] == entries[..i];
  }

  /** Keeping the assigned dicts works piece by piece. */
  lemma {:induction false} KeepAssignedConcat(a: seq<PyVal>, b: seq<PyVal>)
    ensures KeepAssigned(a + b) == KeepAssigned(a) + KeepAssigned(b)
  {
    if a == [] {
      assert a + b == b;
    } else {
      KeepAssignedConcat(a[1..], b);
      assert (a + b)[0] == a[0] && (a + b)[1..] == a[1..] + b;
      var h := if Assigned(a[0]) then [Assignment(DictGet(a[0], "name"), DictGet(a[0], "task"))] else [];
      ConcatAssoc(h, KeepAssigned(a[1..]), KeepAssigned(b));
    }
  }

  /** Normalised assignments pass the team's filter unchanged. */
  lemma {:induction false} KeepAssignedNormalized(entries: seq<PyVal>)
    ensures KeepAssigned(EntryAgents(entries)) == EntryAgents(entries)
    decreases |entries|
  {
    if entries != [] {
      var init := entries[..|entries| - 1];
      KeepAssignedNormalized(init);
      KeepAssignedConcat(EntryAgents(init), EntryAgent(entries[|entries| - 1]));
      KeepAssignedEntry(entries[|entries| - 1]);
    }
  }

  /** One normalised entry passes the team's filter unchanged. */
  lemma KeepAssignedEntry(entry: PyVal)
    ensures KeepAssigned(EntryAgent(entry)) == EntryAgent(entry)
  {
    var r := EntryAgent(entry);
    if entry.PDict? {
      var name := Or(DictGet(entry, "agent"), DictGet(entry, "name"));
      var task := DictGet(entry, "task");
      if Truthy(name) && Truthy(task) {
        KeepAssignedSingle(name, task);
      }
    } else if entry.PList? && |entry.items| >= 2 {
      var name := entry.items[0];
      var task := entry.items[1];
      if Truthy(name) && Truthy(task) {
        KeepAssignedSingle(name, task);
      }
    }
  }

  /** An assignment with a truthy name and task is kept as it is. */
  lemma KeepAssignedSingle(name: PyVal, task: PyVal)
    requires Truthy(name) && Truthy(task)
    ensures KeepAssigned([Assignment(name, task)]) == [Assignment(name, task)]
  {
    var a := Assignment(name, task);
    AssignmentFields(name, task);
    assert [a][1..] == [];
  }

  /** The team built from normalised assignments lists every one of them. */
  lemma TeamKeepsNormalized(raw: PyVal, loads: string -> Option<PyVal>)
    ensures Lookup(BuildTeamAttributes(TeamAgents(raw, loads)), "agents") == Some(PList(TeamAgents(raw, loads)))
  {
    KeepAssignedNormalized(TeamEntries(raw, loads));
  }

  /** An assignment is among the normalised ones exactly when some entry normalises to it. */
  lemma EntryAgentsMembers(entries: seq<PyVal>, a: PyVal)
    ensures a in EntryAgents(entries) <==> exists i :: 0 <= i < |entries| && EntryAgent(entries[i]) == [a]
  {
    EntryAgentsCollected(entries);
    CollectedMembers(EntryAgent, entries, a);
    forall i | 0 <= i < |entries| ensures a in EntryAgent(entries[i]) <==> EntryAgent(entries[i]) == [a] {
    }
  }

  /** The normalised assignments are the entries' pieces joined. */
  lemma {:induction false} EntryAgentsCollected(entries: seq<PyVal>)
    ensures EntryAgents(entries) == Collected(EntryAgent, entries)
    decreases |entries|
  {
    if entries != [] {
      EntryAgentsCollected(entries[..|entries| - 1]);
    }
  }

  /** Normalising works piece by piece, so the assignments keep the entries' order. */
  lemma {:induction false} EntryAgentsConcat(a: seq<PyVal>, b: seq<PyVal>)
    ensures EntryAgents(a + b) == EntryAgents(a) + EntryAgents(b)
    decreases |b|
  {
    if b == [] {
      assert a + b == a;
    } else {
      var b' := b[..|b| - 1];
      EntryAgentsConcat(a, b');
      assert (a + b)[..|a + b| - 1] == a + b' && (a + b)[|a + b| - 1] == b[|b| - 1];
      ConcatAssoc(EntryAgents(a), EntryAgents(b'), EntryAgent(b[|b| - 1]));
    }
  }

  /**
   * `_normalize_team_agents` keeps exactly the assignments its entries
   * normalise to: an entry naming an agent and a task is kept, any other
   * is dropped.
   */
  lemma TeamAgentsExact(raw: PyVal, loads: string -> Option<PyVal>, a: PyVal)
    ensures a in TeamAgents(raw, loads) <==> exists e :: e in TeamEntries(raw, loads) && EntryAgent(e) == [a]
  {
    var entries := TeamEntries(raw, loads);
    EntryAgentsMembers(entries, a);
    if exists e :: e in entries && EntryAgent(e) == [a] {
      var e :| e in entries && EntryAgent(e) == [a];
      var i :| 0 <= i < |entries| && entries[i] == e;
    }
  }

  /** Every entry that names an agent and a task reaches the team's agents as its assignment. */
  lemma TeamAgentsKeeps(raw: PyVal, loads: string -> Option<PyVal>, e: PyVal)
    requires e in TeamEntries(raw, loads) && NamesAgentAndTask(e)
    ensures EntryAgent(e)[0] in TeamAgents(raw, loads)
  {
    TeamAgentsExact(raw, loads, EntryAgent(e)[0]);
  }

  /** The team's filter keeps exactly the rebuilt assigned dicts. */
  lemma {:induction false} KeepAssignedMembers(xs: seq<PyVal>, a: PyVal)
    ensures a in KeepAssigned(xs) <==>
      exists i :: 0 <= i < |xs| && Assigned(xs[i]) && a == Assignment(DictGet(xs[i], "name"), DictGet(xs[i], "task"))
  {
    if xs != [] {
      KeepAssignedMembers(xs[1..], a);
      if exists i :: 0 <= i < |xs[1..]| && Assigned(xs[1..][i]) && a == Assignment(DictGet(xs[1..][i], "name"), DictGet(xs[1..][i], "task")) {
        var i :| 0 <= i < |xs[1..]| && Assigned(xs[1..][i]) && a == Assignment(DictGet(xs[1..][i], "name"), DictGet(xs[1..][i], "task"));
        assert xs[i + 1] == xs[1..][i];
      }
      forall i | 1 <= i < |xs| && Assigned(xs[i]) && a == Assignment(DictGet(xs[i], "name"), DictGet(xs[i], "task"))
        ensures a in KeepAssigned(xs[1..])
      {
        assert xs[1..][i - 1] == xs[i];
      }
    }
  }

  // ---------------------------------------------------------------------
  // `generate_object_scripts`

  datatype Node = Node(id: string, data: Data)
  datatype Edge = Edge(source: string, target: string)
  /** One generated script and its heading. */
  datatype Script = Script(heading: string, script: string)

  /** The node's type, upper-cased. */
  function NodeType(data: Data): string {
    Upper(StrOf(Get(data, "type", PStr(""))))
  }

  /** The node's object name: its own name key, or `name`. */
  function NameOf(data: Data, key: string): PyVal {
    Or(Field(data, key), Field(data, "name"))
  }

  /** The raw team assignments of a team node. */
  function TeamRaw(data: Data): PyVal {
    Or(Field(data, "team_assignments"), Field(data, "agents_attr"))
  }

  /** A heading and its script, unless the script is empty. */
  function Labelled(prefix: string, name: PyVal, script: string): (r: seq<Script>)
    ensures |r| <= 1 && (r != [] <==> script != "")
  {
    if script == "" then [] else [Script(prefix + StrOf(name), script)]
  }

  /** A team node that produces its own TEAM script. */
  predicate ExplicitTeam(n: Node, loads: string -> Option<PyVal>) {
    NodeType(n.data) == "TEAM" && Truthy(NameOf(n.data, "team_name")) && TeamAgents(TeamRaw(n.data), loads) != []
  }

  /** The script a node contributes, if any. */
  function NodeScript(n: Node, profileSql: string, loads: string -> Option<PyVal>): (r: seq<Script>)
    ensures |r| <= 1
    ensures NodeType(n.data) == "TEAM" ==> (r != [] <==> ExplicitTeam(n, loads))
  {
    var d := n.data;
    var t := NodeType(d);
    if t == "TOOL" then
      Labelled("CREATE TOOL · ", NameOf(d, "tool_name"), BuildDbmsBlock("TOOL", NameOf(d, "tool_name"), BuildToolAttributes(d)))
    else if t == "TASK" then
      Labelled("CREATE TASK · ", NameOf(d, "task_name"), BuildDbmsBlock("TASK", NameOf(d, "task_name"), BuildTaskAttributes(d)))
    else if t == "AGENT" then
      Labelled("CREATE AGENT · ", NameOf(d, "agent_name"),
               BuildDbmsBlock("AGENT", NameOf(d, "agent_name"), BuildAgentAttributes(d, profileSql)))
    else if t == "TEAM" then
      var name := NameOf(d, "team_name");
      var agents := TeamAgents(TeamRaw(d), loads);
      if Truthy(name) && agents != [] then
        assert Upper("TEAM") == "TEAM";
        Labelled("CREATE TEAM · ", name, BuildDbmsBlock("TEAM", name, BuildTeamAttributes(agents)))
      else []
    else []
  }

  /** The scripts of the nodes, in node order. */
  function NodeScripts(nodes: seq<Node>, profileSql: string, loads: string -> Option<PyVal>): (r: seq<Script>)
    ensures |r| <= |nodes|
    decreases |nodes|
  {
    if nodes == [] then []
    else NodeScripts(nodes[..|nodes| - 1], profileSql, loads) + NodeScript(nodes[|nodes| - 1], profileSql, loads)
  }

  /** Some node produced a TEAM script. */
  predicate AnyExplicitTeam(nodes: seq<Node>, loads: string -> Option<PyVal>)
    decreases |nodes|
  {
    nodes != [] && (AnyExplicitTeam(nodes[..|nodes| - 1], loads) || ExplicitTeam(nodes[|nodes| - 1], loads))
  }

  /** `{n.id: n for n in nodes}[id]`: the last node with that id. */
  function NodeById(nodes: seq<Node>, id: string): (r: Option<Node>)
    ensures r.Some? ==> r.value in nodes && r.value.id == id
    ensures r.None? <==> forall i :: 0 <= i < |nodes| ==> nodes[i].id != id
    decreases |nodes|
  {
    if nodes == [] then None
    else if nodes[|nodes| - 1].id == id then Some(nodes[|nodes| - 1])
    else NodeById(nodes[..|nodes| - 1], id)
  }

  /** An edge from an agent node to a task node: the assignment it stands for, if both ends exist. */
  function EdgeAgent(nodes: seq<Node>, e: Edge): (r: seq<PyVal>)
    ensures |r| <= 1
    ensures r != [] <==> AgentToTask(nodes, e)
    ensures AgentToTask(nodes, e) ==>
      r == [Assignment(NameOf(NodeById(nodes, e.source).value.data, "agent_name"),
                       NameOf(NodeById(nodes, e.target).value.data, "task_name"))]
  {
    match (NodeById(nodes, e.source), NodeById(nodes, e.target))
    case (Some(s), Some(t)) =>
      if NodeType(s.data) == "AGENT" && NodeType(t.data) == "TASK" then
        [Assignment(NameOf(s.data, "agent_name"), NameOf(t.data, "task_name"))]
      else []
    case _ => []
  }

  /** Both ends of the edge exist, the source an agent node and the target a task node. */
  predicate AgentToTask(nodes: seq<Node>, e: Edge) {
    && NodeById(nodes, e.source).Some? && NodeById(nodes, e.target).Some?
    && NodeType(NodeById(nodes, e.source).value.data) == "AGENT"
    && NodeType(NodeById(nodes, e.target).value.data) == "TASK"
  }

  /** The assignments of the edges, in edge order. */
  function EdgeAgents(nodes: seq<Node>, edges: seq<Edge>): (r: seq<PyVal>)
    ensures |r| <= |edges|
    decreases |edges|
  {
    if edges == [] then []
    else EdgeAgents(nodes, edges[..|edges| - 1]) + EdgeAgent(nodes, edges[|edges| - 1])
  }

  /** An assignment with a truthy name and task. */
  predicate Clean(a: PyVal) {
    Truthy(DictGet(a, "name")) && Truthy(DictGet(a, "task"))
  }

  /** `[a for a in agents_map if a.get('name') and a.get('task')]`. */
  function CleanAgents(agents: seq<PyVal>): (r: seq<PyVal>)
    ensures |r| <= |agents|
    ensures forall i :: 0 <= i < |r| ==> r[i] in agents && Truthy(DictGet(r[i], "name")) && Truthy(DictGet(r[i], "task"))
  {
    if agents == [] then []
    else
      (if Clean(agents[0]) then [agents[0]] else [])
      + CleanAgents(agents[1..])
  }

  /** The name of the team built from the flow's edges. */
  const FlowTeam: string := "TEAM_STREAMLIT_FLOW"

  /** The team script derived from the edges, if there is one. */
  function FlowTeamScript(nodes: seq<Node>, edges: seq<Edge>, loads: string -> Option<PyVal>): (r: seq<Script>)
    ensures |r| <= 1
  {
    var clean := CleanAgents(EdgeAgents(nodes, edges));
    if clean != [] && !AnyExplicitTeam(nodes, loads) then
      [Script("TEAM · " + FlowTeam, BuildDbmsBlock("TEAM", PStr(FlowTeam), BuildTeamAttributes(clean)))]
    else []
  }

  /** `generate_object_scripts(flow_state)`: the node scripts in order, then the edge-derived team. */
  function ObjectScripts(nodes: seq<Node>, edges: seq<Edge>, profileSql: string, loads: string -> Option<PyVal>): seq<Script> {
    NodeScripts(nodes, profileSql, loads) + FlowTeamScript(nodes, edges, loads)
  }

  /**
   * `generate_object_scripts`: the loop over the nodes, which records whether
   * a TEAM script was made, the loop over the edges, then the edge team.
   */
  method GenerateObjectScripts(nodes: seq<Node>, edges: seq<Edge>, profileSql: string, loads: string -> Option<PyVal>)
    returns (scripts: seq<Script>)
    ensures scripts == ObjectScripts(nodes, edges, profileSql, loads)
  {
    var teamCreated;
    scripts, teamCreated := ScriptNodes(nodes, profileSql, loads);
    var agentsMap := AgentsFromEdges(nodes, edges);
    var clean := CleanAgents(agentsMap);
    if clean != [] && !teamCreated {
      scripts := scripts + [Script("TEAM · " + FlowTeam, BuildDbmsBlock("TEAM", PStr(FlowTeam), BuildTeamAttributes(clean)))];
    }
  }

  /** The loop over the nodes: each node's script, and whether one of them was a TEAM script. */
  method ScriptNodes(nodes: seq<Node>, profileSql: string, loads: string -> Option<PyVal>)
    returns (scripts: seq<Script>, teamCreated: bool)
    ensures scripts == NodeScripts(nodes, profileSql, loads)
    ensures teamCreated <==> AnyExplicitTeam(nodes, loads)
  {
    scripts := [];
    teamCreated := false;
    var i := 0;
    while i < |nodes|
      invariant 0 <= i <= |nodes|
      invariant scripts == NodeScripts(nodes[..i], profileSql, loads)
      invariant teamCreated <==> AnyExplicitTeam(nodes[..i], loads)
    {
      var made := NodeScript(nodes[i], profileSql, loads);
      var isTeam := NodeType(nodes[i].data) == "TEAM";
      NodeStep(nodes, i, profileSql, loads, scripts, teamCreated, made, isTeam);
      scripts := scripts + made;
      if isTeam && made != [] {
        teamCreated := true;
      }
      i := i + 1;
    }
    assert nodes[..i] == nodes;
  }

  /** The loop over the edges: the assignment each agent-to-task edge stands for. */
  method AgentsFromEdges(nodes: seq<Node>, edges: seq<Edge>) returns (agentsMap: seq<PyVal>)
    ensures agentsMap == EdgeAgents(nodes, edges)
  {
    agentsMap := [];
    var j := 0;
    while j < |edges|
      invariant 0 <= j <= |edges|
      invariant agentsMap == EdgeAgents(nodes, edges[..j])
    {
      assert edges[..j + 1][..j] == edges[..j];
      agentsMap := agentsMap + EdgeAgent(nodes, edges[j]);
      j := j + 1;
    }
    assert edges[..j] == edges;
  }

  /** The node loop's invariant carries over one node. */
  lemma NodeStep(nodes: seq<Node>, i: nat, profileSql: string, loads: string -> Option<PyVal>,
                 scripts: seq<Script>, teamCreated: bool, made: seq<Script>, isTeam: bool)
    requires i < |nodes|
    requires scripts == NodeScripts(nodes[..i], profileSql, loads)
    requires teamCreated <==> AnyExplicitTeam(nodes[..i], loads)
    requires made == NodeScript(nodes[i], profileSql, loads) && isTeam == (NodeType(nodes[i].data) == "TEAM")
    ensures scripts + made == NodeScripts(nodes[..i + 1], profileSql, loads)
    ensures (teamCreated || (isTeam && made != [])) <==> AnyExplicitTeam(nodes[..i + 1], loads)
  {
    NodeScriptsSnoc(nodes, i, profileSql, loads);
    AnyExplicitSnoc(nodes, i, loads);
  }

  /** One more node adds its script. */
  lemma NodeScriptsSnoc(nodes: seq<Node>, i: nat, profileSql: string, loads: string -> Option<PyVal>)
    requires i < |nodes|
    ensures NodeScripts(nodes[..i + 1], profileSql, loads) == NodeScripts(nodes[..i], profileSql, loads) + NodeScript(nodes[i], profileSql, loads)
  {
    assert nodes[..i + 1][..i] == nodes[..i];
  }

  /** One more node is an explicit team, or the explicit teams are those before it. */
  lemma AnyExplicitSnoc(nodes: seq<Node>, i: nat, loads: string -> Option<PyVal>)
    requires i < |nodes|
    ensures AnyExplicitTeam(nodes[..i + 1], loads) <==> AnyExplicitTeam(nodes[..i], loads) || ExplicitTeam(nodes[i], loads)
  {
    assert nodes[..i + 1][..i] == nodes[..i];
  }

  /**
   * The edge-derived team appears exactly when some agent-to-task edge names
   * both and no node made its own TEAM script, and its block is never empty.
   */
  lemma FlowTeamWhenNoExplicit(nodes: seq<Node>, edges: seq<Edge>, loads: string -> Option<PyVal>)
    ensures var r := FlowTeamScript(nodes, edges, loads);
      && (r != [] <==> CleanAgents(EdgeAgents(nodes, edges)) != [] && !AnyExplicitTeam(nodes, loads))
      && (r != [] ==> r[0].script != "")
  {
    assert Truthy(PStr(FlowTeam));
    assert Upper("TEAM") == "TEAM";
  }

  /**
   * Every edge assignment comes from an edge whose two ends exist, from an
   * agent node to a task node; an edge with a missing end adds nothing.
   */
  lemma {:induction false} EdgeAgentsFromEdges(nodes: seq<Node>, edges: seq<Edge>, a: PyVal)
    requires a in EdgeAgents(nodes, edges)
    ensures exists j :: 0 <= j < |edges| && EdgeAgent(nodes, edges[j]) == [a]
    decreases |edges|
  {
    var init := edges[..|edges| - 1];
    var last := EdgeAgent(nodes, edges[|edges| - 1]);
    assert EdgeAgents(nodes, edges) == EdgeAgents(nodes, init) + last;
    if a in EdgeAgents(nodes, init) {
      EdgeAgentsFromEdges(nodes, init, a);
      var j :| 0 <= j < |init| && EdgeAgent(nodes, init[j]) == [a];
      assert edges[j] == init[j];
    } else {
      assert last == [a] by {
        assert a in last && |last| <= 1;
      }
    }
  }

  /** The edge assignments are exactly those of the agent-to-task edges. */
  lemma {:induction false} EdgeAgentsMembers(nodes: seq<Node>, edges: seq<Edge>, a: PyVal)
    ensures a in EdgeAgents(nodes, edges) <==> exists j :: 0 <= j < |edges| && EdgeAgent(nodes, edges[j]) == [a]
    decreases |edges|
  {
    EdgeAgentsCollected(nodes, edges);
    CollectedMembers((x: Edge) => EdgeAgent(nodes, x), edges, a);
    forall j | 0 <= j < |edges| ensures a in EdgeAgent(nodes, edges[j]) <==> EdgeAgent(nodes, edges[j]) == [a] {
    }
  }

  /** The edge assignments are the edges' pieces joined. */
  lemma {:induction false} EdgeAgentsCollected(nodes: seq<Node>, edges: seq<Edge>)
    ensures EdgeAgents(nodes, edges) == Collected((x: Edge) => EdgeAgent(nodes, x), edges)
    decreases |edges|
  {
    if edges != [] {
      EdgeAgentsCollected(nodes, edges[..|edges| - 1]);
    }
  }

  /** The edge assignments follow the edges' order. */
  lemma {:induction false} EdgeAgentsConcat(nodes: seq<Node>, a: seq<Edge>, b: seq<Edge>)
    ensures EdgeAgents(nodes, a + b) == EdgeAgents(nodes, a) + EdgeAgents(nodes, b)
    decreases |b|
  {
    if b == [] {
      assert a + b == a;
    } else {
      var b' := b[..|b| - 1];
      EdgeAgentsConcat(nodes, a, b');
      assert (a + b)[..|a + b| - 1] == a + b' && (a + b)[|a + b| - 1] == b[|b| - 1];
      ConcatAssoc(EdgeAgents(nodes, a), EdgeAgents(nodes, b'), EdgeAgent(nodes, b[|b| - 1]));
    }
  }

  /** The list comprehension keeps exactly the clean assignments. */
  lemma {:induction false} CleanAgentsMembers(xs: seq<PyVal>, a: PyVal)
    ensures a in CleanAgents(xs) <==> a in xs && Clean(a)
  {
    if xs != [] {
      CleanAgentsMembers(xs[1..], a);
      assert a in xs <==> a == xs[0] || a in xs[1..];
    }
  }

  /** The comprehension keeps the order: it works piece by piece. */
  lemma {:induction false} CleanAgentsConcat(a: seq<PyVal>, b: seq<PyVal>)
    ensures CleanAgents(a + b) == CleanAgents(a) + CleanAgents(b)
  {
    if a == [] {
      assert a + b == b;
    } else {
      CleanAgentsConcat(a[1..], b);
      assert (a + b)[0] == a[0] && (a + b)[1..] == a[1..] + b;
      var h := if Clean(a[0]) then [a[0]] else [];
      ConcatAssoc(h, CleanAgents(a[1..]), CleanAgents(b));
    }
  }

  /**
   * The edge-derived team appears exactly when no node made its own TEAM
   * script and some agent-to-task edge gives an assignment whose agent name
   * and task name are both truthy.
   */
  lemma FlowTeamExact(nodes: seq<Node>, edges: seq<Edge>, loads: string -> Option<PyVal>)
    ensures FlowTeamScript(nodes, edges, loads) != [] <==>
      !AnyExplicitTeam(nodes, loads) && exists j :: 0 <= j < |edges| && CleanEdge(nodes, edges[j])
  {
    FlowTeamWhenNoExplicit(nodes, edges, loads);
    var agents := EdgeAgents(nodes, edges);
    var clean := CleanAgents(agents);
    if clean != [] {
      var a := clean[0];
      CleanAgentsMembers(agents, a);
      EdgeAgentsMembers(nodes, edges, a);
      var j :| 0 <= j < |edges| && EdgeAgent(nodes, edges[j]) == [a];
      assert CleanEdge(nodes, edges[j]);
    }
    if exists j :: 0 <= j < |edges| && CleanEdge(nodes, edges[j]) {
      var j :| 0 <= j < |edges| && CleanEdge(nodes, edges[j]);
      var a := EdgeAgent(nodes, edges[j])[0];
      assert EdgeAgent(nodes, edges[j]) == [a];
      EdgeAgentsMembers(nodes, edges, a);
      CleanAgentsMembers(agents, a);
    }
  }

  /** An agent-to-task edge whose assignment is clean. */
  predicate CleanEdge(nodes: seq<Node>, e: Edge) {
    EdgeAgent(nodes, e) != [] && Clean(EdgeAgent(nodes, e)[0])
  }

  // ---------------------------------------------------------------------
  // The flow's nodes and edges in the session

  /** The nodes other than `id`, in order. */
  function WithoutNode(nodes: seq<Node>, id: string): (r: seq<Node>)
    ensures |r| <= |nodes|
    ensures forall n :: n in r <==> n in nodes && n.id != id
  {
    if nodes == [] then []
    else (if nodes[0].id != id then [nodes[0]] else []) + WithoutNode(nodes[1..], id)
  }

  /** The edges that neither start nor end at `id`, in order. */
  function WithoutEdgesOf(edges: seq<Edge>, id: string): (r: seq<Edge>)
    ensures |r| <= |edges|
    ensures forall e :: e in r <==> e in edges && e.source != id && e.target != id
  {
    if edges == [] then []
    else (if edges[0].source != id && edges[0].target != id then [edges[0]] else []) + WithoutEdgesOf(edges[1..], id)
  }

  /** Deleting a node that is already gone changes nothing. */
  lemma {:induction false} WithoutNodeIdempotent(nodes: seq<Node>, id: string)
    ensures WithoutNode(WithoutNode(nodes, id), id) == WithoutNode(nodes, id)
  {
    if nodes != [] {
      WithoutNodeIdempotent(nodes[1..], id);
      var rest := WithoutNode(nodes[1..], id);
      if nodes[0].id != id {
        var kept := [nodes[0]] + rest;
        assert WithoutNode(nodes, id) == kept;
        assert kept[0] == nodes[0] && kept[1..] == rest;
        assert WithoutNode(kept, id) == [nodes[0]] + WithoutNode(rest, id);
      } else {
        assert WithoutNode(nodes, id) == [] + rest;
        assert [] + rest == rest;
      }
    }
  }

  /** The flow state of the page (`st.session_state['ai-agent']`). */
  class FlowState {
    var nodes: seq<Node>
    var edges: seq<Edge>
    var selectedId: Option<string>

    constructor ()
      ensures nodes == [] && edges == [] && selectedId == None
    {
      nodes := [];
      edges := [];
      selectedId := None;
    }

    /**
     * A dialog's Delete button: with a node selected, it goes, with every
     * edge that starts or ends at it, and the selection is cleared.
     */
    method DeleteSelected()
      modifies this
      ensures old(selectedId).Some? && old(selectedId).value != "" ==>
        && nodes == WithoutNode(old(nodes), old(selectedId).value)
        && edges == WithoutEdgesOf(old(edges), old(selectedId).value)
        && selectedId == None
      ensures !(old(selectedId).Some? && old(selectedId).value != "") ==>
        nodes == old(nodes) && edges == old(edges) && selectedId == old(selectedId)
    {
      if selectedId.Some? && selectedId.value != "" {
        var id := selectedId.value;
        nodes := WithoutNode(nodes, id);
        edges := WithoutEdgesOf(edges, id);
        selectedId := None;
      }
    }
  }
}
