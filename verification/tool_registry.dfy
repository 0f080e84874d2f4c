/** The tool registry: tools by name, last registration winning, with the
    names listed in first-registration order as a Python dict keeps them. */
module ToolRegistry {
  import opened Wrappers
  import opened Seqs
  import opened Errors
  import Tools

  /** A tool instance: its kind and the identity of the repository object it
      was constructed with. */
  datatype Tool = Tool(kind: Tools.ToolKind, repository: nat)

  /** `tool.name`. */
  function ToolName(t: Tool): string {
    Tools.Name(t.kind)
  }

  datatype Registry = Registry(order: seq<string>, tools: map<string, Tool>)

  ghost predicate Valid(reg: Registry) {
    && NoDuplicates(reg.order)
    && (forall n :: n in reg.order <==> n in reg.tools)
    && (forall n :: n in reg.tools ==> ToolName(reg.tools[n]) == n)
  }

  /** A new, empty registry. */
  function Empty(): (reg: Registry)
    ensures Valid(reg) && reg.tools == map[]
  {
    Registry([], map[])
  }

  /** `register`: the tool is stored under its name, replacing any tool of
      the same name; a new name goes to the end of the listing. */
  function Register(reg: Registry, t: Tool): (r: Registry)
    requires Valid(reg)
    ensures Valid(r)
    ensures r.tools == reg.tools[ToolName(t) := t]
    ensures ToolName(t) in reg.tools ==> r.order == reg.order
    ensures ToolName(t) !in reg.tools ==> r.order == reg.order + [ToolName(t)]
  {
    var n := ToolName(t);
    if n in reg.tools then Registry(reg.order, reg.tools[n := t])
    else
      AppendFresh(reg.order, n);
      Registry(reg.order + [n], reg.tools[n := t])
  }

  /** The error for a name nobody registered. */
  function NotFound(name: string): Error {
    ValueError("Tool '" + name + "' not found in registry")
  }

  /** `get_tool`: the registered tool, or a `ValueError` naming the tool. */
  function GetTool(reg: Registry, name: string): (r: Result<Tool, Error>)
    ensures r.Ok? <==> name in reg.tools
    ensures r.Ok? ==> r.value == reg.tools[name]
    ensures r.Err? ==> r.error == NotFound(name)
  {
    if name !in reg.tools then Err(NotFound(name)) else Ok(reg.tools[name])
  }

  /** The first of `names` that is not registered, if any. */
  function FirstMissing(reg: Registry, names: seq<string>): (m: Option<nat>)
    ensures m.Some? ==> m.value < |names| && names[m.value] !in reg.tools
    ensures m.Some? ==> forall k :: 0 <= k < m.value ==> names[k] in reg.tools
    ensures m.None? <==> forall k :: 0 <= k < |names| ==> names[k] in reg.tools
    decreases |names|
  {
    if |names| == 0 then None
    else if names[0] !in reg.tools then Some(0)
    else
      match FirstMissing(reg, names[1..])
      case None => None
      case Some(k) => Some(k + 1)
  }

  /** `get_tools_for_agent`: looks the names up left to right and fails on
      the first one not registered; otherwise a map whose keys are exactly the
      requested names. */
  function GetToolsForAgent(reg: Registry, names: seq<string>): (r: Result<map<string, Tool>, Error>)
    ensures r.Ok? <==> FirstMissing(reg, names).None?
    ensures r.Err? ==> r.error == NotFound(names[FirstMissing(reg, names).value])
    ensures r.Ok? ==> (forall n :: n in r.value <==> n in names)
    ensures r.Ok? ==> forall n :: n in r.value ==> n in reg.tools && r.value[n] == reg.tools[n]
    decreases |names|
  {
    if |names| == 0 then Ok(map[])
    else
      match GetTool(reg, names[0])
      case Err(e) => Err(e)
      case Ok(t) =>
        var rest := GetToolsForAgent(reg, names[1..]);
        if rest.Err? then rest
        else
          assert forall n :: n in names <==> n == names[0] || n in names[1..];
          Ok(rest.value[names[0] := t])
  }

  /** `list_available_tools`: every registered name exactly once. */
  function ListAvailableTools(reg: Registry): (names: seq<string>)
    requires Valid(reg)
    ensures NoDuplicates(names)
    ensures forall n :: n in names <==> n in reg.tools
  {
    reg.order
  }

  /** Registering two tools of the same name keeps the second; the listing
      still has that name once, and other names are unaffected. */
  lemma LastRegistrationWins(reg: Registry, t1: Tool, t2: Tool, other: string)
    requires Valid(reg) && ToolName(t1) == ToolName(t2) && other != ToolName(t1)
    ensures var r := Register(Register(reg, t1), t2);
            && GetTool(r, ToolName(t1)) == Ok(t2)
            && GetTool(r, other) == GetTool(reg, other)
            && |ListAvailableTools(r)| == |ListAvailableTools(Register(reg, t1))|
  {
  }
}
