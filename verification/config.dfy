/** Dependency setup: the legacy single-agent selection, the registration of
    the nine tools, and the wiring of the multi-agent service. */
module Config {
  import opened Wrappers
  import Seqs
  import opened Errors
  import opened AgentConfig
  import opened Environment
  import Agents
  import Tools
  import ToolRegistry
  import MultiAgent

  /** `get_agent`: the stub when any setting is blank, otherwise the
      Semantic Kernel agent on exactly those settings, with its default
      instructions and role. */
  function GetAgent(env: Env): (a: Agents.Agent)
    ensures a.kind.Stub? <==> UseStub(env)
    ensures !UseStub(env) ==>
              && a.kind.SemanticKernel? && a.kind.creds == CredentialsOf(env)
              && a.kind.instructions == Agents.DefaultInstructions
              && Agents.Role(a) == "assistant" && Agents.AvailableTools(a) == []
    ensures a.thread.None?
  {
    if UseStub(env) then Agents.NewStub()
    else Agents.NewSemanticKernel(CredentialsOf(env), Agents.DefaultInstructions, Agents.DefaultRole)
  }

  /** Registers one tool of each kind in `kinds`, in order, all bound to
      the same repository. */
  function RegisterAll(reg: ToolRegistry.Registry, kinds: seq<Tools.ToolKind>, repository: nat)
    : (r: ToolRegistry.Registry)
    requires ToolRegistry.Valid(reg)
    ensures ToolRegistry.Valid(r)
    decreases |kinds|
  {
    if |kinds| == 0 then reg
    else RegisterAll(ToolRegistry.Register(reg, ToolRegistry.Tool(kinds[0], repository)), kinds[1..], repository)
  }

  /** After registering `kinds`, each kind's name maps to a tool of that
      kind on the repository, and any other name keeps its tool. */
  lemma {:induction false} RegisterAllBinds(reg: ToolRegistry.Registry, kinds: seq<Tools.ToolKind>, repository: nat)
    requires ToolRegistry.Valid(reg)
    ensures var r := RegisterAll(reg, kinds, repository);
            forall t :: t in kinds ==>
              Tools.Name(t) in r.tools && r.tools[Tools.Name(t)] == ToolRegistry.Tool(t, repository)
    ensures var r := RegisterAll(reg, kinds, repository);
            forall n :: n in reg.tools && (forall t :: t in kinds ==> Tools.Name(t) != n) ==>
              n in r.tools && r.tools[n] == reg.tools[n]
    decreases |kinds|
  {
    if |kinds| > 0 {
      var next := ToolRegistry.Register(reg, ToolRegistry.Tool(kinds[0], repository));
      RegisterAllBinds(next, kinds[1..], repository);
      var r := RegisterAll(next, kinds[1..], repository);
      assert RegisterAll(reg, kinds, repository) == r;
      assert forall t :: t in kinds <==> t == kinds[0] || t in kinds[1..];
      forall t | t in kinds ensures Tools.Name(t) in r.tools && r.tools[Tools.Name(t)] == ToolRegistry.Tool(t, repository) {
        if t !in kinds[1..] {
          forall u | u in kinds[1..] ensures Tools.Name(u) != Tools.Name(t) {
            Tools.NamesIdentifyTools(u, Tools.Name(t));
            Tools.NamesIdentifyTools(t, Tools.Name(t));
          }
        }
      }
    }
  }

  /** `_register_tools`: the nine tools, in declaration order, bound to the
      given repository. */
  function RegisterTools(reg: ToolRegistry.Registry, repository: nat): (r: ToolRegistry.Registry)
    requires ToolRegistry.Valid(reg)
    ensures ToolRegistry.Valid(r)
    ensures forall t :: Tools.Name(t) in r.tools && r.tools[Tools.Name(t)] == ToolRegistry.Tool(t, repository)
  {
    var r := RegisterAll(reg, Tools.AllTools, repository);
    RegisterAllBinds(reg, Tools.AllTools, repository);
    forall t ensures Tools.Name(t) in r.tools && r.tools[Tools.Name(t)] == ToolRegistry.Tool(t, repository) {
      Tools.NamesIdentifyTools(t, Tools.Name(t));
    }
    r
  }

  /** The names of `kinds`, in order. */
  function NamesOf(kinds: seq<Tools.ToolKind>): (names: seq<string>)
    ensures |names| == |kinds|
    ensures forall k :: 0 <= k < |kinds| ==> names[k] == Tools.Name(kinds[k])
    decreases |kinds|
  {
    if |kinds| == 0 then [] else [Tools.Name(kinds[0])] + NamesOf(kinds[1..])
  }

  /** Registering tools of pairwise distinct, new names appends exactly
      those names to the listing, in registration order. */
  lemma {:induction false} RegisterAllAppends(reg: ToolRegistry.Registry, kinds: seq<Tools.ToolKind>, repository: nat)
    requires ToolRegistry.Valid(reg)
    requires forall i, j :: 0 <= i < j < |kinds| ==> Tools.Name(kinds[i]) != Tools.Name(kinds[j])
    requires forall k :: 0 <= k < |kinds| ==> Tools.Name(kinds[k]) !in reg.tools
    ensures RegisterAll(reg, kinds, repository).order == reg.order + NamesOf(kinds)
    decreases |kinds|
  {
    if |kinds| > 0 {
      var next := ToolRegistry.Register(reg, ToolRegistry.Tool(kinds[0], repository));
      TailStillFresh(reg, kinds, repository);
      RegisterAllAppends(next, kinds[1..], repository);
      var head := [Tools.Name(kinds[0])];
      var tail := NamesOf(kinds[1..]);
      var r := RegisterAll(reg, kinds, repository);
      assert r.order == next.order + tail;
      assert next.order == reg.order + head;
      assert NamesOf(kinds) == head + tail;
      Seqs.AppendAssoc(reg.order, head, tail);
    }
  }

  /** After the first of distinct, new tools is registered, the rest are
      still distinct and new, and the first name has been appended. */
  lemma TailStillFresh(reg: ToolRegistry.Registry, kinds: seq<Tools.ToolKind>, repository: nat)
    requires ToolRegistry.Valid(reg) && |kinds| > 0
    requires forall i, j :: 0 <= i < j < |kinds| ==> Tools.Name(kinds[i]) != Tools.Name(kinds[j])
    requires forall k :: 0 <= k < |kinds| ==> Tools.Name(kinds[k]) !in reg.tools
    ensures var next := ToolRegistry.Register(reg, ToolRegistry.Tool(kinds[0], repository));
            && ToolRegistry.Valid(next)
            && next.order == reg.order + [Tools.Name(kinds[0])]
            && RegisterAll(reg, kinds, repository) == RegisterAll(next, kinds[1..], repository)
            && NamesOf(kinds) == [Tools.Name(kinds[0])] + NamesOf(kinds[1..])
            && (forall i, j :: 0 <= i < j < |kinds[1..]| ==> Tools.Name(kinds[1..][i]) != Tools.Name(kinds[1..][j]))
            && (forall k :: 0 <= k < |kinds[1..]| ==> Tools.Name(kinds[1..][k]) !in next.tools)
  {
    var next := ToolRegistry.Register(reg, ToolRegistry.Tool(kinds[0], repository));
    forall k | 0 <= k < |kinds[1..]| ensures Tools.Name(kinds[1..][k]) !in next.tools {
      assert kinds[1..][k] == kinds[k + 1];
    }
    forall i, j | 0 <= i < j < |kinds[1..]| ensures Tools.Name(kinds[1..][i]) != Tools.Name(kinds[1..][j]) {
      assert kinds[1..][i] == kinds[i + 1] && kinds[1..][j] == kinds[j + 1];
    }
  }

  /** Registering tools of distinct names into an empty registry lists
      exactly their names, in order. */
  lemma RegisterFromEmpty(kinds: seq<Tools.ToolKind>, repository: nat)
    requires forall i, j :: 0 <= i < j < |kinds| ==> Tools.Name(kinds[i]) != Tools.Name(kinds[j])
    ensures RegisterAll(ToolRegistry.Empty(), kinds, repository).order == NamesOf(kinds)
  {
    var empty := ToolRegistry.Empty();
    RegisterAllAppends(empty, kinds, repository);
    assert empty.order + NamesOf(kinds) == NamesOf(kinds);
  }

  /** Registering into an empty registry lists exactly the nine tool names,
      in the order `_register_tools` registers them. */
  lemma RegisterToolsListing(repository: nat)
    ensures ToolRegistry.ListAvailableTools(RegisterTools(ToolRegistry.Empty(), repository)) ==
              ["get_project_data", "save_draft_prd", "save_completed_prd", "analyze_codebase",
               "validate_requirements", "suggest_architecture", "fetch_project_data",
               "gather_requirements", "check_completeness"]
  {
    Tools.NamesDistinct();
    var empty := ToolRegistry.Empty();
    RegisterFromEmpty(Tools.AllTools, repository);
    assert RegisterTools(empty, repository) == RegisterAll(empty, Tools.AllTools, repository);
    AllToolNames();
  }

  /** The names of the nine tools, in declaration order. */
  lemma AllToolNames()
    ensures NamesOf(Tools.AllTools) ==
              ["get_project_data", "save_draft_prd", "save_completed_prd", "analyze_codebase",
               "validate_requirements", "suggest_architecture", "fetch_project_data",
               "gather_requirements", "check_completeness"]
  {
    var names := NamesOf(Tools.AllTools);
    assert names[0] == "get_project_data" && names[1] == "save_draft_prd" && names[2] == "save_completed_prd";
    assert names[3] == "analyze_codebase" && names[4] == "validate_requirements";
    assert names[5] == "suggest_architecture" && names[6] == "fetch_project_data";
    assert names[7] == "gather_requirements" && names[8] == "check_completeness";
  }

  /** After `_register_tools` every tool name of every role's configuration
      resolves, to a tool bound to the repository the tools were built on. */
  lemma ConfiguredToolsResolve(reg: ToolRegistry.Registry, repository: nat, role: Role, n: string)
    requires ToolRegistry.Valid(reg) && n in GetAgentConfig(role).tools
    ensures n in RegisterTools(reg, repository).tools
    ensures RegisterTools(reg, repository).tools[n].repository == repository
  {
    ConfiguredNamesAreTools(role, n);
    var t := Tools.ToolNamed(n).value;
    assert Tools.Name(t) == n;
  }

  /** Every tool name a role's configuration lists is the name of a tool. */
  lemma ConfiguredNamesAreTools(role: Role, n: string)
    requires n in GetAgentConfig(role).tools
    ensures Tools.ToolNamed(n).Some?
  {
    var tools := GetAgentConfig(role).tools;
    match role
    case PrdFacilitator =>
      assert tools == ["save_draft_prd", "save_completed_prd"];
    case TechnicalAnalyst =>
      assert tools == ["analyze_codebase", "suggest_architecture", "get_project_data"];
    case DataCollector =>
      assert tools == ["fetch_project_data", "gather_requirements", "get_project_data"];
    case RequirementsValidator =>
      assert tools == ["validate_requirements", "check_completeness", "get_project_data"];
  }

  /** `get_multi_agent_service`: a fresh repository (identified by
      `repository`), the tools registered against it, and then the service
      over it. Because the tools are registered first, building the service
      cannot fail on an unregistered tool. */
  function GetMultiAgentService(reg: ToolRegistry.Registry, repository: nat, env: Env, resources: map<string, string>)
    : (r: (ToolRegistry.Registry, Result<MultiAgent.Service, Error>))
    requires ToolRegistry.Valid(reg)
    ensures ToolRegistry.Valid(r.0)
    ensures forall t :: Tools.Name(t) in r.0.tools && r.0.tools[Tools.Name(t)].repository == repository
    ensures r.1.Ok? && MultiAgent.Valid(r.1.value) && r.1.value.repository == repository
    ensures r.1.value.factory.env == env
  {
    var reg' := RegisterTools(reg, repository);
    forall n | n in GetAgentConfig(PrdFacilitator).tools ensures n in reg'.tools {
      ConfiguredToolsResolve(reg, repository, PrdFacilitator, n);
    }
    (reg', MultiAgent.New(repository, env, reg', resources))
  }
}
