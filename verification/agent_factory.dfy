/** `AgentFactory`: builds one agent per role, on first request, and caches
    it. Agent objects live in `heap` under identities handed out from `next`,
    so "the same instance" is equality of identities. */
module AgentFactory {
  import opened Wrappers
  import opened Errors
  import opened AgentConfig
  import opened Environment
  import Agents
  import ToolRegistry

  type InstanceId = nat

  /** The environment is captured once, at construction. */
  datatype Factory = Factory(
    repository: nat,
    env: Env,
    cache: map<Role, InstanceId>,
    heap: map<InstanceId, Agents.Agent>,
    next: InstanceId)

  /** An agent the factory could have built for `role` from `env`. */
  ghost predicate BuiltFor(a: Agents.Agent, role: Role, env: Env) {
    if UseStub(env) then a.kind.Stub?
    else a.kind.Configurable? && a.kind.config == GetAgentConfig(role) && a.kind.creds == CredentialsOf(env)
  }

  /** Cached identities point at live agents built for their role, and
      every identity in use is below `next`. */
  ghost predicate Valid(f: Factory) {
    && (forall r :: r in f.cache ==> f.cache[r] in f.heap && BuiltFor(f.heap[f.cache[r]], r, f.env))
    && (forall id :: id in f.heap ==> id < f.next)
  }

  /** `AgentFactory(project_repository)` with the environment of the moment. */
  function NewFactory(repository: nat, env: Env): (f: Factory)
    ensures Valid(f) && f.cache == map[] && f.env == env
  {
    Factory(repository, env, map[], map[], 0)
  }

  /** The instructions resource of a configuration, if it exists. */
  function Resource(resources: map<string, string>, file: string): Option<string> {
    if file in resources then Some(resources[file]) else None
  }

  /** `create_agent`: a cached role returns its cached instance and changes
      nothing. Otherwise a new instance is built — the stub when a setting is
      blank, else a configured agent for the role's configuration — and only
      `role` is added to the cache. A failing construction caches nothing. */
  function CreateAgent(f: Factory, role: Role, reg: ToolRegistry.Registry, resources: map<string, string>)
    : (r: Result<(Factory, InstanceId), Error>)
    requires Valid(f)
    ensures r.Ok? ==> Valid(r.value.0) && r.value.0.env == f.env && r.value.0.repository == f.repository
    ensures r.Ok? ==> r.value.0.cache == f.cache[role := r.value.1]
    ensures r.Ok? ==> r.value.1 in r.value.0.heap && BuiltFor(r.value.0.heap[r.value.1], role, f.env)
    ensures role in f.cache ==> r == Ok((f, f.cache[role]))
    ensures role !in f.cache ==>
              && (r.Err? <==> !UseStub(f.env) && exists n :: n in GetAgentConfig(role).tools && n !in reg.tools)
              && (r.Ok? ==>
                    && r.value.1 == f.next && r.value.1 !in f.heap
                    && r.value.0.heap == f.heap[f.next := r.value.0.heap[f.next]]
                    && r.value.0.heap[f.next].thread.None?)
  {
    if role in f.cache then Ok((f, f.cache[role]))
    else
      match Build(f.env, role, reg, resources)
      case Err(e) => Err(e)
      case Ok(a) =>
        AddKeepsValid(f, role, a);
        Ok((Factory(f.repository, f.env, f.cache[role := f.next], f.heap[f.next := a], f.next + 1), f.next))
  }

  /** The agent built for a role: the stub when a setting is blank, else a
      configured agent, which fails on the first unregistered tool. */
  function Build(env: Env, role: Role, reg: ToolRegistry.Registry, resources: map<string, string>)
    : (r: Result<Agents.Agent, Error>)
    ensures r.Err? <==> !UseStub(env) && exists n :: n in GetAgentConfig(role).tools && n !in reg.tools
    ensures r.Err? ==> r.error == ToolRegistry.GetToolsForAgent(reg, GetAgentConfig(role).tools).error
    ensures r.Ok? ==> BuiltFor(r.value, role, env) && r.value.thread.None?
  {
    var config := GetAgentConfig(role);
    if UseStub(env) then Ok(Agents.NewStub())
    else Agents.NewConfigurable(config, reg, CredentialsOf(env), Resource(resources, config.instructionsFile))
  }

  /** Caching a new agent built for `role` under the next identity keeps
      the factory valid. */
  lemma AddKeepsValid(f: Factory, role: Role, a: Agents.Agent)
    requires Valid(f) && BuiltFor(a, role, f.env)
    ensures Valid(Factory(f.repository, f.env, f.cache[role := f.next], f.heap[f.next := a], f.next + 1))
  {
    var g := Factory(f.repository, f.env, f.cache[role := f.next], f.heap[f.next := a], f.next + 1);
    forall r | r in g.cache
      ensures g.cache[r] in g.heap && BuiltFor(g.heap[g.cache[r]], r, g.env)
    {
      if r != role {
        assert f.cache[r] in f.heap;
        assert f.cache[r] != f.next;
      }
    }
  }

  /** Replacing an agent by one of the same kind keeps the factory valid:
      what it was built for depends on its kind alone. */
  lemma SameKindKeepsValid(f: Factory, id: InstanceId, a: Agents.Agent)
    requires Valid(f) && id in f.heap && a.kind == f.heap[id].kind
    ensures Valid(f.(heap := f.heap[id := a]))
  {
    var g := f.(heap := f.heap[id := a]);
    forall r | r in g.cache
      ensures g.cache[r] in g.heap && BuiltFor(g.heap[g.cache[r]], r, g.env)
    {
      assert BuiltFor(f.heap[f.cache[r]], r, f.env);
    }
  }

  /** `get_prd_facilitator`: the agent of the `PrdFacilitator` role, built on first request
      and the same instance after; with complete settings it is the user-facing facilitator. */
  function GetPrdFacilitator(f: Factory, reg: ToolRegistry.Registry, resources: map<string, string>)
    : (r: Result<(Factory, InstanceId), Error>)
    requires Valid(f)
    ensures r == CreateAgent(f, PrdFacilitator, reg, resources)
    ensures PrdFacilitator in f.cache ==> r == Ok((f, f.cache[PrdFacilitator]))
    ensures UseStub(f.env) ==> r.Ok?
    ensures r.Ok? ==>
              var (g, id) := r.value;
              && Valid(g) && g.cache == f.cache[PrdFacilitator := id]
              && id in g.heap && BuiltFor(g.heap[id], PrdFacilitator, f.env)
              && (!UseStub(f.env) ==> Agents.IsUserFacing(g.heap[id]) == Some(true))
  {
    CreateAgent(f, PrdFacilitator, reg, resources)
  }

  /** `get_technical_analyst`: the agent of the `TechnicalAnalyst` role, built on first request
      and the same instance after; with complete settings it is a background specialist. */
  function GetTechnicalAnalyst(f: Factory, reg: ToolRegistry.Registry, resources: map<string, string>)
    : (r: Result<(Factory, InstanceId), Error>)
    requires Valid(f)
    ensures r == CreateAgent(f, TechnicalAnalyst, reg, resources)
    ensures TechnicalAnalyst in f.cache ==> r == Ok((f, f.cache[TechnicalAnalyst]))
    ensures UseStub(f.env) ==> r.Ok?
    ensures r.Ok? ==>
              var (g, id) := r.value;
              && Valid(g) && g.cache == f.cache[TechnicalAnalyst := id]
              && id in g.heap && BuiltFor(g.heap[id], TechnicalAnalyst, f.env)
              && (!UseStub(f.env) ==> Agents.IsUserFacing(g.heap[id]) == Some(false))
  {
    CreateAgent(f, TechnicalAnalyst, reg, resources)
  }

  /** `get_data_collector`: the agent of the `DataCollector` role, built on first request
      and the same instance after; with complete settings it is a background specialist. */
  function GetDataCollector(f: Factory, reg: ToolRegistry.Registry, resources: map<string, string>)
    : (r: Result<(Factory, InstanceId), Error>)
    requires Valid(f)
    ensures r == CreateAgent(f, DataCollector, reg, resources)
    ensures DataCollector in f.cache ==> r == Ok((f, f.cache[DataCollector]))
    ensures UseStub(f.env) ==> r.Ok?
    ensures r.Ok? ==>
              var (g, id) := r.value;
              && Valid(g) && g.cache == f.cache[DataCollector := id]
              && id in g.heap && BuiltFor(g.heap[id], DataCollector, f.env)
              && (!UseStub(f.env) ==> Agents.IsUserFacing(g.heap[id]) == Some(false))
  {
    CreateAgent(f, DataCollector, reg, resources)
  }

  /** `get_requirements_validator`: the agent of the `RequirementsValidator` role, built on first request
      and the same instance after; with complete settings it is a background specialist. */
  function GetRequirementsValidator(f: Factory, reg: ToolRegistry.Registry, resources: map<string, string>)
    : (r: Result<(Factory, InstanceId), Error>)
    requires Valid(f)
    ensures r == CreateAgent(f, RequirementsValidator, reg, resources)
    ensures RequirementsValidator in f.cache ==> r == Ok((f, f.cache[RequirementsValidator]))
    ensures UseStub(f.env) ==> r.Ok?
    ensures r.Ok? ==>
              var (g, id) := r.value;
              && Valid(g) && g.cache == f.cache[RequirementsValidator := id]
              && id in g.heap && BuiltFor(g.heap[id], RequirementsValidator, f.env)
              && (!UseStub(f.env) ==> Agents.IsUserFacing(g.heap[id]) == Some(false))
  {
    CreateAgent(f, RequirementsValidator, reg, resources)
  }

  /** `clear_cache`: the cache is emptied; agents already handed out live on. */
  function ClearCache(f: Factory): (g: Factory)
    requires Valid(f)
    ensures Valid(g) && g.cache == map[]
    ensures g.heap == f.heap && g.next == f.next && g.env == f.env && g.repository == f.repository
  {
    f.(cache := map[])
  }

  /** Without a `clear_cache` in between, asking twice for a role yields the
      identical instance and the second request changes nothing. */
  lemma SameInstanceTwice(f: Factory, role: Role, reg: ToolRegistry.Registry, resources: map<string, string>)
    requires Valid(f)
    requires CreateAgent(f, role, reg, resources).Ok?
    ensures var (f1, id1) := CreateAgent(f, role, reg, resources).value;
            CreateAgent(f1, role, reg, resources) == Ok((f1, id1))
  {
  }

  /** After `clear_cache`, asking for a role that was cached builds a new
      instance, distinct from every instance built before. */
  lemma ClearBuildsNewInstance(f: Factory, role: Role, reg: ToolRegistry.Registry, resources: map<string, string>)
    requires Valid(f) && role in f.cache
    requires CreateAgent(ClearCache(f), role, reg, resources).Ok?
    ensures var (_, id) := CreateAgent(ClearCache(f), role, reg, resources).value;
            id != f.cache[role] && id !in f.heap
  {
  }

  /** With a blank setting every request succeeds with the stub; with
      complete settings a request fails exactly when the role names a tool
      the registry lacks, reporting the first such tool. */
  lemma StubOrConfigured(f: Factory, role: Role, reg: ToolRegistry.Registry, resources: map<string, string>)
    requires Valid(f) && role !in f.cache
    ensures UseStub(f.env) ==> CreateAgent(f, role, reg, resources).Ok?
    ensures var r := CreateAgent(f, role, reg, resources);
            r.Err? ==> r.error == ToolRegistry.NotFound(
              GetAgentConfig(role).tools[ToolRegistry.FirstMissing(reg, GetAgentConfig(role).tools).value])
  {
  }
}
