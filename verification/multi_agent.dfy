/** `MultiAgentService`: the facilitator talks to the user; three background
    specialists are asked one prompt each and answer with a report. */
module MultiAgent {
  import opened Wrappers
  import opened Seqs
  import opened Text
  import opened Errors
  import opened AgentConfig
  import opened Environment
  import opened AgentFactory
  import Agents
  import ToolRegistry

  /** The service and the facilitator instance it captured when built. */
  datatype Service = Service(repository: nat, factory: Factory, main: InstanceId)

  ghost predicate Valid(m: Service) {
    && AgentFactory.Valid(m.factory)
    && m.main in m.factory.heap
    && BuiltFor(m.factory.heap[m.main], PrdFacilitator, m.factory.env)
  }

  /** `MultiAgentService(project_repository)`: a factory over the repository,
      and its facilitator as the main agent. */
  function New(repository: nat, env: Env, reg: ToolRegistry.Registry, resources: map<string, string>)
    : (r: Result<Service, Error>)
    ensures r.Ok? <==> UseStub(env) || forall n :: n in GetAgentConfig(PrdFacilitator).tools ==> n in reg.tools
    ensures r.Ok? ==>
              && Valid(r.value) && r.value.repository == repository
              && r.value.factory.repository == repository && r.value.factory.env == env
              && r.value.factory.cache == map[PrdFacilitator := r.value.main]
              && r.value.factory.heap[r.value.main].thread.None?
  {
    match GetPrdFacilitator(NewFactory(repository, env), reg, resources)
    case Err(e) => Err(e)
    case Ok((f, id)) => Ok(Service(repository, f, id))
  }

  /** The chunks any agent of this service answers with. */
  function Reply(env: Env, responses: seq<Agents.Response>): seq<string> {
    if UseStub(env) then Agents.StubReply else Agents.StreamFilter(responses)
  }

  /** Sends to one agent of the factory's heap and keeps its new state. */
  function SendTo(f: Factory, id: InstanceId, text: string, responses: seq<Agents.Response>): (r: (Factory, seq<string>))
    requires AgentFactory.Valid(f) && id in f.heap
    ensures AgentFactory.Valid(r.0) && r.0.cache == f.cache && r.0.env == f.env && r.0.next == f.next
    ensures r.0.heap.Keys == f.heap.Keys
    ensures r.0.heap[id] == Agents.Send(f.heap[id], text, responses).0
    ensures r.1 == Agents.Send(f.heap[id], text, responses).1
    ensures forall other :: other in f.heap && other != id ==> r.0.heap[other] == f.heap[other]
  {
    var (a, chunks) := Agents.Send(f.heap[id], text, responses);
    SameKindKeepsValid(f, id, a);
    (f.(heap := f.heap[id := a]), chunks)
  }

  /** `send_message_stream`: exactly the main agent's chunks, in order; only
      the main agent's state changes. */
  function SendMessageStream(m: Service, text: string, responses: seq<Agents.Response>): (r: (Service, seq<string>))
    requires Valid(m)
    ensures Valid(r.0) && r.0.main == m.main && r.0.factory.cache == m.factory.cache
    ensures r.0.factory.heap.Keys == m.factory.heap.Keys
    ensures r.1 == Reply(m.factory.env, responses)
    ensures r.0.factory.heap[m.main] == Agents.Send(m.factory.heap[m.main], text, responses).0
    ensures forall other :: other in m.factory.heap && other != m.main ==>
              r.0.factory.heap[other] == m.factory.heap[other]
  {
    var (f, chunks) := SendTo(m.factory, m.main, text, responses);
    (m.(factory := f), chunks)
  }

  /** `reset`: the main agent is reset, then the factory cache is emptied, so
      the background agents are rebuilt on their next use. */
  function Reset(m: Service): (r: Service)
    requires Valid(m)
    ensures Valid(r) && r.main == m.main && r.factory.cache == map[]
    ensures r.factory.heap == m.factory.heap[m.main := Agents.Reset(m.factory.heap[m.main])]
  {
    var f := m.factory.(heap := m.factory.heap[m.main := Agents.Reset(m.factory.heap[m.main])]);
    m.(factory := ClearCache(f))
  }

  /** The dictionary a specialist call returns: the joined reply under
      `resultKey`, then `agent_role` and `tools_used`. */
  datatype Report = Report(resultKey: string, result: string, agentRole: string, toolsUsed: seq<string>)

  /** One prompt to an agent built for `role`, and its answer as a report:
      the joined reply, and the agent's role and tool names. */
  function Ask(f: Factory, id: InstanceId, role: Role, prompt: string, resultKey: string,
               responses: seq<Agents.Response>)
    : (r: (Factory, Report))
    requires AgentFactory.Valid(f) && id in f.heap && BuiltFor(f.heap[id], role, f.env)
    ensures AgentFactory.Valid(r.0) && r.0.cache == f.cache && r.0.env == f.env && r.0.heap.Keys == f.heap.Keys
    ensures forall other :: other in f.heap && other != id ==> r.0.heap[other] == f.heap[other]
    ensures r.1.resultKey == resultKey
    ensures r.1.result == Concat(Reply(f.env, responses))
    ensures r.1.agentRole == ReportedRole(f.env, role)
    ensures r.1.toolsUsed == ReportedTools(f.env, role)
    ensures !UseStub(f.env) ==> r.0.heap[id].thread == Agents.Continue(f.heap[id].thread, prompt)
  {
    var agent := f.heap[id];
    var (f', chunks) := SendTo(f, id, prompt, responses);
    (f', Report(resultKey, Concat(chunks), Agents.Role(agent), Agents.AvailableTools(agent)))
  }

  /** The `agent_role` of a report: the stub's role when a setting is
      blank, else the role's enum value. */
  function ReportedRole(env: Env, role: Role): string {
    if UseStub(env) then "stub" else RoleValue(role)
  }

  /** The `tools_used` of a report: the stub has none, a configured agent
      lists its configuration's tools. */
  function ReportedTools(env: Env, role: Role): seq<string> {
    if UseStub(env) then [] else GetAgentConfig(role).tools
  }

  /** The agent cached for `role` was last asked `prompt`. */
  ghost predicate LastAsked(m: Service, role: Role, prompt: string) {
    && role in m.factory.cache && m.factory.cache[role] in m.factory.heap
    && var t := m.factory.heap[m.factory.cache[role]].thread;
       t.Some? && |t.value| > 0 && t.value[|t.value| - 1] == prompt
  }

  /** One prompt to the agent of `role`, built or reused through the
      factory; a failure to build it is the call's failure. The report holds
      the joined reply under `resultKey`, and the agent's role and tools. */
  function Consult(m: Service, role: Role, prompt: string, resultKey: string,
                   reg: ToolRegistry.Registry, resources: map<string, string>, responses: seq<Agents.Response>)
    : (r: Result<(Service, Report), Error>)
    requires Valid(m)
    ensures r.Ok? <==> CreateAgent(m.factory, role, reg, resources).Ok?
    ensures r.Ok? ==>
              var (f, id) := CreateAgent(m.factory, role, reg, resources).value;
              && Valid(r.value.0) && r.value.0.main == m.main
              && r.value.0.factory.cache == m.factory.cache[role := id]
              && (r.value.0.factory, r.value.1) == Ask(f, id, role, prompt, resultKey, responses)
  {
    match CreateAgent(m.factory, role, reg, resources)
    case Err(e) => Err(e)
    case Ok((f, id)) =>
      var (f', report) := Ask(f, id, role, prompt, resultKey, responses);
      Ok((Service(m.repository, f', m.main), report))
  }

  /** What a consultation answers: a failure only when a configured agent
      has to be built and cannot be; otherwise the report holds the joined
      reply under `resultKey` with the agent's role and tools, and the
      agent, now cached, was last asked `prompt`. */
  lemma ConsultReport(m: Service, role: Role, prompt: string, resultKey: string,
                      reg: ToolRegistry.Registry, resources: map<string, string>, responses: seq<Agents.Response>)
    requires Valid(m)
    ensures var r := Consult(m, role, prompt, resultKey, reg, resources, responses);
            && (r.Err? ==> !UseStub(m.factory.env) && role !in m.factory.cache)
            && (r.Ok? ==>
                  && Valid(r.value.0) && r.value.0.main == m.main && role in r.value.0.factory.cache
                  && r.value.1 == Report(resultKey, Concat(Reply(m.factory.env, responses)),
                                         ReportedRole(m.factory.env, role), ReportedTools(m.factory.env, role)))
            && (r.Ok? && !UseStub(m.factory.env) ==> LastAsked(r.value.0, role, prompt))
  {
    var c := CreateAgent(m.factory, role, reg, resources);
    if c.Ok? {
      var (f, id) := c.value;
      AskReport(m, f, id, role, prompt, resultKey, responses);
    }
  }

  /** The report and thread of one consultation, from the agent the
      factory handed out. */
  lemma AskReport(m: Service, f: Factory, id: InstanceId, role: Role, prompt: string, resultKey: string,
                  responses: seq<Agents.Response>)
    requires AgentFactory.Valid(f) && id in f.heap && BuiltFor(f.heap[id], role, f.env)
    requires role in f.cache && f.cache[role] == id && f.env == m.factory.env
    ensures var (f', report) := Ask(f, id, role, prompt, resultKey, responses);
            var m' := Service(m.repository, f', m.main);
            && role in m'.factory.cache
            && report == Report(resultKey, Concat(Reply(m.factory.env, responses)),
                                ReportedRole(m.factory.env, role), ReportedTools(m.factory.env, role))
            && (!UseStub(m.factory.env) ==> LastAsked(m', role, prompt))
  {
    var (f', report) := Ask(f, id, role, prompt, resultKey, responses);
    if !UseStub(f.env) {
      var t := f'.heap[id].thread;
      assert t == Agents.Continue(f.heap[id].thread, prompt);
      assert t.Some? && t.value[|t.value| - 1] == prompt;
    }
  }

  function AnalysisPrompt(projectId: string, requirements: string): string {
    "Analyze these technical requirements for project " + projectId + ": " + requirements
  }

  function CollectionPrompt(projectId: string): string {
    "Collect and organize data for project " + projectId
  }

  function ValidationPrompt(requirements: string): string {
    "Validate these requirements for completeness and clarity: " + requirements
  }

  /** `analyze_technical_requirements`: the analyst's joined reply under
      `analysis`, with its role and tools; the analyst is cached and was
      last asked the analysis prompt. */
  function AnalyzeTechnicalRequirements(m: Service, projectId: string, requirements: string,
                                        reg: ToolRegistry.Registry, resources: map<string, string>,
                                        responses: seq<Agents.Response>)
    : (r: Result<(Service, Report), Error>)
    requires Valid(m)
    ensures r == Consult(m, TechnicalAnalyst, AnalysisPrompt(projectId, requirements), "analysis",
                         reg, resources, responses)
    ensures r.Err? ==> !UseStub(m.factory.env) && TechnicalAnalyst !in m.factory.cache
    ensures r.Ok? ==>
              && Valid(r.value.0) && r.value.0.main == m.main && TechnicalAnalyst in r.value.0.factory.cache
              && r.value.1 == Report("analysis", Concat(Reply(m.factory.env, responses)),
                                     ReportedRole(m.factory.env, TechnicalAnalyst),
                                     ReportedTools(m.factory.env, TechnicalAnalyst))
    ensures r.Ok? && !UseStub(m.factory.env) ==>
              LastAsked(r.value.0, TechnicalAnalyst, AnalysisPrompt(projectId, requirements))
  {
    ConsultReport(m, TechnicalAnalyst, AnalysisPrompt(projectId, requirements), "analysis", reg, resources, responses);
    Consult(m, TechnicalAnalyst, AnalysisPrompt(projectId, requirements), "analysis", reg, resources, responses)
  }

  /** `collect_project_data`: the collector's joined reply under
      `collected_data`, with its role and tools; the collector is cached and
      was last asked the collection prompt. */
  function CollectProjectData(m: Service, projectId: string,
                              reg: ToolRegistry.Registry, resources: map<string, string>,
                              responses: seq<Agents.Response>)
    : (r: Result<(Service, Report), Error>)
    requires Valid(m)
    ensures r == Consult(m, DataCollector, CollectionPrompt(projectId), "collected_data", reg, resources, responses)
    ensures r.Err? ==> !UseStub(m.factory.env) && DataCollector !in m.factory.cache
    ensures r.Ok? ==>
              && Valid(r.value.0) && r.value.0.main == m.main && DataCollector in r.value.0.factory.cache
              && r.value.1 == Report("collected_data", Concat(Reply(m.factory.env, responses)),
                                     ReportedRole(m.factory.env, DataCollector),
                                     ReportedTools(m.factory.env, DataCollector))
    ensures r.Ok? && !UseStub(m.factory.env) ==>
              LastAsked(r.value.0, DataCollector, CollectionPrompt(projectId))
  {
    ConsultReport(m, DataCollector, CollectionPrompt(projectId), "collected_data", reg, resources, responses);
    Consult(m, DataCollector, CollectionPrompt(projectId), "collected_data", reg, resources, responses)
  }

  /** `validate_requirements`: the validator's joined reply under
      `validation_result`, with its role and tools; the validator is cached
      and was last asked the validation prompt. */
  function ValidateRequirements(m: Service, requirements: string,
                                reg: ToolRegistry.Registry, resources: map<string, string>,
                                responses: seq<Agents.Response>)
    : (r: Result<(Service, Report), Error>)
    requires Valid(m)
    ensures r == Consult(m, RequirementsValidator, ValidationPrompt(requirements), "validation_result",
                         reg, resources, responses)
    ensures r.Err? ==> !UseStub(m.factory.env) && RequirementsValidator !in m.factory.cache
    ensures r.Ok? ==>
              && Valid(r.value.0) && r.value.0.main == m.main && RequirementsValidator in r.value.0.factory.cache
              && r.value.1 == Report("validation_result", Concat(Reply(m.factory.env, responses)),
                                     ReportedRole(m.factory.env, RequirementsValidator),
                                     ReportedTools(m.factory.env, RequirementsValidator))
    ensures r.Ok? && !UseStub(m.factory.env) ==>
              LastAsked(r.value.0, RequirementsValidator, ValidationPrompt(requirements))
  {
    ConsultReport(m, RequirementsValidator, ValidationPrompt(requirements), "validation_result", reg, resources, responses);
    Consult(m, RequirementsValidator, ValidationPrompt(requirements), "validation_result", reg, resources, responses)
  }

  /** A role's entry in the listing: its enum value and description. */
  function Entry(role: Role): (string, string) {
    (RoleValue(role), Description(role))
  }

  /** `get_available_agents`: one entry per role, in definition order. */
  function GetAvailableAgents(): (d: seq<(string, string)>)
    ensures |d| == |AllRoles|
    ensures forall k :: 0 <= k < |d| ==> d[k] == Entry(AllRoles[k])
  {
    [Entry(PrdFacilitator), Entry(TechnicalAnalyst), Entry(DataCollector), Entry(RequirementsValidator)]
  }

  /** Entries of distinct roles have distinct keys. */
  lemma DistinctKeys(d: seq<(string, string)>, roles: seq<Role>)
    requires |d| == |roles| && NoDuplicates(roles)
    requires forall k :: 0 <= k < |d| ==> d[k] == Entry(roles[k])
    ensures forall j, k :: 0 <= j < k < |d| ==> d[j].0 != d[k].0
  {
    forall j, k | 0 <= j < k < |d| ensures d[j].0 != d[k].0 {
      AllRolesListed(roles[j], roles[k]);
    }
  }

  /** The listing names every role once: each role's entry is present,
      and no key repeats. */
  lemma AvailableAgentsListed(role: Role)
    ensures Entry(role) in GetAvailableAgents()
    ensures var d := GetAvailableAgents();
            forall j, k :: 0 <= j < k < |d| ==> d[j].0 != d[k].0
  {
    var d := GetAvailableAgents();
    AllRolesListed(role, role);
    var k :| 0 <= k < |AllRoles| && AllRoles[k] == role;
    assert d[k] == Entry(role);
    DistinctKeys(d, AllRoles);
  }

  /** After `reset` the main agent is still the instance captured at
      construction, but the factory no longer remembers it: asking the
      factory for the facilitator now builds a different instance. */
  lemma ResetForgetsFacilitator(m: Service, reg: ToolRegistry.Registry, resources: map<string, string>)
    requires Valid(m) && m.factory.cache == map[PrdFacilitator := m.main]
    requires GetPrdFacilitator(Reset(m).factory, reg, resources).Ok?
    ensures var (_, id) := GetPrdFacilitator(Reset(m).factory, reg, resources).value;
            id != m.main && id !in m.factory.heap
  {
  }

  /** A first consultation of a role builds its agent, whose thread then
      holds just the prompt. */
  lemma FirstConsultation(m: Service, role: Role, q: string, key: string,
                          reg: ToolRegistry.Registry, resources: map<string, string>, rs: seq<Agents.Response>)
    requires Valid(m) && !UseStub(m.factory.env) && role !in m.factory.cache
    requires Consult(m, role, q, key, reg, resources, rs).Ok?
    ensures var m1 := Consult(m, role, q, key, reg, resources, rs).value.0;
            && Valid(m1) && m1.factory.env == m.factory.env
            && role in m1.factory.cache && m1.factory.heap[m1.factory.cache[role]].thread == Some([q])
  {
    var (f0, id) := CreateAgent(m.factory, role, reg, resources).value;
    assert f0.heap[id].thread.None?;
  }

  /** A later consultation of a cached role reuses its agent, whose thread
      grows by the prompt. */
  lemma LaterConsultation(m: Service, role: Role, q: string, key: string,
                          reg: ToolRegistry.Registry, resources: map<string, string>, rs: seq<Agents.Response>)
    requires Valid(m) && !UseStub(m.factory.env) && role in m.factory.cache
    ensures var r := Consult(m, role, q, key, reg, resources, rs);
            var id := m.factory.cache[role];
            && r.Ok? && r.value.0.factory.cache == m.factory.cache
            && r.value.0.factory.heap[id].thread == Agents.Continue(m.factory.heap[id].thread, q)
  {
    assert CreateAgent(m.factory, role, reg, resources) == Ok((m.factory, m.factory.cache[role]));
  }

  /** Two consultations of a role not yet built: the second reaches the
      instance the first built, whose thread then holds both prompts. */
  lemma ConsultTwice(m: Service, role: Role, q1: string, q2: string, key: string,
                     reg: ToolRegistry.Registry, resources: map<string, string>,
                     r1: seq<Agents.Response>, r2: seq<Agents.Response>)
    requires Valid(m) && !UseStub(m.factory.env) && role !in m.factory.cache
    requires Consult(m, role, q1, key, reg, resources, r1).Ok?
    ensures var m1 := Consult(m, role, q1, key, reg, resources, r1).value.0;
            var r := Consult(m1, role, q2, key, reg, resources, r2);
            && r.Ok?
            && role in m1.factory.cache
            && r.value.0.factory.cache == m1.factory.cache
            && r.value.0.factory.heap[m1.factory.cache[role]].thread == Some([q1, q2])
  {
    FirstConsultation(m, role, q1, key, reg, resources, r1);
    var m1 := Consult(m, role, q1, key, reg, resources, r1).value.0;
    SecondConsultation(m1, role, q1, q2, key, reg, resources, r2);
  }

  /** A consultation of a role whose thread holds one prompt: it then
      holds both. */
  lemma SecondConsultation(m1: Service, role: Role, q1: string, q2: string, key: string,
                           reg: ToolRegistry.Registry, resources: map<string, string>, r2: seq<Agents.Response>)
    requires Valid(m1) && !UseStub(m1.factory.env) && role in m1.factory.cache
    requires m1.factory.heap[m1.factory.cache[role]].thread == Some([q1])
    ensures var r := Consult(m1, role, q2, key, reg, resources, r2);
            && r.Ok?
            && r.value.0.factory.cache == m1.factory.cache
            && r.value.0.factory.heap[m1.factory.cache[role]].thread == Some([q1, q2])
  {
    LaterConsultation(m1, role, q2, key, reg, resources, r2);
    assert [q1] + [q2] == [q1, q2];
  }

  /** A background agent keeps its conversation between consultations: the
      second analysis goes to the same instance, whose thread now holds both
      prompts. */
  lemma SpecialistRemembers(m: Service, p1: string, p2: string, req: string,
                            reg: ToolRegistry.Registry, resources: map<string, string>,
                            r1: seq<Agents.Response>, r2: seq<Agents.Response>)
    requires Valid(m) && !UseStub(m.factory.env) && TechnicalAnalyst !in m.factory.cache
    requires AnalyzeTechnicalRequirements(m, p1, req, reg, resources, r1).Ok?
    ensures var m1 := AnalyzeTechnicalRequirements(m, p1, req, reg, resources, r1).value.0;
            var r := AnalyzeTechnicalRequirements(m1, p2, req, reg, resources, r2);
            && r.Ok?
            && var id := m1.factory.cache[TechnicalAnalyst];
               && r.value.0.factory.cache == m1.factory.cache
               && r.value.0.factory.heap[id].thread == Some([AnalysisPrompt(p1, req), AnalysisPrompt(p2, req)])
  {
    var q1 := AnalysisPrompt(p1, req);
    var q2 := AnalysisPrompt(p2, req);
    ConsultTwice(m, TechnicalAnalyst, q1, q2, "analysis", reg, resources, r1, r2);
  }
}
