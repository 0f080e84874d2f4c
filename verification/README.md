# Forgebase core, modelled in Dafny

Forgebase helps a user write a product requirements document (PRD) by
chatting with an AI facilitator. A Python backend stores projects and streams
agent replies to a TypeScript client as server-sent events.

This project models the parts of that system that decide behaviour:

- the `Project` entity and its exceptions;
- the repository port and the in-memory repository, whose listing is a stable
  newest-first sort;
- the two project services: the unified `ForgebaseService`, which takes id
  text and validates names, and the older `ProjectService`;
- the agent role configuration and the tool registry;
- the nine tools and the PRD plugin;
- the agents: the stub, the tool-aware agent, the role-configured agent, the
  plain Semantic Kernel agent and their streaming base class;
- the agent factory and its per-role cache;
- the multi-agent orchestrator, and the dependency setup in `config.py`;
- the pure parts of the web layer: CORS origins, SSE framing, the project
  context rule and the HTTP status mapping;
- on the client: the SSE helpers, the API service's error classification
  and stream reader, and the chat and project-list hooks. The reader is
  modelled as written; a corrected reader sits beside it for the findings
  below. The chat hook uses the reader as written.

Operations are pure functions over immutable datatypes. Each stateful object
becomes a value that an operation returns a new copy of. The repository is a
map plus the insertion order of its keys, because Python dictionaries keep
that order and both `get_all` ties and `list_available_tools` show it.

Some inputs are parameters:

- Clock readings are natural numbers passed to each operation.
- Fresh ids (`uuid4`, `crypto.randomUUID`) are passed in by the caller.
- Environment variables are an `Env` value.
- Instruction files are a map from path to text.
- The chat backend is the sequence of responses it streams back, and an
  optional exception it raises after them.

Agent identity matters to the factory and the orchestrator: the same cached
instance comes back, and a new one appears after `clear_cache`. Agents
therefore live in a heap (a map from instance id to agent), and the cache maps
each role to an instance id.

## Model

| member | source | states |
|---|---|---|
| Entities.UpdateName | backend/src/forgebase/core/entities.py:37-45 | the name becomes the new one and `updated_at` becomes now; the id, the creation time and the PRD text are kept |
| Entities.UpdatePrd | backend/src/forgebase/core/service.py:134-135 | the PRD becomes the new text and `updated_at` becomes now; the id, the creation time and the name are kept |
| Entities.CreateThenRename | backend/src/forgebase/core/entities.py:23-45 | a new project has the given name, is stamped now and is not yet updated; a later rename keeps id and creation time and orders the stamps |
| Entities.UpdatesKeepStampsOrdered | backend/src/forgebase/core/entities.py:34-45 | with a clock that never goes back, `updated_at >= created_at` survives any rename or PRD change |
| Errors.Message | backend/src/forgebase/core/exceptions.py:11-33 | both project errors' messages start with "Project with ID " followed by the id they carry |
| Errors.ProjectErrorMessages | backend/src/forgebase/core/exceptions.py:4-34 | exact message texts; each message contains the id; the id is retained; neither error is a `ValueError` |
| Repository.Empty | backend/src/forgebase/infrastructure/project_repository.py:19-21 | a new repository is valid and empty |
| Repository.Create | backend/src/forgebase/infrastructure/project_repository.py:23-40 | a duplicate id raises `ProjectAlreadyExists` and changes nothing; a fresh id adds exactly that entry, returns the project and leaves other entries alone |
| Repository.GetById | backend/src/forgebase/infrastructure/project_repository.py:42-52 | `Some` iff the id is stored, and then the stored project with that id |
| Repository.InsertNewest | backend/src/forgebase/infrastructure/project_repository.py:62 | inserting into a newest-first list keeps it newest first and adds exactly that element |
| Repository.SortNewestFirst | backend/src/forgebase/infrastructure/project_repository.py:62 | the result is newest first, a permutation of the input, and keeps input order among equal timestamps |
| Repository.StableSortUnique | backend/src/forgebase/infrastructure/project_repository.py:62 | two newest-first lists that are stable for each other are equal, so the stable sort has exactly one result |
| Repository.Values | backend/src/forgebase/infrastructure/project_repository.py:61 | the stored values in insertion order, one per key |
| Repository.GetAll | backend/src/forgebase/infrastructure/project_repository.py:54-62 | newest first, a permutation of the stored values, ties in insertion order |
| Repository.Update | backend/src/forgebase/infrastructure/project_repository.py:64-81 | an absent id raises `ProjectNotFound` and changes nothing; a present id replaces only that entry and keeps the order |
| Repository.Without | backend/src/forgebase/infrastructure/project_repository.py:93-94 | removing a key from the order keeps every other key, in order, and keeps distinctness |
| Repository.Delete | backend/src/forgebase/infrastructure/project_repository.py:83-96 | true iff the id was present; afterwards it is absent and all other entries are unchanged |
| Repository.InMemoryRefinesPort | backend/src/forgebase/core/ports.py:44-113 | the in-memory repository meets each contract of the repository port |
| Repository.CreateThenDelete | backend/src/forgebase/infrastructure/project_repository.py:36-96 | creating a fresh id and deleting it restores the original repository |
| Repository.ListNewestFirstAfterCreates | backend/src/forgebase/infrastructure/project_repository.py:54-62 | three projects created oldest first are listed newest first |
| Uuids.LowerHex | backend/src/forgebase/core/service.py:76 | a hex digit maps to its lower-case form; a lower-case digit is kept |
| Uuids.RemoveChar | backend/src/forgebase/core/service.py:76 | every occurrence of the character is dropped, and text without it is unchanged |
| Uuids.ParseUuid | backend/src/forgebase/core/service.py:75-80 | an id text is accepted iff, once its prefixes, braces and hyphens are removed, it is exactly 32 hex digits; the value is those digits in lower case |
| Uuids.FormatUuid | backend/src/forgebase/interfaces/web.py:244 | `str(uuid)` is 36 characters with hyphens at 8, 13, 18 and 23 |
| Uuids.ParseFormat | backend/src/forgebase/interfaces/web.py:244 | parsing the text form of a UUID gives the UUID back |
| Environment.CredentialsOf | backend/src/forgebase/infrastructure/config.py:26-37 | a complete environment yields its three settings unchanged, all non-empty |
| AgentConfig.RoleFromValue | backend/src/forgebase/core/agent_config.py:8-14 | a role found for an enum value has that value |
| AgentConfig.RoleValueRoundTrip | backend/src/forgebase/core/agent_config.py:8-14 | enum values and roles correspond one to one |
| AgentConfig.GetAgentConfig | backend/src/forgebase/core/agent_config.py:30-68 | total; each configuration belongs to its role with its description; no tool is listed twice; only the facilitator is user-facing; `get_project_data` is bound to exactly the background roles |
| AgentConfig.RolesWhere | backend/src/forgebase/core/agent_config.py:71-78 | keeps exactly the roles with the requested user-facing flag |
| AgentConfig.AllRolesListed | backend/src/forgebase/core/agent_config.py:30-63 | every role has a configuration, listed once, with distinct enum values |
| AgentConfig.RolesPartition | backend/src/forgebase/core/agent_config.py:71-78 | the facilitator is the only user-facing role; the two lists are disjoint and together cover all four roles |
| ToolRegistry.Empty | backend/src/forgebase/core/tool_registry.py:31-32 | a new registry is valid and empty |
| ToolRegistry.Register | backend/src/forgebase/core/tool_registry.py:34-36 | the tool is stored under its name and overwrites any previous one; a new name is listed last |
| ToolRegistry.GetTool | backend/src/forgebase/core/tool_registry.py:38-42 | the registered tool, or a `ValueError` naming the tool iff it is absent |
| ToolRegistry.FirstMissing | backend/src/forgebase/core/tool_registry.py:44-46 | the first unregistered name, or none iff all are registered |
| ToolRegistry.GetToolsForAgent | backend/src/forgebase/core/tool_registry.py:44-46 | fails on the first unregistered name; otherwise the keys are exactly the names and each maps to its registered tool |
| ToolRegistry.ListAvailableTools | backend/src/forgebase/core/tool_registry.py:48-50 | every registered name exactly once |
| ToolRegistry.LastRegistrationWins | backend/src/forgebase/core/tool_registry.py:34-36 | re-registering a name keeps the later tool, does not grow the listing and leaves other names alone |
| Tools.ToolNamed | backend/src/forgebase/infrastructure/tools.py:33-35 | a tool found by name carries that name |
| Tools.NamesIdentifyTools | backend/src/forgebase/infrastructure/tools.py:33-278 | every tool is listed once, and its name finds it and only it |
| Tools.NamesDistinct | backend/src/forgebase/infrastructure/tools.py:33-278 | the nine names are pairwise distinct |
| Tools.Missing | backend/src/forgebase/infrastructure/tools.py:16-261 | the absent arguments are exactly the parameters without a default that the call does not pass, in declaration order (at most two) |
| Tools.Absent | backend/src/forgebase/infrastructure/tools.py:16-261 | the listed parameters a call does not pass, in order: a parameter is absent iff it is listed and not given |
| Tools.ProjectDataResult | backend/src/forgebase/infrastructure/tools.py:16-30 | no id or an empty id gives every project; malformed text gives "Invalid project ID format"; a well-formed id gives the project or "Project not found" |
| Tools.Execute | backend/src/forgebase/infrastructure/tools.py:16-273 | raises `TypeError` iff a required argument is missing; otherwise returns a dictionary |
| Tools.SavePrdReportsLength | backend/src/forgebase/infrastructure/tools.py:50-88 | the PRD-saving tools report `content_length` equal to the content's length and echo the id |
| Tools.ToolsEchoProjectId | backend/src/forgebase/infrastructure/tools.py:173-273 | the id-taking tools return the given `project_id` unchanged |
| Tools.AnalysisEchoesType | backend/src/forgebase/infrastructure/tools.py:108-122 | the codebase analysis echoes its analysis type, "structure" by default, and the id |
| Tools.MissingArgumentRaises | backend/src/forgebase/infrastructure/tools.py:16-261 | a call with no arguments fails for every tool except `ProjectDataTool` |
| Tools.ExecuteNeedsRequired | backend/src/forgebase/infrastructure/tools.py:16-261 | a call succeeds iff it passes every parameter without a default; otherwise the `TypeError` names the absent ones in declaration order |
| PrdTools.NewPrdTools | backend/src/forgebase/tools/prd_tools.py:13-18 | the initial context and user id are the constructor's arguments |
| PrdTools.SetProjectContext | backend/src/forgebase/tools/prd_tools.py:28-31 | the context becomes exactly the given value, `None` included; the user id is kept |
| PrdTools.UpdatePrd | backend/src/forgebase/tools/prd_tools.py:36-56 | no service call iff there is no context, and then the no-context message; otherwise one call with the context, the user id and the text; a `ValueError` becomes "Error updating PRD: …" and other errors propagate |
| PrdTools.ContextRoutesUpdates | backend/src/forgebase/tools/prd_tools.py:28-56 | after setting a context the update goes to that project; after clearing it (to `None` or "") no call is made; a project error propagates |
| Agents.StreamFilter | backend/src/forgebase/infrastructure/base_sk_agent.py:35-43 | at most one chunk per response, and never an empty one |
| Agents.StreamFilterAppend | backend/src/forgebase/infrastructure/agent.py:76-83 | filtering works response by response: the chunks of a concatenation are the chunks of each part |
| Agents.StreamFilterSingle | backend/src/forgebase/infrastructure/sk_agent.py:63-70 | one response yields its text iff it has non-empty text |
| Agents.StreamFilterMembers | backend/src/forgebase/infrastructure/configurable_agent.py:91-98 | a text is yielded iff some response carries it and it is not empty |
| Agents.Continue | backend/src/forgebase/infrastructure/agent.py:73-74 | the first send creates the thread; later sends extend the same thread by the new message |
| Agents.NewStub | backend/src/forgebase/infrastructure/stub_agent.py:7-43 | the stub keeps no thread |
| Agents.NewConversational | backend/src/forgebase/infrastructure/agent.py:19-60 | the agent keeps its settings and role, starts without a thread, and a missing tool list is empty |
| Agents.NewSemanticKernel | backend/src/forgebase/infrastructure/sk_agent.py:17-47 | the agent keeps its settings and role and starts without a thread |
| Agents.NewConfigurable | backend/src/forgebase/infrastructure/configurable_agent.py:29-74 | construction fails iff a configured tool is unregistered, with the registry's error; otherwise the agent carries its configuration, has no thread, and uses the instructions resource or else "You are a {name}. {description}" |
| Agents.Send | backend/src/forgebase/infrastructure/agent.py:62-83 | the stub returns its fixed five chunks and does not change; any other agent extends its thread and yields exactly the filtered response texts (also `configurable_agent.py` 76-98 and `sk_agent.py` 49-70) |
| Agents.SendUntil | backend/src/forgebase/infrastructure/agent.py:73-83 | a backend failure after some responses reaches the caller after the chunks already yielded, and the thread created for the message stays; the stub cannot fail |
| Agents.SendUntilAgrees | backend/src/forgebase/infrastructure/agent.py:73-83 | a failing stream changes the agent exactly as the plain send does; an error comes out iff a non-stub backend raises |
| Agents.Reset | backend/src/forgebase/infrastructure/agent.py:85-87 | a non-stub agent drops its thread; the stub is unchanged |
| Agents.AvailableTools | backend/src/forgebase/infrastructure/agent.py:94-97 | plugin names in construction order for the tool-aware agent; the configured tool list for the configured agent; empty for the stub and the plain agent |
| Agents.IsUserFacing | backend/src/forgebase/infrastructure/configurable_agent.py:114-116 | only the configured agent answers, with its configuration's flag |
| Agents.ForwardContext | backend/src/forgebase/infrastructure/agent.py:99-103 | every plugin that can follow a context gets the new one; the others are unchanged |
| Agents.SetProjectContext | backend/src/forgebase/infrastructure/agent.py:99-103 | forwards the context to each PRD plugin and changes neither the thread nor the tool list |
| Agents.ThreadLifecycle | backend/src/forgebase/infrastructure/agent.py:60-87 | the thread starts empty, the first send creates it, the next reuses it, and reset drops it idempotently |
| Agents.StubReplyText | backend/src/forgebase/infrastructure/stub_agent.py:22-43 | the stub's chunks read "This is a stub reply." whatever the input; resets change nothing; role "stub", no tools |
| Agents.ConfiguredAccessors | backend/src/forgebase/infrastructure/configurable_agent.py:104-116 | role is the configuration's enum value, tools are its tool list, and the user-facing flag is its flag, before and after a send or reset |
| Agents.NewBaseAgent | backend/src/forgebase/infrastructure/base_sk_agent.py:14-17 | a fresh base agent has no backend and no thread |
| Agents.StreamResponse | backend/src/forgebase/infrastructure/base_sk_agent.py:19-43 | without a backend it raises `RuntimeError` before any thread exists; with one it extends the thread and yields the filtered texts |
| Agents.ResetBase | backend/src/forgebase/infrastructure/base_sk_agent.py:45-47 | reset drops the thread and keeps the backend |
| Agents.BaseAgentLifecycle | backend/src/forgebase/infrastructure/base_sk_agent.py:14-47 | a fresh base agent refuses to stream; with a backend the thread is created lazily and then reused |
| ChatService.SendMessageStream | backend/src/forgebase/core/chat_service.py:24-34 | the stub's fixed reply with nothing changed, or the non-empty response texts in order with the message added to the agent's thread; a backend failure comes out unchanged |
| ChatService.ResetChat | backend/src/forgebase/core/chat_service.py:36-38 | the same agent with no conversation thread; the stub is unchanged |
| ChatService.ForwardedConversation | backend/src/forgebase/core/chat_service.py:16-38 | a conversation through the service is the agent's own: the thread grows by each message and reset drops it |
| ChatService.FailureKeepsThread | backend/src/forgebase/core/chat_service.py:24-34 | a failed message is not rolled back: its error comes out and the next message continues the thread holding it |
| ForgebaseService.SendMessageStream | backend/src/forgebase/core/service.py:25-35 | the stub's fixed reply with nothing changed, or the non-empty response texts in order with the message added to the thread; a backend failure comes out unchanged |
| ForgebaseService.ResetChat | backend/src/forgebase/core/service.py:37-39 | the same agent with no conversation thread; the stub is unchanged |
| ForgebaseService.ChatLikeChatService | backend/src/forgebase/core/service.py:25-39 | chat through this service answers and changes the agent exactly as `ChatService` does; a reset after a first message gives back the fresh agent |
| ForgebaseService.ValidateName | backend/src/forgebase/core/service.py:55-58 | "cannot be empty" iff the name is empty or only whitespace; otherwise "too long" iff longer than 255; 255 is accepted |
| ForgebaseService.CreateProject | backend/src/forgebase/core/service.py:42-61 | an invalid name is refused before anything is stored; a duplicate id raises `ProjectAlreadyExists`; otherwise a new unmodified project with the name and PRD text is stored under the id |
| ForgebaseService.GetProject | backend/src/forgebase/core/service.py:63-85 | malformed id text raises "Invalid project ID format"; a well-formed id finds the project iff it is stored; every failure is `ProjectNotFound` |
| ForgebaseService.ListProjects | backend/src/forgebase/core/service.py:87-93 | the repository's `get_all` unchanged: a stable newest-first permutation of the stored projects |
| ForgebaseService.ApplyChanges | backend/src/forgebase/core/service.py:131-136 | a given field is written; `updated_at` moves only when a given field differs from the stored one |
| ForgebaseService.UpdateProject | backend/src/forgebase/core/service.py:95-137 | checks the id format, then the new name, then existence, and changes nothing on error; otherwise only that project is replaced |
| ForgebaseService.DeleteProject | backend/src/forgebase/core/service.py:139-158 | malformed id text is an error; otherwise the result says whether the project was there, and it is gone afterwards |
| ForgebaseService.CreateThenGet | backend/src/forgebase/core/service.py:42-85 | a created project is found again under the text form of its id |
| ForgebaseService.UpdateThenGet | backend/src/forgebase/core/service.py:95-137 | a rename read back has the new name and stamp, and the old creation time and PRD |
| ForgebaseService.UpdateWithoutChangeIsIdentity | backend/src/forgebase/core/service.py:131-137 | an update that changes nothing leaves the repository as it was, `updated_at` included |
| ForgebaseService.DeleteThenGet | backend/src/forgebase/core/service.py:139-158 | after a delete the project is not found, and a second delete reports false |
| ProjectService.CreateProject | backend/src/forgebase/core/project_service.py:28-39 | any name is stored, the empty one included; a duplicate id raises |
| ProjectService.GetProject | backend/src/forgebase/core/project_service.py:41-57 | `ProjectNotFound` carrying the id iff the project is absent; otherwise the stored project |
| ProjectService.GetProjectOptional | backend/src/forgebase/core/project_service.py:59-69 | the same lookup, with absence as `None` instead of an error |
| ProjectService.ListProjects | backend/src/forgebase/core/project_service.py:71-78 | the repository's `get_all` unchanged: a stable newest-first permutation of the stored projects |
| ProjectService.UpdateProject | backend/src/forgebase/core/project_service.py:80-96 | an absent id raises before any write; a present one is renamed and stamped even if the name is unchanged |
| ProjectService.DeleteProject | backend/src/forgebase/core/project_service.py:98-108 | the repository's result: whether the project was there |
| ProjectService.SameNameStillStamps | backend/src/forgebase/core/project_service.py:95-96 | renaming to the current name still moves `updated_at` |
| ProjectService.CreateRenameGet | backend/src/forgebase/core/project_service.py:28-96 | create, rename and read back give the new name and the original creation time |
| AgentFactory.NewFactory | backend/src/forgebase/infrastructure/agent_factory.py:15-27 | a new factory has an empty cache and the environment of the moment |
| AgentFactory.CreateAgent | backend/src/forgebase/infrastructure/agent_factory.py:29-55 | a cached role returns its instance and changes nothing; otherwise a new instance built for the role is cached under that role only |
| AgentFactory.Build | backend/src/forgebase/infrastructure/agent_factory.py:36-51 | the stub when a setting is blank; otherwise the configured agent for the role, failing iff one of its tools is unregistered |
| AgentFactory.AddKeepsValid | backend/src/forgebase/infrastructure/agent_factory.py:54 | caching a new agent built for a role keeps every cache entry pointing at an agent built for its role |
| AgentFactory.SameKindKeepsValid | backend/src/forgebase/infrastructure/agent_factory.py:32-33 | a cached agent that has sent or reset is still the agent built for its role |
| AgentFactory.GetPrdFacilitator | backend/src/forgebase/infrastructure/agent_factory.py:57-59 | the cached facilitator is handed out unchanged; otherwise an agent built for the role is cached under a new identity; the stub never fails, and a configured facilitator is user-facing |
| AgentFactory.GetTechnicalAnalyst | backend/src/forgebase/infrastructure/agent_factory.py:61-63 | the cached analyst is handed out unchanged; otherwise an agent built for the role is cached under a new identity; the stub never fails, and a configured analyst is not user-facing |
| AgentFactory.GetDataCollector | backend/src/forgebase/infrastructure/agent_factory.py:65-67 | the cached collector is handed out unchanged; otherwise an agent built for the role is cached under a new identity; the stub never fails, and a configured collector is not user-facing |
| AgentFactory.GetRequirementsValidator | backend/src/forgebase/infrastructure/agent_factory.py:69-71 | the cached validator is handed out unchanged; otherwise an agent built for the role is cached under a new identity; the stub never fails, and a configured validator is not user-facing |
| AgentFactory.ClearCache | backend/src/forgebase/infrastructure/agent_factory.py:73-75 | the cache is empty; agents already handed out live on |
| AgentFactory.SameInstanceTwice | backend/src/forgebase/infrastructure/agent_factory.py:32-33 | asking twice for a role without clearing returns the same instance and changes nothing |
| AgentFactory.ClearBuildsNewInstance | backend/src/forgebase/infrastructure/agent_factory.py:73-75 | after `clear_cache` a previously cached role gets a new instance |
| AgentFactory.StubOrConfigured | backend/src/forgebase/infrastructure/agent_factory.py:40-51 | with a blank setting every request gives the stub; otherwise the configured agent for the role |
| MultiAgent.New | backend/src/forgebase/core/multi_agent_service.py:18-24 | construction succeeds iff the facilitator can be built; its instance becomes the main agent and is cached |
| MultiAgent.SendTo | backend/src/forgebase/core/multi_agent_service.py:36-37 | sending to one instance changes that instance only and yields its chunks |
| MultiAgent.SendMessageStream | backend/src/forgebase/core/multi_agent_service.py:26-37 | exactly the main agent's chunks; only the main agent's state changes |
| MultiAgent.Reset | backend/src/forgebase/core/multi_agent_service.py:39-43 | the main agent is reset, then the cache is emptied |
| MultiAgent.Ask | backend/src/forgebase/core/multi_agent_service.py:58-72 | the report joins the agent's chunks and names its role and tools; only that agent changes |
| MultiAgent.Consult | backend/src/forgebase/core/multi_agent_service.py:45-72 | succeeds iff the role's agent can be built or is cached, and then reports that agent's reply |
| MultiAgent.ConsultReport | backend/src/forgebase/core/multi_agent_service.py:45-122 | a consultation fails only when a configured agent must be built and cannot be; otherwise its report is the joined reply under the key with the agent's role and tools, and the cached agent was last asked the prompt |
| MultiAgent.AskReport | backend/src/forgebase/core/multi_agent_service.py:58-72 | the report of one prompt to a cached agent, and that agent's thread ending with the prompt |
| MultiAgent.AnalyzeTechnicalRequirements | backend/src/forgebase/core/multi_agent_service.py:45-72 | fails only when a configured analyst cannot be built; otherwise the report holds the analyst's joined reply under `analysis` with its role and tools, and the cached analyst was last asked the analysis prompt |
| MultiAgent.CollectProjectData | backend/src/forgebase/core/multi_agent_service.py:74-96 | fails only when a configured collector cannot be built; otherwise the report holds the collector's joined reply under `collected_data` with its role and tools, and the cached collector was last asked the collection prompt |
| MultiAgent.ValidateRequirements | backend/src/forgebase/core/multi_agent_service.py:98-122 | fails only when a configured validator cannot be built; otherwise the report holds the validator's joined reply under `validation_result` with its role and tools, and the cached validator was last asked the validation prompt |
| MultiAgent.GetAvailableAgents | backend/src/forgebase/core/multi_agent_service.py:124-128 | four entries, one per role in definition order, each its enum value and description |
| MultiAgent.DistinctKeys | backend/src/forgebase/core/multi_agent_service.py:126 | entries of distinct roles have distinct keys |
| MultiAgent.AvailableAgentsListed | backend/src/forgebase/core/multi_agent_service.py:124-128 | every role's entry is listed and no key repeats |
| MultiAgent.ResetForgetsFacilitator | backend/src/forgebase/core/multi_agent_service.py:39-43 | after reset the factory's facilitator is a new instance, distinct from the main agent |
| MultiAgent.FirstConsultation | backend/src/forgebase/core/multi_agent_service.py:45-72 | a first consultation builds the role's agent, whose thread then holds the prompt |
| MultiAgent.LaterConsultation | backend/src/forgebase/core/multi_agent_service.py:45-72 | a later consultation reuses the cached agent and extends its thread |
| MultiAgent.ConsultTwice | backend/src/forgebase/core/multi_agent_service.py:45-122 | the second consultation reaches the agent built by the first, which then holds both prompts |
| MultiAgent.SecondConsultation | backend/src/forgebase/core/multi_agent_service.py:45-122 | consulting a cached agent with one prompt leaves it with both prompts |
| MultiAgent.SpecialistRemembers | backend/src/forgebase/core/multi_agent_service.py:45-72 | the analyst keeps its conversation between two analyses |
| Config.GetAgent | backend/src/forgebase/infrastructure/config.py:16-37 | the stub iff a setting is blank; otherwise the backend agent with exactly the three settings, and no thread |
| Config.RegisterAll | backend/src/forgebase/infrastructure/config.py:71-79 | registering keeps the registry valid |
| Config.RegisterAllBinds | backend/src/forgebase/infrastructure/config.py:71-79 | each registered kind's name maps to a tool of that kind over the repository; other names keep their tools |
| Config.RegisterTools | backend/src/forgebase/infrastructure/config.py:57-79 | every one of the nine tool names maps to its tool over the given repository |
| Config.NamesOf | backend/src/forgebase/infrastructure/config.py:71-79 | the names of the tools, position by position |
| Config.RegisterAllAppends | backend/src/forgebase/infrastructure/config.py:71-79 | registering tools with distinct new names appends exactly their names to the listing |
| Config.RegisterFromEmpty | backend/src/forgebase/infrastructure/config.py:71-79 | registering into an empty registry lists exactly the registered names, in order |
| Config.RegisterToolsListing | backend/src/forgebase/infrastructure/config.py:57-79 | after `_register_tools` on a new registry, the listing is the nine names in declaration order |
| Config.ConfiguredToolsResolve | backend/src/forgebase/infrastructure/config.py:71-79 | every tool name of every role's configuration resolves after `_register_tools`, to a tool bound to the repository |
| Config.ConfiguredNamesAreTools | backend/src/forgebase/core/agent_config.py:30-63 | every tool name a role's configuration lists names one of the nine tools |
| Config.GetMultiAgentService | backend/src/forgebase/infrastructure/config.py:40-54 | the tools are registered over the fresh repository before the service is built, and the service is built over the same repository |
| Web.CorsOrigins | backend/src/forgebase/interfaces/web.py:81-104 | a non-empty `CORS_ORIGINS` gives its comma-split, stripped pieces, commas + 1 of them; otherwise host × port pairs in host-major order, adding 127.0.0.1 iff the host is localhost |
| Web.DefaultCorsOrigins | backend/src/forgebase/interfaces/web.py:88-104 | with nothing set, exactly the four localhost and 127.0.0.1 origins on ports 5173 and 5174 |
| Web.EscapeCons | backend/src/forgebase/interfaces/web.py:173 | escaping works character by character, a newline becoming backslash-n |
| Web.EscapeNoNewline | backend/src/forgebase/interfaces/web.py:173-174 | an escaped chunk holds no newline |
| Web.EscapeShape | backend/src/forgebase/interfaces/web.py:173 | escaping keeps empty text empty, leaves newline-free text unchanged, and otherwise introduces a backslash |
| Web.Frame | backend/src/forgebase/interfaces/web.py:173-174 | an event is `data: `, a one-line payload that is empty iff the chunk is, and a blank line |
| Web.Stream | backend/src/forgebase/interfaces/web.py:170-176 | the body ends with the `data: [DONE]` terminator |
| Web.Generate | backend/src/forgebase/interfaces/web.py:170-176 | a stream that ends normally gives the events and the terminator; one that raises gives only the events already yielded, with no terminator, and the error comes out |
| Web.FramesShape | backend/src/forgebase/interfaces/web.py:170-176 | the events of a reply end at an event boundary and are a prefix of the full body |
| Web.ChatContext | backend/src/forgebase/interfaces/web.py:164-168 | the context is set to the id's text when an id is given and left untouched otherwise |
| Web.ContextNamesProject | backend/src/forgebase/interfaces/web.py:164-168 | the context set reads back as the given id; a later request without an id keeps it, one with an id replaces it |
| Web.ProjectPath | backend/src/forgebase/interfaces/web.py:237-238 | a path segment is accepted iff it parses as a UUID, and then it names the same UUID; otherwise 422 |
| Web.CreateResponse | backend/src/forgebase/interfaces/web.py:211-217 | a duplicate becomes 409 with the error's message; other errors propagate |
| Web.FoundResponse | backend/src/forgebase/interfaces/web.py:243-249 | a missing project becomes 404 with the error's message; other errors propagate |
| Web.DeleteResponse | backend/src/forgebase/interfaces/web.py:279-286 | `deleted` iff the project was removed, otherwise 404 "Project not found" |
| Web.ErrorStatuses | backend/src/forgebase/interfaces/web.py:216-270 | a duplicate is a 409 and a missing project a 404, each carrying the exception's text; neither handler catches the other's error |
| Web.StatusMapping | backend/src/forgebase/interfaces/web.py:203-286 | for every outcome: a route answers with an error status iff the outcome is its own error kind (409 duplicate, 404 missing), carrying the error's message; a success is the project; other errors propagate |
| Text.SplitOn | frontend/src/utils/chat.ts:23 | at least one field, and no field contains the separator |
| Text.SplitJoin | frontend/src/utils/chat.ts:23 | joining the fields with the separator gives the input back |
| Text.SplitAppend | frontend/src/services/api.ts:111-115 | appending text to a buffer only extends its last field |
| Text.Trim | backend/src/forgebase/core/service.py:55 | the result is empty iff the text is all whitespace, and otherwise neither starts nor ends with whitespace |
| SseClient.UnescapeStep | frontend/src/utils/chat.ts:17-19 | unescaping turns a leading backslash-n into a newline and keeps any other character |
| SseClient.UnescapeEscape | frontend/src/utils/chat.ts:17-19 | unescaping undoes the server's escaping iff the chunk did not already contain backslash-n |
| SseClient.LinePayload | frontend/src/utils/chat.ts:27-31 | a line contributes one chunk iff it starts with `data: ` and its payload is neither empty nor `[DONE]`, and then the unescaped payload |
| SseClient.PayloadsAppend | frontend/src/utils/chat.ts:26-33 | the payloads of concatenated lines are the payloads of each part |
| SseClient.ExtractSseChunks | frontend/src/utils/chat.ts:22-35 | the remaining buffer is the text after the last newline; a buffer without a newline yields nothing and remains whole |
| SseClient.OtherLinesIgnored | frontend/src/utils/chat.ts:27 | lines that are not `data:` lines contribute nothing |
| SseClient.StreamLines | backend/src/forgebase/interfaces/web.py:170-176 | the body's lines are each chunk's `data:` line and a blank line, then the terminator line |
| SseClient.KeptChunk | frontend/src/utils/chat.ts:29 | the client keeps a sent chunk iff the chunk is neither empty nor `[DONE]` |
| SseClient.FrameLinesDecode | frontend/src/utils/chat.ts:22-35 | the client recovers exactly the sent chunks iff every one is transportable |
| SseClient.RoundTrip | frontend/src/utils/chat.ts:22-35 | for a whole reply body nothing remains in the buffer, and the chunks come back unchanged iff every one is transportable |
| ApiClient.HandleError | frontend/src/services/api.ts:50-68 | a server answer keeps its status and its truthy detail, else "Server error occurred"; a request without an answer is a network error with status 0; anything else has no status and keeps its message, else "Unknown error occurred" |
| ApiClient.NotOkMessage | frontend/src/services/api.ts:92-95 | an unreadable body gives "Unknown error"; a truthy detail is the message; otherwise "HTTP " and the status |
| ApiClient.ClientMessagesAgree | frontend/src/services/api.ts:50-95 | `handleError` and `streamChat` read a server error's non-empty detail the same way; without one they report the generic text and the status respectively |
| ApiClient.RouteErrorsReachClient | frontend/src/services/api.ts:50-68 | a 404 or 409 a project route answers with reaches the client with its status and the error's message, which names the project's id |
| ApiClient.TrimmedLineData | frontend/src/services/api.ts:117-126 | a line yields one chunk iff its trimmed form starts with `data: `, is not the terminator and has a non-empty payload; that chunk is the trimmed payload |
| ApiClient.LeftoverSameRule | frontend/src/services/api.ts:131-138 | the leftover buffer is read by the same rule as a complete line |
| ApiClient.TrimmedLinesAppend | frontend/src/services/api.ts:117-127 | the as-written reader's chunks of concatenated lines are those of each part |
| ApiClient.TrimmedReadStep | frontend/src/services/api.ts:111-127 | one read of the as-written loop yields the chunks of the lines it completes |
| ApiClient.StreamChatAsWritten | frontend/src/services/api.ts:80-147 | a response that is not OK throws its message; no body reader throws "Failed to get response reader"; otherwise the chunks of the whole body by the trimming rule, however it is split into reads |
| ApiClient.LineDataVisible | frontend/src/services/api.ts:118-123 | a chunk of the as-written reader never ends in whitespace |
| ApiClient.TrimmedPayloads | frontend/src/services/api.ts:117-127 | no chunk of the as-written reader ends in whitespace |
| ApiClient.SingleChunkBody | frontend/src/services/api.ts:105-139 | a one-chunk reply yields what its `data:` line yields under the trimming rule |
| ApiClient.TrimmingDropsSpaces | frontend/src/services/api.ts:118 | the reply chunk "a " reaches the caller as "a" |
| ApiClient.TrimmingKeepsEscapes | frontend/src/services/api.ts:117-126 | the reply chunk with a newline, `"a\nb"`, reaches the caller still escaped, as a backslash and `n` |
| ApiClient.SameStreamEscaped | backend/src/forgebase/interfaces/web.py:170-176 | a one-chunk reply is sent exactly as the reply of its escaped form |
| ApiClient.ReadStep | frontend/src/utils/chat.ts:22-35 | one read through `extractSseChunks` yields the payloads of the lines it completes and keeps the rest |
| ApiClient.StreamChatCorrected | frontend/src/utils/chat.ts:22-35 | the corrected reader, which the program does not use: the same errors as `streamChat`; otherwise the payloads of the whole body by `extractSseChunks`, however it is split into reads |
| ApiClient.ReaderRoundTrip | frontend/src/utils/chat.ts:22-35 | the corrected reader returns exactly the sent chunks iff every one is transportable |
| ApiClient.TrimmingLosesTransportable | frontend/src/services/api.ts:118 | "a " is transportable; the corrected reader keeps it and the as-written one does not |
| ApiClient.CorrectedUnescapes | frontend/src/utils/chat.ts:17-19 | the chunk `"a\nb"` is transportable; the corrected reader restores its newline and the as-written one does not |
| UseProjects.Initial | frontend/src/hooks/useProjects.ts:13-14 | no projects and no selection |
| UseProjects.CreateProject | frontend/src/hooks/useProjects.ts:16-25 | the new project goes first with the trimmed name, the id and the time, and is selected; the others are unchanged |
| UseProjects.Without | frontend/src/hooks/useProjects.ts:28 | exactly the entries with another id |
| UseProjects.WithoutAppend | frontend/src/hooks/useProjects.ts:28 | filtering a concatenation filters each part |
| UseProjects.WithoutAbsent | frontend/src/hooks/useProjects.ts:28 | a list without the id is unchanged |
| UseProjects.DeleteProject | frontend/src/hooks/useProjects.ts:27-34 | every entry with the id goes, the others stay; the selection is cleared iff it was that id |
| UseProjects.DeleteIdempotent | frontend/src/hooks/useProjects.ts:27-34 | deleting twice is deleting once, and deleting an unlisted id keeps the list |
| UseProjects.SelectProject | frontend/src/hooks/useProjects.ts:36-38 | the selection is set, listed or not, and the list is unchanged |
| UseProjects.CreateThenDelete | frontend/src/hooks/useProjects.ts:16-34 | creating under a fresh id and deleting it restores the list and clears the selection |
| UseProjects.SelectUnlistedThenDelete | frontend/src/hooks/useProjects.ts:27-38 | selecting an unlisted id and deleting it clears the selection and keeps the list |
| UseChat.AddMessage | frontend/src/hooks/useChat.ts:13-20 | one message at the end, the earlier ones unchanged |
| UseChat.UpdateLastMessage | frontend/src/hooks/useChat.ts:22-33 | the last message's content is replaced iff it is an assistant message; nothing else changes |
| UseChat.UpdateLastWins | frontend/src/hooks/useChat.ts:22-33 | only the latest update counts, and updating a fresh empty assistant message gives that message with the content |
| UseChat.ShouldSend | frontend/src/hooks/useChat.ts:89-93 | a message is sent, trimmed, iff it is not all whitespace and nothing is streaming |
| UseChat.Send | frontend/src/hooks/useChat.ts:35-74 | the user message and one assistant message are added; the assistant's content is the joined chunks, or the apology on failure; streaming is off afterwards |
| UseChat.SendMessage | frontend/src/hooks/useChat.ts:35-93 | a refused message changes nothing; otherwise the trimmed text is sent and the assistant message holds the joined chunks `streamChat` yields by its trimming rule, or the apology when the request fails |
| UseChat.SendMessageCorrected | frontend/src/utils/chat.ts:22-35 | the same hook over the corrected reader, which the program does not use: the assistant message holds the joined payloads `extractSseChunks` reads |
| UseChat.ShownReplyTrimmed | frontend/src/hooks/useChat.ts:58-64 | the hook shows the one-chunk reply `"a "` as `"a"`; over the corrected reader it shows `"a "` |
| UseChat.ReplyShown | frontend/src/utils/chat.ts:22-35 | over the corrected reader the user sees the server's whole reply, chunk for chunk, when every chunk is transportable |
| UseChat.ResetChat | frontend/src/hooks/useChat.ts:81-85 | a successful reset empties the list; a failed one changes nothing |

## Left out

- Network, HTTP serving, FastAPI request validation beyond UUID path parsing, and JSON serialisation are not modelled.
- Logging, debug printing and the 50 ms rendering delay in the chat hook are not modelled.
- The Azure OpenAI / Semantic Kernel calls are a parameter: the sequence of responses one call streams back.
- Clocks, `uuid4` and `crypto.randomUUID` are parameters. The generation of message ids in the chat hook is a parameter too.
- Instruction files are a map from path to text. Reading them is I/O.
- Kernel and plugin registration (`register_with_kernel`) is left out because it only hands objects to the Semantic Kernel library.
- Concurrency and async scheduling are left out; every operation runs to completion.
- Web.ChatContext: `web.py` takes a `ChatStreamRequest` (lines 20 and 156), which `project_models.py` does not define. The model assumes its `project_id` is an optional UUID, parsed by FastAPI, and its `message` is text.
- `ChatService.set_project_context`, which `web.py` calls, does not exist in `chat_service.py`. The context rule is modelled on its own as `Web.ChatContext` and `PrdTools.SetProjectContext`.
- `config.get_agent` builds an `SKAgent`, a name only the older `src/` tree defines. It is modelled as the plain Semantic Kernel agent of `sk_agent.py`.
- The service calls in `web.py` and `prd_tools.py` pass a user id that the service signatures in `service.py` do not take. The model follows the service signatures and keeps the user id only where `PRDTools` passes it on.
- `Project.prd` and `update_prd` are used by `service.py` but missing from `entities.py`. They are modelled after `name` and `update_name`.
- Uuids.ParseUuid: the model accepts the spellings `str(uuid)`, hex digits, braces, hyphens, and `urn:`/`uuid:` prefixes. After the 32-character length check, Python's `int(hex, 16)` also accepts a sign, `0x`, underscores between digits, whitespace at either end (so 31 digits and one space are a valid UUID) and non-ASCII Unicode digits. None of those are modelled, so such texts parse in Python and not in the model.
- Tools.Output: a Python float in a tool result is kept as its decimal text.
- Tools.Execute: extra keyword arguments are swallowed by `**kwargs` and are not represented.
- The client's `TextDecoder` is modelled as the identity on text, so multi-byte characters split across reads are not modelled.
- A reader error in the middle of a stream is not modelled on the client. `ApiClient.StreamChatCorrected` and `ApiClient.StreamChatAsWritten` return all chunks of a complete body, or one error before any chunk. `UseChat.Send` takes a failure as a parameter to cover a stream that fails.
- A backend exception is a `failure` parameter of `Agents.SendUntil`, `ChatService.SendMessageStream`, `ForgebaseService.SendMessageStream` and `Web.Generate`. It is raised only after the given responses. Its Python type is kept as an `Error` value.
- MultiAgent.SendMessageStream: a backend exception during a facilitator message or a specialist consultation (`MultiAgent.Consult`) is not modelled. Those operations use the plain `Agents.Send`, so they always finish.
- UseChat.Send: the chunks shown while a reply streams in are not modelled. Each update overwrites the last one (`UseChat.UpdateLastWins`), so only the final content is stated.
- The React rendering, the theme, the markdown preview and the remaining UI components are not part of this model.
- `tools_fixed.py` is a copy of `tools.py` and is not modelled separately.
- The older `src/` tree, the CLI and the pydantic request and response models are not part of this model.

## Findings

| source | as written | input that shows it | evidently intended | confidence | as-written member | corrected member |
|---|---|---|---|---|---|---|
| frontend/src/services/api.ts:117-126 | `streamChat` trims each line before reading its `data:` payload. Whitespace at the end of a chunk is lost; the text after `data: ` keeps its leading blanks. | The reply chunk `"a "`; the stub's own chunks `"This "`, `"is "` and so on end in a space. The caller receives `"a"`. | Each chunk comes back as sent, which is what `extractSseChunks` in `utils/chat.ts` does: no trimming. | not executed | ApiClient.TrimmingDropsSpaces | ApiClient.ReaderRoundTrip |
| frontend/src/services/api.ts:117-126 | `streamChat` does not unescape the `data:` payload, so a newline the server escaped stays a backslash and `n`. | The reply chunk `"a\nb"` with a newline. The caller receives `a`, a backslash, `n` and `b`. | Escaped newlines are restored, as `extractSseChunks` in `utils/chat.ts` does. | not executed | ApiClient.TrimmingKeepsEscapes | ApiClient.CorrectedUnescapes |
