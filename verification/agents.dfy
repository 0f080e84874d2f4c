/** The conversational agents behind the agent port: the stub, the tool-aware
    agent of `agent.py`, the role-configured agent, the plain Semantic Kernel
    agent, and the shared streaming base class.

    The chat-completion backend is outside the model. One call to it is
    represented by the sequence of responses it streams back; a response is
    `None` when it has no usable content object, `Some(None)` when the content
    carries no text, and `Some(Some(s))` when it carries the text `s`. A
    conversation thread is the sequence of user messages sent on it; `None`
    is "no thread yet". */
module Agents {
  import opened Wrappers
  import opened Text
  import opened Errors
  import AgentConfig
  import ToolRegistry
  import PrdTools

  type Response = Option<Option<string>>

  /** The response yields a chunk: it has content, with non-empty text. */
  predicate Yields(r: Response) {
    r.Some? && r.value.Some? && r.value.value != ""
  }

  /** The chunks an agent yields for a stream of responses: the non-empty
      texts, in order; responses without text are skipped, never raised. */
  function StreamFilter(responses: seq<Response>): (chunks: seq<string>)
    ensures |chunks| <= |responses|
    ensures forall k :: 0 <= k < |chunks| ==> chunks[k] != ""
    decreases |responses|
  {
    if |responses| == 0 then []
    else
      var rest := StreamFilter(responses[1..]);
      if Yields(responses[0]) then [responses[0].value.value] + rest else rest
  }

  /** Filtering works response by response: the chunks of a concatenation
      are the chunks of each part, in order. */
  lemma {:induction false} StreamFilterAppend(a: seq<Response>, b: seq<Response>)
    ensures StreamFilter(a + b) == StreamFilter(a) + StreamFilter(b)
    decreases |a|
  {
    if |a| == 0 {
      assert a + b == b;
    } else {
      assert (a + b)[1..] == a[1..] + b;
      StreamFilterAppend(a[1..], b);
    }
  }

  /** A single response yields its text exactly when the text is present and
      not empty. */
  lemma StreamFilterSingle(r: Response)
    ensures StreamFilter([r]) == if Yields(r) then [r.value.value] else []
  {
    assert [r][1..] == [];
  }

  /** Every chunk is the text of some response, and every non-empty text is
      yielded. */
  lemma {:induction false} StreamFilterMembers(responses: seq<Response>, s: string)
    ensures s in StreamFilter(responses) <==>
              s != "" && exists k :: 0 <= k < |responses| && responses[k] == Some(Some(s))
    decreases |responses|
  {
    if |responses| > 0 {
      StreamFilterMembers(responses[1..], s);
      if s != "" && responses[0] != Some(Some(s)) {
        if exists k :: 0 <= k < |responses| && responses[k] == Some(Some(s)) {
          var k :| 0 <= k < |responses| && responses[k] == Some(Some(s));
          assert responses[1..][k - 1] == Some(Some(s));
        }
      }
      forall k | 1 <= k < |responses| ensures responses[1..][k - 1] == responses[k] { }
    }
  }

  type Thread = Option<seq<string>>

  /** The thread after sending `text`: created on first use, reused after. */
  function Continue(thread: Thread, text: string): (t: Thread)
    ensures t.Some? && |t.value| >= 1 && t.value[|t.value| - 1] == text
    ensures thread.Some? ==> t.value[..|t.value| - 1] == thread.value
    ensures thread.None? ==> t.value == [text]
  {
    match thread
    case None => Some([text])
    case Some(h) => Some(h + [text])
  }

  /** The backend settings an agent is built with. */
  datatype Credentials = Credentials(endpoint: string, apiKey: string, deploymentName: string)

  /** A tool handed to the agent of `agent.py`: the PRD plugin, which can
      follow the project context, or any other plugin, which cannot. */
  datatype Plugin = PrdPlugin(prd: PrdTools.PrdTools) | OtherPlugin(name: string)

  function PluginName(p: Plugin): string {
    match p
    case PrdPlugin(_) => PrdTools.PluginName
    case OtherPlugin(n) => n
  }

  const DefaultInstructions: string := "You are a helpful assistant."
  const DefaultRole: string := "assistant"
  const StubReply: seq<string> := ["This ", "is ", "a ", "stub ", "reply."]

  /** What an agent is, apart from its conversation state. */
  datatype Kind =
    | Stub
    | Conversational(creds: Credentials, instructions: string, role: string, plugins: seq<Plugin>)
    | Configurable(config: AgentConfig.AgentConfig, creds: Credentials, instructions: string,
                   tools: map<string, ToolRegistry.Tool>)
    | SemanticKernel(creds: Credentials, instructions: string, role: string)

  /** An agent and its thread. The stub keeps no thread. */
  datatype Agent = Agent(kind: Kind, thread: Thread)

  /** `StubAgent()`. */
  function NewStub(): (a: Agent)
    ensures a.kind.Stub? && a.thread.None?
  {
    Agent(Stub, None)
  }

  /** `Agent(...)` of `agent.py`; a missing or empty tool list is no tools. */
  function NewConversational(creds: Credentials, instructions: string, role: string,
                             plugins: Option<seq<Plugin>>): (a: Agent)
    ensures a.kind.Conversational? && a.thread.None? && a.kind.creds == creds && a.kind.role == role
    ensures a.kind.plugins == if plugins.Some? then plugins.value else []
  {
    Agent(Conversational(creds, instructions, role, plugins.GetOr([])), None)
  }

  /** `SemanticKernelAgent(...)`. */
  function NewSemanticKernel(creds: Credentials, instructions: string, role: string): (a: Agent)
    ensures a.kind.SemanticKernel? && a.thread.None? && a.kind.creds == creds && a.kind.role == role
  {
    Agent(SemanticKernel(creds, instructions, role), None)
  }

  /** The instructions of a configured agent when its instructions resource
      cannot be found. */
  function FallbackInstructions(config: AgentConfig.AgentConfig): string {
    "You are a " + config.name + ". " + config.description
  }

  /** `ConfigurableAgent(...)`: the instructions are the resource text, or the
      fallback when the resource is absent; the tools are resolved through the
      registry, so an unregistered tool name makes construction fail. */
  function NewConfigurable(config: AgentConfig.AgentConfig, reg: ToolRegistry.Registry, creds: Credentials,
                           instructionsResource: Option<string>): (r: Result<Agent, Error>)
    ensures r.Ok? <==> forall n :: n in config.tools ==> n in reg.tools
    ensures r.Err? ==> r.error == ToolRegistry.GetToolsForAgent(reg, config.tools).error
    ensures r.Ok? ==>
              && r.value.kind.Configurable? && r.value.kind.config == config && r.value.thread.None?
              && r.value.kind.creds == creds
              && r.value.kind.instructions == instructionsResource.GetOr(FallbackInstructions(config))
              && (forall n :: n in r.value.kind.tools <==> n in config.tools)
  {
    var instructions := instructionsResource.GetOr(FallbackInstructions(config));
    match ToolRegistry.GetToolsForAgent(reg, config.tools)
    case Err(e) => Err(e)
    case Ok(tools) => Ok(Agent(Configurable(config, creds, instructions, tools), None))
  }

  /** `send_message_stream`: the stub answers with its fixed reply whatever
      it is sent; every other agent sends the text on its thread, creating
      the thread on first use, and yields the filtered response stream. */
  function Send(a: Agent, text: string, responses: seq<Response>): (r: (Agent, seq<string>))
    ensures r.0.kind == a.kind
    ensures a.kind.Stub? ==> r.0 == a && r.1 == StubReply
    ensures !a.kind.Stub? ==>
              && r.0.thread.Some?
              && r.0.thread.value == (if a.thread.Some? then a.thread.value else []) + [text]
              && r.1 == StreamFilter(responses)
  {
    if a.kind.Stub? then (a, StubReply)
    else (Agent(a.kind, Continue(a.thread, text)), StreamFilter(responses))
  }

  /** `send_message_stream` over a backend call that may stop with an
      exception: `failure` is `None` when the stream ends normally, else the
      error raised after `responses`. Nothing catches it, so it reaches the
      caller after the chunks already yielded, and the thread created for the
      message is kept. The stub calls no backend and cannot fail. */
  function SendUntil(a: Agent, text: string, responses: seq<Response>, failure: Option<Error>)
    : (r: (Agent, seq<string>, Option<Error>))
    ensures r.0.kind == a.kind
    ensures a.kind.Stub? ==> r == (a, StubReply, None)
    ensures !a.kind.Stub? ==>
              && r.0.thread == Continue(a.thread, text)
              && r.1 == StreamFilter(responses)
              && r.2 == failure
  {
    var (b, chunks) := Send(a, text, responses);
    (b, chunks, if a.kind.Stub? then None else failure)
  }

  /** A stream that ends normally is the plain send; one that fails leaves
      the agent exactly as the plain send would, so the next message
      continues the thread that holds the failed one. */
  lemma SendUntilAgrees(a: Agent, text: string, responses: seq<Response>, failure: Option<Error>)
    ensures var r := SendUntil(a, text, responses, failure);
            && (r.0, r.1) == Send(a, text, responses)
            && (r.2.Some? <==> !a.kind.Stub? && failure.Some?)
  {
  }

  /** `reset`: the thread is dropped; the stub has nothing to drop. */
  function Reset(a: Agent): (r: Agent)
    ensures r.kind == a.kind
    ensures a.kind.Stub? ==> r == a
    ensures !a.kind.Stub? ==> r.thread.None?
  {
    if a.kind.Stub? then a else Agent(a.kind, None)
  }

  /** The `role` property. */
  function Role(a: Agent): string {
    match a.kind
    case Stub => "stub"
    case Conversational(_, _, role, _) => role
    case Configurable(config, _, _, _) => AgentConfig.RoleValue(config.role)
    case SemanticKernel(_, _, role) => role
  }

  /** The `available_tools` property. */
  function AvailableTools(a: Agent): (names: seq<string>)
    ensures a.kind.Conversational? ==>
              && |names| == |a.kind.plugins|
              && forall k :: 0 <= k < |names| ==> names[k] == PluginName(a.kind.plugins[k])
    ensures a.kind.Configurable? ==> names == a.kind.config.tools
    ensures a.kind.Stub? || a.kind.SemanticKernel? ==> names == []
  {
    match a.kind
    case Stub => []
    case Conversational(_, _, _, plugins) =>
      seq(|plugins|, k requires 0 <= k < |plugins| => PluginName(plugins[k]))
    case Configurable(config, _, _, _) => config.tools
    case SemanticKernel(_, _, _) => []
  }

  /** `is_user_facing()`, which only the configured agent has. */
  function IsUserFacing(a: Agent): (r: Option<bool>)
    ensures r.Some? <==> a.kind.Configurable?
    ensures a.kind.Configurable? ==> r == Some(a.kind.config.isUserFacing)
  {
    if a.kind.Configurable? then Some(a.kind.config.isUserFacing) else None
  }

  /** Gives every plugin that can follow a project context the new context. */
  function ForwardContext(plugins: seq<Plugin>, projectId: Option<string>): (r: seq<Plugin>)
    ensures |r| == |plugins|
    ensures forall k :: 0 <= k < |r| ==>
              && PluginName(r[k]) == PluginName(plugins[k])
              && (plugins[k].OtherPlugin? ==> r[k] == plugins[k])
              && (plugins[k].PrdPlugin? ==>
                    r[k] == PrdPlugin(PrdTools.SetProjectContext(plugins[k].prd, projectId)))
  {
    seq(|plugins|, k requires 0 <= k < |plugins| =>
      match plugins[k]
      case PrdPlugin(p) => PrdPlugin(PrdTools.SetProjectContext(p, projectId))
      case OtherPlugin(_) => plugins[k])
  }

  /** `set_project_context` of `agent.py`: forwarded to the plugins that
      support it, in order; the agent's thread and tool list stay as they are. */
  function SetProjectContext(a: Agent, projectId: Option<string>): (r: Agent)
    requires a.kind.Conversational?
    ensures r.kind.Conversational? && r.thread == a.thread && AvailableTools(r) == AvailableTools(a)
    ensures forall k :: 0 <= k < |r.kind.plugins| && r.kind.plugins[k].PrdPlugin? ==>
              r.kind.plugins[k].prd.currentProjectId == projectId
  {
    Agent(a.kind.(plugins := ForwardContext(a.kind.plugins, projectId)), a.thread)
  }

  /** The thread of a non-stub agent starts empty, is created by the first
      send and reused by the next, and is dropped by reset; a second reset
      changes nothing. */
  lemma ThreadLifecycle(a: Agent, t1: string, t2: string, r1: seq<Response>, r2: seq<Response>)
    requires !a.kind.Stub? && a.thread.None?
    ensures var a1 := Send(a, t1, r1).0;
            var a2 := Send(a1, t2, r2).0;
            && a1.thread == Some([t1])
            && a2.thread == Some([t1, t2])
            && Reset(a2).thread.None?
            && Reset(Reset(a2)) == Reset(a2)
            && Reset(a2) == a
  {
    assert [t1] + [t2] == [t1, t2];
  }

  /** The stub's reply reads "This is a stub reply.", whatever it is sent and
      however often it is reset. */
  lemma StubReplyText(text: string, responses: seq<Response>)
    ensures Concat(Send(NewStub(), text, responses).1) == "This is a stub reply."
    ensures Send(Reset(Reset(NewStub())), text, responses) == Send(NewStub(), text, responses)
    ensures Role(NewStub()) == "stub" && AvailableTools(NewStub()) == []
  {
    assert Concat(StubReply) == "This " + Concat(["is ", "a ", "stub ", "reply."]);
    assert Concat(["is ", "a ", "stub ", "reply."]) == "is " + Concat(["a ", "stub ", "reply."]);
    assert Concat(["a ", "stub ", "reply."]) == "a " + Concat(["stub ", "reply."]);
    assert Concat(["stub ", "reply."]) == "stub " + Concat(["reply."]);
    assert Concat(["reply."]) == "reply." + Concat([]);
  }

  /** A configured agent reports its configuration's role value, tool list
      and user-facing flag, and sending or resetting does not change them. */
  lemma ConfiguredAccessors(config: AgentConfig.AgentConfig, reg: ToolRegistry.Registry, creds: Credentials,
                            resource: Option<string>, text: string, responses: seq<Response>)
    requires NewConfigurable(config, reg, creds, resource).Ok?
    ensures var a := NewConfigurable(config, reg, creds, resource).value;
            && Role(a) == AgentConfig.RoleValue(config.role)
            && AvailableTools(a) == config.tools
            && IsUserFacing(a) == Some(config.isUserFacing)
            && Role(Send(a, text, responses).0) == Role(a)
            && AvailableTools(Reset(a)) == AvailableTools(a)
  {
  }

  /** The streaming base class: the backend agent is absent until a subclass
      sets it. */
  datatype BaseAgent = BaseAgent(backend: Option<Credentials>, thread: Thread)

  /** A fresh base agent has neither a backend nor a thread. */
  function NewBaseAgent(): (b: BaseAgent)
    ensures b.backend.None? && b.thread.None?
  {
    BaseAgent(None, None)
  }

  /** `_stream_response`: without a backend it raises before any thread is
      created; otherwise it behaves as `Send`. */
  function StreamResponse(b: BaseAgent, text: string, responses: seq<Response>): (r: Result<(BaseAgent, seq<string>), Error>)
    ensures b.backend.None? <==> r == Err(RuntimeError("Agent not initialized"))
    ensures r.Ok? ==> r.value.0.thread == Continue(b.thread, text) && r.value.0.backend == b.backend
    ensures r.Ok? ==> r.value.1 == StreamFilter(responses)
  {
    if b.backend.None? then Err(RuntimeError("Agent not initialized"))
    else Ok((b.(thread := Continue(b.thread, text)), StreamFilter(responses)))
  }

  /** `reset` of the base class. */
  function ResetBase(b: BaseAgent): (r: BaseAgent)
    ensures r.thread.None? && r.backend == b.backend
  {
    b.(thread := None)
  }

  /** Streaming with and without a backend: a fresh base agent refuses and
      stays fresh; with a backend, its thread is created and then reused. */
  lemma BaseAgentLifecycle(creds: Credentials, t1: string, t2: string, r1: seq<Response>, r2: seq<Response>)
    ensures StreamResponse(NewBaseAgent(), t1, r1).Err?
    ensures var b := BaseAgent(Some(creds), None);
            var b1 := StreamResponse(b, t1, r1).value.0;
            && b1.thread == Some([t1])
            && StreamResponse(b1, t2, r2).value.0.thread == Some([t1, t2])
            && ResetBase(StreamResponse(b1, t2, r2).value.0) == b
  {
    assert [t1] + [t2] == [t1, t2];
  }
}
