/** `ForgebaseService`, the unified service: chat forwarded to one agent, and
    project management over a repository, addressed by id text as it arrives
    in a URL, with validation of project names. */
module ForgebaseService {
  import opened Wrappers
  import opened Text
  import opened Uuids
  import opened Entities
  import opened Errors
  import opened Repository
  import Agents
  import ChatService

  /** `send_message_stream` over a backend stream that ends normally
      (`failure` is `None`) or raises after `responses`: the stub's fixed
      reply, or the non-empty response texts in order, with the message
      added to the agent's thread; a failure reaches the caller unchanged. */
  function SendMessageStream(agent: Agents.Agent, text: string, responses: seq<Agents.Response>,
                             failure: Option<Error>)
    : (r: (Agents.Agent, seq<string>, Option<Error>))
    ensures r.0.kind == agent.kind
    ensures agent.kind.Stub? ==> r == (agent, Agents.StubReply, None)
    ensures !agent.kind.Stub? ==>
              && r.0.thread == Agents.Continue(agent.thread, text)
              && r.1 == Agents.StreamFilter(responses)
              && r.2 == failure
  {
    Agents.SendUntil(agent, text, responses, failure)
  }

  /** `reset_chat`: the agent forgets its conversation and stays the same
      agent. */
  function ResetChat(agent: Agents.Agent): (r: Agents.Agent)
    ensures r.kind == agent.kind
    ensures agent.kind.Stub? ==> r == agent
    ensures !agent.kind.Stub? ==> r.thread.None?
  {
    Agents.Reset(agent)
  }

  /** Chat through this service is chat through `ChatService` over the same
      agent, message for message; and a reset after any message restores a
      fresh agent. */
  lemma ChatLikeChatService(agent: Agents.Agent, text: string, responses: seq<Agents.Response>,
                            failure: Option<Error>)
    ensures var (a, chunks, e) := SendMessageStream(agent, text, responses, failure);
            ChatService.SendMessageStream(ChatService.ChatService(agent), text, responses, failure)
              == (ChatService.ChatService(a), chunks, e)
    ensures ResetChat(agent) == ChatService.ResetChat(ChatService.ChatService(agent)).agent
    ensures agent.thread.None? ==> ResetChat(SendMessageStream(agent, text, responses, failure).0) == agent
  {
  }

  const MaxNameLength: nat := 255

  const EmptyNameMessage: string := "Project name cannot be empty"
  const LongNameMessage: string := "Project name too long (maximum 255 characters)"

  /** The name check shared by `create_project` and `update_project`: a name
      that is empty or only whitespace is refused first, then a name longer
      than 255 characters. `None` means the name is accepted. */
  function ValidateName(name: string): (r: Option<Error>)
    ensures r == Some(ValueError(EmptyNameMessage)) <==> AllSpace(name, PyIsSpace)
    ensures r == Some(ValueError(LongNameMessage)) <==> !AllSpace(name, PyIsSpace) && |name| > MaxNameLength
    ensures r.None? <==> !AllSpace(name, PyIsSpace) && |name| <= MaxNameLength
  {
    if name == "" || Trim(name, PyIsSpace) == "" then Some(ValueError(EmptyNameMessage))
    else if |name| > MaxNameLength then Some(ValueError(LongNameMessage))
    else None
  }

  /** The error raised for id text that does not parse as a UUID. */
  function InvalidIdError(projectId: string): Error {
    ProjectNotFound("Invalid project ID format: " + projectId)
  }

  /** The error raised for a well-formed id with no project behind it. */
  function MissingError(projectId: string): Error {
    ProjectNotFound("Project " + projectId + " not found")
  }

  /** `create_project`: the name is validated before anything is stored; a
      valid name creates a project stamped `now` under the fresh `id`. */
  function CreateProject(r: Repo, name: string, prd: string, id: Uuid, now: Timestamp): (s: Step<Project>)
    requires Valid(r)
    ensures Valid(s.repo)
    ensures ValidateName(name).Some? ==> s == Step(r, Err(ValidateName(name).value))
    ensures ValidateName(name).None? && id in r.store ==>
              s == Step(r, Err(ProjectAlreadyExists(FormatUuid(id))))
    ensures ValidateName(name).None? && id !in r.store ==>
              && s.result.Ok?
              && s.result.value == Project(id, name, prd, now, None)
              && Lookup(s.repo, id) == Some(s.result.value)
              && (forall other :: other != id ==> Lookup(s.repo, other) == Lookup(r, other))
  {
    match ValidateName(name)
    case Some(e) => Step(r, Err(e))
    case None => Repository.Create(r, Entities.CreateProject(id, name, prd, now))
  }

  /** `get_project`: malformed id text and an absent project are both
      reported as `ProjectNotFound`, with different texts; any spelling of
      the id that parses to the same UUID finds the same project. */
  function GetProject(r: Repo, projectId: string): (res: Result<Project, Error>)
    requires Valid(r)
    ensures ParseUuid(projectId).None? <==> res == Err(InvalidIdError(projectId))
    ensures ParseUuid(projectId).Some? ==>
              (res.Ok? <==> ParseUuid(projectId).value in r.store)
    ensures res.Ok? ==> ParseUuid(projectId) == Some(res.value.id) && Lookup(r, res.value.id) == Some(res.value)
    ensures res.Err? ==> res.error.ProjectNotFound?
  {
    match ParseUuid(projectId)
    case None => Err(InvalidIdError(projectId))
    case Some(u) =>
      match GetById(r, u)
      case None => Err(MissingError(projectId))
      case Some(p) => Ok(p)
  }

  /** `list_projects`: the repository's `get_all`, unchanged: every stored
      project once per entry, newest first, ties in insertion order. */
  function ListProjects(r: Repo): (all: seq<Project>)
    requires Valid(r)
    ensures all == GetAll(r)
    ensures NewestFirst(all)
    ensures multiset(all) == multiset(Values(r))
    ensures StableFor(Values(r), all)
    ensures forall p :: p in all <==> p in r.store.Values
  {
    GetAll(r)
  }

  /** The fields an update changes: only a field given AND different from
      the stored one is written, and each write stamps `now`. */
  function ApplyChanges(p: Project, name: Option<string>, prd: Option<string>, now: Timestamp): (q: Project)
    ensures q.id == p.id && q.createdAt == p.createdAt
    ensures q.name == (if name.Some? then name.value else p.name)
    ensures q.prd == (if prd.Some? then prd.value else p.prd)
    ensures q.updatedAt ==
              (if (name.Some? && name.value != p.name) || (prd.Some? && prd.value != p.prd)
               then Some(now) else p.updatedAt)
  {
    var p1 := if name.Some? && name.value != p.name then UpdateName(p, name.value, now) else p;
    if prd.Some? && prd.value != p1.prd then UpdatePrd(p1, prd.value, now) else p1
  }

  /** `update_project`: the id is checked first, then the new name, then the
      existence of the project; a project whose fields do not change keeps
      its `updated_at`. */
  function UpdateProject(r: Repo, projectId: string, name: Option<string>, prd: Option<string>, now: Timestamp): (s: Step<Project>)
    requires Valid(r)
    ensures Valid(s.repo)
    ensures s.result.Err? ==> s.repo == r
    ensures ParseUuid(projectId).None? ==> s.result == Err(InvalidIdError(projectId))
    ensures ParseUuid(projectId).Some? && name.Some? && ValidateName(name.value).Some? ==>
              s.result == Err(ValidateName(name.value).value)
    ensures ParseUuid(projectId).Some? && (name.None? || ValidateName(name.value).None?) ==>
              var u := ParseUuid(projectId).value;
              && (u !in r.store ==> s.result == Err(MissingError(projectId)))
              && (u in r.store ==>
                    && s.result == Ok(ApplyChanges(r.store[u], name, prd, now))
                    && Lookup(s.repo, u) == Some(s.result.value)
                    && s.repo.order == r.order
                    && (forall other :: other != u ==> Lookup(s.repo, other) == Lookup(r, other)))
  {
    match ParseUuid(projectId)
    case None => Step(r, Err(InvalidIdError(projectId)))
    case Some(u) =>
      if name.Some? && ValidateName(name.value).Some? then Step(r, Err(ValidateName(name.value).value))
      else
        match GetById(r, u)
        case None => Step(r, Err(MissingError(projectId)))
        case Some(existing) => Repository.Update(r, ApplyChanges(existing, name, prd, now))
  }

  /** `delete_project`: malformed id text is an error; otherwise the result
      says whether a project was removed. */
  function DeleteProject(r: Repo, projectId: string): (s: Step<bool>)
    requires Valid(r)
    ensures Valid(s.repo)
    ensures ParseUuid(projectId).None? <==> s == Step(r, Err(InvalidIdError(projectId)))
    ensures ParseUuid(projectId).Some? ==>
              var u := ParseUuid(projectId).value;
              && s.result == Ok(u in r.store)
              && s.repo.store.Keys == r.store.Keys - {u}
  {
    match ParseUuid(projectId)
    case None => Step(r, Err(InvalidIdError(projectId)))
    case Some(u) =>
      var (after, removed) := Repository.Delete(r, u);
      Step(after, Ok(removed))
  }

  /** A created project is found again under the text form of its id. */
  lemma CreateThenGet(r: Repo, name: string, prd: string, id: Uuid, now: Timestamp)
    requires Valid(r) && id !in r.store && ValidateName(name).None?
    ensures var s := CreateProject(r, name, prd, id, now);
            GetProject(s.repo, FormatUuid(id)) == Ok(Project(id, name, prd, now, None))
  {
    ParseFormat(id);
  }

  /** Renaming a project and reading it back gives the new name, the new
      `updated_at`, and the unchanged creation time. */
  lemma UpdateThenGet(r: Repo, id: Uuid, name: string, now: Timestamp)
    requires Valid(r) && id in r.store && ValidateName(name).None?
    requires r.store[id].name != name
    ensures var s := UpdateProject(r, FormatUuid(id), Some(name), None, now);
            && s.result.Ok?
            && var got := GetProject(s.repo, FormatUuid(id));
               && got.Ok?
               && got.value.name == name
               && got.value.updatedAt == Some(now)
               && got.value.createdAt == r.store[id].createdAt
               && got.value.prd == r.store[id].prd
  {
    ParseFormat(id);
  }

  /** An update that changes nothing leaves the repository exactly as it was,
      `updated_at` included. */
  lemma UpdateWithoutChangeIsIdentity(r: Repo, id: Uuid, now: Timestamp)
    requires Valid(r) && id in r.store
    ensures var p := r.store[id];
            UpdateProject(r, FormatUuid(id), None, None, now) == Step(r, Ok(p))
  {
    ParseFormat(id);
    var p := r.store[id];
    assert r.store[id := p] == r.store;
  }

  /** A deleted project is no longer found, and a second delete reports
      `false`. */
  lemma DeleteThenGet(r: Repo, id: Uuid)
    requires Valid(r) && id in r.store
    ensures var s := DeleteProject(r, FormatUuid(id));
            && s.result == Ok(true)
            && GetProject(s.repo, FormatUuid(id)) == Err(MissingError(FormatUuid(id)))
            && DeleteProject(s.repo, FormatUuid(id)).result == Ok(false)
  {
    ParseFormat(id);
  }
}
