/** `PRDTools`, the agent plugin that writes the PRD of the project the user
    has selected. The project service it calls is reached through a port:
    the service is a parameter of `UpdatePrd`, and each call it makes is
    recorded. */
module PrdTools {
  import opened Wrappers
  import opened Entities
  import opened Errors

  const PluginName: string := "PRDTools"
  const DefaultUserId: string := "test-user-123"
  const NoContextMessage: string := "Error: No project context set. Please select a project first."

  datatype PrdTools = PrdTools(currentProjectId: Option<string>, userId: string)

  /** The constructor; `NewPrdTools(None, DefaultUserId)` is the default. */
  function NewPrdTools(currentProjectId: Option<string>, userId: string): (t: PrdTools)
    ensures t.currentProjectId == currentProjectId && t.userId == userId
  {
    PrdTools(currentProjectId, userId)
  }

  /** `set_project_context`: the current project becomes exactly the given
      one, `None` included. */
  function SetProjectContext(t: PrdTools, projectId: Option<string>): (r: PrdTools)
    ensures r.currentProjectId == projectId && r.userId == t.userId
  {
    t.(currentProjectId := projectId)
  }

  /** A project context is set when the id is present and not empty. */
  predicate HasContext(t: PrdTools) {
    t.currentProjectId.Some? && t.currentProjectId.value != ""
  }

  /** The arguments of one `update_project(project_id, user_id, prd=...)` call. */
  datatype ServiceCall = ServiceCall(projectId: string, userId: string, prd: string)

  /** The outcome of `update_prd`: the service calls it made, and the text it
      returned or the exception it let through. */
  datatype PrdUpdate = PrdUpdate(calls: seq<ServiceCall>, outcome: Result<string, Error>)

  /** `update_prd`: without a context no service call is made; otherwise one
      call with the current id, the user id and the new text. A `ValueError`
      becomes an error text; every other exception propagates. */
  function UpdatePrd(t: PrdTools, prdContent: string, service: ServiceCall -> Result<Project, Error>): (u: PrdUpdate)
    ensures !HasContext(t) <==> u.calls == []
    ensures !HasContext(t) ==> u.outcome == Ok(NoContextMessage)
    ensures HasContext(t) ==>
              var call := ServiceCall(t.currentProjectId.value, t.userId, prdContent);
              && u.calls == [call]
              && (service(call).Ok? ==>
                    u.outcome == Ok("PRD updated successfully for project '" + service(call).value.name + "'"))
              && (service(call).Err? && IsValueError(service(call).error) ==>
                    u.outcome == Ok("Error updating PRD: " + Message(service(call).error)))
              && (u.outcome.Err? <==> service(call).Err? && !IsValueError(service(call).error))
              && (u.outcome.Err? ==> u.outcome.error == service(call).error)
  {
    if !HasContext(t) then PrdUpdate([], Ok(NoContextMessage))
    else
      var call := ServiceCall(t.currentProjectId.value, t.userId, prdContent);
      var outcome :=
        match service(call)
        case Ok(p) => Ok("PRD updated successfully for project '" + p.name + "'")
        case Err(e) => if IsValueError(e) then Ok("Error updating PRD: " + Message(e)) else Err(e);
      PrdUpdate([call], outcome)
  }

  /** After a context is set, the next update goes to that project; after it
      is cleared, no update reaches the service. A project error from the
      service is not turned into text. */
  lemma ContextRoutesUpdates(t: PrdTools, projectId: string, prd: string,
                             service: ServiceCall -> Result<Project, Error>)
    requires projectId != ""
    ensures UpdatePrd(SetProjectContext(t, Some(projectId)), prd, service).calls ==
              [ServiceCall(projectId, t.userId, prd)]
    ensures UpdatePrd(SetProjectContext(t, None), prd, service) == PrdUpdate([], Ok(NoContextMessage))
    ensures UpdatePrd(SetProjectContext(t, Some("")), prd, service).calls == []
    ensures service(ServiceCall(projectId, t.userId, prd)) == Err(ProjectNotFound(projectId)) ==>
              UpdatePrd(SetProjectContext(t, Some(projectId)), prd, service).outcome == Err(ProjectNotFound(projectId))
  {
  }
}
