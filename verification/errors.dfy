/** The exceptions the core raises, as one datatype. `ProjectNotFound` and
    `ProjectAlreadyExists` are the two `ProjectError` subclasses; the others are
    Python built-in exceptions the core raises or lets through; `TypeError` is
    the one Python raises for a call that omits a required argument. */
module Errors {
  import Text

  datatype Error =
    | ProjectNotFound(projectId: string)
    | ProjectAlreadyExists(projectId: string)
    | ValueError(message: string)
    | RuntimeError(message: string)
    | TypeError(message: string)

  /** Caught by an `except ProjectError` handler. */
  predicate IsProjectError(e: Error) {
    e.ProjectNotFound? || e.ProjectAlreadyExists?
  }

  /** Caught by an `except ValueError` handler. */
  predicate IsValueError(e: Error) {
    e.ValueError?
  }

  /** `str(exc)`. */
  function Message(e: Error): (m: string)
    ensures e.ProjectNotFound? || e.ProjectAlreadyExists? ==>
              && "Project with ID " <= m
              && Text.OccursAt(m, e.projectId, |"Project with ID "|)
  {
    match e
    case ProjectNotFound(id) => "Project with ID " + id + " not found"
    case ProjectAlreadyExists(id) => "Project with ID " + id + " already exists"
    case ValueError(msg) => msg
    case RuntimeError(msg) => msg
    case TypeError(msg) => msg
  }

  /** The two project errors carry the id they were raised with, spell it out
      in their message, and are never mistaken for a `ValueError`. */
  lemma ProjectErrorMessages(id: string)
    ensures Message(ProjectNotFound(id)) == "Project with ID " + id + " not found"
    ensures Message(ProjectAlreadyExists(id)) == "Project with ID " + id + " already exists"
    ensures Text.Contains(Message(ProjectNotFound(id)), id)
    ensures Text.Contains(Message(ProjectAlreadyExists(id)), id)
    ensures ProjectNotFound(id).projectId == id && ProjectAlreadyExists(id).projectId == id
    ensures !IsValueError(ProjectNotFound(id)) && !IsValueError(ProjectAlreadyExists(id))
  {
    assert Text.OccursAt(Message(ProjectNotFound(id)), id, |"Project with ID "|);
    assert Text.OccursAt(Message(ProjectAlreadyExists(id)), id, |"Project with ID "|);
  }
}
