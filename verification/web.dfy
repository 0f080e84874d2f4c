/** The pure parts of the web interface: the CORS origin list, the framing
    of a chat reply as server-sent events, the project-context guard of the
    chat endpoint, and the translation of service outcomes into HTTP
    responses. */
module Web {
  import opened Wrappers
  import opened Text
  import opened Uuids
  import opened Entities
  import opened Errors

  /** `get_cors_origins` over the four environment variables it reads
      (`None` is unset). A non-empty `CORS_ORIGINS` is split on commas and
      each piece stripped; otherwise every host alias is paired with the
      port and then the fallback port. */
  function CorsOrigins(corsEnv: Option<string>, host: Option<string>, port: Option<string>, fallbackPort: Option<string>)
    : (r: seq<string>)
    ensures corsEnv.Some? && corsEnv.value != "" ==>
              && |r| == |SplitOn(corsEnv.value, ',')| == CountOf(corsEnv.value, ',') + 1
              && forall k :: 0 <= k < |r| ==> r[k] == Trim(SplitOn(corsEnv.value, ',')[k], PyIsSpace)
    ensures !(corsEnv.Some? && corsEnv.value != "") ==>
              var h := host.GetOr("localhost");
              var hosts := if h == "localhost" then [h, "127.0.0.1"] else [h];
              var ports := [port.GetOr("5173"), fallbackPort.GetOr("5174")];
              && |r| == 2 * |hosts|
              && forall i, j :: 0 <= i < |hosts| && 0 <= j < 2 ==> r[2 * i + j] == "http://" + hosts[i] + ":" + ports[j]
  {
    if corsEnv.Some? && corsEnv.value != "" then
      var pieces := SplitOn(corsEnv.value, ',');
      SplitCount(corsEnv.value, ',');
      seq(|pieces|, k requires 0 <= k < |pieces| => Trim(pieces[k], PyIsSpace))
    else
      var h := host.GetOr("localhost");
      var p := port.GetOr("5173");
      var fp := fallbackPort.GetOr("5174");
      var first := ["http://" + h + ":" + p, "http://" + h + ":" + fp];
      if h == "localhost" then first + ["http://127.0.0.1:" + p, "http://127.0.0.1:" + fp] else first
  }

  /** With none of the variables set, the defaults are the two development
      ports on `localhost` and on `127.0.0.1`. */
  lemma DefaultCorsOrigins()
    ensures CorsOrigins(None, None, None, None) ==
              ["http://localhost:5173", "http://localhost:5174", "http://127.0.0.1:5173", "http://127.0.0.1:5174"]
  {
    assert "http://" + "localhost" + ":" + "5173" == "http://localhost:5173";
    assert "http://" + "localhost" + ":" + "5174" == "http://localhost:5174";
    assert "http://127.0.0.1:" + "5173" == "http://127.0.0.1:5173";
    assert "http://127.0.0.1:" + "5174" == "http://127.0.0.1:5174";
  }

  /** Escaping of a chunk for transport: every newline becomes a backslash
      followed by `n`. */
  function Escape(c: string): string {
    ReplaceAll(c, "\n", "\\n")
  }

  /** One character of the chunk at a time. */
  lemma EscapeCons(x: char, rest: string)
    ensures Escape([x] + rest) == (if x == '\n' then "\\n" else [x]) + Escape(rest)
  {
    var s := [x] + rest;
    assert s[1..] == rest && s[0] == x;
    if x == '\n' {
      assert "\n" <= s;
    } else {
      assert !("\n" <= s);
    }
  }

  /** An escaped chunk holds no newline, so it fits on one line. */
  lemma {:induction false} EscapeNoNewline(c: string)
    ensures '\n' !in Escape(c)
    decreases |c|
  {
    if |c| > 0 {
      assert c == [c[0]] + c[1..];
      EscapeCons(c[0], c[1..]);
      EscapeNoNewline(c[1..]);
    }
  }

  /** Escaping never makes text disappear, and changes nothing in text
      without newlines; text with a newline gains a backslash. */
  lemma {:induction false} EscapeShape(c: string)
    ensures Escape(c) == "" <==> c == ""
    ensures '\n' !in c ==> Escape(c) == c
    ensures '\n' in c ==> '\\' in Escape(c)
    decreases |c|
  {
    if |c| > 0 {
      assert c == [c[0]] + c[1..];
      EscapeCons(c[0], c[1..]);
      EscapeShape(c[1..]);
      if '\n' in c && c[0] != '\n' {
        assert '\n' in c[1..];
      }
    } else {
      assert !("\n" <= c);
    }
  }

  /** The field prefix of every event line. */
  const EventPrefix: string := "data: "

  /** The terminator of every reply stream. */
  const DoneFrame: string := "data: [DONE]\n\n"

  /** The event for one chunk: `data: `, the escaped chunk on that single
      line, and a blank line. */
  function Frame(c: string): (r: string)
    ensures |r| >= 8 && r[..6] == EventPrefix && r[|r| - 2..] == "\n\n"
    ensures '\n' !in r[6..|r| - 2]
    ensures r[6..|r| - 2] == "" <==> c == ""
  {
    EscapeNoNewline(c);
    EscapeShape(c);
    var r := EventPrefix + Escape(c) + "\n\n";
    assert r[6..|r| - 2] == Escape(c);
    r
  }

  /** The events of a whole reply, in order. */
  function Frames(chunks: seq<string>): string
    decreases |chunks|
  {
    if |chunks| == 0 then "" else Frame(chunks[0]) + Frames(chunks[1..])
  }

  /** The body `generate()` streams for a reply: its events, then the
      terminator. */
  function Stream(chunks: seq<string>): (body: string)
    ensures |body| >= |DoneFrame| && body[|body| - |DoneFrame|..] == DoneFrame
  {
    Frames(chunks) + DoneFrame
  }

  /** `generate()` over a reply stream that ends normally (`failure` is
      `None`) or raises after `chunks`: the events of the chunks already
      yielded, then the terminator only when the stream ended normally. The
      failure is not caught, so it ends the response body. */
  function Generate(chunks: seq<string>, failure: Option<Error>): (r: (string, Option<Error>))
    ensures r.1 == failure
    ensures failure.None? ==> r.0 == Stream(chunks)
    ensures failure.Some? ==> r.0 == Frames(chunks)
    ensures |r.0| + (if failure.Some? then |DoneFrame| else 0) == |Stream(chunks)|
  {
    if failure.None? then (Stream(chunks), None) else (Frames(chunks), failure)
  }

  /** The events of a reply are complete events, one after another: the
      body of a failed stream is a prefix of the body the stream would have
      had, and ends at an event boundary. */
  lemma {:induction false} FramesShape(chunks: seq<string>)
    ensures |Frames(chunks)| == 0 <==> |chunks| == 0
    ensures |chunks| > 0 ==> Frames(chunks)[|Frames(chunks)| - 2..] == "\n\n"
    ensures Frames(chunks) <= Stream(chunks)
    decreases |chunks|
  {
    if |chunks| > 0 {
      FramesShape(chunks[1..]);
      var f := Frame(chunks[0]);
      var rest := Frames(chunks[1..]);
      if |chunks[1..]| > 0 {
        assert (f + rest)[|f + rest| - 2..] == rest[|rest| - 2..];
      } else {
        assert f + rest == f;
      }
    }
  }

  /** The chat endpoint sets the project context only when an id is given
      (a UUID is never empty); otherwise the context stays as it was. */
  function ChatContext(current: Option<string>, projectId: Option<Uuid>): (r: Option<string>)
    ensures projectId.None? ==> r == current
    ensures projectId.Some? ==> r == Some(FormatUuid(projectId.value))
  {
    match projectId
    case None => current
    case Some(u) => Some(FormatUuid(u))
  }

  /** The context the endpoint sets reads back as the id it was given; a
      later request without an id keeps it, and one with an id replaces it. */
  lemma ContextNamesProject(current: Option<string>, u: Uuid, v: Uuid)
    ensures var c := ChatContext(current, Some(u));
            && c.Some? && ParseUuid(c.value) == Some(u)
            && ChatContext(c, None) == c
            && ChatContext(c, Some(v)) == ChatContext(current, Some(v))
            && (ChatContext(c, Some(v)) == c <==> u == v)
  {
    ParseFormat(u);
    ParseFormat(v);
  }

  /** What a project route answers. */
  datatype Response =
    | ProjectBody(project: Project)
    | ProjectsBody(projects: seq<Project>)
    | StatusBody(status: string)
    | HttpError(code: nat, detail: string)

  /** A `{project_id}` path segment: FastAPI parses it as a UUID (a 422
      when it is not one) and the route passes `str(project_id)` on. */
  function ProjectPath(segment: string): (r: Result<string, Response>)
    ensures r.Ok? <==> ParseUuid(segment).Some?
    ensures r.Ok? ==> ParseUuid(r.value) == ParseUuid(segment)
    ensures r.Err? ==> r.error.HttpError? && r.error.code == 422
  {
    match ParseUuid(segment)
    case None => Err(HttpError(422, "Invalid UUID"))
    case Some(u) =>
      ParseFormat(u);
      Ok(FormatUuid(u))
  }

  /** `POST /api/projects`: a duplicate id is a 409 carrying the error's
      message; any other error is not handled by the route. */
  function CreateResponse(outcome: Result<Project, Error>): (r: Result<Response, Error>)
    ensures outcome.Ok? ==> r == Ok(ProjectBody(outcome.value))
    ensures outcome.Err? && outcome.error.ProjectAlreadyExists? ==>
              r == Ok(HttpError(409, Message(outcome.error)))
    ensures outcome.Err? && !outcome.error.ProjectAlreadyExists? ==> r == Err(outcome.error)
  {
    match outcome
    case Ok(p) => Ok(ProjectBody(p))
    case Err(e) => if e.ProjectAlreadyExists? then Ok(HttpError(409, Message(e))) else Err(e)
  }

  /** `GET` and `PATCH /api/projects/{id}`: a missing project is a 404
      carrying the error's message; any other error is not handled. */
  function FoundResponse(outcome: Result<Project, Error>): (r: Result<Response, Error>)
    ensures outcome.Ok? ==> r == Ok(ProjectBody(outcome.value))
    ensures outcome.Err? && outcome.error.ProjectNotFound? ==>
              r == Ok(HttpError(404, Message(outcome.error)))
    ensures outcome.Err? && !outcome.error.ProjectNotFound? ==> r == Err(outcome.error)
  {
    match outcome
    case Ok(p) => Ok(ProjectBody(p))
    case Err(e) => if e.ProjectNotFound? then Ok(HttpError(404, Message(e))) else Err(e)
  }

  /** `DELETE /api/projects/{id}`: `deleted` on success, else a 404. */
  function DeleteResponse(deleted: bool): (r: Response)
    ensures deleted <==> r == StatusBody("deleted")
    ensures !deleted <==> r == HttpError(404, "Project not found")
  {
    if deleted then StatusBody("deleted") else HttpError(404, "Project not found")
  }

  /** For every outcome: a route answers with an error status exactly for
      its own error kind, 409 for a duplicate and 404 for a missing project,
      carrying the error's message; a success is the project itself; every
      other error propagates unchanged. */
  lemma StatusMapping(outcome: Result<Project, Error>, deleted: bool)
    ensures var r := CreateResponse(outcome);
            && (r.Ok? && r.value.HttpError? <==> outcome.Err? && outcome.error.ProjectAlreadyExists?)
            && (r.Ok? && r.value.HttpError? ==> r.value == HttpError(409, Message(outcome.error)))
            && (r.Ok? && r.value.ProjectBody? <==> outcome.Ok?)
            && (r.Err? ==> r == Err(outcome.error))
    ensures var r := FoundResponse(outcome);
            && (r.Ok? && r.value.HttpError? <==> outcome.Err? && outcome.error.ProjectNotFound?)
            && (r.Ok? && r.value.HttpError? ==> r.value == HttpError(404, Message(outcome.error)))
            && (r.Ok? && r.value.ProjectBody? <==> outcome.Ok?)
            && (r.Err? ==> r == Err(outcome.error))
    ensures DeleteResponse(deleted).HttpError? <==> !deleted
  {
  }

  /** The status code a client sees for a handled outcome: the duplicate
      and the missing project are told apart, and neither is a success. */
  lemma ErrorStatuses(id: string)
    ensures CreateResponse(Err(ProjectAlreadyExists(id))) == Ok(HttpError(409, "Project with ID " + id + " already exists"))
    ensures FoundResponse(Err(ProjectNotFound(id))) == Ok(HttpError(404, "Project with ID " + id + " not found"))
    ensures CreateResponse(Err(ProjectNotFound(id))).Err?
    ensures FoundResponse(Err(ProjectAlreadyExists(id))).Err?
  {
  }
}
