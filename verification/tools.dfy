/** The nine tools an agent can be given. Each tool holds the project
    repository it was built with; here the repository is passed to `Execute`
    instead. Tool results are Python dictionaries, modelled by `Value`. */
module Tools {
  import opened Wrappers
  import opened Seqs
  import opened Uuids
  import opened Entities
  import opened Errors
  import Repository

  datatype ToolKind =
    | ProjectData
    | SaveDraftPrd
    | SaveCompletedPrd
    | AnalyzeCodebase
    | ValidateRequirements
    | SuggestArchitecture
    | FetchProjectData
    | GatherRequirements
    | CheckCompleteness

  /** A tool result: JSON-like data, with projects kept as projects. A Python
      float constant is kept as its decimal text. */
  datatype Value =
    | Str(s: string)
    | Int(i: int)
    | Decimal(text: string)
    | List(items: seq<Value>)
    | Object(fields: seq<(string, Value)>)
    | ProjectValue(project: Project)
    | ProjectsValue(projects: seq<Project>)

  /** `d.get(key)` on a dictionary result: the value of the first field with
      that key; `None` for a missing key or a result that is not a dictionary. */
  function Field(v: Value, key: string): (r: Option<Value>)
    ensures r.Some? ==> v.Object? && exists k :: 0 <= k < |v.fields| && v.fields[k] == (key, r.value)
    ensures v.Object? && |v.fields| > 0 && v.fields[0].0 == key ==> r == Some(v.fields[0].1)
    decreases if v.Object? then |v.fields| else 0
  {
    if !v.Object? || |v.fields| == 0 then None
    else if v.fields[0].0 == key then Some(v.fields[0].1)
    else
      var r := Field(Object(v.fields[1..]), key);
      if r.Some? then
        var k :| 0 <= k < |v.fields[1..]| && v.fields[1..][k] == (key, r.value);
        assert v.fields[k + 1] == (key, r.value);
        r
      else r
  }

  /** A list of strings. */
  function Strs(ss: seq<string>): (v: Value)
    ensures v.List? && |v.items| == |ss|
    ensures forall k :: 0 <= k < |ss| ==> v.items[k] == Str(ss[k])
  {
    List(seq(|ss|, k requires 0 <= k < |ss| => Str(ss[k])))
  }

  /** The `name` property of each tool. */
  function Name(t: ToolKind): string {
    match t
    case ProjectData => "get_project_data"
    case SaveDraftPrd => "save_draft_prd"
    case SaveCompletedPrd => "save_completed_prd"
    case AnalyzeCodebase => "analyze_codebase"
    case ValidateRequirements => "validate_requirements"
    case SuggestArchitecture => "suggest_architecture"
    case FetchProjectData => "fetch_project_data"
    case GatherRequirements => "gather_requirements"
    case CheckCompleteness => "check_completeness"
  }

  /** The `description` property of each tool. */
  function Description(t: ToolKind): string {
    match t
    case ProjectData => "Access project data from the repository"
    case SaveDraftPrd => "Save a draft PRD document"
    case SaveCompletedPrd => "Save a completed PRD document"
    case AnalyzeCodebase => "Analyze codebase structure and provide recommendations"
    case ValidateRequirements => "Validate requirements for completeness and clarity"
    case SuggestArchitecture => "Suggest architectural patterns and technologies"
    case FetchProjectData => "Fetch project data from external sources"
    case GatherRequirements => "Gather existing requirements from various sources"
    case CheckCompleteness => "Check completeness of requirements across all categories"
  }

  /** The Python class of each tool, as error messages name it. */
  function ClassName(t: ToolKind): string {
    match t
    case ProjectData => "ProjectDataTool"
    case SaveDraftPrd => "SaveDraftPRDTool"
    case SaveCompletedPrd => "SaveCompletedPRDTool"
    case AnalyzeCodebase => "AnalyzeCodebaseTool"
    case ValidateRequirements => "ValidateRequirementsTool"
    case SuggestArchitecture => "SuggestArchitectureTool"
    case FetchProjectData => "FetchProjectDataTool"
    case GatherRequirements => "GatherRequirementsTool"
    case CheckCompleteness => "CheckCompletenessTool"
  }

  /** The nine tools, in the order the tool classes are declared. */
  const AllTools: seq<ToolKind> := [
    ProjectData, SaveDraftPrd, SaveCompletedPrd, AnalyzeCodebase, ValidateRequirements,
    SuggestArchitecture, FetchProjectData, GatherRequirements, CheckCompleteness]

  /** The tool with a given name, if any. */
  function ToolNamed(name: string): (t: Option<ToolKind>)
    ensures t.Some? ==> Name(t.value) == name
  {
    if name == "get_project_data" then Some(ProjectData)
    else if name == "save_draft_prd" then Some(SaveDraftPrd)
    else if name == "save_completed_prd" then Some(SaveCompletedPrd)
    else if name == "analyze_codebase" then Some(AnalyzeCodebase)
    else if name == "validate_requirements" then Some(ValidateRequirements)
    else if name == "suggest_architecture" then Some(SuggestArchitecture)
    else if name == "fetch_project_data" then Some(FetchProjectData)
    else if name == "gather_requirements" then Some(GatherRequirements)
    else if name == "check_completeness" then Some(CheckCompleteness)
    else None
  }

  /** The nine names are pairwise distinct, so a name identifies its tool. */
  lemma NamesIdentifyTools(t: ToolKind, name: string)
    ensures t in AllTools
    ensures NoDuplicates(AllTools)
    ensures ToolNamed(Name(t)) == Some(t)
    ensures ToolNamed(name) == Some(t) <==> Name(t) == name
  {
  }

  lemma NamesDistinct()
    ensures forall i, j :: 0 <= i < j < |AllTools| ==> Name(AllTools[i]) != Name(AllTools[j])
  {
    forall i, j | 0 <= i < j < |AllTools| ensures Name(AllTools[i]) != Name(AllTools[j]) {
      NamesIdentifyTools(AllTools[i], Name(AllTools[j]));
    }
  }

  /** The keyword arguments of a call to `execute`; `None` is an argument
      not given. Extra keyword arguments are swallowed by `**kwargs` and are
      not represented. */
  datatype Args = Args(
    projectId: Option<string>,
    content: Option<string>,
    analysisType: Option<string>,
    requirements: Option<string>)

  /** The parameters of each tool's `execute` that have no default, in
      declaration order. */
  function Required(t: ToolKind): seq<string> {
    match t
    case ProjectData => []
    case SaveDraftPrd => ["project_id", "content"]
    case SaveCompletedPrd => ["project_id", "content"]
    case ValidateRequirements => ["requirements"]
    case _ => ["project_id"]
  }

  /** Whether a call passes the parameter named `p`. */
  predicate Given(args: Args, p: string) {
    if p == "project_id" then args.projectId.Some?
    else if p == "content" then args.content.Some?
    else if p == "requirements" then args.requirements.Some?
    else p == "analysis_type" ==> args.analysisType.Some?
  }

  /** The parameters of `ps` a call does not pass, in order. */
  function Absent(ps: seq<string>, args: Args): (out: seq<string>)
    ensures forall p :: p in out <==> p in ps && !Given(args, p)
    decreases |ps|
  {
    if |ps| == 0 then []
    else (if Given(args, ps[0]) then [] else [ps[0]]) + Absent(ps[1..], args)
  }

  lemma AbsentOneOrTwo(a: string, b: string, args: Args)
    ensures Absent([a], args) == (if Given(args, a) then [] else [a])
    ensures Absent([a, b], args) == Absent([a], args) + Absent([b], args)
  {
    assert [a][1..] == [] && [b][1..] == [] && [a, b][1..] == [b];
  }

  /** The required parameters a call leaves out, in declaration order:
      exactly the parameters without a default that the call does not pass. */
  function Missing(t: ToolKind, args: Args): (ms: seq<string>)
    ensures |ms| <= 2
    ensures ms == Absent(Required(t), args)
    ensures forall p :: p in ms <==> p in Required(t) && !Given(args, p)
  {
    AbsentOneOrTwo("project_id", "content", args);
    AbsentOneOrTwo("requirements", "content", args);
    var noId := if args.projectId.None? then ["project_id"] else [];
    match t
    case ProjectData => []
    case SaveDraftPrd => noId + (if args.content.None? then ["content"] else [])
    case SaveCompletedPrd => noId + (if args.content.None? then ["content"] else [])
    case ValidateRequirements => if args.requirements.None? then ["requirements"] else []
    case _ => noId
  }

  /** Python's message for a call missing one or two required arguments. */
  function MissingMessage(className: string, ms: seq<string>): string
    requires 1 <= |ms| <= 2
  {
    className + ".execute() missing " +
    (if |ms| == 1 then "1 required positional argument: '" + ms[0] + "'"
     else "2 required positional arguments: '" + ms[0] + "' and '" + ms[1] + "'")
  }

  /** `ProjectDataTool.execute`: with no id (or the empty id) every project,
      newest first; otherwise the project with that id, or an error entry for
      malformed id text or an absent project. */
  function ProjectDataResult(repo: Repository.Repo, projectId: Option<string>): (v: Value)
    requires Repository.Valid(repo)
    ensures projectId.None? || projectId == Some("") ==>
              Field(v, "projects") == Some(ProjectsValue(Repository.GetAll(repo)))
    ensures projectId.Some? && projectId != Some("") && ParseUuid(projectId.value).None? ==>
              Field(v, "error") == Some(Str("Invalid project ID format"))
    ensures projectId.Some? && projectId != Some("") && ParseUuid(projectId.value).Some? ==>
              var u := ParseUuid(projectId.value).value;
              && (u in repo.store ==> Field(v, "project") == Some(ProjectValue(repo.store[u])))
              && (u !in repo.store ==> Field(v, "error") == Some(Str("Project not found")))
  {
    if projectId.Some? && projectId.value != "" then
      match ParseUuid(projectId.value)
      case None => Object([("error", Str("Invalid project ID format"))])
      case Some(u) =>
        match Repository.GetById(repo, u)
        case Some(p) => Object([("project", ProjectValue(p))])
        case None => Object([("error", Str("Project not found"))])
    else Object([("projects", ProjectsValue(Repository.GetAll(repo)))])
  }

  /** The result of a call that passes every required argument. */
  function Output(t: ToolKind, repo: Repository.Repo, args: Args): Value
    requires Repository.Valid(repo)
    requires Missing(t, args) == []
  {
    var pid := args.projectId.GetOr("");
    match t
    case ProjectData => ProjectDataResult(repo, args.projectId)
    case SaveDraftPrd =>
      Object([("status", Str("success")),
              ("message", Str("Draft PRD saved for project " + pid)),
              ("content_length", Int(|args.content.value|))])
    case SaveCompletedPrd =>
      Object([("status", Str("success")),
              ("message", Str("Completed PRD saved for project " + pid)),
              ("content_length", Int(|args.content.value|))])
    case AnalyzeCodebase =>
      Object([("status", Str("success")),
              ("analysis_type", Str(args.analysisType.GetOr("structure"))),
              ("findings", Str("Codebase analysis for project " + pid)),
              ("recommendations", Strs(["Use dependency injection", "Add more tests",
                                        "Implement proper error handling"]))])
    case ValidateRequirements =>
      Object([("status", Str("success")),
              ("validation_score", Decimal("0.85")),
              ("missing_areas", Strs(["Performance requirements", "Security considerations"])),
              ("recommendations", Strs(["Add specific performance metrics",
                                        "Define security requirements"]))])
    case SuggestArchitecture =>
      Object([("status", Str("success")),
              ("project_id", Str(pid)),
              ("suggested_architecture", Str("Microservices with API Gateway")),
              ("patterns", Strs(["Repository Pattern", "CQRS", "Event Sourcing"])),
              ("technologies", Strs(["React Native", "Node.js", "PostgreSQL", "Redis"]))])
    case FetchProjectData =>
      Object([("status", Str("success")),
              ("project_id", Str(pid)),
              ("data_sources", Strs(["Git repository", "Documentation", "Issue tracker"])),
              ("summary", Str("Fetched comprehensive data for project " + pid))])
    case GatherRequirements =>
      Object([("status", Str("success")),
              ("project_id", Str(pid)),
              ("requirements_found", Int(15)),
              ("sources", Strs(["Documentation", "User stories", "Legacy systems"])),
              ("summary", Str("Gathered existing requirements for project " + pid))])
    case CheckCompleteness =>
      Object([("status", Str("success")),
              ("project_id", Str(pid)),
              ("completeness_score", Decimal("0.75")),
              ("missing_categories", Strs(["Security", "Performance", "Compliance"])),
              ("recommendations", Strs(["Add security requirements",
                                        "Define performance benchmarks"]))])
  }

  /** `execute`: a call missing a required argument raises `TypeError`;
      otherwise the tool's dictionary. No tool writes to the repository: the
      repository is an input only. */
  function Execute(t: ToolKind, repo: Repository.Repo, args: Args): (r: Result<Value, Error>)
    requires Repository.Valid(repo)
    ensures r.Err? <==> |Missing(t, args)| > 0
    ensures r.Err? ==> r.error.TypeError?
    ensures r.Ok? ==> r.value.Object?
  {
    var ms := Missing(t, args);
    if |ms| > 0 then Err(TypeError(MissingMessage(ClassName(t), ms)))
    else Ok(Output(t, repo, args))
  }

  /** The lookup finds the first field carrying the key. */
  lemma {:induction false} FieldAt(fs: seq<(string, Value)>, key: string, k: nat)
    requires k < |fs| && fs[k].0 == key
    requires forall j :: 0 <= j < k ==> fs[j].0 != key
    ensures Field(Object(fs), key) == Some(fs[k].1)
    decreases k
  {
    if k > 0 {
      FieldAt(fs[1..], key, k - 1);
    }
  }

  /** The PRD-saving tools report the length of the content they were given
      and name the project in their message; nothing is stored. */
  lemma SavePrdReportsLength(t: ToolKind, repo: Repository.Repo, pid: string, content: string)
    requires Repository.Valid(repo)
    requires t == SaveDraftPrd || t == SaveCompletedPrd
    ensures var r := Execute(t, repo, Args(Some(pid), Some(content), None, None));
            && r.Ok?
            && Field(r.value, "status") == Some(Str("success"))
            && Field(r.value, "content_length") == Some(Int(|content|))
            && Field(r.value, "message") ==
                 Some(Str(if t == SaveDraftPrd then "Draft PRD saved for project " + pid
                          else "Completed PRD saved for project " + pid))
  {
    var fs := Execute(t, repo, Args(Some(pid), Some(content), None, None)).value.fields;
    FieldAt(fs, "message", 1);
    FieldAt(fs, "content_length", 2);
  }

  /** The tools that take a project id echo it back unchanged. */
  lemma ToolsEchoProjectId(t: ToolKind, repo: Repository.Repo, pid: string)
    requires Repository.Valid(repo)
    requires t in {SuggestArchitecture, FetchProjectData, GatherRequirements, CheckCompleteness}
    ensures var r := Execute(t, repo, Args(Some(pid), None, None, None));
            r.Ok? && Field(r.value, "project_id") == Some(Str(pid))
  {
    var fs := Execute(t, repo, Args(Some(pid), None, None, None)).value.fields;
    FieldAt(fs, "project_id", 1);
  }

  /** The codebase analysis echoes its analysis type, "structure" by default,
      and names the project in its findings. */
  lemma AnalysisEchoesType(repo: Repository.Repo, pid: string, analysisType: Option<string>)
    requires Repository.Valid(repo)
    ensures var r := Execute(AnalyzeCodebase, repo, Args(Some(pid), None, analysisType, None));
            && r.Ok?
            && Field(r.value, "analysis_type") == Some(Str(analysisType.GetOr("structure")))
            && Field(r.value, "findings") == Some(Str("Codebase analysis for project " + pid))
  {
    var fs := Execute(AnalyzeCodebase, repo, Args(Some(pid), None, analysisType, None)).value.fields;
    FieldAt(fs, "analysis_type", 1);
    FieldAt(fs, "findings", 2);
  }

    /** A call succeeds exactly when it passes every parameter without a
      default; otherwise the `TypeError` names the absent ones in
      declaration order. */
  lemma ExecuteNeedsRequired(t: ToolKind, repo: Repository.Repo, args: Args)
    requires Repository.Valid(repo)
    ensures Execute(t, repo, args).Ok? <==> forall p :: p in Required(t) ==> Given(args, p)
    ensures Execute(t, repo, args).Err? ==>
              Execute(t, repo, args).error == TypeError(MissingMessage(ClassName(t), Absent(Required(t), args)))
  {
    var ms := Missing(t, args);
    if |ms| > 0 {
      assert ms[0] in ms;
    }
  }

/** A call without a required argument is refused whatever the tool, while
      the project-data tool needs no argument at all. */
  lemma MissingArgumentRaises(t: ToolKind, repo: Repository.Repo)
    requires Repository.Valid(repo) && t != ProjectData
    ensures Execute(t, repo, Args(None, None, None, None)).Err?
    ensures Execute(ProjectData, repo, Args(None, None, None, None)).Ok?
  {
  }
}
