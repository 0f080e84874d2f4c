/** The static registry of agent roles: four roles, each with a fixed
    configuration naming its instructions resource and the tools it uses. */
module AgentConfig {
  import opened Wrappers
  import opened Seqs

  datatype Role = PrdFacilitator | TechnicalAnalyst | DataCollector | RequirementsValidator

  /** The enum value of a role. */
  function RoleValue(r: Role): string {
    match r
    case PrdFacilitator => "prd_facilitator"
    case TechnicalAnalyst => "technical_analyst"
    case DataCollector => "data_collector"
    case RequirementsValidator => "requirements_validator"
  }

  /** `AgentRole(value)`: the role with the given enum value, if any. */
  function RoleFromValue(s: string): (r: Option<Role>)
    ensures r.Some? ==> RoleValue(r.value) == s
  {
    if s == "prd_facilitator" then Some(PrdFacilitator)
    else if s == "technical_analyst" then Some(TechnicalAnalyst)
    else if s == "data_collector" then Some(DataCollector)
    else if s == "requirements_validator" then Some(RequirementsValidator)
    else None
  }

  /** Enum values and roles correspond one to one. */
  lemma RoleValueRoundTrip(r: Role, s: string)
    ensures RoleFromValue(RoleValue(r)) == Some(r)
    ensures RoleFromValue(s) == Some(r) <==> RoleValue(r) == s
  {
  }

  /** The keys of `AGENT_CONFIGS`, in definition order. */
  const AllRoles: seq<Role> := [PrdFacilitator, TechnicalAnalyst, DataCollector, RequirementsValidator]

  datatype AgentConfig = AgentConfig(
    role: Role,
    name: string,
    instructionsFile: string,
    tools: seq<string>,
    description: string,
    isUserFacing: bool)

  /** The description a role's configuration carries. */
  function Description(r: Role): string {
    match r
    case PrdFacilitator => "Interactive agent for conversational PRD creation"
    case TechnicalAnalyst => "Analyzes technical requirements and suggests solutions"
    case DataCollector => "Collects and organizes project data from repositories"
    case RequirementsValidator => "Validates and ensures completeness of requirements"
  }

  /** `get_agent_config`: total over the roles; each configuration belongs
      to its own role, lists no tool twice, and only the facilitator talks
      to the user. The project-data tool is bound to every background role. */
  function GetAgentConfig(r: Role): (c: AgentConfig)
    ensures c.role == r && c.description == Description(r)
    ensures NoDuplicates(c.tools)
    ensures c.isUserFacing <==> r == PrdFacilitator
    ensures "get_project_data" in c.tools <==> r != PrdFacilitator
  {
    match r
    case PrdFacilitator =>
      AgentConfig(PrdFacilitator, "PRD Facilitator", "prompts/prd.system.md",
        ["save_draft_prd", "save_completed_prd"],
        Description(PrdFacilitator), true)
    case TechnicalAnalyst =>
      AgentConfig(TechnicalAnalyst, "Technical Analyst", "prompts/technical_analyst.system.md",
        ["analyze_codebase", "suggest_architecture", "get_project_data"],
        Description(TechnicalAnalyst), false)
    case DataCollector =>
      AgentConfig(DataCollector, "Data Collector", "prompts/data_collector.system.md",
        ["fetch_project_data", "gather_requirements", "get_project_data"],
        Description(DataCollector), false)
    case RequirementsValidator =>
      AgentConfig(RequirementsValidator, "Requirements Validator", "prompts/requirements_validator.system.md",
        ["validate_requirements", "check_completeness", "get_project_data"],
        Description(RequirementsValidator), false)
  }

  /** The roles of `roles` whose user-facing flag equals `userFacing`, in order. */
  function RolesWhere(roles: seq<Role>, userFacing: bool): (out: seq<Role>)
    ensures |out| <= |roles|
    ensures forall r :: r in out <==> r in roles && GetAgentConfig(r).isUserFacing == userFacing
    decreases |roles|
  {
    if |roles| == 0 then []
    else
      var rest := RolesWhere(roles[1..], userFacing);
      if GetAgentConfig(roles[0]).isUserFacing == userFacing then [roles[0]] + rest else rest
  }

  /** `get_user_facing_roles`. */
  function UserFacingRoles(): seq<Role> {
    RolesWhere(AllRoles, true)
  }

  /** `get_background_roles`. */
  function BackgroundRoles(): seq<Role> {
    RolesWhere(AllRoles, false)
  }

  /** Every role is listed once, with distinct enum values. */
  lemma AllRolesListed(r: Role, r': Role)
    ensures r in AllRoles
    ensures NoDuplicates(AllRoles)
    ensures RoleValue(r) == RoleValue(r') ==> r == r'
  {
  }

  /** Exactly one role is user-facing, the facilitator; the user-facing and
      the background roles are disjoint and together are all four roles. */
  lemma RolesPartition(r: Role)
    ensures UserFacingRoles() == [PrdFacilitator]
    ensures BackgroundRoles() == [TechnicalAnalyst, DataCollector, RequirementsValidator]
    ensures (r in UserFacingRoles()) != (r in BackgroundRoles())
    ensures |UserFacingRoles()| + |BackgroundRoles()| == |AllRoles|
  {
    assert AllRoles[1..] == [TechnicalAnalyst, DataCollector, RequirementsValidator];
    assert AllRoles[1..][1..] == [DataCollector, RequirementsValidator];
    assert AllRoles[1..][1..][1..] == [RequirementsValidator];
  }
}
