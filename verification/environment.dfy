/** The three Azure OpenAI settings the backend reads from its environment,
    and the rule both `get_agent` and `AgentFactory` apply to them: any
    setting that is unset or empty means the stub agent is used. */
module Environment {
  import opened Wrappers
  import Agents

  /** `AZURE_OPENAI_ENDPOINT`, `AZURE_OPENAI_API_KEY` and
      `AZURE_OPENAI_DEPLOYMENT_NAME`, each `None` when unset. */
  datatype Env = Env(endpoint: Option<string>, apiKey: Option<string>, deploymentName: Option<string>)

  /** Python's `not value` on an optional string. */
  predicate Blank(v: Option<string>) {
    v.None? || v.value == ""
  }

  /** The stub is used when any of the three settings is blank. */
  predicate UseStub(e: Env) {
    Blank(e.endpoint) || Blank(e.apiKey) || Blank(e.deploymentName)
  }

  /** The credentials of a complete environment, value for value. */
  function CredentialsOf(e: Env): (c: Agents.Credentials)
    requires !UseStub(e)
    ensures c.endpoint == e.endpoint.value && c.endpoint != ""
    ensures c.apiKey == e.apiKey.value && c.apiKey != ""
    ensures c.deploymentName == e.deploymentName.value && c.deploymentName != ""
  {
    Agents.Credentials(e.endpoint.value, e.apiKey.value, e.deploymentName.value)
  }
}
