/** `Agent` (src/mcp_agent/agents/agent.py): the placeholder agent, whose answer
    is a fixed prefix followed by the prompt, and the agent capability that
    `FastAgent.run` calls. */
module Agents {
  import opened Lists

  /** `mcp_agent.config.Settings`, kept opaque: loading configuration is not part
      of this model. */
  datatype Settings = Settings(entries: map<string, string>)

  /** `Agent(model, settings, config_path)`: the constructor only stores its
      arguments. */
  datatype Agent = Agent(model: Option<string>, settings: Option<Settings>, configPath: Option<string>)

  const ResponsePrefix: string := "This is a response to: "

  /** `Agent.run`: the placeholder response. */
  function Run(agent: Agent, prompt: string): (r: string)
    ensures |r| == |ResponsePrefix| + |prompt|
    ensures r[..|ResponsePrefix|] == ResponsePrefix && r[|ResponsePrefix|..] == prompt
  {
    ResponsePrefix + prompt
  }

  /** The prefix is 23 characters long. */
  lemma PrefixLength()
    ensures |ResponsePrefix| == 23
  {
  }

  /** The response depends on the prompt alone, and distinct prompts give
      distinct responses. */
  lemma RunInjective(a: Agent, b: Agent, p: string, q: string)
    ensures Run(a, p) == Run(b, q) <==> p == q
  {
    if Run(a, p) == Run(b, q) {
      assert p == Run(a, p)[|ResponsePrefix|..];
    }
  }

  /** What `FastAgent.run` invokes: the placeholder `Agent.run` of the source, or
      an agent whose outcome (a response, or a failure with its message) is
      given. */
  datatype Capability = Placeholder | Remote(outcome: Result<string, string>)

  function Invoke(cap: Capability, agent: Agent, prompt: string): Result<string, string> {
    match cap
    case Placeholder => Ok(Run(agent, prompt))
    case Remote(outcome) => outcome
  }

  /** The placeholder never fails, whatever the prompt and configuration. */
  lemma PlaceholderNeverFails(agent: Agent, prompt: string)
    ensures Invoke(Placeholder, agent, prompt).Ok?
    ensures Invoke(Placeholder, agent, prompt).value[|ResponsePrefix|..] == prompt
  {
  }
}
