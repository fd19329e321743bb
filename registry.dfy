/** The named-agent registry (`AgentRegistry` in agents/registry.py). */
module Registry {
  import opened Wrappers

  /** A registered agent: the name it registers under and its handler, left abstract. */
  datatype Agent<H> = Agent(name: string, handler: H)

  /** The KeyError that `get` raises for an unknown name. */
  datatype NotFound = KeyError(message: string)

  class AgentRegistry<H> {
    /** The `_agents` dict. */
    var agents: map<string, Agent<H>>

    /** Every agent is filed under its own name. */
    ghost predicate Valid()
      reads this
    {
      forall n :: n in agents ==> agents[n].name == n
    }

    constructor ()
      ensures Valid() && agents == map[]
    {
      agents := map[];
    }

    /** `register(agent)`: files `agent` under its name, replacing any agent already there. */
    method Register(agent: Agent<H>)
      requires Valid()
      modifies this
      ensures Valid()
      ensures agents == old(agents)[agent.name := agent]
      ensures forall n :: n != agent.name ==> (n in agents <==> n in old(agents))
      ensures forall n :: n != agent.name && n in agents ==> agents[n] == old(agents)[n]
    {
      agents := agents[agent.name := agent];
    }

    /** `get(name)`: the agent registered under `name`, or KeyError; changes nothing. */
    method Get(name: string) returns (r: Result<Agent<H>, NotFound>)
      requires Valid()
      ensures r.Success? <==> name in agents
      ensures r.Success? ==> r.value == agents[name] && r.value.name == name
      ensures r.Failure? ==> r.error == KeyError("Agent not found: " + name)
    {
      if name !in agents {
        return Failure(KeyError("Agent not found: " + name));
      }
      r := Success(agents[name]);
    }
  }
}
