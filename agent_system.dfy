/** The browser-side responder registry (src/lib/agent-system.ts): a map from
    agent name to agent plus an optional default, the selection of an agent
    from a completion provider's answer with fallback to the default, and the
    reply generation that never fails. The completion provider is an oracle:
    each call is given as `Some(text)` or `None` when it throws. */
module AgentSystem {
  import opened Common
  import opened Strings

  datatype Agent = Agent(name: string, description: string, skills: seq<string>)

  const CouldNotDetermine: string := "Could not determine the appropriate department for this query."
  const Apology: string :=
    "I apologize, but I'm unable to generate a response at the moment. Please try again later."

  /** The three agents both registries are configured with. */
  const CustomerService: Agent := Agent("customer_service", "general customer service specialist",
                                        ["customer service", "general inquiries", "basic assistance"])
  const TechnicalSupport: Agent := Agent("technical_support", "specialist in resolving technical issues",
                                         ["troubleshooting", "configuration", "technical problems"])
  const Sales: Agent := Agent("sales", "specialist in sales and product inquiries",
                              ["products", "pricing", "promotions"])

  class SimpleAgentSystem {
    var agents: map<string, Agent>
    var defaultAgent: Option<Agent>

    /** Every entry is filed under its own name. */
    ghost predicate Valid()
      reads this
    {
      forall k :: k in agents ==> agents[k].name == k
    }

    constructor ()
      ensures Valid() && agents == map[] && defaultAgent == None
    {
      agents, defaultAgent := map[], None;
    }

    /** Inserts or overwrites the entry under `name`; other entries and the
        default stay. */
    method AddAgent(name: string, description: string, skills: seq<string>)
      requires Valid()
      modifies this
      ensures Valid()
      ensures agents == old(agents)[name := Agent(name, description, skills)]
      ensures defaultAgent == old(defaultAgent)
    {
      agents := agents[name := Agent(name, description, skills)];
    }

    /** Replaces only the default; the registry stays. */
    method SetDefaultAgent(name: string, description: string, skills: seq<string>)
      modifies this
      ensures defaultAgent == Some(Agent(name, description, skills))
      ensures agents == old(agents)
    {
      defaultAgent := Some(Agent(name, description, skills));
    }

    /** `selectAgent`: the trimmed answer names a registered agent, which is
        returned; otherwise, or when the provider throws, the default, which
        may be absent. Never rejects. */
    function SelectAgent(answer: Option<string>): (r: Option<Agent>)
      reads this
      ensures answer.Some? && Strip(JavaScript, answer.value) in agents ==>
                r == Some(agents[Strip(JavaScript, answer.value)])
      ensures answer.None? || Strip(JavaScript, answer.value) !in agents ==> r == defaultAgent
    {
      match answer
      case None => defaultAgent
      case Some(text) =>
        var name := Strip(JavaScript, text);
        if name in agents then Some(agents[name]) else defaultAgent
    }

    /** `processQuery`: the fixed "could not determine" text when no agent is
        found, the fixed apology when the second completion throws, and the
        completion otherwise. Never rejects. */
    function ProcessQuery(selection: Option<string>, completion: Option<string>): (r: string)
      reads this
      ensures SelectAgent(selection).None? ==> r == CouldNotDetermine
      ensures SelectAgent(selection).Some? && completion.None? ==> r == Apology
      ensures SelectAgent(selection).Some? && completion.Some? ==> r == completion.value
    {
      if SelectAgent(selection).None? then CouldNotDetermine
      else match completion
        case None => Apology
        case Some(text) => text
    }
  }

  /** In a valid registry, a selection other than the default is the agent
      whose name is the stripped answer. */
  lemma SelectionNamesAgent(s: SimpleAgentSystem, text: string)
    requires s.Valid()
    requires s.SelectAgent(Some(text)) != s.defaultAgent
    ensures s.SelectAgent(Some(text)).Some?
    ensures s.SelectAgent(Some(text)).value.name == Strip(JavaScript, text)
  {
  }

  /** White space around a registered name does not change the selection. */
  lemma SelectionIgnoresPadding(s: SimpleAgentSystem, pre: string, name: string, post: string)
    requires AllSpace(JavaScript, pre) && AllSpace(JavaScript, post)
    requires |name| > 0 && !IsSpace(JavaScript, name[0]) && !IsSpace(JavaScript, name[|name| - 1])
    requires name in s.agents
    ensures s.SelectAgent(Some(pre + name + post)) == Some(s.agents[name])
  {
    StripPadded(JavaScript, pre, name, post);
  }

  /** Once a default is configured, an agent is always found, so the reply is
      the completion or, when the provider throws, the apology. */
  lemma DefaultAlwaysAnswers(s: SimpleAgentSystem, selection: Option<string>, completion: Option<string>)
    requires s.defaultAgent.Some?
    ensures s.SelectAgent(selection).Some?
    ensures s.ProcessQuery(selection, completion) == if completion.Some? then completion.value else Apology
  {
  }

  /** Module initialisation: the default is customer_service and the registry
      holds exactly technical_support and sales. */
  method CreateConfigured() returns (s: SimpleAgentSystem)
    ensures fresh(s) && s.Valid()
    ensures s.defaultAgent == Some(CustomerService)
    ensures s.agents == map["technical_support" := TechnicalSupport, "sales" := Sales]
  {
    s := new SimpleAgentSystem();
    s.SetDefaultAgent("customer_service", "general customer service specialist",
                      ["customer service", "general inquiries", "basic assistance"]);
    s.AddAgent("technical_support", "specialist in resolving technical issues",
               ["troubleshooting", "configuration", "technical problems"]);
    s.AddAgent("sales", "specialist in sales and product inquiries", ["products", "pricing", "promotions"]);
  }

  /** On the configured registry, an answer naming "sales" with any white
      space around it selects sales. */
  lemma ConfiguredSelectsSales(s: SimpleAgentSystem, pre: string, post: string)
    requires s.agents == map["technical_support" := TechnicalSupport, "sales" := Sales]
    requires AllSpace(JavaScript, pre) && AllSpace(JavaScript, post)
    ensures s.SelectAgent(Some(pre + "sales" + post)) == Some(Sales)
  {
    assert !IsSpace(JavaScript, 's');
    assert "sales" in s.agents && s.agents["sales"] == Sales;
    SelectionIgnoresPadding(s, pre, "sales", post);
  }

  /** On the configured registry, an unknown name or a provider failure
      selects customer_service. */
  lemma ConfiguredFallsBack(s: SimpleAgentSystem, unknown: string)
    requires s.defaultAgent == Some(CustomerService)
    requires s.agents == map["technical_support" := TechnicalSupport, "sales" := Sales]
    requires Strip(JavaScript, unknown) != "technical_support" && Strip(JavaScript, unknown) != "sales"
    ensures s.SelectAgent(Some(unknown)) == Some(CustomerService)
    ensures s.SelectAgent(None) == Some(CustomerService)
  {
    var name := Strip(JavaScript, unknown);
    assert name !in s.agents;
  }
}
