/** `get_agent_model_config`: which model and provider an agent runs on, from the graph state's
    metadata. The request object's own per-agent lookup is foreign code and is a parameter. */
module Config {
  import opened Wrappers
  import opened Models

  /** The pair `call_llm` uses when it has no state or no agent name. */
  const DefaultModelName: string := "mistral:7b-instruct"
  const DefaultProviderName: string := "Ollama"

  /** A provider as the metadata or the request hands it over: an enumeration member or a plain
      string. */
  datatype ProviderRef = Member(p: Provider) | Plain(s: string)

  /** The provider's string: `.value` of a member, the string itself otherwise. */
  function Spelled(r: ProviderRef): string {
    match r
    case Member(p) => ProviderValue(p)
    case Plain(s) => s
  }

  /** Python truthiness of an optional name and an optional provider (a member of a string
      enumeration with a non-empty value is always true). */
  predicate NameGiven(o: Option<string>) {
    o.Some? && o.value != ""
  }
  predicate ProviderGiven(o: Option<ProviderRef>) {
    o.Some? && (o.value.Member? || o.value.s != "")
  }

  /** What the request's `get_agent_model_config(agent_name)` returns. */
  datatype AgentChoice = AgentChoice(modelName: Option<string>, provider: Option<ProviderRef>)

  /** The request object; `lookup` is `None` when it has no `get_agent_model_config` method. */
  datatype Request = Request(lookup: Option<string -> AgentChoice>)

  /** The `metadata` entry of the state; absent keys are `None`. */
  datatype Metadata = Metadata(request: Option<Request>, modelName: Option<string>, modelProvider: Option<ProviderRef>)

  /** The graph state: its `metadata` entry, if any, and how many other entries it has. */
  datatype State = State(metadata: Option<Metadata>, otherEntries: nat)

  /** `state.get("metadata", {})`. */
  function MetadataOf(state: State): Metadata {
    if state.metadata.Some? then state.metadata.value else Metadata(None, None, None)
  }

  /** `if state`: a dictionary is true when it has an entry. */
  predicate StateGiven(state: Option<State>) {
    state.Some? && (state.value.metadata.Some? || state.value.otherEntries > 0)
  }

  /** `if agent_name`. */
  predicate AgentGiven(agent: Option<string>) {
    agent.Some? && agent.value != ""
  }

  /** What the request's per-agent lookup answers for `agent`, when the metadata holds a request
      that has one. */
  function Choice(state: State, agent: string): Option<AgentChoice> {
    var request := MetadataOf(state).request;
    if request.Some? && request.value.lookup.Some? then Some(request.value.lookup.value(agent)) else None
  }

  /** The per-agent pair: offered exactly when the request has a lookup whose answer gives both a
      name and a provider, and then that name with the provider's spelling. */
  function AgentOverride(state: State, agent: string): (r: Option<(string, string)>)
    ensures r.Some? <==> Choice(state, agent).Some? && NameGiven(Choice(state, agent).value.modelName)
                         && ProviderGiven(Choice(state, agent).value.provider)
    ensures r.Some? ==> r.value == (Choice(state, agent).value.modelName.value,
                                    Spelled(Choice(state, agent).value.provider.value))
    ensures r.Some? ==> r.value.0 != "" && r.value.1 != ""
  {
    var choice := Choice(state, agent);
    if choice.Some? && NameGiven(choice.value.modelName) && ProviderGiven(choice.value.provider) then
      Some((choice.value.modelName.value, Spelled(choice.value.provider.value)))
    else None
  }

  /** The two-level fallback with the last-resort pair `fallback`: a complete per-agent pair wins
      as a whole; otherwise the name and the provider each come from the metadata when it gives
      them and from `fallback` when it does not. */
  function Resolve(state: State, agent: string, fallback: (string, string)): (r: (string, string))
    requires fallback.0 != "" && fallback.1 != ""
    ensures r.0 != "" && r.1 != ""
    ensures AgentOverride(state, agent).Some? ==> r == AgentOverride(state, agent).value
    ensures AgentOverride(state, agent).None? ==>
              && (NameGiven(MetadataOf(state).modelName) ==> r.0 == MetadataOf(state).modelName.value)
              && (!NameGiven(MetadataOf(state).modelName) ==> r.0 == fallback.0)
              && (ProviderGiven(MetadataOf(state).modelProvider) ==> r.1 == Spelled(MetadataOf(state).modelProvider.value))
              && (!ProviderGiven(MetadataOf(state).modelProvider) ==> r.1 == fallback.1)
  {
    var pair := AgentOverride(state, agent);
    if pair.Some? then pair.value
    else
      var meta := MetadataOf(state);
      var name := if NameGiven(meta.modelName) then meta.modelName.value else fallback.0;
      var provider := if ProviderGiven(meta.modelProvider) then Spelled(meta.modelProvider.value) else fallback.1;
      (name, provider)
  }

  /** The last resort `get_agent_model_config` is written with. */
  const AsWrittenLastResort: (string, string) := ("gpt-4.1", "OPENAI")
  /** The last resort it evidently means: the pair `call_llm` uses without state. */
  const CorrectedLastResort: (string, string) := (DefaultModelName, DefaultProviderName)

  /** `get_agent_model_config` as written: its last resort is ("gpt-4.1", "OPENAI"). */
  function GetAgentModelConfigAsWritten(state: State, agent: string): (r: (string, string))
    ensures r.0 != "" && r.1 != ""
  {
    Resolve(state, agent, AsWrittenLastResort)
  }

  /** `get_agent_model_config` with the last resort `call_llm` itself uses. */
  function GetAgentModelConfig(state: State, agent: string): (r: (string, string))
    ensures r.0 != "" && r.1 != ""
  {
    Resolve(state, agent, CorrectedLastResort)
  }

  /** A per-agent answer with either part missing is dropped as a whole: neither of its parts
      leaks into the result, which is what the metadata and the last resort give. */
  lemma PartialOverrideIgnored(state: State, agent: string, fallback: (string, string))
    requires fallback.0 != "" && fallback.1 != ""
    requires Choice(state, agent).Some?
    requires !NameGiven(Choice(state, agent).value.modelName) || !ProviderGiven(Choice(state, agent).value.provider)
    ensures var meta := MetadataOf(state);
            Resolve(state, agent, fallback)
            == (if NameGiven(meta.modelName) then meta.modelName.value else fallback.0,
                if ProviderGiven(meta.modelProvider) then Spelled(meta.modelProvider.value) else fallback.1)
  {
  }

  /** As written, a state whose request and metadata name no provider falls back to the
      provider "OPENAI", which `ModelProvider(...)` in `call_llm` rejects and which `get_model`
      refuses; when the metadata names no model either, the model is one the catalogue does not
      hold. */
  lemma AsWrittenFallbackRejected(state: State, agent: string)
    requires AgentOverride(state, agent).None?
    requires !ProviderGiven(MetadataOf(state).modelProvider)
    ensures GetAgentModelConfigAsWritten(state, agent).1 == "OPENAI"
    ensures ParseProvider(GetAgentModelConfigAsWritten(state, agent).1).None?
    ensures GetModel(GetAgentModelConfigAsWritten(state, agent).0, GetAgentModelConfigAsWritten(state, agent).1).Err?
    ensures !NameGiven(MetadataOf(state).modelName) ==>
              && GetAgentModelConfigAsWritten(state, agent) == ("gpt-4.1", "OPENAI")
              && GetModelInfo(GetAgentModelConfigAsWritten(state, agent).0, GetAgentModelConfigAsWritten(state, agent).1).None?
  {
  }

  /** The call path that reaches it: a state holding only an empty metadata entry, for a named
      agent. */
  lemma AsWrittenFallbackExample()
    ensures StateGiven(Some(State(Some(Metadata(None, None, None)), 0)))
    ensures ParseProvider(GetAgentModelConfigAsWritten(State(Some(Metadata(None, None, None)), 0), "risk_manager").1).None?
  {
    AsWrittenFallbackRejected(State(Some(Metadata(None, None, None)), 0), "risk_manager");
  }

  /** With the corrected last resort, a state that names no provider resolves to a provider
      `call_llm` accepts, and one that names no model either resolves to a catalogued model. */
  lemma FallbackAccepted(state: State, agent: string)
    requires AgentOverride(state, agent).None?
    requires !ProviderGiven(MetadataOf(state).modelProvider)
    ensures ParseProvider(GetAgentModelConfig(state, agent).1).Some?
    ensures GetModel(GetAgentModelConfig(state, agent).0, GetAgentModelConfig(state, agent).1).Ok?
    ensures !NameGiven(MetadataOf(state).modelName)
            ==> GetModelInfo(GetAgentModelConfig(state, agent).0, GetAgentModelConfig(state, agent).1)
                == Some(AvailableModels[0])
  {
    CatalogueLookup(DefaultProviderName);
  }

  /** The pair used without state or agent name is the first catalogue entry. */
  lemma DefaultPairCatalogued()
    ensures GetModelInfo(DefaultModelName, DefaultProviderName) == Some(AvailableModels[0])
    ensures ParseProvider(DefaultProviderName) == Some(Ollama)
  {
    CatalogueLookup(DefaultProviderName);
  }
}
