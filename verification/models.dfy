/** The model catalogue: the one supported provider, the fixed list of Ollama models, the choice
    tuples shown to the user, the lookup `call_llm` uses to pick its path, and the provider check
    that guards client construction. */
module Models {
  import opened Wrappers

  /** `ModelProvider`, a string enumeration with the single member OLLAMA. */
  datatype Provider = Ollama

  /** The string an enumeration member stands for. */
  function ProviderValue(p: Provider): (s: string)
    ensures ParseProvider(s) == Some(p)
  {
    match p
    case Ollama => "Ollama"
  }

  /** `ModelProvider(s)`: the member whose value is `s`, or `None` where Python raises
      `ValueError`. */
  function ParseProvider(s: string): (r: Option<Provider>)
    ensures r.Some? <==> s == "Ollama"
    ensures r.Some? ==> r.value == Ollama
  {
    if s == "Ollama" then Some(Ollama) else None
  }

  /** `LLMModel`: one catalogue entry. */
  datatype LlmModel = LlmModel(displayName: string, modelName: string, provider: Provider) {

    /** The `(display_name, model_name, provider value)` triple the model picker lists. */
    function ToChoiceTuple(): (t: (string, string, string))
      ensures t.0 == displayName && t.1 == modelName
      ensures ParseProvider(t.2) == Some(provider)
    {
      (displayName, modelName, ProviderValue(provider))
    }

    /** No catalogued model answers in a native JSON mode. */
    predicate HasJsonMode(): (b: bool)
      ensures !b
    {
      false
    }
  }

  /** `AVAILABLE_MODELS`. */
  const AvailableModels: seq<LlmModel> := [
    LlmModel("[ollama] mistral:7b-instruct", "mistral:7b-instruct", Ollama),
    LlmModel("[ollama] llama3.1:8b-instruct", "llama3.1:8b-instruct", Ollama),
    LlmModel("[ollama] codellama:7b-instruct", "codellama:7b-instruct", Ollama),
    LlmModel("[ollama] qwen2.5:7b-instruct", "qwen2.5:7b-instruct", Ollama)
  ]

  /** The choice tuples of a list of models, in the list's order (`LLM_ORDER` is this of
      `AVAILABLE_MODELS`). */
  function ChoiceOrder(models: seq<LlmModel>): (order: seq<(string, string, string)>)
    ensures |order| == |models|
    ensures forall i :: 0 <= i < |models| ==> order[i] == models[i].ToChoiceTuple()
  {
    seq(|models|, i requires 0 <= i < |models| => models[i].ToChoiceTuple())
  }

  /** A model's name and provider value both equal the ones asked for. */
  predicate Matches(m: LlmModel, modelName: string, provider: string) {
    m.modelName == modelName && ProviderValue(m.provider) == provider
  }

  /** The first of `models` that matches, or `None`. */
  function FirstMatch(models: seq<LlmModel>, modelName: string, provider: string): (r: Option<LlmModel>)
    ensures r.None? <==> forall i :: 0 <= i < |models| ==> !Matches(models[i], modelName, provider)
    ensures r.Some? ==> exists i :: 0 <= i < |models| && models[i] == r.value
                                    && Matches(r.value, modelName, provider)
                                    && forall j :: 0 <= j < i ==> !Matches(models[j], modelName, provider)
  {
    if models == [] then None
    else if Matches(models[0], modelName, provider) then Some(models[0])
    else
      var r := FirstMatch(models[1..], modelName, provider);
      assert forall i :: 1 <= i < |models| ==> models[i] == models[1..][i - 1];
      r
  }

  /** `get_model_info(model_name, model_provider)`: the catalogue entry with that name and
      provider value, or `None`. */
  function GetModelInfo(modelName: string, provider: string): (r: Option<LlmModel>)
    ensures r.Some? ==> r.value in AvailableModels && r.value.modelName == modelName
                        && ProviderValue(r.value.provider) == provider
    ensures r.Some? <==> provider == "Ollama"
                         && exists i :: 0 <= i < |AvailableModels| && AvailableModels[i].modelName == modelName
  {
    FirstMatch(AvailableModels, modelName, provider)
  }

  /** The catalogue holds four Ollama models with distinct names. */
  lemma CatalogueShape()
    ensures |AvailableModels| == 4
    ensures forall i :: 0 <= i < |AvailableModels| ==> AvailableModels[i].provider == Ollama
    ensures forall i, j :: 0 <= i < j < |AvailableModels| ==> AvailableModels[i].modelName != AvailableModels[j].modelName
  {
    assert AvailableModels[0].modelName[0] == 'm';
    assert AvailableModels[1].modelName[0] == 'l';
    assert AvailableModels[2].modelName[0] == 'c';
    assert AvailableModels[3].modelName[0] == 'q';
  }

  /** Every catalogued model is found by its own name and the provider value "Ollama", and no
      model is found under any other provider value. */
  lemma {:induction false} CatalogueLookup(provider: string)
    ensures forall i :: 0 <= i < |AvailableModels| ==>
              GetModelInfo(AvailableModels[i].modelName, "Ollama") == Some(AvailableModels[i])
    ensures provider != "Ollama" ==> forall n :: GetModelInfo(n, provider).None?
  {
    CatalogueShape();
    forall i | 0 <= i < |AvailableModels|
      ensures GetModelInfo(AvailableModels[i].modelName, "Ollama") == Some(AvailableModels[i])
    {
      var r := GetModelInfo(AvailableModels[i].modelName, "Ollama");
      assert Matches(AvailableModels[i], AvailableModels[i].modelName, "Ollama");
      var k :| 0 <= k < |AvailableModels| && AvailableModels[k] == r.value
               && Matches(r.value, AvailableModels[i].modelName, "Ollama")
               && forall j :: 0 <= j < k ==> !Matches(AvailableModels[j], AvailableModels[i].modelName, "Ollama");
      assert k == i;
    }
  }

  /** The `LLM_ORDER` table lists the catalogue in order, one triple per model. */
  lemma LlmOrderListsCatalogue()
    ensures |ChoiceOrder(AvailableModels)| == |AvailableModels| == 4
    ensures ChoiceOrder(AvailableModels)[0] == ("[ollama] mistral:7b-instruct", "mistral:7b-instruct", "Ollama")
  {
  }

  /** The chat client `get_model` builds; its host and URL come from the environment and are not
      part of this model. */
  datatype OllamaClient = OllamaClient(model: string)

  datatype ModelError = UnsupportedProvider(provider: string)

  /** `get_model(model_name, model_provider)`: a client for the Ollama provider, and the
      `ValueError` for any other. */
  function GetModel(modelName: string, provider: string): (r: Result<OllamaClient, ModelError>)
    ensures r.Ok? <==> ParseProvider(provider).Some?
    ensures r.Ok? ==> r.value.model == modelName
    ensures r.Err? ==> r.error.provider == provider
  {
    if provider == ProviderValue(Ollama) then Ok(OllamaClient(modelName))
    else Err(UnsupportedProvider(provider))
  }
}
