# LLM call helpers of an Ollama-only hedge-fund agent system

This project models the helpers every analyst agent uses to query a language model, written in Dafny and with proofs:

- `call_llm` resolves which model an agent runs on. It checks the provider and picks the
  answer path: a ready-made structured answer, or free text to extract JSON from. It then runs a
  bounded retry loop, emits a progress update for each failed attempt, and falls back to a
  factory value or to per-field defaults.
- `extract_json_from_response` tries four strategies in a fixed order: a ```` ```json ```` fence,
  a bare ```` ``` ```` fence, the whole text, and the span from the first `{` to the last `}`.
- `create_default_response` builds a default value for every field of the result schema.
- `get_agent_model_config` resolves a per-agent model override with a two-level fallback.
- The model catalogue holds four Ollama models. The model also covers its UI choice list, its
  lookup and the provider check made when a client is built.

The collaborators the code calls but does not define are parameters:

- `json.loads` is `decode: string -> Option<Json>`. `None` stands for a raised exception.
- Pydantic validation, `model_class(**kw)`, is `validate: map<string, Json> -> Option<Instance>`.
- The model client's `invoke` is `backend: nat -> Reply`. It answers attempt `k`, counting from 0.
- The per-agent lookup of the request object is a function in the state.
- The progress singleton is the list of updates that `CallLlm` returns.

Modules:

- `Text`: Python's `str.find`, `str.rfind`, `str.strip` and `str(int)`.
- `Json`: decoded values and their truthiness.
- `Extraction`: the four strategies.
- `Defaults`: the default values.
- `Models`: the catalogue and the provider check.
- `Config`: the agent configuration.
- `Invoke`: the retry loop.

The retry loop is a `while` loop in `Invoke.RetryLoop`. It is proved equal to the recursive
specification `Invoke.Retry`. The lemmas about `Retry` then state what a call returns, how
often the backend is called and which updates are emitted.

`Invoke.CallLlm` models `call_llm` as written, including the last resort of
`get_agent_model_config` that the finding below is about. `Invoke.CallLlmCorrected` is the same
call with that last resort corrected.

Some behaviour of the code is easy to misread. The model follows the code in each case:

- llm.py:73 returns only when the extracted value is truthy. An attempt whose text yields no
  JSON, or a falsy value such as `{}`, `[]`, `0`, `""` or `null`, therefore raises nothing.
  It emits no progress update, since those are emitted only in the `except` branch at
  llm.py:78-80, and it moves on to the next attempt.
- If every attempt ends that way, the loop finishes without the `except` branch's fallback at
  llm.py:82-87. `create_default_response` at llm.py:90 comes back, and `default_factory` is
  never called. The same holds when `max_retries` is below one and the loop does not run. The
  model keeps this behaviour as the code has it. The comment at llm.py:89 calls that line
  unreachable, but the code does not show whether the factory or the defaults were meant
  there, so the model gives no corrected variant.
- llm.py:74 passes the extracted object to the model class as it is. Missing fields of a
  partial payload are not filled in by these helpers; whatever filling happens is pydantic's,
  inside `validate`.
- The condition at llm.py:58 wraps the client for native structured output whenever the model
  is not in the catalogue, because `has_json_mode()` is false for every catalogued model.

## Model

| member | source | states |
|---|---|---|
| Text.Strip | src/utils/llm.py:145 | `str.strip()` removes exactly the leading and trailing Python whitespace: the result is a contiguous slice whose ends are not whitespace, everything cut off is whitespace, and a text with non-space ends is unchanged |
| Text.Find | src/utils/llm.py:120 | `str.find` gives the first index where the pattern occurs and -1 exactly when it occurs nowhere |
| Text.RFind | src/utils/llm.py:151 | `str.rfind` gives the last index where the pattern occurs and -1 exactly when it occurs nowhere |
| Text.NatToString | src/utils/llm.py:80 | `str(n)` of a non-negative count is a digit string that denotes `n` and has no leading zero |
| Extraction.FencedCandidate | src/utils/llm.py:120-137 | for either tag, the candidate exists exactly when the tag occurs and a fence follows it. It is the stripped text from the end of the tag's first occurrence up to the first fence at or after that point |
| Extraction.BraceCandidate | src/utils/llm.py:150-153 | the brace span exists exactly when some `{` precedes some `}`; it starts with the first `{`, ends with the last `}`, and lies between those two positions |
| Extraction.Candidates | src/utils/llm.py:119-157 | the texts tried, in order, number 1 to 4 and always include the whole stripped text |
| Extraction.FirstDecoded | src/utils/llm.py:119-162 | the reference reading of the strategy chain: the first candidate that decodes wins, and the result is None exactly when none decodes |
| Extraction.ExtractJson | src/utils/llm.py:115-162 | `extract_json_from_response`: the four strategies with their guards and offsets, each falling through when decoding raises |
| Extraction.ExtractIsFirstDecoded | src/utils/llm.py:119-157 | the extraction is exactly the first successful decoding among the candidates, in strategy order |
| Extraction.ExtractNoneIffNothingDecodes | src/utils/llm.py:159-162 | the extraction yields None exactly when no candidate decodes; otherwise its result is the decoding of one candidate |
| Extraction.TaggedCandidateWins | src/utils/llm.py:126-127 | when that text decodes, its decoding is returned |
| Extraction.TaggedFenceTriedFirst | src/utils/llm.py:120-129 | a decodable ```` ```json ```` block wins over every later strategy |
| Extraction.BareFenceRefindsTag | src/utils/llm.py:132-137 | when the first fence is the ```` ```json ```` one, the bare-fence strategy skips only three characters and tries the tagged block's body with the word `json` in front |
| Extraction.UnfencedStartsWithWholeText | src/utils/llm.py:143-145 | a text with no fence tries the whole stripped text first and returns it whenever it decodes |
| Extraction.PlainObjectDecodedWhole | test_core_functionality.py:40-49 | the plain object `{"signal": "bullish", "confidence": 70}` is decoded whole, so `signal` is "bullish" and `confidence` is 70 |
| Defaults.DefaultFor | src/utils/llm.py:97-110 | each annotation gets a value of its kind (`Conforms`). That is the error sentinel for `str`, a falsy `0.0`, `0` or `{}` for `float`, `int` or a dict generic, exactly `__args__[0]` for an annotation with arguments, and `None` for an unrecognised one, which the model class may reject |
| Defaults.DefaultTable | src/utils/llm.py:95-110 | the default table has exactly the schema's field names as keys, each mapped to its annotation's default |
| Defaults.DefaultValues | src/utils/llm.py:95-110 | the field loop builds exactly the default table |
| Defaults.CreateDefaultResponse | src/utils/llm.py:93-112 | `create_default_response` is the model class applied to the default table; it raises when the class rejects it |
| Models.ProviderValue | src/llm/models.py:9-11 | the enumeration's only member has the value "Ollama", and parsing that value gives the member back |
| Models.ParseProvider | src/utils/llm.py:50-52 | `ModelProvider(s)` succeeds exactly for "Ollama" |
| Models.LlmModel.ToChoiceTuple | src/llm/models.py:20-22 | the choice tuple carries the display name, the model name and the provider's value, and the provider can be parsed back from it |
| Models.ChoiceOrder | src/llm/models.py:62 | `LLM_ORDER` has one choice tuple per catalogue entry, in catalogue order |
| Models.LlmOrderListsCatalogue | src/llm/models.py:62 | the UI order has four entries, the first being ("[ollama] mistral:7b-instruct", "mistral:7b-instruct", "Ollama") |
| Models.CatalogueShape | src/llm/models.py:38-59 | the catalogue holds four models, all with the Ollama provider and with pairwise distinct model names |
| Models.LlmModel.HasJsonMode | src/llm/models.py:24-26 | no catalogued model has a native JSON mode |
| Models.GetModelInfo | src/llm/models.py:67-69 | `get_model_info` finds a catalogue entry with exactly the name and provider value asked for, and finds one exactly when the provider is "Ollama" and some entry has that name |
| Models.FirstMatch | src/llm/models.py:67-69 | the lookup returns the first entry matching both name and provider, and None exactly when no entry matches |
| Models.CatalogueLookup | src/llm/models.py:67-69 | every entry is found by its own name under "Ollama", and nothing is found under any other provider value |
| Models.GetModel | src/llm/models.py:71-83 | a client is built exactly for the Ollama provider, on the model asked for; any other provider is an error naming it |
| Config.AgentOverride | src/utils/llm.py:171-178 | the per-agent pair is offered exactly when the request has a lookup whose answer has both a truthy name and a truthy provider. It is then that name and the provider's spelling: `.value` of an enumeration member, the string itself otherwise |
| Config.Resolve | src/utils/llm.py:171-188 | a complete per-agent pair wins as a whole; otherwise the name and the provider each come from the metadata when it gives them and from the last resort when it does not; both results are non-empty |
| Config.PartialOverrideIgnored | src/utils/llm.py:177-182 | a per-agent answer with either part missing is dropped as a whole. Both results come from the metadata or the last resort, as if the request had no lookup |
| Config.GetAgentModelConfigAsWritten | src/utils/llm.py:165-188 | `get_agent_model_config` as written, with the last resort ("gpt-4.1", "OPENAI"); both results are non-empty |
| Config.AsWrittenFallbackRejected | src/utils/llm.py:181-182 | when neither the request nor the metadata names a provider, the result's provider is "OPENAI". `ModelProvider(...)` rejects it and `get_model` refuses it. With no model named either, the pair is ("gpt-4.1", "OPENAI"), which the catalogue does not hold |
| Config.AsWrittenFallbackExample | src/utils/llm.py:35-36 | the last resort is reached by a state with an empty metadata entry and a named agent |
| Config.GetAgentModelConfig | src/utils/llm.py:165-188 | `get_agent_model_config` with the corrected last resort, the same pair `call_llm` uses without state |
| Config.FallbackAccepted | src/utils/llm.py:180-188 | with the corrected last resort, a state that names no provider resolves to an accepted provider, and one that also names no model resolves to the first catalogued model |
| Config.DefaultPairCatalogued | src/utils/llm.py:37-40 | the pair used without state or agent name is the first catalogue entry with an accepted provider |
| Invoke.UsesExtraction | src/utils/llm.py:58 | the text path is taken exactly when `get_model_info` found the model |
| Invoke.ResolvedConfig | src/utils/llm.py:35-40 | with a state and an agent name, the pair is the one the two-level fallback resolves. Without either, it is the first catalogue entry with an accepted provider. Both parts are non-empty |
| Json.Truthy | src/utils/llm.py:73 | exactly `None`, `False`, `0`, `0.0`, `""`, `[]` and `{}` are falsy |
| Invoke.Attempt | src/utils/llm.py:66-78 | one pass of the `try` body, in both directions. On the native path the reply is returned exactly when the call did not raise. On the text path a reply without text raises. An absent or falsy extraction falls through. A non-empty object the model class accepts is returned as that instance, and anything else raises |
| Invoke.RetryReturnsFirstDone | src/utils/llm.py:65-76 | the first attempt that returns decides the result; the backend was called once for it and for each attempt before it; the updates are those of the earlier failed attempts |
| Invoke.RetryExhausted | src/utils/llm.py:82-90 | when no attempt returns, the backend is called `max_retries` times, or not at all for a count below one. The factory answers only if the last attempt raised, and the defaults answer otherwise |
| Invoke.NotesCount | src/utils/llm.py:78-80 | exactly one update per raised attempt, with the agent's name and the status "Error - retry k/max", and none without an agent name |
| Invoke.RetryCallBound | src/utils/llm.py:65 | the backend is called at most `max_retries` times and at least once when that is positive; when an agent name is given, the number of updates equals the number of raised attempts among the calls, and there are none otherwise |
| Invoke.RetryStatus | src/utils/llm.py:80 | the status is "Error - retry " followed by the 1-based attempt number in decimal without leading zeros, "/" and `max_retries` |
| Invoke.Notify | src/utils/llm.py:79-80 | a raised attempt emits exactly one update, with the agent's name and that attempt's status, when an agent name is given, and none otherwise |
| Invoke.RetryRaisesOnlyOnDefaults | src/utils/llm.py:78-90 | no attempt's exception leaves the loop. The only exception the loop can end with is the model class rejecting the defaults, so when the defaults validate there is none |
| Invoke.NativeAnswerAfterTwoFailures | src/utils/llm.py:65-80 | two raised attempts and then an answer, with three allowed, give that answer after three calls, with the updates "Error - retry 1/3" and "Error - retry 2/3" |
| Invoke.SilentAttemptsFallBackToDefaults | src/utils/llm.py:70-74 | attempts whose text extracts to nothing emit no update; when all of them do, the defaults come back and the factory is not consulted |
| Invoke.RaisingAttemptsFallBack | src/utils/llm.py:78-87 | a backend that always raises is called `max_retries` times and leaves one update per attempt when an agent name is given, none otherwise; the factory's value comes back, or the defaults without a factory |
| Invoke.CataloguedModelsExtract | src/llm/models.py:24-26 | since no model has JSON mode, the text path is taken exactly for catalogued models |
| Invoke.CallGuarantees | src/utils/llm.py:49-90 | for a resolved pair, a provider `ModelProvider` rejects ends the call with that error, after no backend call and no update. Otherwise the backend is called at most `max_retries` times, and the only exception is the model class rejecting the defaults |
| Invoke.CallResolved | src/utils/llm.py:49-90 | from the provider conversion on, the method computes exactly the call specification for the resolved pair |
| Invoke.CallLlm | src/utils/llm.py:11-90 | `call_llm` as written. The result, the call count and the updates are the call specification on the pair resolved with the ("gpt-4.1", "OPENAI") last resort. The backend is called at most `max_retries` times. A state and agent that name no provider raise `ProviderRejected("OPENAI")` before any backend call. With an accepted provider and validating defaults nothing is raised |
| Invoke.EmptyMetadataCallRaises | src/utils/llm.py:35-52 | `state={"metadata": {}}` with the agent "risk_manager" reaches the last resort, and the call raises for "OPENAI" after no backend call and no update |
| Invoke.CallLlmCorrected | src/utils/llm.py:11-90 | `call_llm` with the corrected last resort. It is the call specification on the pair resolved with ("mistral:7b-instruct", "Ollama") and makes at most `max_retries` backend calls. Only a provider the state itself names can be rejected. Without state, agent name or named provider, validating defaults mean nothing is raised |
| Invoke.RetryLoop | src/utils/llm.py:65-90 | the `for`/`try`/`except` loop with its fallbacks computes exactly the retry specification |
| Invoke.DefaultResponse | src/utils/llm.py:87 | the default response as `call_llm` sees it: the defaults, or the exception pydantic raises on them |

## Left out

- `json.loads` is not modelled; it is the `decode` parameter. Floats are reals, with no NaN or infinities.
- Pydantic validation is not modelled; it is the `validate` parameter. It covers the filling of
  fields missing from a partial payload and the exceptions raised on bad input.
- The prompt and the model client are not modelled. `invoke` is a `backend` parameter, so the
  model does not depend on the prompt text.
- The `with_structured_output(..., method="json_mode")` wrapper is not modelled. The native path
  returns whatever the backend gives back.
- Building `ChatOllama` from the `OLLAMA_HOST` and `OLLAMA_BASE_URL` environment variables
  (src/llm/models.py:76-81) is not modelled. The client records only the model name, because the
  environment and the network lie outside the model.
- The extraction of API keys in `call_llm` (src/utils/llm.py:42-47) is not modelled. Its only
  use is to be passed to `get_model`, which ignores it for Ollama.
- The progress singleton and `print` are replaced by the returned list of updates. The
  `print` output itself is not modelled.
- `default_factory` is given as the value it would return. Exceptions raised by the factory
  itself are not modelled.
- `is_deepseek` and `is_gemini` are not modelled. They are constant false and unused by these
  helpers.
- `OLLAMA_LLM_ORDER` is not modelled; it is an alias of `LLM_ORDER`.
- `Defaults.DefaultFor`: an annotation with `__args__` is modelled only when its first argument
  is a value, as for `Literal[...]`. A generic such as `Optional[str]`, whose first argument is
  a type object, has no JSON counterpart here.
- `Text.Strip`: Dafny characters are Unicode scalar values, so lone surrogates, which Python
  strings may hold, are not modelled.
- `call_llm` given a provider that is neither a string nor an enumeration member is not
  modelled. The provider is always a `ProviderRef`.
- The command-line scripts `run_analysis.py` and `run_analysis_fast.py` are not part of this model.

## Findings

| source | as written | input that shows it | evidently intended | confidence | as-written member | corrected member |
|---|---|---|---|---|---|---|
| src/utils/llm.py:181-182 | when neither the request nor the metadata names a provider, `get_agent_model_config` falls back to ("gpt-4.1", "OPENAI") | `call_llm(prompt, M, agent_name="risk_manager", state={"metadata": {}})`: the fallback provider "OPENAI" reaches `ModelProvider("OPENAI")` at llm.py:52, which raises `ValueError` before any model call, and `get_model` refuses it as well. This breaks the function's promise of always returning valid values | fall back to the pair `call_llm` uses without state, ("mistral:7b-instruct", "Ollama"), the only provider the system supports | high that it raises, medium that it is unintended; not executed | Config.GetAgentModelConfigAsWritten and Invoke.CallLlm (shown by Config.AsWrittenFallbackRejected and Invoke.EmptyMetadataCallRaises) | Config.GetAgentModelConfig and Invoke.CallLlmCorrected (proved by Config.FallbackAccepted) |
