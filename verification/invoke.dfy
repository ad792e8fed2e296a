/** `call_llm`: a bounded number of attempts against a language-model backend, read either as a
    ready-made structured answer or as free text to extract JSON from, and a fallback to defaults.
    The backend is a parameter that answers the `k`-th attempt (from 0); the progress sink is the
    list of updates the call emits, in order. */
module Invoke {
  import opened Wrappers
  import opened Json
  import opened Text
  import opened Extraction
  import opened Defaults
  import opened Models
  import opened Config

  /** What one backend call gives back: an exception, a chat message, or a model instance. */
  datatype Reply = Raised | Message(content: string) | Structured(value: Instance)

  /** An exception that escapes `call_llm`. */
  datatype Error = ProviderRejected(provider: string) | DefaultsRejected

  /** How `call_llm` ends. */
  datatype Outcome =
    | Returned(reply: Reply)         // the backend's answer, unchanged (native path)
    | Parsed(value: Instance)        // the model built from the extracted JSON
    | FromFactory(value: Instance)   // `default_factory()`
    | Defaulted(value: Instance)     // `create_default_response(...)`
    | Raises(error: Error)

  /** How one pass of the loop body ends: with a return, with a caught exception, or with an
      extraction that found nothing truthy and so falls through to the next attempt. */
  datatype Step = Done(outcome: Outcome) | Failed | Silent

  /** One `progress.update_status(agent_name, None, status)` call. */
  datatype Update = Update(agent: string, status: string)

  /** The text path is taken for a catalogued model without JSON mode; every other case wraps the
      client in the structured-output adapter. */
  predicate UsesExtraction(info: Option<LlmModel>): (b: bool)
    ensures b <==> info.Some?
  {
    info.Some? && !info.value.HasJsonMode()
  }

  /** The pair `call_llm` resolves before its first attempt, with `get_agent_model_config`
      falling back to `lastResort`. Without a state or an agent name it is the first catalogue
      entry. */
  function ResolvedConfig(state: Option<State>, agent: Option<string>, lastResort: (string, string)): (r: (string, string))
    requires lastResort.0 != "" && lastResort.1 != ""
    ensures r.0 != "" && r.1 != ""
    ensures StateGiven(state) && AgentGiven(agent) ==> r == Resolve(state.value, agent.value, lastResort)
    ensures !(StateGiven(state) && AgentGiven(agent))
            ==> GetModelInfo(r.0, r.1) == Some(AvailableModels[0]) && ParseProvider(r.1).Some?
  {
    if StateGiven(state) && AgentGiven(agent) then Resolve(state.value, agent.value, lastResort)
    else
      DefaultPairCatalogued();
      (DefaultModelName, DefaultProviderName)
  }

  /** A state and an agent name are given, but neither the request nor the metadata names a
      provider, so `get_agent_model_config` reaches its last resort for the provider. */
  predicate LastResortReached(state: Option<State>, agent: Option<string>) {
    && StateGiven(state) && AgentGiven(agent)
    && AgentOverride(state.value, agent.value).None?
    && !ProviderGiven(MetadataOf(state.value).modelProvider)
  }

  /** One pass of the `try` block on the backend's reply. On the text path a reply without text
      content raises, an extraction that yields nothing truthy falls through silently, and a
      truthy result that is not an object, or that the model class rejects, raises. */
  function Attempt(reply: Reply, extracting: bool, decode: string -> Option<Json>,
                   validate: map<string, Json> -> Option<Instance>): (s: Step)
    ensures reply.Raised? ==> s.Failed?
    ensures !extracting ==> (s.Failed? <==> reply.Raised?) && (s.Done? <==> !reply.Raised?)
                            && (s.Done? ==> s.outcome == Returned(reply))
    ensures extracting && !reply.Message? ==> s.Failed?
    ensures extracting && reply.Message? ==>
              var j := ExtractJson(reply.content, decode);
              && (s.Silent? <==> j.None? || !Truthy(j.value))
              && (s.Done? <==> j.Some? && j.value.Obj? && j.value.fields != map[] && validate(j.value.fields).Some?)
              && (s.Done? ==> s.outcome == Parsed(validate(j.value.fields).value))
  {
    if !extracting then
      if reply.Raised? then Failed else Done(Returned(reply))
    else if !reply.Message? then
      Failed
    else
      var parsed := ExtractJson(reply.content, decode);
      if parsed.None? || !Truthy(parsed.value) then Silent
      else if !parsed.value.Obj? then Failed
      else
        match validate(parsed.value.fields)
        case Some(m) => Done(Parsed(m))
        case None => Failed
  }

  /** The attempts of one call, as a function of the attempt number. */
  function Steps(backend: nat -> Reply, extracting: bool, decode: string -> Option<Json>,
                 validate: map<string, Json> -> Option<Instance>): nat -> Step
  {
    (k: nat) => Attempt(backend(k), extracting, decode, validate)
  }

  /** The status text for a failure on attempt `k` (from 0): "Error - retry k+1/max". */
  function RetryStatus(k: nat, maxRetries: int): (r: string)
    ensures exists d :: IsDigits(d) && d != [] && (d[0] == '0' ==> d == "0") && DecimalValue(d) == k + 1
                        && r == "Error - retry " + d + "/" + IntToString(maxRetries)
  {
    var d := NatToString(k + 1);
    assert IsDigits(d) && d != [] && (d[0] == '0' ==> d == "0") && DecimalValue(d) == k + 1;
    "Error - retry " + d + "/" + IntToString(maxRetries)
  }

  /** The update a failed attempt emits: one when an agent name is given, none otherwise. */
  function Notify(agent: Option<string>, k: nat, maxRetries: int): (u: seq<Update>)
    ensures |u| == if AgentGiven(agent) then 1 else 0
    ensures forall x :: x in u ==> AgentGiven(agent) && x == Update(agent.value, RetryStatus(k, maxRetries))
  {
    if AgentGiven(agent) then [Update(agent.value, RetryStatus(k, maxRetries))] else []
  }

  /** The outcome when nothing usable came back. */
  function DefaultsOutcome(schema: seq<Field>, validate: map<string, Json> -> Option<Instance>): Outcome
    requires DistinctNames(schema)
  {
    match validate(DefaultTable(schema))
    case Some(m) => Defaulted(m)
    case None => Raises(DefaultsRejected)
  }

  /** The observable result of a call: how it ends, how many times the backend was called, and
      the progress updates emitted. */
  datatype Run = Run(outcome: Outcome, calls: nat, progress: seq<Update>)

  /** The loop from attempt `k` on, with the updates `progress` already emitted. */
  function RunFrom(steps: nat -> Step, k: nat, maxRetries: int, agent: Option<string>,
                   factory: Option<Instance>, defaults: Outcome, progress: seq<Update>): Run
    decreases maxRetries - k
  {
    if k >= maxRetries then Run(defaults, k, progress)
    else
      match steps(k)
      case Done(o) => Run(o, k + 1, progress)
      case Silent => RunFrom(steps, k + 1, maxRetries, agent, factory, defaults, progress)
      case Failed =>
        var p := progress + Notify(agent, k, maxRetries);
        if k == maxRetries - 1 then
          Run(if factory.Some? then FromFactory(factory.value) else defaults, k + 1, p)
        else
          RunFrom(steps, k + 1, maxRetries, agent, factory, defaults, p)
  }

  /** The whole retry loop. */
  function Retry(steps: nat -> Step, maxRetries: int, agent: Option<string>,
                 factory: Option<Instance>, defaults: Outcome): Run
  {
    RunFrom(steps, 0, maxRetries, agent, factory, defaults, [])
  }

  /** The updates the first `n` attempts emit, in order: one per failed attempt when an agent
      name is given. */
  function Notes(steps: nat -> Step, agent: Option<string>, maxRetries: int, n: nat): seq<Update> {
    if n == 0 then []
    else Notes(steps, agent, maxRetries, n - 1) + (if steps(n - 1).Failed? then Notify(agent, n - 1, maxRetries) else [])
  }

  /** How many of the first `n` attempts raised. */
  function FailedCount(steps: nat -> Step, n: nat): nat {
    if n == 0 then 0 else FailedCount(steps, n - 1) + (if steps(n - 1).Failed? then 1 else 0)
  }

  /** The first attempt in `[k, maxRetries)` that returns, or `maxRetries` when none does. */
  function FirstDone(steps: nat -> Step, k: nat, maxRetries: int): (j: int)
    ensures k <= j && (maxRetries <= k ==> j == k) && (k < maxRetries ==> j <= maxRetries)
    ensures j < maxRetries ==> steps(j).Done?
    ensures forall i :: k <= i < j && i < maxRetries ==> !steps(i).Done?
    decreases maxRetries - k
  {
    if k >= maxRetries || steps(k).Done? then k else FirstDone(steps, k + 1, maxRetries)
  }

  /** The outcome when no attempt returned: `default_factory()` only if the last attempt raised
      and a factory was given, the defaults otherwise. */
  function ExhaustedOutcome(steps: nat -> Step, maxRetries: int, factory: Option<Instance>, defaults: Outcome): Outcome {
    if maxRetries >= 1 && steps(maxRetries - 1).Failed? && factory.Some? then FromFactory(factory.value) else defaults
  }

  /** An attempt that neither returns nor ends the loop hands over to the next one with its
      update, if any, added. */
  lemma NextStep(steps: nat -> Step, k: nat, maxRetries: int, agent: Option<string>,
                 factory: Option<Instance>, defaults: Outcome)
    requires k < maxRetries - 1 && !steps(k).Done?
    ensures RunFrom(steps, k, maxRetries, agent, factory, defaults, Notes(steps, agent, maxRetries, k))
            == RunFrom(steps, k + 1, maxRetries, agent, factory, defaults, Notes(steps, agent, maxRetries, k + 1))
  {
    var p := Notes(steps, agent, maxRetries, k);
    if steps(k).Failed? {
      assert Notes(steps, agent, maxRetries, k + 1) == p + Notify(agent, k, maxRetries);
    } else {
      assert Notes(steps, agent, maxRetries, k + 1) == p + [] == p;
    }
  }

  lemma {:induction false} RunFromFirstDone(steps: nat -> Step, k: nat, j: nat, maxRetries: int, agent: Option<string>,
                                            factory: Option<Instance>, defaults: Outcome)
    requires k <= j < maxRetries && steps(j).Done?
    requires forall i :: k <= i < j ==> !steps(i).Done?
    ensures RunFrom(steps, k, maxRetries, agent, factory, defaults, Notes(steps, agent, maxRetries, k))
            == Run(steps(j).outcome, j + 1, Notes(steps, agent, maxRetries, j))
    decreases j - k
  {
    if k < j {
      NextStep(steps, k, maxRetries, agent, factory, defaults);
      RunFromFirstDone(steps, k + 1, j, maxRetries, agent, factory, defaults);
    }
  }

  lemma {:induction false} RunFromExhausted(steps: nat -> Step, k: nat, maxRetries: int, agent: Option<string>,
                                            factory: Option<Instance>, defaults: Outcome)
    requires k < maxRetries
    requires forall i :: k <= i < maxRetries ==> !steps(i).Done?
    ensures RunFrom(steps, k, maxRetries, agent, factory, defaults, Notes(steps, agent, maxRetries, k))
            == Run(ExhaustedOutcome(steps, maxRetries, factory, defaults), maxRetries, Notes(steps, agent, maxRetries, maxRetries))
    decreases maxRetries - k
  {
    var p := Notes(steps, agent, maxRetries, k);
    if k < maxRetries - 1 {
      NextStep(steps, k, maxRetries, agent, factory, defaults);
      RunFromExhausted(steps, k + 1, maxRetries, agent, factory, defaults);
    } else if steps(k).Failed? {
      assert Notes(steps, agent, maxRetries, k + 1) == p + Notify(agent, k, maxRetries);
    } else {
      assert Notes(steps, agent, maxRetries, k + 1) == p + [] == p;
    }
  }

  /** The first attempt that returns decides the result: the backend was called once for it and
      once for each attempt before it, and the updates are those of the earlier failed attempts. */
  lemma RetryReturnsFirstDone(steps: nat -> Step, j: nat, maxRetries: int, agent: Option<string>,
                              factory: Option<Instance>, defaults: Outcome)
    requires j < maxRetries && steps(j).Done?
    requires forall i :: 0 <= i < j ==> !steps(i).Done?
    ensures Retry(steps, maxRetries, agent, factory, defaults)
            == Run(steps(j).outcome, j + 1, Notes(steps, agent, maxRetries, j))
  {
    RunFromFirstDone(steps, 0, j, maxRetries, agent, factory, defaults);
  }

  /** When no attempt returns, the backend was called `maxRetries` times (none for a count below
      one), every raised attempt left its update, and the result is the exhausted outcome. */
  lemma RetryExhausted(steps: nat -> Step, maxRetries: int, agent: Option<string>,
                       factory: Option<Instance>, defaults: Outcome)
    requires forall i :: 0 <= i < maxRetries ==> !steps(i).Done?
    ensures var n := if maxRetries > 0 then maxRetries else 0;
            Retry(steps, maxRetries, agent, factory, defaults)
            == Run(ExhaustedOutcome(steps, maxRetries, factory, defaults), n, Notes(steps, agent, maxRetries, n))
  {
    if maxRetries > 0 {
      RunFromExhausted(steps, 0, maxRetries, agent, factory, defaults);
    }
  }

  /** Exactly one update per raised attempt, carrying the agent's name and that attempt's
      "Error - retry k/max" status, and none at all without an agent name. */
  lemma NotesCount(steps: nat -> Step, agent: Option<string>, maxRetries: int, n: nat)
    ensures |Notes(steps, agent, maxRetries, n)| == if AgentGiven(agent) then FailedCount(steps, n) else 0
    ensures forall u :: u in Notes(steps, agent, maxRetries, n) ==>
              AgentGiven(agent) && exists i :: 0 <= i < n && steps(i).Failed? && u == Update(agent.value, RetryStatus(i, maxRetries))
    ensures AgentGiven(agent) ==> forall i :: 0 <= i < n && steps(i).Failed? ==>
              Update(agent.value, RetryStatus(i, maxRetries)) in Notes(steps, agent, maxRetries, n)
  {
    NotesLength(steps, agent, maxRetries, n);
    NotesSound(steps, agent, maxRetries, n);
    NotesComplete(steps, agent, maxRetries, n);
  }

  lemma {:induction false} NotesLength(steps: nat -> Step, agent: Option<string>, maxRetries: int, n: nat)
    ensures |Notes(steps, agent, maxRetries, n)| == if AgentGiven(agent) then FailedCount(steps, n) else 0
  {
    if n > 0 {
      NotesLength(steps, agent, maxRetries, n - 1);
    }
  }

  lemma {:induction false} NotesSound(steps: nat -> Step, agent: Option<string>, maxRetries: int, n: nat)
    ensures forall u :: u in Notes(steps, agent, maxRetries, n) ==>
              AgentGiven(agent) && exists i :: 0 <= i < n && steps(i).Failed? && u == Update(agent.value, RetryStatus(i, maxRetries))
  {
    if n > 0 {
      NotesSound(steps, agent, maxRetries, n - 1);
      var earlier := Notes(steps, agent, maxRetries, n - 1);
      var last := if steps(n - 1).Failed? then Notify(agent, n - 1, maxRetries) else [];
      assert Notes(steps, agent, maxRetries, n) == earlier + last;
      forall u | u in earlier + last
        ensures AgentGiven(agent) && exists i :: 0 <= i < n && steps(i).Failed? && u == Update(agent.value, RetryStatus(i, maxRetries))
      {
        if u !in earlier {
          assert steps(n - 1).Failed? && u == Update(agent.value, RetryStatus(n - 1, maxRetries));
        }
      }
    }
  }

  lemma NotesComplete(steps: nat -> Step, agent: Option<string>, maxRetries: int, n: nat)
    ensures AgentGiven(agent) ==> forall i :: 0 <= i < n && steps(i).Failed? ==>
              Update(agent.value, RetryStatus(i, maxRetries)) in Notes(steps, agent, maxRetries, n)
  {
    if AgentGiven(agent) {
      forall i | 0 <= i < n && steps(i).Failed?
        ensures Update(agent.value, RetryStatus(i, maxRetries)) in Notes(steps, agent, maxRetries, n)
      {
        NoteKept(steps, agent, maxRetries, i, n);
      }
    }
  }

  /** The update of raised attempt `i` stays among the updates of every later prefix. */
  lemma {:induction false} NoteKept(steps: nat -> Step, agent: Option<string>, maxRetries: int, i: nat, n: nat)
    requires AgentGiven(agent) && i < n && steps(i).Failed?
    ensures Update(agent.value, RetryStatus(i, maxRetries)) in Notes(steps, agent, maxRetries, n)
    decreases n
  {
    var earlier := Notes(steps, agent, maxRetries, n - 1);
    var note := Update(agent.value, RetryStatus(i, maxRetries));
    if i == n - 1 {
      assert Notify(agent, i, maxRetries) == [note];
      assert Notes(steps, agent, maxRetries, n) == earlier + [note];
    } else {
      NoteKept(steps, agent, maxRetries, i, n - 1);
      assert note in earlier;
    }
  }

  /** The backend is called at most `maxRetries` times, at least once when `maxRetries` is
      positive, and the updates number the raised attempts among the calls made. */
  lemma RetryCallBound(steps: nat -> Step, maxRetries: int, agent: Option<string>,
                       factory: Option<Instance>, defaults: Outcome)
    ensures var r := Retry(steps, maxRetries, agent, factory, defaults);
            && r.calls <= (if maxRetries > 0 then maxRetries else 0)
            && (maxRetries > 0 ==> r.calls >= 1)
            && |r.progress| == (if AgentGiven(agent) then FailedCount(steps, r.calls) else 0)
  {
    var j := FirstDone(steps, 0, maxRetries);
    if j < maxRetries {
      RetryReturnsFirstDone(steps, j, maxRetries, agent, factory, defaults);
      NotesCount(steps, agent, maxRetries, j);
    } else {
      RetryExhausted(steps, maxRetries, agent, factory, defaults);
      NotesCount(steps, agent, maxRetries, if maxRetries > 0 then maxRetries else 0);
    }
  }

  /** Every outcome is a returning attempt's, the factory's, or the defaults. */
  lemma {:induction false} RunFromOutcome(steps: nat -> Step, k: nat, maxRetries: int, agent: Option<string>,
                                          factory: Option<Instance>, defaults: Outcome, progress: seq<Update>)
    ensures var o := RunFrom(steps, k, maxRetries, agent, factory, defaults, progress).outcome;
            || o == defaults
            || (factory.Some? && o == FromFactory(factory.value))
            || exists i :: k <= i && steps(i) == Done(o)
    decreases maxRetries - k
  {
    if k < maxRetries && !steps(k).Done? && !(steps(k).Failed? && k == maxRetries - 1) {
      var p := if steps(k).Failed? then progress + Notify(agent, k, maxRetries) else progress;
      RunFromOutcome(steps, k + 1, maxRetries, agent, factory, defaults, p);
    }
  }

  /** The only exception that can leave the loop is the one the model class raises on the
      schema's defaults: no attempt's exception escapes, and defaults the class accepts mean no
      exception at all. */
  lemma RetryRaisesOnlyOnDefaults(schema: seq<Field>, backend: nat -> Reply, extracting: bool, decode: string -> Option<Json>,
                                  validate: map<string, Json> -> Option<Instance>, maxRetries: int,
                                  agent: Option<string>, factory: Option<Instance>)
    requires DistinctNames(schema)
    ensures var o := Retry(Steps(backend, extracting, decode, validate), maxRetries, agent, factory, DefaultsOutcome(schema, validate)).outcome;
            o.Raises? ==> o == Raises(DefaultsRejected) && validate(DefaultTable(schema)).None?
  {
    var steps := Steps(backend, extracting, decode, validate);
    var o := Retry(steps, maxRetries, agent, factory, DefaultsOutcome(schema, validate)).outcome;
    RunFromOutcome(steps, 0, maxRetries, agent, factory, DefaultsOutcome(schema, validate), []);
    if exists i :: 0 <= i && steps(i) == Done(o) {
      var i :| 0 <= i && steps(i) == Done(o);
      assert Attempt(backend(i), extracting, decode, validate) == Done(o);
    }
  }

  /** A native-path run: two raised attempts and then an answer, with three
      attempts allowed, return that answer after three calls and two updates. */
  lemma NativeAnswerAfterTwoFailures(backend: nat -> Reply, decode: string -> Option<Json>,
                                     validate: map<string, Json> -> Option<Instance>, v: Instance,
                                     agent: string, factory: Option<Instance>, defaults: Outcome)
    requires backend(0).Raised? && backend(1).Raised? && backend(2) == Structured(v)
    requires agent != ""
    ensures var r := Retry(Steps(backend, false, decode, validate), 3, Some(agent), factory, defaults);
            && r.outcome == Returned(Structured(v))
            && r.calls == 3
            && r.progress == [Update(agent, "Error - retry 1/3"), Update(agent, "Error - retry 2/3")]
  {
    var steps := Steps(backend, false, decode, validate);
    RetryReturnsFirstDone(steps, 2, 3, Some(agent), factory, defaults);
    RetryStatusText();
    assert Notes(steps, Some(agent), 3, 1) == [] + [Update(agent, RetryStatus(0, 3))];
    assert Notes(steps, Some(agent), 3, 2) == Notes(steps, Some(agent), 3, 1) + [Update(agent, RetryStatus(1, 3))];
  }

  lemma RetryStatusText()
    ensures RetryStatus(0, 3) == "Error - retry 1/3"
    ensures RetryStatus(1, 3) == "Error - retry 2/3"
  {
    assert NatToString(1) == "1" && NatToString(2) == "2" && NatToString(3) == "3";
  }

  /** Attempts whose text extracts to nothing raise nothing: no update is emitted, and when all of
      them end this way the defaults come back and the factory is not consulted. */
  lemma SilentAttemptsFallBackToDefaults(backend: nat -> Reply, decode: string -> Option<Json>,
                                         validate: map<string, Json> -> Option<Instance>, maxRetries: int,
                                         agent: Option<string>, factory: Option<Instance>, defaults: Outcome)
    requires forall k: nat :: k < maxRetries ==> backend(k).Message? && ExtractJson(backend(k).content, decode).None?
    ensures var r := Retry(Steps(backend, true, decode, validate), maxRetries, agent, factory, defaults);
            && r.outcome == defaults
            && r.progress == []
            && r.calls == (if maxRetries > 0 then maxRetries else 0)
  {
    var steps := Steps(backend, true, decode, validate);
    assert forall k: nat :: k < maxRetries ==> steps(k).Silent?;
    RetryExhausted(steps, maxRetries, agent, factory, defaults);
    var n := if maxRetries > 0 then maxRetries else 0;
    SilentCountsNothing(steps, n);
    NotesCount(steps, agent, maxRetries, n);
  }

  lemma {:induction false} SilentCountsNothing(steps: nat -> Step, n: nat)
    requires forall k: nat :: k < n ==> steps(k).Silent?
    ensures FailedCount(steps, n) == 0
  {
    if n > 0 {
      SilentCountsNothing(steps, n - 1);
    }
  }

  lemma {:induction false} RaisedCountsAll(steps: nat -> Step, n: nat)
    requires forall k: nat :: k < n ==> steps(k).Failed?
    ensures FailedCount(steps, n) == n
  {
    if n > 0 {
      RaisedCountsAll(steps, n - 1);
    }
  }

  /** A backend that raises on every attempt is called `maxRetries` times, each attempt leaves one
      update when an agent is named, and the factory's value, or else the defaults, comes back. */
  lemma RaisingAttemptsFallBack(backend: nat -> Reply, extracting: bool, decode: string -> Option<Json>,
                                validate: map<string, Json> -> Option<Instance>, maxRetries: int,
                                agent: Option<string>, factory: Option<Instance>, defaults: Outcome)
    requires maxRetries >= 1
    requires forall k: nat :: k < maxRetries ==> backend(k).Raised?
    ensures var r := Retry(Steps(backend, extracting, decode, validate), maxRetries, agent, factory, defaults);
            && r.calls == maxRetries
            && r.outcome == (if factory.Some? then FromFactory(factory.value) else defaults)
            && |r.progress| == (if AgentGiven(agent) then maxRetries else 0)
  {
    var steps := Steps(backend, extracting, decode, validate);
    assert forall k: nat :: k < maxRetries ==> steps(k).Failed?;
    RetryExhausted(steps, maxRetries, agent, factory, defaults);
    RaisedCountsAll(steps, maxRetries);
    NotesCount(steps, agent, maxRetries, maxRetries);
  }

  /** `has_json_mode` is false for every entry, so the text path is taken exactly when the model
      is catalogued, which every catalogue entry is. */
  lemma CataloguedModelsExtract()
    ensures forall n, p :: UsesExtraction(GetModelInfo(n, p)) <==> GetModelInfo(n, p).Some?
    ensures forall i :: 0 <= i < |AvailableModels| ==> UsesExtraction(GetModelInfo(AvailableModels[i].modelName, "Ollama"))
  {
    CatalogueLookup("Ollama");
  }

  /** What `call_llm` does once the model name and the provider string are resolved: the
      provider is converted to the enumeration, which raises for an unknown one before any
      backend call; otherwise the catalogue picks the path and the retry loop runs. */
  function Call(config: (string, string), schema: seq<Field>, agent: Option<string>, maxRetries: int,
                factory: Option<Instance>, backend: nat -> Reply, decode: string -> Option<Json>,
                validate: map<string, Json> -> Option<Instance>): Run
    requires DistinctNames(schema)
  {
    match ParseProvider(config.1)
    case None => Run(Raises(ProviderRejected(config.1)), 0, [])
    case Some(p) =>
      Retry(Steps(backend, UsesExtraction(GetModelInfo(config.0, ProviderValue(p))), decode, validate),
            maxRetries, agent, factory, DefaultsOutcome(schema, validate))
  }

  /** A rejected provider ends the call before the backend is called; an accepted one makes at
      most `max_retries` calls, and the only exception it can end with is the defaults'. */
  lemma CallGuarantees(config: (string, string), schema: seq<Field>, agent: Option<string>, maxRetries: int,
                       factory: Option<Instance>, backend: nat -> Reply, decode: string -> Option<Json>,
                       validate: map<string, Json> -> Option<Instance>)
    requires DistinctNames(schema)
    ensures var r := Call(config, schema, agent, maxRetries, factory, backend, decode, validate);
            && (ParseProvider(config.1).None? ==> r == Run(Raises(ProviderRejected(config.1)), 0, []))
            && r.calls <= (if maxRetries > 0 then maxRetries else 0)
            && (ParseProvider(config.1).Some? && r.outcome.Raises?
                ==> r.outcome == Raises(DefaultsRejected) && validate(DefaultTable(schema)).None?)
  {
    var provider := ParseProvider(config.1);
    if provider.Some? {
      var extracting := UsesExtraction(GetModelInfo(config.0, ProviderValue(provider.value)));
      var steps := Steps(backend, extracting, decode, validate);
      RetryCallBound(steps, maxRetries, agent, factory, DefaultsOutcome(schema, validate));
      RetryRaisesOnlyOnDefaults(schema, backend, extracting, decode, validate, maxRetries, agent, factory);
    }
  }

  /** The call path of the finding: a state holding only an empty metadata entry and the agent
      "risk_manager" make `call_llm` raise for the provider "OPENAI" before any backend call. */
  lemma EmptyMetadataCallRaises(schema: seq<Field>, maxRetries: int, factory: Option<Instance>, backend: nat -> Reply,
                                decode: string -> Option<Json>, validate: map<string, Json> -> Option<Instance>)
    requires DistinctNames(schema)
    ensures var state, agent := Some(State(Some(Metadata(None, None, None)), 0)), Some("risk_manager");
            && LastResortReached(state, agent)
            && Call(ResolvedConfig(state, agent, AsWrittenLastResort), schema, agent, maxRetries, factory, backend, decode, validate)
               == Run(Raises(ProviderRejected("OPENAI")), 0, [])
  {
    var state := State(Some(Metadata(None, None, None)), 0);
    AsWrittenFallbackRejected(state, "risk_manager");
  }

  /** `call_llm(prompt, pydantic_model, agent_name, state, max_retries, default_factory)` as
      written: resolve the model through `get_agent_model_config` with its own last resort, then
      call. A state that names no provider makes it raise before any backend call. */
  method CallLlm(schema: seq<Field>, agent: Option<string>, state: Option<State>, maxRetries: int,
                 factory: Option<Instance>, backend: nat -> Reply, decode: string -> Option<Json>,
                 validate: map<string, Json> -> Option<Instance>)
    returns (outcome: Outcome, calls: nat, progress: seq<Update>)
    requires DistinctNames(schema)
    ensures Run(outcome, calls, progress)
            == Call(ResolvedConfig(state, agent, AsWrittenLastResort), schema, agent, maxRetries, factory, backend, decode, validate)
    ensures calls <= if maxRetries > 0 then maxRetries else 0
    ensures LastResortReached(state, agent) ==> outcome == Raises(ProviderRejected("OPENAI")) && calls == 0 && progress == []
    ensures ParseProvider(ResolvedConfig(state, agent, AsWrittenLastResort).1).Some? && validate(DefaultTable(schema)).Some?
            ==> !outcome.Raises?
  {
    var config := ResolvedConfig(state, agent, AsWrittenLastResort);
    outcome, calls, progress := CallResolved(schema, agent, config, maxRetries, factory, backend, decode, validate);
    CallGuarantees(config, schema, agent, maxRetries, factory, backend, decode, validate);
    if LastResortReached(state, agent) {
      AsWrittenFallbackRejected(state.value, agent.value);
    }
  }

  /** `call_llm` with `get_agent_model_config` corrected to fall back to the system default pair:
      only a provider the state itself names can be rejected, and without one the call never
      raises when the defaults validate. */
  method CallLlmCorrected(schema: seq<Field>, agent: Option<string>, state: Option<State>, maxRetries: int,
                          factory: Option<Instance>, backend: nat -> Reply, decode: string -> Option<Json>,
                          validate: map<string, Json> -> Option<Instance>)
    returns (outcome: Outcome, calls: nat, progress: seq<Update>)
    requires DistinctNames(schema)
    ensures Run(outcome, calls, progress)
            == Call(ResolvedConfig(state, agent, CorrectedLastResort), schema, agent, maxRetries, factory, backend, decode, validate)
    ensures calls <= if maxRetries > 0 then maxRetries else 0
    ensures outcome.Raises? && outcome.error.ProviderRejected?
            ==> StateGiven(state) && AgentGiven(agent) && !LastResortReached(state, agent)
    ensures (!(StateGiven(state) && AgentGiven(agent)) || LastResortReached(state, agent)) && validate(DefaultTable(schema)).Some?
            ==> !outcome.Raises?
  {
    var config := ResolvedConfig(state, agent, CorrectedLastResort);
    outcome, calls, progress := CallResolved(schema, agent, config, maxRetries, factory, backend, decode, validate);
    CallGuarantees(config, schema, agent, maxRetries, factory, backend, decode, validate);
    if LastResortReached(state, agent) {
      FallbackAccepted(state.value, agent.value);
    }
  }

  /** `call_llm` from the provider conversion on, for the resolved pair `config`. */
  method CallResolved(schema: seq<Field>, agent: Option<string>, config: (string, string), maxRetries: int,
                      factory: Option<Instance>, backend: nat -> Reply, decode: string -> Option<Json>,
                      validate: map<string, Json> -> Option<Instance>)
    returns (outcome: Outcome, calls: nat, progress: seq<Update>)
    requires DistinctNames(schema)
    ensures Run(outcome, calls, progress) == Call(config, schema, agent, maxRetries, factory, backend, decode, validate)
  {
    var provider := ParseProvider(config.1);
    if provider.None? {
      return Raises(ProviderRejected(config.1)), 0, [];
    }
    var info := GetModelInfo(config.0, ProviderValue(provider.value));
    var extracting := UsesExtraction(info);
    outcome, calls, progress := RetryLoop(schema, agent, maxRetries, factory, backend, extracting, decode, validate);
  }

  /** The `for attempt in range(max_retries)` loop with its `try`/`except` body and the fallback
      after it. */
  method RetryLoop(schema: seq<Field>, agent: Option<string>, maxRetries: int, factory: Option<Instance>,
                   backend: nat -> Reply, extracting: bool, decode: string -> Option<Json>,
                   validate: map<string, Json> -> Option<Instance>)
    returns (outcome: Outcome, calls: nat, progress: seq<Update>)
    requires DistinctNames(schema)
    ensures Run(outcome, calls, progress)
            == Retry(Steps(backend, extracting, decode, validate), maxRetries, agent, factory, DefaultsOutcome(schema, validate))
  {
    ghost var steps := Steps(backend, extracting, decode, validate);
    ghost var defaults := DefaultsOutcome(schema, validate);
    ghost var whole := Retry(steps, maxRetries, agent, factory, defaults);
    calls, progress := 0, [];
    var attempt: nat := 0;
    while attempt < maxRetries
      invariant calls == attempt
      invariant whole == RunFrom(steps, attempt, maxRetries, agent, factory, defaults, progress)
      decreases maxRetries - attempt
    {
      var step := Attempt(backend(attempt), extracting, decode, validate);
      calls := calls + 1;
      if step.Done? {
        return step.outcome, calls, progress;
      }
      if step.Failed? {
        progress := progress + Notify(agent, attempt, maxRetries);
        if attempt == maxRetries - 1 {
          if factory.Some? {
            return FromFactory(factory.value), calls, progress;
          }
          outcome := DefaultResponse(schema, validate);
          return;
        }
      }
      attempt := attempt + 1;
    }
    outcome := DefaultResponse(schema, validate);
  }

  /** `create_default_response(pydantic_model)` as `call_llm` sees it: the defaults, or the
      exception pydantic raises on them. */
  method DefaultResponse(schema: seq<Field>, validate: map<string, Json> -> Option<Instance>)
    returns (outcome: Outcome)
    requires DistinctNames(schema)
    ensures outcome == DefaultsOutcome(schema, validate)
    ensures outcome.Defaulted? || outcome == Raises(DefaultsRejected)
  {
    var r := CreateDefaultResponse(schema, validate);
    if r.Some? {
      outcome := Defaulted(r.value);
    } else {
      outcome := Raises(DefaultsRejected);
    }
  }
}
