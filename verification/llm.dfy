/** Model selection for the OpenRouter chat model: resolving an alias or a
    path to a model path and its configuration, finding the API key, and
    building the keyword arguments the chat client is constructed with. */
module Llm {
  import opened Wrappers
  import opened Text

  /** A configuration value. Decimal numbers are kept as their literal text:
      they are only ever copied, never computed with. */
  datatype Value =
    | Int(i: int)
    | Decimal(literal: string)
    | Flag(b: bool)
    | Str(s: string)
    | Dict(entries: map<string, Value>)

  type Config = map<string, Value>

  /** Model aliases and the OpenRouter paths they stand for. */
  const ModelRegistry: map<string, string> := map[
    "deepseek" := "deepseek/deepseek-chat-v3.1",
    "sonnet" := "anthropic/claude-sonnet-4.5",
    "opus" := "anthropic/claude-opus-4.5",
    "default" := "anthropic/claude-sonnet-4.5",
    "grok" := "x-ai/grok-4.1-fast",
    "qwen" := "qwen/qwen3-coder",
    "gemini" := "google/gemini-2.5-pro",
    "gpt" := "openai/gpt-5"
  ]

  const Gpt5 := "openai/gpt-5"

  const StreamUsage: Value := Dict(map["stream_options" := Dict(map["include_usage" := Flag(true)])])

  /** The per-path configurations. */
  const ModelConfigs: map<string, Config> := map[
    "deepseek/deepseek-chat-v3.1" := map[
      "temperature" := Decimal("0.2"), "max_tokens" := Int(8192), "streaming" := Flag(true),
      "context_window" := Int(128000), "top_p" := Decimal("1.0"), "frequency_penalty" := Int(0),
      "presence_penalty" := Int(0), "model_kwargs" := StreamUsage],
    "anthropic/claude-sonnet-4.5" := map[
      "temperature" := Decimal("0.0"), "streaming" := Flag(true), "max_tokens" := Int(16384),
      "model_kwargs" := StreamUsage],
    "anthropic/claude-opus-4.5" := map[
      "temperature" := Decimal("0.0"), "streaming" := Flag(true), "max_tokens" := Int(16384),
      "model_kwargs" := StreamUsage],
    "x-ai/grok-code-fast-1" := map[
      "temperature" := Decimal("0.15"), "max_tokens" := Int(2000), "streaming" := Flag(true),
      "context_window" := Int(256000), "top_p" := Decimal("0.9"), "model_kwargs" := StreamUsage],
    "qwen/qwen3-coder" := map[
      "temperature" := Decimal("0.15"), "max_tokens" := Int(2048), "streaming" := Flag(true),
      "context_window" := Int(256000), "top_p" := Decimal("0.9"), "model_kwargs" := StreamUsage],
    "google/gemini-2.5-pro" := map[
      "temperature" := Decimal("0.3"), "max_tokens" := Int(2048), "streaming" := Flag(true),
      "context_window" := Int(1048576), "top_p" := Decimal("0.9"), "request_timeout" := Int(60),
      "model_kwargs" := StreamUsage],
    Gpt5 := map[
      "max_tokens" := Int(3000), "streaming" := Flag(true), "context_window" := Int(400000),
      "model_kwargs" := Dict(map["stream_options" := Dict(map["include_usage" := Flag(true)]),
                                 "parallel_tool_calls" := Flag(false)])]
  ]

  /** The configuration of a path without an entry of its own. */
  const DefaultConfig: Config := map[
    "temperature" := Decimal("0.0"), "max_tokens" := Int(4096), "streaming" := Flag(true),
    "context_window" := Int(32000), "model_kwargs" := StreamUsage]

  /** The registry's aliases, in sorted order, as the error message lists them. */
  const AvailableAliases := ["deepseek", "default", "gemini", "gpt", "grok", "opus", "qwen", "sonnet"]

  /** Lexicographic order on strings, as Python compares them. */
  predicate LexLess(a: string, b: string)
    decreases |a|
  {
    if a == [] then b != []
    else if b == [] then false
    else a[0] < b[0] || (a[0] == b[0] && LexLess(a[1..], b[1..]))
  }

  /** The listed aliases are exactly the registry's keys, in sorted order
      without repetition. */
  lemma AvailableAliasesSorted()
    ensures forall a :: a in ModelRegistry <==> a in AvailableAliases
    ensures forall i :: 0 <= i < |AvailableAliases| - 1 ==> LexLess(AvailableAliases[i], AvailableAliases[i + 1])
  {
  }

  /** The configuration for a model path: its own, or the default. */
  function ConfigFor(path: string): Config {
    if path in ModelConfigs then ModelConfigs[path] else DefaultConfig
  }

  /** Every configuration says whether to stream. */
  lemma ConfigsStream(path: string)
    ensures "streaming" in ConfigFor(path)
  {
  }

  /** The model path and configuration for a model argument: a string with a
      "/" is a path used as it is; anything else must be a registry alias. */
  function ResolveModel(model: string): (r: Result<(string, Config), string>)
    ensures Contains(model, '/') ==> r == Success((model, ConfigFor(model)))
    ensures !Contains(model, '/') && model in ModelRegistry ==>
      r == Success((ModelRegistry[model], ConfigFor(ModelRegistry[model])))
    ensures r.Failure? <==> !Contains(model, '/') && model !in ModelRegistry
    ensures r.Failure? ==> r.error == "Unknown model: '" + model + "'. Available models: " + Join(AvailableAliases, ", ")
  {
    if Contains(model, '/') then Success((model, ConfigFor(model)))
    else if model !in ModelRegistry then
      Failure("Unknown model: '" + model + "'. Available models: " + Join(AvailableAliases, ", "))
    else
      var path := ModelRegistry[model];
      Success((path, ConfigFor(path)))
  }

  /** "grok" names a path without a configuration of its own, so it runs
      with the default configuration. */
  lemma GrokUsesDefault()
    ensures ResolveModel("grok") == Success(("x-ai/grok-4.1-fast", DefaultConfig))
  {
    assert !Contains("grok", '/');
    assert "x-ai/grok-4.1-fast" !in ModelConfigs;
  }

  /** The API key: the argument when given, else the environment's
      OPENROUTER_API_KEY (after the user's .env file is loaded). */
  function ApiKey(argument: Option<string>, environment: Option<string>): (r: Result<string, string>)
    ensures Given(argument) ==> r == Success(argument.value)
    ensures !Given(argument) && Given(environment) ==> r == Success(environment.value)
    ensures r.Failure? <==> !Given(argument) && !Given(environment)
    ensures r.Failure? ==> r.error == "OPENROUTER_API_KEY not configured"
  {
    if Given(argument) then Success(argument.value)
    else if Given(environment) then Success(environment.value)
    else Failure("OPENROUTER_API_KEY not configured")
  }

  /** dict.get(key) on a configuration. */
  function Get(config: Config, key: string): Option<Value> {
    if key in config then Some(config[key]) else None
  }

  const ApiBase := "https://openrouter.ai/api/v1"

  const Headers: Value := Dict(map[
    "HTTP-Referer" := Str("https://github.com/szeider/agentic-python-coder"),
    "X-Title" := Str("Agentic Python Coder")])

  /** The keyword arguments for the chat client. The six base keys are
      always there; each optional key is present iff its field is Some. */
  datatype Kwargs = Kwargs(
    model: string,
    apiKey: string,
    apiBase: string,
    headers: Value,
    streaming: Value,
    modelKwargs: Value,
    temperature: Option<Value>,
    maxTokens: Option<Value>,
    topP: Option<Value>,
    topK: Option<Value>,
    frequencyPenalty: Option<Value>,
    presencePenalty: Option<Value>,
    requestTimeout: Option<Value>)

  /** The keyword arguments for the chat client. GPT-5 gets no sampling
      parameters, only max_tokens; every other model gets a temperature (the
      override, else the configured one, else 0.0) and each configured
      sampling key. A configured request timeout is passed on for all. */
  method BuildKwargs(modelPath: string, config: Config, temperature: Option<Value>, apiKey: string)
    returns (kwargs: Kwargs)
    requires "streaming" in config
    ensures kwargs.model == modelPath && kwargs.apiKey == apiKey && kwargs.apiBase == ApiBase
    ensures kwargs.headers == Headers && kwargs.streaming == config["streaming"]
    ensures kwargs.modelKwargs == Get(config, "model_kwargs").GetOr(Dict(map[]))
    ensures kwargs.maxTokens == Get(config, "max_tokens")
    ensures modelPath == Gpt5 ==>
      kwargs.temperature.None? && kwargs.topP.None? && kwargs.topK.None? &&
      kwargs.frequencyPenalty.None? && kwargs.presencePenalty.None?
    ensures modelPath != Gpt5 ==>
      kwargs.temperature == Some(if temperature.Some? then temperature.value else Get(config, "temperature").GetOr(Decimal("0.0")))
    ensures modelPath != Gpt5 ==>
      kwargs.topP == Get(config, "top_p") && kwargs.topK == Get(config, "top_k") &&
      kwargs.frequencyPenalty == Get(config, "frequency_penalty") && kwargs.presencePenalty == Get(config, "presence_penalty")
    ensures kwargs.requestTimeout == Get(config, "request_timeout")
  {
    kwargs := Kwargs(modelPath, apiKey, ApiBase, Headers, config["streaming"],
                     Get(config, "model_kwargs").GetOr(Dict(map[])), None, None, None, None, None, None, None);
    if modelPath == Gpt5 {
      if "max_tokens" in config {
        kwargs := kwargs.(maxTokens := Some(config["max_tokens"]));
      }
    } else {
      kwargs := AddSampling(kwargs, config, temperature);
    }
    if "request_timeout" in config {
      kwargs := kwargs.(requestTimeout := Some(config["request_timeout"]));
    }
  }

  /** The sampling keys of every model but GPT-5: the temperature (the
      override, else the configured one, else 0.0) and each configured key. */
  method AddSampling(kwargs0: Kwargs, config: Config, temperature: Option<Value>) returns (kwargs: Kwargs)
    ensures kwargs == kwargs0.(
      temperature := Some(if temperature.Some? then temperature.value else Get(config, "temperature").GetOr(Decimal("0.0"))),
      maxTokens := if "max_tokens" in config then Get(config, "max_tokens") else kwargs0.maxTokens,
      topP := if "top_p" in config then Get(config, "top_p") else kwargs0.topP,
      topK := if "top_k" in config then Get(config, "top_k") else kwargs0.topK,
      frequencyPenalty := if "frequency_penalty" in config then Get(config, "frequency_penalty") else kwargs0.frequencyPenalty,
      presencePenalty := if "presence_penalty" in config then Get(config, "presence_penalty") else kwargs0.presencePenalty)
  {
    kwargs := kwargs0.(temperature := Some(Get(config, "temperature").GetOr(Decimal("0.0"))));
    if temperature.Some? {
      kwargs := kwargs.(temperature := temperature);
    }
    if "max_tokens" in config {
      kwargs := kwargs.(maxTokens := Some(config["max_tokens"]));
    }
    if "top_p" in config {
      kwargs := kwargs.(topP := Some(config["top_p"]));
    }
    if "top_k" in config {
      kwargs := kwargs.(topK := Some(config["top_k"]));
    }
    if "frequency_penalty" in config {
      kwargs := kwargs.(frequencyPenalty := Some(config["frequency_penalty"]));
    }
    if "presence_penalty" in config {
      kwargs := kwargs.(presencePenalty := Some(config["presence_penalty"]));
    }
  }

  /** get_openrouter_llm up to the client's construction: resolve the model,
      then find the key, then build the keyword arguments. `environmentKey`
      is OPENROUTER_API_KEY as the environment holds it. */
  method OpenRouterKwargs(model: string, temperature: Option<Value>, apiKey: Option<string>, environmentKey: Option<string>)
    returns (r: Result<Kwargs, string>)
    ensures ResolveModel(model).Failure? ==> r == Failure(ResolveModel(model).error)
    ensures ResolveModel(model).Success? && ApiKey(apiKey, environmentKey).Failure? ==>
      r == Failure("OPENROUTER_API_KEY not configured")
    ensures r.Success? ==> (ResolveModel(model).Success? && ApiKey(apiKey, environmentKey).Success? &&
      r.value.model == ResolveModel(model).value.0 && r.value.apiKey == ApiKey(apiKey, environmentKey).value)
    ensures r.Success? && ResolveModel(model).value.0 == Gpt5 ==> r.value.temperature.None?
    ensures ResolveModel(model).Success? && ApiKey(apiKey, environmentKey).Success? ==> r.Success?
  {
    var resolved := ResolveModel(model);
    if resolved.Failure? {
      return Failure(resolved.error);
    }
    var (path, config) := resolved.value;
    var key := ApiKey(apiKey, environmentKey);
    if key.Failure? {
      return Failure(key.error);
    }
    ConfigsStream(path);
    var kwargs := BuildKwargs(path, config, temperature, key.value);
    return Success(kwargs);
  }

  /** Exactly two model arguments reach GPT-5, the one path for which
      OpenRouterKwargs sends no temperature whatever is asked for: the "gpt"
      alias and the path itself. Every other alias keeps its temperature. */
  lemma OnlyGptReachesGpt5(model: string)
    ensures ResolveModel(model).Success? && ResolveModel(model).value.0 == Gpt5 <==> model == "gpt" || model == Gpt5
  {
    if !Contains(model, '/') && model in ModelRegistry && ModelRegistry[model] == Gpt5 {
      assert model == "gpt";
    }
    if model == "gpt" {
      assert !Contains(model, '/');
    }
    if model == Gpt5 {
      assert Gpt5[6] == '/';
    }
  }
}
