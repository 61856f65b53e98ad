/** Provider selection and the built-in tool servers (server/llm.ts). The
    providers and the servers themselves are network clients; the model keeps
    only which one is built and with what argument. */
module Llm {
  import opened Common

  /** The three environment variables `createDefaultLLMProvider` reads;
      `None` is an unset variable. */
  datatype Env = Env(anthropicApiKey: Option<string>, openAiApiKey: Option<string>, ollamaHost: Option<string>)

  /** JavaScript truthiness of an environment value: set and not empty. */
  predicate Truthy(v: Option<string>)
  {
    v.Some? && v.value != ""
  }

  datatype Provider = Anthropic(apiKey: string) | OpenAI | Ollama(host: string)

  const NoProviderError: string :=
    "Can't find valid LLM provider. Set either ANTHROPIC_API_KEY, OPENAI_API_KEY, or OLLAMA_HOST"

  /** The first truthy variable, in the order Anthropic, OpenAI, Ollama,
      decides the provider; with none of them it throws. */
  function CreateDefaultLLMProvider(env: Env): (r: Result<Provider, string>)
    ensures (r.Ok? && r.value.Anthropic?) <==> Truthy(env.anthropicApiKey)
    ensures r.Ok? && r.value.Anthropic? ==> r.value.apiKey == env.anthropicApiKey.value
    ensures r == Ok(OpenAI) <==> !Truthy(env.anthropicApiKey) && Truthy(env.openAiApiKey)
    ensures (r.Ok? && r.value.Ollama?) <==>
      !Truthy(env.anthropicApiKey) && !Truthy(env.openAiApiKey) && Truthy(env.ollamaHost)
    ensures r.Ok? && r.value.Ollama? ==> r.value.host == env.ollamaHost.value
    ensures r.Err? <==> !Truthy(env.anthropicApiKey) && !Truthy(env.openAiApiKey) && !Truthy(env.ollamaHost)
    ensures r.Err? ==> r.error == NoProviderError
  {
    if Truthy(env.anthropicApiKey) then Ok(Anthropic(env.anthropicApiKey.value))
    else if Truthy(env.openAiApiKey) then Ok(OpenAI)
    else if Truthy(env.ollamaHost) then Ok(Ollama(env.ollamaHost.value))
    else Err(NoProviderError)
  }

  /** The priority list the if/else chain encodes, as data. */
  function Candidates(env: Env): seq<(Option<string>, Provider)>
  {
    [ (env.anthropicApiKey, Anthropic(env.anthropicApiKey.GetOr(""))),
      (env.openAiApiKey, OpenAI),
      (env.ollamaHost, Ollama(env.ollamaHost.GetOr(""))) ]
  }

  /** The choice agrees with "the first configured candidate wins". */
  lemma ProviderIsFirstConfigured(env: Env)
    ensures match Find(Candidates(env), (c: (Option<string>, Provider)) => Truthy(c.0))
      case Some(c) => CreateDefaultLLMProvider(env) == Ok(c.1)
      case None => CreateDefaultLLMProvider(env) == Err(NoProviderError)
  {
    var cs := Candidates(env);
    var p := (c: (Option<string>, Provider)) => Truthy(c.0);
    assert p(cs[0]) == Truthy(env.anthropicApiKey);
    assert p(cs[1]) == Truthy(env.openAiApiKey);
    assert p(cs[2]) == Truthy(env.ollamaHost);
  }

  /** The options object of `createBuiltinServers`; `None` is an absent
      `opts` or an absent `testMode`. */
  datatype BuiltinServerOptions = BuiltinServerOptions(testMode: Option<bool>)

  datatype ToolServer = NotifyServer | HomeAssistantServer(testMode: bool)

  /** Always the notify server then the Home Assistant server; test mode is
      on only when it is explicitly asked for. */
  function CreateBuiltinServers(opts: Option<BuiltinServerOptions>): (r: seq<ToolServer>)
    ensures |r| == 2 && r[0] == NotifyServer && r[1].HomeAssistantServer?
    ensures r[1].testMode <==> opts == Some(BuiltinServerOptions(Some(true)))
  {
    var testMode := if opts.Some? then opts.value.testMode else None;
    [NotifyServer, HomeAssistantServer(testMode.GetOr(false))]
  }
}
