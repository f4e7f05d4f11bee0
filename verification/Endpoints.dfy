/** The model endpoints and their credentials (common/modelgateway/executor.go). */
module Endpoints {
  import opened Conversations
  import opened Results
  import opened Text

  /** OpenAI, xAI and Hugging Face keep the conversation upstream and have no protocol of their own here. */
  datatype EndpointConfig = EndpointConfig(name: string, credentialName: string, protocol: Option<Protocol>)

  const ENDPOINTS: seq<EndpointConfig> := [
    EndpointConfig("anthropic", "ANTHROPIC_API_KEY", Some(Anthropic)),
    EndpointConfig("deepseek", "DEEPSEEK_API_KEY", Some(DeepSeek)),
    EndpointConfig("google", "GEMINI_API_KEY", Some(Google)),
    EndpointConfig("huggingface", "HF_TOKEN", None),
    EndpointConfig("openai", "OPENAI_API_KEY", None),
    EndpointConfig("openrouter", "OPENROUTER_API_KEY", Some(OpenRouter)),
    EndpointConfig("xai", "XAI_API_KEY", None)]

  /** Whether an endpoint is spoken to through the OpenAI-compatible client. */
  predicate OpenAICompatible(config: EndpointConfig) {
    config.protocol.None? || config.protocol == Some(OpenRouter)
  }

  /** The first configuration with the given name. */
  function Lookup(configs: seq<EndpointConfig>, name: string): Option<EndpointConfig> {
    if configs == [] then None
    else if configs[0].name == name then Some(configs[0])
    else Lookup(configs[1..], name)
  }

  function EndpointConfiguration(name: string): Option<EndpointConfig> {
    Lookup(ENDPOINTS, name)
  }

  /** The protocol of a native endpoint. */
  function ProtocolOf(name: string): Option<Protocol> {
    var config := EndpointConfiguration(name);
    if config.Some? then config.value.protocol else None
  }

  datatype EndpointError = Unsupported(endpoint: string) | CredentialRequired(endpoint: string)

  /** Why no client can be made for an endpoint; a missing credential names the normalized endpoint. */
  function ClientError(endpoint: string, environment: map<string, string>): Option<EndpointError> {
    var name := Normalize(endpoint);
    var config := EndpointConfiguration(name);
    if config.None? then Some(Unsupported(name))
    else if config.value.credentialName !in environment || IsBlank(environment[config.value.credentialName]) then
      Some(CredentialRequired(name))
    else None
  }
}
