/** The provider factory: which configured provider type yields a provider, and which fail. */
module Providers {
  import opened Wrappers
  import opened Bedrock

  /** `ProviderConfig`; the type is kept as text so that values outside the schema's enum can be given. */
  datatype ProviderConfig = ProviderConfig(providerType: string, model: string, region: Option<string>, apiKey: Option<string>)

  const RegionRequiredMessage := "Bedrock provider requires a region"
  const AnthropicMessage := "Anthropic direct provider not yet implemented"
  const OpenAIMessage := "OpenAI provider not yet implemented"

  function UnknownTypeMessage(providerType: string): string
  {
    "Unknown provider type: " + providerType
  }

  /** `createProvider`. */
  function CreateProvider(config: ProviderConfig): (r: Result<BedrockProvider>)
    ensures r.Ok? <==> config.providerType == "bedrock" && config.region.Some? && config.region.value != ""
    ensures r.Ok? ==> r.value == BedrockProvider(config.model, config.region.value)
    ensures config.providerType == "bedrock" && !r.Ok? ==> r == Err(RegionRequiredMessage)
    ensures config.providerType == "anthropic" ==> r == Err(AnthropicMessage)
    ensures config.providerType == "openai" ==> r == Err(OpenAIMessage)
    ensures config.providerType !in {"bedrock", "anthropic", "openai"} ==> r == Err(UnknownTypeMessage(config.providerType))
  {
    match config.providerType
    case "bedrock" =>
      if config.region.None? || config.region.value == "" then Err(RegionRequiredMessage)
      else Ok(BedrockProvider(config.model, config.region.value))
    case "anthropic" => Err(AnthropicMessage)
    case "openai" => Err(OpenAIMessage)
    case _ => Err(UnknownTypeMessage(config.providerType))
  }

  /** Both unimplemented types fail with a message ending in `not yet implemented`. */
  lemma UnimplementedTypes(config: ProviderConfig)
    requires config.providerType in {"anthropic", "openai"}
    ensures var r := CreateProvider(config);
      r.Err? && |r.message| >= 19 && r.message[|r.message| - 19..] == "not yet implemented"
  {
  }
}
