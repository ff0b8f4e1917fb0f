/** The `.env` form: which provider keys are required, how many input fields
    the form has, and the names shown to the user and written to `.env`. */
module Forms {
  import opened Util

  datatype FormData = FormData(
    apiKey: string,
    openaiApiKey: string,
    selectedProvider: string,
    currentField: nat,
    editing: bool,
    errorMessage: string)

  function NewForm(): FormData {
    FormData("", "", "", 0, false, "")
  }

  /** Providers that run locally and need no API key. */
  predicate IsLocalProvider(provider: string) {
    provider == "lm_studio" || provider == "ollama"
  }

  /** Providers whose configuration embeds with OpenAI's
      text-embedding-3-large and so need a second key. */
  const EmbeddingProviders: set<string> := {"deepseek", "anthropic", "groq", "grok", "zhipu", "qwen3"}

  predicate NeedsOpenaiEmbedding(provider: string) {
    match provider
      case "deepseek" => true
      case "anthropic" => true
      case "groq" => true
      case "grok" => true
      case "zhipu" => true
      case "qwen3" => true
      case _ => false
  }

  lemma EmbeddingProvidersExactly(provider: string)
    ensures NeedsOpenaiEmbedding(provider) <==> provider in EmbeddingProviders
  {
  }

  /** Provider key plus, for embedding providers, the OpenAI key. */
  function TotalFields(form: FormData): (r: nat)
    ensures r == 1 || r == 2
    ensures r == 2 <==> form.selectedProvider in EmbeddingProviders
  {
    if NeedsOpenaiEmbedding(form.selectedProvider) then 2 else 1
  }

  /** Providers that have a display name of their own. */
  const NamedProviders: set<string> := {
    "anthropic", "openai", "deepseek", "azure", "bedrock", "google_ai_studio",
    "google_vertexai", "grok", "groq", "lm_studio", "ollama", "open_router", "qwen3", "zhipu"}

  /** The provider's name as shown in prompts and errors. */
  function ApiKeyName(provider: string): (r: string)
    ensures |r| > 0
    ensures r == "API" <==> provider !in NamedProviders
  {
    match provider
      case "anthropic" => "Anthropic"
      case "openai" => "OpenAI"
      case "deepseek" => "DeepSeek"
      case "azure" => "Azure OpenAI"
      case "bedrock" => "AWS"
      case "google_ai_studio" => "Google AI Studio"
      case "google_vertexai" => "Google Vertex AI"
      case "grok" => "xAI Grok"
      case "groq" => "Groq"
      case "lm_studio" => "LM Studio (Local - No API Key)"
      case "ollama" => "Ollama (Local - No API Key)"
      case "open_router" => "OpenRouter"
      case "qwen3" => "Qwen"
      case "zhipu" => "Zhipu"
      case _ => "API"
  }

  /** Providers that have an environment variable of their own. */
  const EnvKeyProviders: set<string> := {
    "anthropic", "openai", "deepseek", "azure", "google_ai_studio", "google_vertexai",
    "grok", "groq", "lm_studio", "ollama", "open_router", "qwen3", "zhipu"}

  /** The `.env` variable that receives the provider key. */
  function EnvKeyName(provider: string): (r: string)
    ensures r == "" <==> provider == "ollama"
    ensures r == "API_KEY" <==> provider !in EnvKeyProviders
    ensures r == "OPENROUTER_API_KEY" <==> provider == "open_router" || provider == "qwen3"
    ensures r == "OPENAI_API_KEY" <==> provider == "openai"
  {
    match provider
      case "anthropic" => "ANTHROPIC_API_KEY"
      case "openai" => "OPENAI_API_KEY"
      case "deepseek" => "DEEPSEEK_API_KEY"
      case "azure" => "AZURE_OPENAI_API_KEY"
      case "google_ai_studio" => "GEMINI_API_KEY"
      case "google_vertexai" => "GOOGLE_APPLICATION_CREDENTIALS"
      case "grok" => "XAI_API_KEY"
      case "groq" => "GROQ_API_KEY"
      case "lm_studio" => "LM_STUDIO_API_KEY"
      case "ollama" => ""
      case "open_router" => "OPENROUTER_API_KEY"
      case "qwen3" => "OPENROUTER_API_KEY"
      case "zhipu" => "ZHIPU_API_KEY"
      case _ => "API_KEY"
  }

  /** Bedrock has a display name but no variable of its own. */
  lemma BedrockUsesGenericKey()
    ensures "bedrock" in NamedProviders && EnvKeyName("bedrock") == "API_KEY"
  {
  }

  /** The field being edited: field 1 is the OpenAI key, every other index
      the provider key. */
  function CurrentValue(form: FormData): string {
    if form.currentField == 1 then form.openaiApiKey else form.apiKey
  }

  /** Write through `get_current_value_mut`. */
  function WithCurrentValue(form: FormData, value: string): (r: FormData)
    ensures form.currentField == 1 ==> r == form.(openaiApiKey := value)
    ensures form.currentField != 1 ==> r == form.(apiKey := value)
  {
    if form.currentField == 1 then form.(openaiApiKey := value) else form.(apiKey := value)
  }

  /** Writing then reading the current field gives back what was written,
      and writing back what was read changes nothing. */
  lemma CurrentValueRoundTrip(form: FormData, value: string)
    ensures CurrentValue(WithCurrentValue(form, value)) == value
    ensures WithCurrentValue(form, CurrentValue(form)) == form
    ensures WithCurrentValue(form, value).currentField == form.currentField
  {
  }

  const EmbeddingKeyMessage: string := "OpenAI API Key is required for embedding model!"

  /** The message for a missing provider key. */
  function MissingKeyMessage(provider: string): string {
    ApiKeyName(provider) + " API Key is required!"
  }

  /** `validate`: whether the form may be saved, and the form with its
      error message updated. Only the error message ever changes. */
  function Validate(form: FormData): (r: (bool, FormData))
    ensures r.1 == form.(errorMessage := r.1.errorMessage)
    ensures r.0 <==> r.1.errorMessage == ""
    ensures r.0 <==>
              IsLocalProvider(form.selectedProvider)
              || (!IsBlank(form.apiKey) && !(NeedsOpenaiEmbedding(form.selectedProvider) && IsBlank(form.openaiApiKey)))
    ensures !IsLocalProvider(form.selectedProvider) && IsBlank(form.apiKey) ==>
              r.1.errorMessage == MissingKeyMessage(form.selectedProvider)
    ensures !IsLocalProvider(form.selectedProvider) && !IsBlank(form.apiKey) && !r.0 ==>
              r.1.errorMessage == EmbeddingKeyMessage
  {
    TrimEmptyIffBlank(form.apiKey);
    TrimEmptyIffBlank(form.openaiApiKey);
    assert |MissingKeyMessage(form.selectedProvider)| > 0;
    if IsLocalProvider(form.selectedProvider) then (true, form.(errorMessage := ""))
    else if Trim(form.apiKey) == [] then
      (false, form.(errorMessage := MissingKeyMessage(form.selectedProvider)))
    else if NeedsOpenaiEmbedding(form.selectedProvider) && Trim(form.openaiApiKey) == [] then
      (false, form.(errorMessage := EmbeddingKeyMessage))
    else (true, form.(errorMessage := ""))
  }

  /** A local provider saves whatever the keys hold. */
  lemma LocalProvidersAlwaysValid(form: FormData)
    requires IsLocalProvider(form.selectedProvider)
    ensures Validate(form).0 && Validate(form).1.errorMessage == ""
  {
  }
}
