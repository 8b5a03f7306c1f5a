/**
 * The first-run setup form (components/ApiKeySetup.tsx): four fields
 * edited through their setters, and a submit that either alerts about the
 * active provider's missing key or hands the whole configuration to
 * `onConfigured`.
 */
module ApiKeySetup {
  import opened Types
  import Catalog

  const GeminiKeyAlert := "Please enter a Gemini API Key."
  const OpenRouterKeyAlert := "Please enter an OpenRouter API Key."

  /** A submit either shows an alert or calls `onConfigured` once with a configuration. */
  datatype SubmitOutcome = Alerted(message: string) | Configured(config: ApiConfig)

  /**
   * The decision `handleSubmit` takes: only the active provider's key is
   * checked; on acceptance the configuration carries all four fields as
   * they are.
   */
  function Decide(provider: AIProvider, geminiApiKey: string, openRouterApiKey: string, openRouterModel: string)
    : (r: SubmitOutcome)
    ensures r.Configured? ==> r.config == ApiConfig(provider, geminiApiKey, openRouterApiKey, openRouterModel)
  {
    if provider == Gemini && geminiApiKey == "" then Alerted(GeminiKeyAlert)
    else if provider == OpenRouter && openRouterApiKey == "" then Alerted(OpenRouterKeyAlert)
    else Configured(ApiConfig(provider, geminiApiKey, openRouterApiKey, openRouterModel))
  }

  /**
   * Submit is refused exactly when the active provider's key is empty, with
   * that provider's alert.
   */
  lemma SubmitRefusedIffActiveKeyEmpty(provider: AIProvider, gk: string, ok: string, model: string)
    ensures Decide(provider, gk, ok, model).Alerted? <==>
      (if provider == Gemini then gk == "" else ok == "")
    ensures provider == Gemini && gk == "" ==> Decide(provider, gk, ok, model) == Alerted(GeminiKeyAlert)
    ensures provider == OpenRouter && ok == "" ==> Decide(provider, gk, ok, model) == Alerted(OpenRouterKeyAlert)
  {
  }

  /**
   * The inactive provider's key and the model are never looked at: changing
   * them does not change whether submit is accepted.
   */
  lemma InactiveFieldsIgnored(provider: AIProvider, gk: string, ok: string, model: string, gk': string, ok': string, model': string)
    ensures provider == Gemini ==>
      Decide(provider, gk, ok, model).Configured? == Decide(provider, gk, ok', model').Configured?
    ensures provider == OpenRouter ==>
      Decide(provider, gk, ok, model).Configured? == Decide(provider, gk', ok, model').Configured?
  {
  }

  /** The form state of the setup screen. */
  class SetupForm {
    var provider: AIProvider
    var geminiApiKey: string
    var openRouterApiKey: string
    var openRouterModel: string

    /** Gemini selected, both keys empty, the first free model preselected. */
    constructor ()
      ensures provider == Gemini && geminiApiKey == "" && openRouterApiKey == ""
      ensures openRouterModel == Catalog.OpenRouterFreeModels[0]
    {
      provider := Gemini;
      geminiApiKey := "";
      openRouterApiKey := "";
      openRouterModel := Catalog.OpenRouterFreeModels[0];
    }

    method SetProvider(p: AIProvider)
      modifies this
      ensures provider == p
      ensures geminiApiKey == old(geminiApiKey) && openRouterApiKey == old(openRouterApiKey)
      ensures openRouterModel == old(openRouterModel)
    {
      provider := p;
    }

    method SetGeminiApiKey(key: string)
      modifies this
      ensures geminiApiKey == key
      ensures provider == old(provider) && openRouterApiKey == old(openRouterApiKey)
      ensures openRouterModel == old(openRouterModel)
    {
      geminiApiKey := key;
    }

    method SetOpenRouterApiKey(key: string)
      modifies this
      ensures openRouterApiKey == key
      ensures provider == old(provider) && geminiApiKey == old(geminiApiKey)
      ensures openRouterModel == old(openRouterModel)
    {
      openRouterApiKey := key;
    }

    method SetOpenRouterModel(model: string)
      modifies this
      ensures openRouterModel == model
      ensures provider == old(provider) && geminiApiKey == old(geminiApiKey)
      ensures openRouterApiKey == old(openRouterApiKey)
    {
      openRouterModel := model;
    }

    /** `handleSubmit`: the submit decision on the form's current fields. */
    method HandleSubmit() returns (r: SubmitOutcome)
      ensures r == Decide(provider, geminiApiKey, openRouterApiKey, openRouterModel)
    {
      r := Decide(provider, geminiApiKey, openRouterApiKey, openRouterModel);
    }
  }
}
