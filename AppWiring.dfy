/**
 * How the pieces meet in App.tsx: the configuration the setup form hands
 * to `onConfigured` is what the gateway later reads back.
 */
module AppWiring {
  import opened Wrappers
  import opened Types
  import Gateway
  import ApiKeySetup
  import Catalog

  /**
   * A configuration accepted at setup never takes the invalid-provider
   * path: with Gemini the request is always made and resolves; with
   * OpenRouter it is made and resolves exactly when a model is set.
   */
  lemma AcceptedConfigReachesProvider(
    provider: AIProvider, gk: string, ok: string, model: string,
    prompt: string, si: string, g: Gateway.GeminiResponse, o: Gateway.OpenRouterResponse)
    requires ApiKeySetup.Decide(provider, gk, ok, model).Configured?
    ensures var c := ApiKeySetup.Decide(provider, gk, ok, model).config;
      var r := Gateway.GenerateText(Some(Gateway.Stored(c)), prompt, si, g, o);
      && r.settlement != Gateway.Rejected(Gateway.RejectedString(Gateway.InvalidProvider))
      && (provider == Gemini ==> r.request.Some? && r.settlement.Resolved?)
      && (provider == OpenRouter ==> (r.request.Some? <==> model != ""))
  {
  }

  /** The preselected model is not empty, so an untouched model choice never hits the model guard. */
  lemma PreselectedModelPassesGuard()
    ensures Catalog.OpenRouterFreeModels[0] != ""
  {
  }
}
