/**
 * The provider gateway (services/aiService.ts): `generateText` reads the
 * stored configuration, dispatches to Gemini or OpenRouter, checks the
 * credentials before any request, and turns every later failure into a
 * reply string.
 *
 * The browser storage read, the Gemini SDK call and `fetch` are not
 * modelled; what they deliver is an input (`stored`, `GeminiResponse`,
 * `OpenRouterResponse`), and the request the code would send is part of
 * the result, so "no request was made" is `request == None`.
 */
module Gateway {
  import opened Wrappers
  import opened Types
  import Strings

  const GeminiModel := "gemini-2.5-flash"
  const OpenRouterUrl := "https://openrouter.ai/api/v1/chat/completions"

  const ConfigNotFound := "API configuration not found. Please set it up first."
  const InvalidProvider := "Invalid AI provider selected."
  const GeminiKeyNotSet := "Gemini API key is not set."
  const OpenRouterKeyNotSet := "OpenRouter API key is not set."
  const OpenRouterModelNotSelected := "OpenRouter model is not selected."

  /**
   * The configuration as parsed back from storage. The provider is a plain
   * string: nothing in the parse forces it to be one of the two names.
   */
  datatype StoredConfig = StoredConfig(
    provider: string,
    geminiApiKey: string,
    openRouterApiKey: string,
    openRouterModel: string)

  /**
   * The stored form of a configuration written by the setup screen: the
   * provider is written as one of the two names the gateway dispatches on,
   * different names for different providers, and the other fields as given.
   */
  function Stored(c: ApiConfig): (s: StoredConfig)
    ensures s.provider in {"gemini", "openrouter"}
    ensures s.provider == "gemini" <==> c.provider.Gemini?
    ensures s.geminiApiKey == c.geminiApiKey && s.openRouterApiKey == c.openRouterApiKey
    ensures s.openRouterModel == c.openRouterModel
  {
    StoredConfig(c.provider.Name(), c.geminiApiKey, c.openRouterApiKey, c.openRouterModel)
  }

  /** A thrown value: an `Error` instance with its message, or anything else. */
  datatype Thrown = ErrorInstance(message: string) | NonError

  /** What the Gemini SDK call delivers: the reply's `text`, or a thrown value. */
  datatype GeminiResponse = GeminiText(text: string) | GeminiThrew(thrown: Thrown)

  /**
   * What the OpenRouter round trip delivers: an ok response whose first
   * choice has `content`; a non-ok response with its status and the body's
   * `error.message`, if any; or a value thrown by `fetch`, by the body
   * parse, or by reading a missing field of the success envelope.
   */
  datatype OpenRouterResponse =
    | Completion(content: string)
    | HttpFailure(status: nat, errorMessage: Option<string>)
    | OpenRouterThrew(thrown: Thrown)

  datatype ChatMessage = ChatMessage(role: string, content: string)

  /** The request a provider call sends. */
  datatype Request =
    | GeminiRequest(apiKey: string, model: string, contents: string, systemInstruction: string)
    | OpenRouterRequest(url: string, bearer: string, model: string, messages: seq<ChatMessage>)

  /** A rejected promise carries a bare string or an `Error` with its message. */
  datatype Rejection = RejectedString(reason: string) | RejectedError(message: string)

  /** How the promise returned by `generateText` settles. */
  datatype Settlement = Resolved(text: string) | Rejected(rejection: Rejection)

  /** One call: the request sent, if any, and how it settled. */
  datatype Call = Call(request: Option<Request>, settlement: Settlement)

  /** The text every caught `Error` message is prefixed with. */
  function ErrorPrefix(api: string): string {
    "Error calling " + api + " API: "
  }

  /** The fixed reply for a thrown value that is not an `Error`. */
  function UnknownError(api: string): string {
    "An unknown error occurred with the " + api + " API."
  }

  /**
   * The `catch` block of a provider call: an `Error` becomes the prefix
   * naming the API followed by its message, which can be read back from the
   * reply; any other thrown value becomes the fixed unknown-error reply.
   */
  function CaughtMessage(api: string, t: Thrown): (m: string)
    ensures t.ErrorInstance? ==>
      |ErrorPrefix(api)| <= |m| && m[..|ErrorPrefix(api)|] == ErrorPrefix(api) && m[|ErrorPrefix(api)|..] == t.message
    ensures t.NonError? ==> m == UnknownError(api)
  {
    match t
    case ErrorInstance(m) => ErrorPrefix(api) + m
    case NonError => UnknownError(api)
  }

  /** The message used when a non-ok response carries no error message. */
  function StatusLine(status: nat): string {
    "HTTP error! status: " + Strings.DecimalString(status)
  }

  /**
   * The message of the `Error` thrown for a non-ok OpenRouter response: the
   * body's error message when it is a non-empty string, otherwise the status
   * line; never empty.
   */
  function HttpErrorMessage(status: nat, errorMessage: Option<string>): (m: string)
    ensures m != ""
    ensures errorMessage.Some? && errorMessage.value != "" ==> m == errorMessage.value
    ensures errorMessage.None? || errorMessage.value == "" ==> m == StatusLine(status)
  {
    if errorMessage.Some? && errorMessage.value != "" then errorMessage.value
    else StatusLine(status)
  }

  /** The Gemini call: the key guard, then one request whose failures become strings. */
  function CallGemini(apiKey: string, prompt: string, systemInstruction: string, response: GeminiResponse): (r: Call)
    ensures apiKey == "" <==> r.request.None?
    ensures apiKey == "" ==> r.settlement == Rejected(RejectedError(GeminiKeyNotSet))
    ensures r.request.Some? ==>
      r.request.value == GeminiRequest(apiKey, GeminiModel, prompt, systemInstruction) && r.settlement.Resolved?
  {
    if apiKey == "" then
      Call(None, Rejected(RejectedError(GeminiKeyNotSet)))
    else
      var reply :=
        match response
        case GeminiText(text) => text
        case GeminiThrew(t) => CaughtMessage("Gemini", t);
      Call(Some(GeminiRequest(apiKey, GeminiModel, prompt, systemInstruction)), Resolved(reply))
  }

  /**
   * The string an OpenRouter round trip resolves to: the completion text as
   * it came, or a failure reported in the caught-error format.
   */
  function OpenRouterReply(response: OpenRouterResponse): (r: string)
    ensures response.Completion? ==> r == response.content
    ensures response.HttpFailure? ==>
      r == CaughtMessage("OpenRouter", ErrorInstance(HttpErrorMessage(response.status, response.errorMessage)))
    ensures response.OpenRouterThrew? ==> r == CaughtMessage("OpenRouter", response.thrown)
  {
    match response
    case Completion(content) => content
    case HttpFailure(status, errorMessage) =>
      CaughtMessage("OpenRouter", ErrorInstance(HttpErrorMessage(status, errorMessage)))
    case OpenRouterThrew(t) => CaughtMessage("OpenRouter", t)
  }

  /** The OpenRouter call: the key guard, the model guard, then one request. */
  function CallOpenRouter(
    apiKey: string, model: string, prompt: string, systemInstruction: string, response: OpenRouterResponse): (r: Call)
    ensures r.request.Some? <==> apiKey != "" && model != ""
    ensures apiKey == "" ==> r.settlement == Rejected(RejectedError(OpenRouterKeyNotSet))
    ensures apiKey != "" && model == "" ==> r.settlement == Rejected(RejectedError(OpenRouterModelNotSelected))
    ensures r.request.Some? ==>
      r.request.value.OpenRouterRequest? && r.settlement == Resolved(OpenRouterReply(response))
  {
    if apiKey == "" then
      Call(None, Rejected(RejectedError(OpenRouterKeyNotSet)))
    else if model == "" then
      Call(None, Rejected(RejectedError(OpenRouterModelNotSelected)))
    else
      var messages := [ChatMessage("system", systemInstruction), ChatMessage("user", prompt)];
      Call(Some(OpenRouterRequest(OpenRouterUrl, apiKey, model, messages)), Resolved(OpenRouterReply(response)))
  }

  /** `generateText`: configuration check, then dispatch on the provider name. */
  function GenerateText(
    stored: Option<StoredConfig>, prompt: string, systemInstruction: string,
    gemini: GeminiResponse, openRouter: OpenRouterResponse): (r: Call)
    ensures stored.None? ==> r == Call(None, Rejected(RejectedString(ConfigNotFound)))
    ensures stored.Some? && stored.value.provider !in {"gemini", "openrouter"} ==>
      r == Call(None, Rejected(RejectedString(InvalidProvider)))
    ensures r.settlement.Rejected? <==> r.request.None?
    ensures r.request.Some? && r.request.value.GeminiRequest? ==>
      stored.Some? && stored.value.provider == "gemini" && r.request.value.apiKey == stored.value.geminiApiKey
    ensures r.request.Some? && r.request.value.OpenRouterRequest? ==>
      && stored.Some? && stored.value.provider == "openrouter"
      && r.request.value.bearer == stored.value.openRouterApiKey
      && r.request.value.model == stored.value.openRouterModel
  {
    match stored
    case None => Call(None, Rejected(RejectedString(ConfigNotFound)))
    case Some(config) =>
      if config.provider == "gemini" then
        CallGemini(config.geminiApiKey, prompt, systemInstruction, gemini)
      else if config.provider == "openrouter" then
        CallOpenRouter(config.openRouterApiKey, config.openRouterModel, prompt, systemInstruction, openRouter)
      else
        Call(None, Rejected(RejectedString(InvalidProvider)))
  }

  /** Provider `'gemini'` goes to Gemini with the Gemini key, whatever the OpenRouter fields hold. */
  lemma DispatchGemini(c: StoredConfig, prompt: string, si: string, g: GeminiResponse, o: OpenRouterResponse)
    requires c.provider == "gemini"
    ensures GenerateText(Some(c), prompt, si, g, o) == CallGemini(c.geminiApiKey, prompt, si, g)
    ensures forall o': OpenRouterResponse, k: string, m: string ::
      GenerateText(Some(c.(openRouterApiKey := k, openRouterModel := m)), prompt, si, g, o') ==
      GenerateText(Some(c), prompt, si, g, o)
  {
  }

  /** Provider `'openrouter'` goes to OpenRouter with its key and model, whatever the Gemini key holds. */
  lemma DispatchOpenRouter(c: StoredConfig, prompt: string, si: string, g: GeminiResponse, o: OpenRouterResponse)
    requires c.provider == "openrouter"
    ensures GenerateText(Some(c), prompt, si, g, o) ==
      CallOpenRouter(c.openRouterApiKey, c.openRouterModel, prompt, si, o)
    ensures forall g': GeminiResponse, k: string ::
      GenerateText(Some(c.(geminiApiKey := k)), prompt, si, g', o) == GenerateText(Some(c), prompt, si, g, o)
  {
  }

  /**
   * The OpenRouter key is checked before the model: an empty key fails with
   * the key message whatever the model is, and no request is made.
   */
  lemma OpenRouterKeyCheckedFirst(model: string, prompt: string, si: string, o: OpenRouterResponse)
    ensures CallOpenRouter("", model, prompt, si, o) == Call(None, Rejected(RejectedError(OpenRouterKeyNotSet)))
  {
  }

  /** The OpenRouter body: the configured model and exactly the system then the user message. */
  lemma OpenRouterRequestShape(key: string, model: string, prompt: string, si: string, o: OpenRouterResponse)
    requires key != "" && model != ""
    ensures var r := CallOpenRouter(key, model, prompt, si, o);
      && r.request.Some?
      && r.request.value.url == OpenRouterUrl
      && r.request.value.bearer == key
      && r.request.value.model == model
      && |r.request.value.messages| == 2
      && r.request.value.messages[0] == ChatMessage("system", si)
      && r.request.value.messages[1] == ChatMessage("user", prompt)
  {
  }

  /** On success the reply text is passed through unchanged. */
  lemma SuccessPassesThrough(key: string, model: string, prompt: string, si: string, text: string)
    requires key != ""
    ensures CallGemini(key, prompt, si, GeminiText(text)).settlement == Resolved(text)
    ensures model != "" ==> CallOpenRouter(key, model, prompt, si, Completion(text)).settlement == Resolved(text)
  {
  }

  /**
   * A non-ok response resolves to "Error calling OpenRouter API: " followed
   * by the body's error message when there is one, else by the status line.
   */
  lemma HttpFailureReply(status: nat, errorMessage: Option<string>)
    ensures var reply := OpenRouterReply(HttpFailure(status, errorMessage));
      && (errorMessage.Some? && errorMessage.value != "" ==>
            reply == ErrorPrefix("OpenRouter") + errorMessage.value)
      && (errorMessage.None? || errorMessage.value == "" ==>
            reply == ErrorPrefix("OpenRouter") + StatusLine(status))
  {
  }

  /** The status in the fallback message reads back as the response's status. */
  lemma HttpFailureStatusReadable(status: nat)
    ensures var reply := OpenRouterReply(HttpFailure(status, None));
      var prefix := ErrorPrefix("OpenRouter") + "HTTP error! status: ";
      && |reply| > |prefix| && reply[..|prefix|] == prefix
      && (forall i :: |prefix| <= i < |reply| ==> Strings.IsDigit(reply[i]))
      && Strings.DecimalValue(reply[|prefix|..]) == status
  {
    var prefix := ErrorPrefix("OpenRouter") + "HTTP error! status: ";
    var digits := Strings.DecimalString(status);
    var reply := OpenRouterReply(HttpFailure(status, None));
    assert reply == prefix + digits;
    assert reply[|prefix|..] == digits;
    Strings.DecimalRoundTrip(status);
  }

  /** A non-ok response whose body says "rate limited" yields a reply that contains it. */
  lemma RateLimitedReplyMentionsReason(status: nat)
    ensures Strings.Includes(OpenRouterReply(HttpFailure(status, Some("rate limited"))), "rate limited")
  {
    var reason := "rate limited";
    var reply := OpenRouterReply(HttpFailure(status, Some(reason)));
    assert reply == ErrorPrefix("OpenRouter") + reason;
    assert Strings.OccursAt(reply, reason, |ErrorPrefix("OpenRouter")|);
  }

  /** The name of a provider as it appears in its error strings. */
  function ApiLabel(request: Request): string {
    match request
    case GeminiRequest(_, _, _, _) => "Gemini"
    case OpenRouterRequest(_, _, _, _) => "OpenRouter"
  }

  /**
   * Once a request has been made nothing is rejected: a thrown `Error`
   * resolves to "Error calling <Provider> API: <message>" and any other
   * thrown value to the fixed "unknown error" sentence of that provider.
   */
  lemma ThrownFailuresResolve(
    stored: Option<StoredConfig>, prompt: string, si: string, t: Thrown)
    ensures var r := GenerateText(stored, prompt, si, GeminiThrew(t), OpenRouterThrew(t));
      r.request.Some? ==>
        r.settlement == Resolved(
          if t.ErrorInstance? then ErrorPrefix(ApiLabel(r.request.value)) + t.message
          else UnknownError(ApiLabel(r.request.value)))
  {
  }
}
