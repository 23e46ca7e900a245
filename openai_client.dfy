/**
 * api_clients/openai_client.py: the request the OpenAI adapter sends and
 * the normalisation of the SDK's chat-completion reply.
 *
 * The SDK call is a parameter `sdk` from the request to the reply or to the
 * exception it raised.
 */
module OpenAIClient {
  import opened Wrappers
  import opened ConfigManager
  import opened BaseClient

  /** The keyword arguments of `chat.completions.create`. */
  datatype Request = Request(
    model: string,
    messages: seq<Message>,
    maxTokens: int,
    temperature: real,
    topP: real,
    frequencyPenalty: real,
    presencePenalty: real)

  datatype CompletionUsage = CompletionUsage(promptTokens: int, completionTokens: int, totalTokens: int)

  /** The SDK's reply: the message text of each choice, and `usage` (possibly `None`). */
  datatype Completion = Completion(choices: seq<string>, usage: Option<CompletionUsage>)

  /** Python truthiness of an optional float: present and non-zero. */
  predicate Truthy(x: Option<real>) {
    x.Some? && x.value != 0.0
  }

  /** `value if value else fallback`. */
  function OrElse(x: Option<real>, fallback: real): (r: real)
    ensures Truthy(x) ==> r == x.value
    ensures !Truthy(x) ==> r == fallback
  {
    if Truthy(x) then x.value else fallback
  }

  /** The SDK client's `base_url`: the configured one when non-empty, else the SDK default (`None`). */
  function SdkBaseUrl(config: PlatformConfig): (u: Option<string>)
    ensures u.Some? <==> config.baseUrl.Some? && config.baseUrl.value != ""
    ensures u.Some? ==> u == config.baseUrl
  {
    if config.baseUrl.Some? && config.baseUrl.value != "" then config.baseUrl else None
  }

  /**
   * Lines 16-25: the request. `top_p` falls back to 1.0 and the penalties
   * to 0 when unset or zero; everything else is passed through.
   */
  function BuildRequest(prompt: string, model: ModelConfig): (req: Request)
    ensures req.model == model.name && req.messages == FormatMessages(prompt)
    ensures req.maxTokens == model.maxTokens && req.temperature == model.temperature
    ensures req.topP == OrElse(model.topP, 1.0)
    ensures req.frequencyPenalty == OrElse(model.frequencyPenalty, 0.0)
    ensures req.presencePenalty == OrElse(model.presencePenalty, 0.0)
  {
    Request(model.name, FormatMessages(prompt), model.maxTokens, model.temperature,
            OrElse(model.topP, 1.0), OrElse(model.frequencyPenalty, 0.0), OrElse(model.presencePenalty, 0.0))
  }

  /**
   * The defaulting never sends `top_p = 0`, and sends each penalty as the
   * configured value whenever one is configured (an explicit 0 and an absent
   * value give the same request).
   */
  lemma RequestDefaults(prompt: string, model: ModelConfig)
    ensures BuildRequest(prompt, model).topP != 0.0
    ensures model.topP.Some? && model.topP.value != 0.0 ==> BuildRequest(prompt, model).topP == model.topP.value
    ensures model.frequencyPenalty.Some? ==> BuildRequest(prompt, model).frequencyPenalty == model.frequencyPenalty.value
    ensures model.presencePenalty.Some? ==> BuildRequest(prompt, model).presencePenalty == model.presencePenalty.value
    ensures model.frequencyPenalty.None? ==> BuildRequest(prompt, model).frequencyPenalty == 0.0
    ensures model.presencePenalty.None? ==> BuildRequest(prompt, model).presencePenalty == 0.0
  {
  }

  const NoChoiceError: string := "IndexError: list index out of range"
  const NoUsageError: string := "AttributeError: 'NoneType' object has no attribute 'prompt_tokens'"

  /**
   * `call_api`: the first choice's text and the usage copied field for field,
   * as an adapter record; an SDK exception, an empty `choices` list or a
   * missing `usage` is raised.
   */
  function CallApi(platformName: string, prompt: string, model: ModelConfig,
                   sdk: Request -> Result<Completion>): (r: Result<APIResponse>)
    ensures r.Success? <==> sdk(BuildRequest(prompt, model)).Success?
                            && |sdk(BuildRequest(prompt, model)).value.choices| > 0
                            && sdk(BuildRequest(prompt, model)).value.usage.Some?
    ensures sdk(BuildRequest(prompt, model)).Failure? ==> r == Failure(sdk(BuildRequest(prompt, model)).error)
    ensures r.Success? ==>
      var c := sdk(BuildRequest(prompt, model)).value;
      && AdapterRecord(r.value, platformName, model, prompt)
      && r.value.response == c.choices[0]
      && r.value.usage[PromptTokens] == c.usage.value.promptTokens
      && r.value.usage[CompletionTokens] == c.usage.value.completionTokens
      && r.value.usage[TotalTokens] == c.usage.value.totalTokens
  {
    match sdk(BuildRequest(prompt, model))
    case Failure(e) => Failure(e)
    case Success(c) =>
      if |c.choices| == 0 then Failure(NoChoiceError)
      else if c.usage.None? then Failure(NoUsageError)
      else
        var u := c.usage.value;
        Success(APIResponse(platformName, model.name, prompt, c.choices[0],
                            UsageTriple(u.promptTokens, u.completionTokens, u.totalTokens), 0.0, true, None))
  }
}
