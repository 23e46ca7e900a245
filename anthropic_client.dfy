/**
 * api_clients/anthropic_client.py: the request the Anthropic adapter sends
 * and the normalisation of the SDK's message reply, whose usage names the
 * counts `input_tokens` / `output_tokens` and carries no total.
 */
module AnthropicClient {
  import opened Wrappers
  import opened ConfigManager
  import opened BaseClient

  /** The keyword arguments of `messages.create`. */
  datatype Request = Request(model: string, maxTokens: int, temperature: real, messages: seq<Message>)

  datatype MessageUsage = MessageUsage(inputTokens: int, outputTokens: int)

  /** The SDK's reply: the text of each content block and the usage. */
  datatype MessageReply = MessageReply(content: seq<string>, usage: MessageUsage)

  /** Lines 16-21: model name, `max_tokens`, `temperature` and the single user message. */
  function BuildRequest(prompt: string, model: ModelConfig): (req: Request)
    ensures req.model == model.name && req.maxTokens == model.maxTokens && req.temperature == model.temperature
    ensures SinglePrompt(req.messages) == Some(prompt)
  {
    Request(model.name, model.maxTokens, model.temperature, FormatMessages(prompt))
  }

  const NoContentError: string := "IndexError: list index out of range"

  /**
   * `call_api`: the first content block's text; `prompt_tokens` is the input
   * count, `completion_tokens` the output count and `total_tokens` their sum,
   * computed rather than read. An SDK exception or an empty content list is raised.
   */
  function CallApi(platformName: string, prompt: string, model: ModelConfig,
                   sdk: Request -> Result<MessageReply>): (r: Result<APIResponse>)
    ensures r.Success? <==> sdk(BuildRequest(prompt, model)).Success? && |sdk(BuildRequest(prompt, model)).value.content| > 0
    ensures sdk(BuildRequest(prompt, model)).Failure? ==> r == Failure(sdk(BuildRequest(prompt, model)).error)
    ensures r.Success? ==>
      var m := sdk(BuildRequest(prompt, model)).value;
      && AdapterRecord(r.value, platformName, model, prompt)
      && r.value.response == m.content[0]
      && r.value.usage[PromptTokens] == m.usage.inputTokens
      && r.value.usage[CompletionTokens] == m.usage.outputTokens
      && r.value.usage[TotalTokens] == r.value.usage[PromptTokens] + r.value.usage[CompletionTokens]
  {
    match sdk(BuildRequest(prompt, model))
    case Failure(e) => Failure(e)
    case Success(m) =>
      if |m.content| == 0 then Failure(NoContentError)
      else
        var u := m.usage;
        Success(APIResponse(platformName, model.name, prompt, m.content[0],
                            UsageTriple(u.inputTokens, u.outputTokens, u.inputTokens + u.outputTokens), 0.0, true, None))
  }
}
