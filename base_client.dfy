/**
 * api_clients/base_client.py: the uniform outcome record and the error
 * boundary around every adapter call.
 *
 * An adapter's `call_api` is given here by its outcome, `Result<APIResponse>`:
 * `Failure(e)` is the exception it raised, `e` standing for `str(e)`; texts the
 * code builds itself are approximated by fixed strings that also name the
 * exception class. The two clock readings of `test_model` are parameters.
 */
module BaseClient {
  import opened Wrappers
  import opened ConfigManager

  const PromptTokens: string := "prompt_tokens"
  const CompletionTokens: string := "completion_tokens"
  const TotalTokens: string := "total_tokens"

  /**
   * The `APIResponse` dataclass; `error` defaults to `None`. The debugging
   * payload `raw_response` is not modelled.
   */
  datatype APIResponse = APIResponse(
    platform: string,
    model: string,
    prompt: string,
    response: string,
    usage: map<string, int>,
    latency: real,
    success: bool,
    error: Option<string>)

  /** One chat message. */
  datatype Message = Message(role: string, content: string)

  /** `format_messages`: the prompt as the single user-role message. */
  function FormatMessages(prompt: string): (ms: seq<Message>)
    ensures |ms| == 1 && ms[0].role == "user" && ms[0].content == prompt
  {
    [Message("user", prompt)]
  }

  /** The prompt carried by a single user-role message list, if that is what `ms` is. */
  function SinglePrompt(ms: seq<Message>): Option<string> {
    if |ms| == 1 && ms[0].role == "user" then Some(ms[0].content) else None
  }

  /** The message list carries the prompt and nothing else. */
  lemma FormatMessagesRoundTrip(prompt: string)
    ensures SinglePrompt(FormatMessages(prompt)) == Some(prompt)
  {
  }

  /** The normalised usage dict `{prompt_tokens, completion_tokens, total_tokens}`. */
  function UsageTriple(prompt: int, completion: int, total: int): (u: map<string, int>)
    ensures u.Keys == {PromptTokens, CompletionTokens, TotalTokens}
    ensures u[PromptTokens] == prompt && u[CompletionTokens] == completion && u[TotalTokens] == total
  {
    map[PromptTokens := prompt, CompletionTokens := completion, TotalTokens := total]
  }

  /**
   * What every adapter's successful `call_api` returns: the request's
   * platform, model and prompt, a full usage triple, `success=True`,
   * `latency=0` and no error.
   */
  predicate AdapterRecord(r: APIResponse, platformName: string, model: ModelConfig, prompt: string) {
    && r.platform == platformName && r.model == model.name && r.prompt == prompt
    && r.usage.Keys == {PromptTokens, CompletionTokens, TotalTokens}
    && r.latency == 0.0 && r.success && r.error.None?
  }

  /**
   * `test_model`: the adapter's record with its latency replaced by the
   * elapsed time, or, for any exception, a failure record carrying the message.
   * Nothing is raised: the result is always a record.
   */
  function TestModel(platformName: string, model: ModelConfig, prompt: string,
                     reply: Result<APIResponse>, start: real, stop: real): (r: APIResponse)
    ensures r.latency == stop - start
    ensures reply.Success? ==> r.(latency := reply.value.latency) == reply.value
    ensures reply.Failure? ==> && !r.success && r.response == "" && r.usage == map[]
                               && r.error == Some(reply.error)
                               && r.platform == platformName && r.model == model.name && r.prompt == prompt
  {
    match reply
    case Success(resp) => resp.(latency := stop - start)
    case Failure(e) => APIResponse(platformName, model.name, prompt, "", map[], stop - start, false, Some(e))
  }

  /**
   * With a clock that does not run backwards the latency is never negative;
   * the record fails exactly when the adapter raised, and then carries an error.
   */
  lemma TestModelOutcome(platformName: string, model: ModelConfig, prompt: string,
                         reply: Result<APIResponse>, start: real, stop: real)
    requires start <= stop
    requires reply.Success? ==> AdapterRecord(reply.value, platformName, model, prompt)
    ensures var r := TestModel(platformName, model, prompt, reply, start, stop);
      && r.latency >= 0.0
      && (r.success <==> reply.Success?)
      && (r.error.Some? <==> !r.success)
      && r.platform == platformName && r.model == model.name && r.prompt == prompt
  {
  }
}
