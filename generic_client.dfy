/**
 * api_clients/generic_client.py: the HTTP/SDK adapters for Baidu, Zhipu and
 * Alibaba, and their common base class.
 *
 * Baidu exchanges its API key and secret for a short-lived access token
 * with an OAuth 2.0 client-credentials grant (section 4.4 of RFC 6749); the
 * token response carries `access_token` and, optionally, `expires_in` in
 * seconds (section 5.1 of RFC 6749). The adapter caches the token and its
 * expiry instant in two fields; that cache is the class `BaiduClient` below.
 *
 * Every network or SDK call is a parameter from the request to the decoded
 * reply or to the exception it raised; every clock reading is a parameter.
 * Exception messages keep the source's fixed prefix; the dict or response
 * object the source formats into them is not modelled.
 */
module GenericClient {
  import opened Wrappers
  import opened ConfigManager
  import opened BaseClient

  // ---------------------------------------------------------------------------
  // GenericHTTPClient

  const NotImplementedMessage: string := "NotImplementedError: 子类必须实现call_api方法"

  /** `GenericHTTPClient.call_api`: subclasses must override it; the base always raises. */
  function GenericCallApi(prompt: string, model: ModelConfig): (r: Result<APIResponse>)
    ensures r.Failure? && r.error == NotImplementedMessage
  {
    Failure(NotImplementedMessage)
  }

  // ---------------------------------------------------------------------------
  // Baidu: token cache

  const TokenUrl: string := "https://aip.baidubce.com/oauth/2.0/token"
  const DefaultExpiresIn: real := 3600.0
  /** The cached token is treated as expired this many seconds early. */
  const ExpiryMargin: real := 60.0
  const TokenErrorMessage: string := "获取百度access token失败"

  /** The query of the client-credentials grant. */
  datatype TokenRequest = TokenRequest(grantType: string, clientId: string, clientSecret: Option<string>)

  /** The decoded token response: `access_token` and `expires_in`, each possibly absent. */
  datatype TokenReply = TokenReply(accessToken: Option<string>, expiresIn: Option<real>)

  /** Line 34: a cached token is reused when it is truthy (non-empty) and strictly before its expiry. */
  predicate TokenUsable(token: Option<string>, expire: real, now: real) {
    token.Some? && token.value != "" && now < expire
  }

  /** The outcome of `get_access_token`: what it returns or raises, and the new cache. */
  datatype TokenStep = TokenStep(result: Result<string>, token: Option<string>, expire: real)

  /**
   * `get_access_token` as a function of the cache: the clock is read at `now`
   * for the check and at `fetchedAt` for the new expiry, after the reply arrived.
   */
  function RefreshToken(token: Option<string>, expire: real, request: TokenRequest,
                        now: real, fetchedAt: real, fetch: TokenRequest -> Result<TokenReply>): (s: TokenStep)
    // A raise leaves the cache as it was; a returned token is the cached one.
    ensures s.result.Failure? ==> s.token == token && s.expire == expire
    ensures s.result.Success? ==> s.token == Some(s.result.value)
    // A usable token is returned as is, with nothing else changed.
    ensures TokenUsable(token, expire, now) ==> s == TokenStep(Success(token.value), token, expire)
    // Otherwise the call succeeds iff the endpoint answers with a token, which is stored
    // with its lifetime (default one hour) less the safety margin.
    ensures !TokenUsable(token, expire, now) ==>
      (s.result.Success? <==> fetch(request).Success? && fetch(request).value.accessToken.Some?)
    ensures !TokenUsable(token, expire, now) && s.result.Success? ==>
      && s.token == fetch(request).value.accessToken
      && s.expire == fetchedAt + fetch(request).value.expiresIn.GetOr(DefaultExpiresIn) - ExpiryMargin
    // The endpoint's own error is raised unchanged; a reply without a token raises the fixed message.
    ensures !TokenUsable(token, expire, now) && fetch(request).Failure? ==> s.result == Failure(fetch(request).error)
    ensures !TokenUsable(token, expire, now) && fetch(request).Success? && fetch(request).value.accessToken.None? ==>
      s.result == Failure(TokenErrorMessage)
  {
    if TokenUsable(token, expire, now) then TokenStep(Success(token.value), token, expire)
    else
      match fetch(request)
      case Failure(e) => TokenStep(Failure(e), token, expire)
      case Success(reply) =>
        if reply.accessToken.Some? then
          TokenStep(Success(reply.accessToken.value), reply.accessToken,
                    fetchedAt + reply.expiresIn.GetOr(DefaultExpiresIn) - ExpiryMargin)
        else TokenStep(Failure(TokenErrorMessage), token, expire)
  }

  /** A raising refresh leaves the cached token and its expiry as they were. */
  lemma FailedRefreshKeepsCache(token: Option<string>, expire: real, request: TokenRequest,
                                now: real, fetchedAt: real, fetch: TokenRequest -> Result<TokenReply>)
    ensures var s := RefreshToken(token, expire, request, now, fetchedAt, fetch);
      s.result.Failure? ==> s.token == token && s.expire == expire
  {
  }

  /** The reply is consulted exactly when the cache is not usable: a usable cache ignores the fetcher. */
  lemma FetchOnlyWhenStale(token: Option<string>, expire: real, request: TokenRequest, now: real, fetchedAt: real,
                           fetch1: TokenRequest -> Result<TokenReply>, fetch2: TokenRequest -> Result<TokenReply>)
    requires TokenUsable(token, expire, now)
    ensures RefreshToken(token, expire, request, now, fetchedAt, fetch1)
         == RefreshToken(token, expire, request, now, fetchedAt, fetch2)
  {
  }

  /** A token whose expiry is exactly `now` is expired; one second before its expiry it is still usable. */
  lemma ExpiryBoundary(token: string, expire: real)
    requires token != ""
    ensures !TokenUsable(Some(token), expire, expire)
    ensures TokenUsable(Some(token), expire, expire - 1.0)
  {
  }

  /**
   * A freshly fetched non-empty token with lifetime `e` (3600 when absent) is
   * reused exactly at the instants before `fetchedAt + e - 60`.
   */
  lemma FetchedTokenWindow(token: Option<string>, expire: real, request: TokenRequest,
                           now: real, fetchedAt: real, fetch: TokenRequest -> Result<TokenReply>, later: real)
    requires !TokenUsable(token, expire, now)
    requires fetch(request).Success? && fetch(request).value.accessToken.Some?
    requires fetch(request).value.accessToken.value != ""
    ensures var s := RefreshToken(token, expire, request, now, fetchedAt, fetch);
      var lifetime := fetch(request).value.expiresIn.GetOr(DefaultExpiresIn);
      TokenUsable(s.token, s.expire, later) <==> later < fetchedAt + lifetime - ExpiryMargin
  {
  }

  /**
   * A first call at `t` fetches T1 (no `expires_in`); a call 10 s later reuses
   * T1 whatever the fetcher would answer; a call at `t + 3601` fetches again.
   */
  lemma TokenScenario(request: TokenRequest, t: real, fetch: TokenRequest -> Result<TokenReply>, t1: string)
    requires fetch(request) == Success(TokenReply(Some(t1), None)) && t1 != ""
    ensures var s1 := RefreshToken(None, 0.0, request, t, t, fetch);
      && s1 == TokenStep(Success(t1), Some(t1), t + 3540.0)
      && var s2 := RefreshToken(s1.token, s1.expire, request, t + 10.0, t + 10.0, fetch);
         && s2 == s1
         && !TokenUsable(s2.token, s2.expire, t + 3601.0)
  {
  }

  // ---------------------------------------------------------------------------
  // Baidu: chat call

  const ChatUrlPrefix: string := "https://aip.baidubce.com/rpc/2.0/ai_custom/v1/wenxinworkshop/chat/"
  const DefaultEndpoint: string := "completions"
  const BaiduErrorMessage: string := "百度API错误"

  /** Lines 59-64: the chat endpoint of a model name; any name not listed uses `completions`. */
  function Endpoint(modelName: string): (e: string)
    ensures modelName == "ERNIE-Bot-4" ==> e == "completions_pro"
    ensures modelName == "ERNIE-Bot-turbo" ==> e == "eb-instant"
    ensures modelName != "ERNIE-Bot-4" && modelName != "ERNIE-Bot-turbo" ==> e == DefaultEndpoint
  {
    if modelName == "ERNIE-Bot-4" then "completions_pro"
    else if modelName == "ERNIE-Bot" then "completions"
    else if modelName == "ERNIE-Bot-turbo" then "eb-instant"
    else DefaultEndpoint
  }

  /** The three endpoints are told apart: a model name maps to `completions_pro` or `eb-instant` only by name. */
  lemma EndpointInverse(modelName: string)
    ensures Endpoint(modelName) == "completions_pro" <==> modelName == "ERNIE-Bot-4"
    ensures Endpoint(modelName) == "eb-instant" <==> modelName == "ERNIE-Bot-turbo"
    ensures Endpoint(modelName) in {"completions_pro", "completions", "eb-instant"}
  {
  }

  /** The POST: URL, `access_token` query parameter and JSON body. */
  datatype BaiduRequest = BaiduRequest(url: string, accessToken: string, messages: seq<Message>,
                                       temperature: real, maxOutputTokens: int)

  datatype BaiduUsage = BaiduUsage(promptTokens: Option<int>, completionTokens: Option<int>, totalTokens: Option<int>)

  /** The decoded reply: whether it has `error_code`, and its `result` and `usage`, each possibly absent. */
  datatype BaiduReply = BaiduReply(hasErrorCode: bool, result: Option<string>, usage: Option<BaiduUsage>)

  function BuildBaiduRequest(prompt: string, model: ModelConfig, accessToken: string): (req: BaiduRequest)
    ensures req.url == ChatUrlPrefix + Endpoint(model.name) && req.accessToken == accessToken
    ensures SinglePrompt(req.messages) == Some(prompt)
    ensures req.temperature == model.temperature && req.maxOutputTokens == model.maxTokens
  {
    BaiduRequest(ChatUrlPrefix + Endpoint(model.name), accessToken, FormatMessages(prompt), model.temperature, model.maxTokens)
  }

  /**
   * Lines 77-98: a reply with `error_code` raises; otherwise the text defaults
   * to "" and each usage count to 0.
   */
  function BaiduRecord(platformName: string, prompt: string, model: ModelConfig, reply: Result<BaiduReply>): (r: Result<APIResponse>)
    ensures r.Success? <==> reply.Success? && !reply.value.hasErrorCode
    ensures reply.Failure? ==> r == Failure(reply.error)
    ensures reply.Success? && reply.value.hasErrorCode ==> r == Failure(BaiduErrorMessage)
    ensures r.Success? ==>
      var u := reply.value.usage.GetOr(BaiduUsage(None, None, None));
      && AdapterRecord(r.value, platformName, model, prompt)
      && r.value.response == reply.value.result.GetOr("")
      && r.value.usage[PromptTokens] == u.promptTokens.GetOr(0)
      && r.value.usage[CompletionTokens] == u.completionTokens.GetOr(0)
      && r.value.usage[TotalTokens] == u.totalTokens.GetOr(0)
  {
    match reply
    case Failure(e) => Failure(e)
    case Success(res) =>
      if res.hasErrorCode then Failure(BaiduErrorMessage)
      else
        var u := res.usage.GetOr(BaiduUsage(None, None, None));
        Success(APIResponse(platformName, model.name, prompt, res.result.GetOr(""),
                            UsageTriple(u.promptTokens.GetOr(0), u.completionTokens.GetOr(0), u.totalTokens.GetOr(0)),
                            0.0, true, None))
  }

  /** An empty successful reply is still a success, with "" and zero counts. */
  lemma EmptyBaiduReply(platformName: string, prompt: string, model: ModelConfig)
    ensures var r := BaiduRecord(platformName, prompt, model, Success(BaiduReply(false, None, None)));
      r.Success? && r.value.response == "" && r.value.usage == UsageTriple(0, 0, 0)
  {
  }

  /** `BaiduClient`: the adapter with its token cache. */
  class BaiduClient {
    const platformName: string
    const apiKey: string
    const secretKey: Option<string>
    const baseUrl: Option<string>
    var accessToken: Option<string>
    var tokenExpireTime: real

    /** A new client has no token and expiry 0 (lines 27-30). */
    constructor (config: PlatformConfig)
      ensures platformName == config.name && apiKey == config.apiKey
      ensures secretKey == config.secretKey && baseUrl == config.baseUrl
      ensures accessToken == None && tokenExpireTime == 0.0
      ensures forall now :: !TokenUsable(accessToken, tokenExpireTime, now)
    {
      platformName := config.name;
      apiKey := config.apiKey;
      secretKey := config.secretKey;
      baseUrl := config.baseUrl;
      accessToken := None;
      tokenExpireTime := 0.0;
    }

    function TokenRequestOf(): (q: TokenRequest)
      ensures q == TokenRequest("client_credentials", apiKey, secretKey)
    {
      TokenRequest("client_credentials", apiKey, secretKey)
    }

    /** `get_access_token`: reuse the cached token or fetch, store and return a new one. */
    method GetAccessToken(now: real, fetchedAt: real, fetch: TokenRequest -> Result<TokenReply>)
      returns (r: Result<string>)
      modifies this
      ensures var s := RefreshToken(old(accessToken), old(tokenExpireTime), TokenRequestOf(), now, fetchedAt, fetch);
        r == s.result && accessToken == s.token && tokenExpireTime == s.expire
    {
      if accessToken.Some? && accessToken.value != "" && now < tokenExpireTime {
        return Success(accessToken.value);
      }
      var reply := fetch(TokenRequestOf());
      if reply.Failure? {
        return Failure(reply.error);
      }
      if reply.value.accessToken.None? {
        return Failure(TokenErrorMessage);
      }
      accessToken := reply.value.accessToken;
      tokenExpireTime := fetchedAt + reply.value.expiresIn.GetOr(DefaultExpiresIn) - ExpiryMargin;
      return Success(accessToken.value);
    }

    /**
     * `call_api`: obtain the token (its failure is raised), then POST to the
     * model's endpoint and normalise the reply.
     */
    method CallApi(prompt: string, model: ModelConfig, now: real, fetchedAt: real,
                   fetch: TokenRequest -> Result<TokenReply>, post: BaiduRequest -> Result<BaiduReply>)
      returns (r: Result<APIResponse>)
      modifies this
      ensures var s := RefreshToken(old(accessToken), old(tokenExpireTime), TokenRequestOf(), now, fetchedAt, fetch);
        && accessToken == s.token && tokenExpireTime == s.expire
        && r == match s.result
                case Failure(e) => Failure(e)
                case Success(t) => BaiduRecord(platformName, prompt, model, post(BuildBaiduRequest(prompt, model, t)))
    {
      var token := GetAccessToken(now, fetchedAt, fetch);
      if token.Failure? {
        return Failure(token.error);
      }
      var reply := post(BuildBaiduRequest(prompt, model, token.value));
      r := BaiduRecord(platformName, prompt, model, reply);
    }
  }

  // ---------------------------------------------------------------------------
  // Zhipu

  /** The keyword arguments of `zhipuai.ChatCompletion.create`. */
  datatype ZhipuRequest = ZhipuRequest(model: string, messages: seq<Message>, temperature: real, maxTokens: int)
  datatype ZhipuUsage = ZhipuUsage(promptTokens: int, completionTokens: int, totalTokens: int)
  datatype ZhipuCompletion = ZhipuCompletion(choices: seq<string>, usage: ZhipuUsage)

  function BuildZhipuRequest(prompt: string, model: ModelConfig): (req: ZhipuRequest)
    ensures req.model == model.name && SinglePrompt(req.messages) == Some(prompt)
    ensures req.temperature == model.temperature && req.maxTokens == model.maxTokens
  {
    ZhipuRequest(model.name, FormatMessages(prompt), model.temperature, model.maxTokens)
  }

  const NoChoiceError: string := "IndexError: list index out of range"

  /** `ZhipuClient.call_api`: the first choice's text and the usage copied field for field. */
  function ZhipuCallApi(platformName: string, prompt: string, model: ModelConfig,
                        sdk: ZhipuRequest -> Result<ZhipuCompletion>): (r: Result<APIResponse>)
    ensures r.Success? <==> sdk(BuildZhipuRequest(prompt, model)).Success? && |sdk(BuildZhipuRequest(prompt, model)).value.choices| > 0
    ensures sdk(BuildZhipuRequest(prompt, model)).Failure? ==> r == Failure(sdk(BuildZhipuRequest(prompt, model)).error)
    ensures r.Success? ==>
      var c := sdk(BuildZhipuRequest(prompt, model)).value;
      && AdapterRecord(r.value, platformName, model, prompt)
      && r.value.response == c.choices[0]
      && r.value.usage == UsageTriple(c.usage.promptTokens, c.usage.completionTokens, c.usage.totalTokens)
  {
    match sdk(BuildZhipuRequest(prompt, model))
    case Failure(e) => Failure(e)
    case Success(c) =>
      if |c.choices| == 0 then Failure(NoChoiceError)
      else Success(APIResponse(platformName, model.name, prompt, c.choices[0],
                               UsageTriple(c.usage.promptTokens, c.usage.completionTokens, c.usage.totalTokens),
                               0.0, true, None))
  }

  // ---------------------------------------------------------------------------
  // Alibaba

  const AlibabaErrorMessage: string := "阿里云API错误"

  /** The keyword arguments of `dashscope.Generation.call`. */
  datatype GenerationRequest = GenerationRequest(model: string, messages: seq<Message>, temperature: real,
                                                 maxTokens: int, resultFormat: string)
  datatype GenerationUsage = GenerationUsage(inputTokens: int, outputTokens: int, totalTokens: int)
  datatype GenerationResponse = GenerationResponse(statusCode: int, choices: seq<string>, usage: GenerationUsage)

  function BuildGenerationRequest(prompt: string, model: ModelConfig): (req: GenerationRequest)
    ensures req.model == model.name && SinglePrompt(req.messages) == Some(prompt)
    ensures req.temperature == model.temperature && req.maxTokens == model.maxTokens
    ensures req.resultFormat == "message"
  {
    GenerationRequest(model.name, FormatMessages(prompt), model.temperature, model.maxTokens, "message")
  }

  /**
   * `AlibabaClient.call_api`: only status 200 succeeds; `input_tokens` becomes
   * `prompt_tokens` and `output_tokens` becomes `completion_tokens`; any other
   * status raises.
   */
  function AlibabaCallApi(platformName: string, prompt: string, model: ModelConfig,
                          sdk: GenerationRequest -> Result<GenerationResponse>): (r: Result<APIResponse>)
    ensures r.Success? <==> && sdk(BuildGenerationRequest(prompt, model)).Success?
                            && sdk(BuildGenerationRequest(prompt, model)).value.statusCode == 200
                            && |sdk(BuildGenerationRequest(prompt, model)).value.choices| > 0
    ensures sdk(BuildGenerationRequest(prompt, model)).Failure? ==> r == Failure(sdk(BuildGenerationRequest(prompt, model)).error)
    ensures sdk(BuildGenerationRequest(prompt, model)).Success? && sdk(BuildGenerationRequest(prompt, model)).value.statusCode != 200
      ==> r == Failure(AlibabaErrorMessage)
    ensures r.Success? ==>
      var g := sdk(BuildGenerationRequest(prompt, model)).value;
      && AdapterRecord(r.value, platformName, model, prompt)
      && r.value.response == g.choices[0]
      && r.value.usage == UsageTriple(g.usage.inputTokens, g.usage.outputTokens, g.usage.totalTokens)
  {
    match sdk(BuildGenerationRequest(prompt, model))
    case Failure(e) => Failure(e)
    case Success(g) =>
      if g.statusCode != 200 then Failure(AlibabaErrorMessage)
      else if |g.choices| == 0 then Failure(NoChoiceError)
      else Success(APIResponse(platformName, model.name, prompt, g.choices[0],
                               UsageTriple(g.usage.inputTokens, g.usage.outputTokens, g.usage.totalTokens),
                               0.0, true, None))
  }
}
