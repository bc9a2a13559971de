/** The completion client: `chat` guards on the API key, builds the request
    body from defaults and the caller's options, and maps the HTTP exchange to
    `{ code: 0, data }` or `{ code: -1, msg }`; `shoppingChat` prepends the
    shopping system prompt and lowers the temperature. The HTTP exchange
    itself is an input. */
module LLM {
  import opened Common
  import opened Strings
  import opened ChatMessage

  const PLACEHOLDER_KEY: string := "your_kimi_api_key_here"
  const DEFAULT_MODEL: string := "moonshot-v1-auto"
  const DEFAULT_TEMPERATURE: real := 0.7
  const DEFAULT_MAX_TOKENS: int := 2000
  const SHOPPING_TEMPERATURE: real := 0.5

  const CONFIG_ERROR: string := "请先配置VITE_KIMI_API_KEY环境变量"
  const API_ERROR_PREFIX: string := "API调用失败: "
  const NETWORK_ERROR: string := "网络连接错误，请检查网络后重试"

  const SHOPPING_PROMPT: string := "你是电商购物助手，请用简短分点说明，先给结论再给理由。"

  /** The caller's `options`: a key is either present (with its value) or absent. */
  datatype ChatOptions = ChatOptions(
    model: Option<string>,
    messages: Option<seq<Message>>,
    stream: Option<bool>,
    temperature: Option<real>,
    maxTokens: Option<int>)

  const NO_OPTIONS: ChatOptions := ChatOptions(None, None, None, None, None)

  datatype RequestBody = RequestBody(
    model: string, messages: seq<Message>, stream: bool, temperature: real, maxTokens: int)

  /** What the service answered, as far as `chat` looks at it. `json` is
      `None` when `response.json()` throws. */
  datatype HttpExchange =
    | NetworkFailure
    | Http(ok: bool, statusText: string, json: Option<ResponseJson>)

  /** The fields of a reply body that `chat` reads: `error.message`,
      `choices[0].message.content` (absent when any step of that path is
      missing or the content is not a string) and `usage`. */
  datatype ResponseJson = ResponseJson(
    errorMessage: Option<string>, firstContent: Option<string>, usage: Option<Object>)

  /** `{ code: 0, data }` or `{ code: -1, msg }` */
  datatype ChatResult = Ok(data: Message) | Failed(msg: string)

  /** The result, and the request body when one was sent. */
  datatype ChatCall = ChatCall(request: Option<RequestBody>, result: ChatResult)

  predicate KeyConfigured(apiKey: Option<string>) {
    Truthy(apiKey) && apiKey.value != PLACEHOLDER_KEY
  }

  /** The object literal before the spread: falsy options fall back to the
      defaults. */
  function Defaults(messages: seq<Message>, o: ChatOptions): RequestBody {
    RequestBody(
      if o.model.Some? && o.model.value != "" then o.model.value else DEFAULT_MODEL,
      messages,
      false,
      if o.temperature.Some? && o.temperature.value != 0.0 then o.temperature.value else DEFAULT_TEMPERATURE,
      if o.maxTokens.Some? && o.maxTokens.value != 0 then o.maxTokens.value else DEFAULT_MAX_TOKENS)
  }

  /** `...options` spread over the literal: every present key overwrites. */
  function Spread(b: RequestBody, o: ChatOptions): RequestBody {
    RequestBody(
      o.model.GetOr(b.model), o.messages.GetOr(b.messages), o.stream.GetOr(b.stream),
      o.temperature.GetOr(b.temperature), o.maxTokens.GetOr(b.maxTokens))
  }

  /** The request body: because the spread comes last, any key the caller
      gives wins, even a falsy one; absent keys take the defaults. */
  function BuildRequest(messages: seq<Message>, o: ChatOptions): (r: RequestBody)
    ensures r.model == o.model.GetOr(DEFAULT_MODEL)
    ensures r.messages == o.messages.GetOr(messages)
    ensures r.stream == o.stream.GetOr(false)
    ensures r.temperature == o.temperature.GetOr(DEFAULT_TEMPERATURE)
    ensures r.maxTokens == o.maxTokens.GetOr(DEFAULT_MAX_TOKENS)
  {
    Spread(Defaults(messages, o), o)
  }

  /** The assistant message of a successful reply. */
  function Reply(content: string, usage: Option<Object>): Message {
    Bare(ASSISTANT, Trim(content)).(usage := usage)
  }

  /** `chat(messages, options)` against one HTTP exchange. */
  function Chat(apiKey: Option<string>, messages: seq<Message>, o: ChatOptions, http: HttpExchange): (c: ChatCall)
    ensures c.request.Some? <==> KeyConfigured(apiKey)
    ensures !KeyConfigured(apiKey) ==> c.result == Failed(CONFIG_ERROR)
    ensures KeyConfigured(apiKey) ==> c.request.value == BuildRequest(messages, o) && c.result == Outcome(http)
  {
    if !KeyConfigured(apiKey) then
      ChatCall(None, Failed(CONFIG_ERROR))
    else
      var body := BuildRequest(messages, o);
      ChatCall(Some(body), Outcome(http))
  }

  /** The mapping of the exchange to a result; every exception thrown inside
      the `try` (transport, unreadable JSON, missing `choices`) becomes the
      fixed network message. */
  function Outcome(http: HttpExchange): (r: ChatResult)
    ensures r.Ok? <==> http.Http? && http.ok && http.json.Some? && http.json.value.firstContent.Some?
    ensures r.Ok? ==> r.data.role == ASSISTANT && r.data.content == Trim(http.json.value.firstContent.value)
    ensures http.Http? && !http.ok && http.json.Some? ==> r.Failed? && StartsWith(r.msg, API_ERROR_PREFIX)
    ensures r.Failed? && !(http.Http? && !http.ok && http.json.Some?) ==> r.msg == NETWORK_ERROR
  {
    match http
    case NetworkFailure => Failed(NETWORK_ERROR)
    case Http(ok, statusText, json) =>
      if json.None? then Failed(NETWORK_ERROR)
      else if !ok then
        var m := API_ERROR_PREFIX + OrElse(json.value.errorMessage, statusText);
        assert m[..|API_ERROR_PREFIX|] == API_ERROR_PREFIX;
        Failed(m)
      else if json.value.firstContent.None? then Failed(NETWORK_ERROR)
      else Ok(Reply(json.value.firstContent.value, json.value.usage))
  }

  /** A missing or placeholder key fails before any request is made. */
  lemma MissingKeySendsNothing(apiKey: Option<string>, messages: seq<Message>, o: ChatOptions, http: HttpExchange)
    requires !KeyConfigured(apiKey)
    ensures Chat(apiKey, messages, o, http) == ChatCall(None, Failed(CONFIG_ERROR))
  {
  }

  /** The result of a configured call: success exactly when the service said
      ok and the reply had a first choice; a refused request carries the API
      prefix; every other failure is the network message. */
  lemma {:induction false} ChatOutcomes(apiKey: Option<string>, messages: seq<Message>, o: ChatOptions, http: HttpExchange)
    requires KeyConfigured(apiKey)
    ensures var c := Chat(apiKey, messages, o, http);
      && c.request == Some(BuildRequest(messages, o))
      && (c.result.Ok? <==> http.Http? && http.ok && http.json.Some? && http.json.value.firstContent.Some?)
      && (c.result.Ok? ==>
            c.result.data.role == ASSISTANT && c.result.data.content == Trim(http.json.value.firstContent.value)
            && c.result.data.usage == http.json.value.usage)
      && (http.Http? && !http.ok && http.json.Some? ==> c.result.Failed? && StartsWith(c.result.msg, API_ERROR_PREFIX))
      && (c.result.Failed? && !(http.Http? && !http.ok && http.json.Some?) ==> c.result.msg == NETWORK_ERROR)
  {
  }

  /** A successful reply's text has no surrounding white space. */
  lemma SuccessContentIsTrimmed(apiKey: Option<string>, messages: seq<Message>, o: ChatOptions, http: HttpExchange)
    requires Chat(apiKey, messages, o, http).result.Ok?
    ensures var t := Chat(apiKey, messages, o, http).result.data.content;
      t == [] || (!IsSpace(t[0]) && !IsSpace(t[|t| - 1]))
  {
  }

  // ---------------------------------------------------------------------
  // shoppingChat

  predicate HasSystemMessage(messages: seq<Message>) {
    exists i :: 0 <= i < |messages| && messages[i].role == SYSTEM
  }

  /** The messages sent: the shopping prompt goes first exactly when the caller
      supplied no system message; the caller's messages follow in order. */
  function WithSystemPrompt(messages: seq<Message>): (r: seq<Message>)
    ensures HasSystemMessage(messages) ==> r == messages
    ensures !HasSystemMessage(messages) ==> |r| == |messages| + 1 && r[0] == Bare(SYSTEM, SHOPPING_PROMPT)
    ensures |r| - |messages| in {0, 1} && r[|r| - |messages|..] == messages
    ensures HasSystemMessage(r)
  {
    if HasSystemMessage(messages) then messages
    else
      var r := [Bare(SYSTEM, SHOPPING_PROMPT)] + messages;
      assert r[0].role == SYSTEM;
      r
  }

  /** `{ temperature: 0.5, ...options }` */
  function ShoppingOptions(o: ChatOptions): (r: ChatOptions)
    ensures r.temperature == Some(o.temperature.GetOr(SHOPPING_TEMPERATURE))
    ensures r.model == o.model && r.messages == o.messages && r.stream == o.stream && r.maxTokens == o.maxTokens
  {
    o.(temperature := Some(o.temperature.GetOr(SHOPPING_TEMPERATURE)))
  }

  /** `shoppingChat(messages, options)` */
  function ShoppingChat(apiKey: Option<string>, messages: seq<Message>, o: ChatOptions, http: HttpExchange): (c: ChatCall)
    ensures c.request.Some? <==> KeyConfigured(apiKey)
    ensures c.request.Some? && o.messages.None? ==> HasSystemMessage(c.request.value.messages)
    ensures c.request.Some? ==> c.request.value.temperature == o.temperature.GetOr(SHOPPING_TEMPERATURE)
    ensures c.result.Ok? ==> c.result.data.role == ASSISTANT
  {
    Chat(apiKey, WithSystemPrompt(messages), ShoppingOptions(o), http)
  }

  /** The shopping request: prompt handling as above, temperature 0.5 unless
      the caller set one, and the other defaults of `chat`. */
  lemma ShoppingRequest(apiKey: Option<string>, messages: seq<Message>, o: ChatOptions, http: HttpExchange)
    requires KeyConfigured(apiKey) && o.messages.None?
    ensures var req := ShoppingChat(apiKey, messages, o, http).request;
      && req.Some?
      && req.value.messages == WithSystemPrompt(messages)
      && req.value.temperature == o.temperature.GetOr(SHOPPING_TEMPERATURE)
      && req.value.model == o.model.GetOr(DEFAULT_MODEL)
      && req.value.maxTokens == o.maxTokens.GetOr(DEFAULT_MAX_TOKENS)
  {
  }
}
