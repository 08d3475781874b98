/**
 * The three chat routes of the server, `POST /api/chat`, `POST /api/deepseek`
 * and `POST /api/parse-pdf`: which endpoint and key each one uses, whether it
 * goes through the proxy agent, the JSON payload it sends, and how it turns the
 * provider's answer into its own reply.
 *
 * Environment values, the extracted PDF text and the provider's answer are
 * parameters; the HTTP call itself is not modelled.
 */
module Dispatch {
  import opened Wrappers
  import opened Messages

  /** The environment values read at start-up; an unset variable is `None` (JavaScript's `undefined`). */
  datatype Config = Config(
    openAiApiKey: Option<string>,
    openAiApiUrl: Option<string>,
    chatGptProxy: Option<string>,
    deepSeekApiUrl: Option<string>,
    deepSeekApiKey: Option<string>)

  datatype Agent = HttpsProxyAgent(proxyUrl: string)

  /** JavaScript truthiness of a string-or-undefined value. */
  predicate Truthy(v: Option<string>) {
    v.Some? && v.value != ""
  }

  /** Template-literal interpolation `${v}` of a string-or-undefined value. */
  function Interpolate(v: Option<string>): (s: string)
    ensures v.Some? ==> s == v.value
    ensures v.None? ==> s == "undefined"
  {
    v.GetOr("undefined")
  }

  /** `chatAgent`: a proxy agent exactly when CHATGPT_PROXY is a non-empty string. */
  function ChatAgent(cfg: Config): (a: Option<Agent>)
    ensures a.Some? <==> Truthy(cfg.chatGptProxy)
    ensures a.Some? ==> a.value.proxyUrl == cfg.chatGptProxy.value
  {
    if Truthy(cfg.chatGptProxy) then Some(HttpsProxyAgent(cfg.chatGptProxy.value)) else None
  }

  datatype Headers = Headers(authorization: string, contentType: string)

  datatype Payload = Payload(model: string, messages: seq<Message>, stream: bool)

  /** What `axios.post(url, payload, { headers, httpsAgent })` is called with. */
  datatype Request = Request(url: Option<string>, payload: Payload, headers: Headers, httpsAgent: Option<Agent>)

  const JsonContentType: string := "application/json"
  const DefaultOpenAiModel: string := "gpt-4o"
  const DeepSeekModel: string := "deepseek-chat"
  const DeepSeekSelector: string := "deepseek"

  const ChatPersona: string := "You are a helpful assistant."
  const DeepSeekPersona: string := "You are DeepSeek, a focused QA assistant."
  const PdfPersona: string := "You are a PDF analysis assistant."
  const DeepSeekPdfPersona: string := "You are DeepSeek, a PDF analysis assistant."

  // ---------------------------------------------------------------------------
  // The provider registry: one endpoint, key and agent per provider
  // ---------------------------------------------------------------------------

  datatype Provider = OpenAi | DeepSeek

  datatype Endpoint = Endpoint(url: Option<string>, apiKey: Option<string>, agent: Option<Agent>)

  /** The OpenAI endpoint goes with the OpenAI key and the proxy agent; DeepSeek's never uses the agent. */
  function Registry(cfg: Config, p: Provider): (e: Endpoint)
    ensures p == OpenAi ==> e == Endpoint(cfg.openAiApiUrl, cfg.openAiApiKey, ChatAgent(cfg))
    ensures p == DeepSeek ==> e == Endpoint(cfg.deepSeekApiUrl, cfg.deepSeekApiKey, None)
  {
    match p
    case OpenAi => Endpoint(cfg.openAiApiUrl, cfg.openAiApiKey, ChatAgent(cfg))
    case DeepSeek => Endpoint(cfg.deepSeekApiUrl, cfg.deepSeekApiKey, None)
  }

  /** The headers every route sends: the bearer token of the endpoint's key and a JSON content type. */
  function AuthHeaders(e: Endpoint): (h: Headers)
    ensures h.authorization == "Bearer " + Interpolate(e.apiKey)
    ensures h.contentType == JsonContentType
  {
    Headers("Bearer " + Interpolate(e.apiKey), JsonContentType)
  }

  // ---------------------------------------------------------------------------
  // The three routes' request literals
  // ---------------------------------------------------------------------------

  /** `POST /api/chat` with body `{ message, model }`. */
  function ChatRouteRequest(cfg: Config, message: string, model: Option<string>): (r: Request)
    ensures var e := Registry(cfg, OpenAi);
      r.url == e.url && r.headers == AuthHeaders(e) && r.httpsAgent == e.agent
    ensures r.payload.model == (if Truthy(model) then model.value else DefaultOpenAiModel)
    ensures r.payload.messages == [Message(System, ChatPersona), Message(User, message)]
    ensures !r.payload.stream
  {
    Request(
      cfg.openAiApiUrl,
      Payload(
        if Truthy(model) then model.value else DefaultOpenAiModel,
        [Message(System, ChatPersona), Message(User, message)],
        false),
      Headers("Bearer " + Interpolate(cfg.openAiApiKey), JsonContentType),
      ChatAgent(cfg))
  }

  /** `POST /api/deepseek` with body `{ message }`. */
  function DeepSeekRouteRequest(cfg: Config, message: string): (r: Request)
    ensures var e := Registry(cfg, DeepSeek);
      r.url == e.url && r.headers == AuthHeaders(e) && r.httpsAgent == None
    ensures r.payload.model == DeepSeekModel
    ensures r.payload.messages == [Message(System, DeepSeekPersona), Message(User, message)]
    ensures !r.payload.stream
  {
    Request(
      cfg.deepSeekApiUrl,
      Payload(DeepSeekModel, [Message(System, DeepSeekPersona), Message(User, message)], false),
      Headers("Bearer " + Interpolate(cfg.deepSeekApiKey), JsonContentType),
      None)
  }

  /** The user turn of the PDF route: the document text, then the question. */
  function PdfPrompt(text: string, question: Option<string>): (p: string)
    ensures |p| == |text| + |Interpolate(question)| + 12
    ensures p[..6] == "文档内容：\n" && p[6..6 + |text|] == text
    ensures p[6 + |text|..|p| - |Interpolate(question)|] == "\n\n请回答："
    ensures p[|p| - |Interpolate(question)|..] == Interpolate(question)
  {
    "文档内容：\n" + text + "\n\n请回答：" + Interpolate(question)
  }

  /** `POST /api/parse-pdf` with body `{ filename, question, model }`, once the PDF's text is known. */
  function PdfRouteRequest(cfg: Config, question: Option<string>, model: Option<string>, text: string): (r: Request)
    ensures |r.payload.messages| == 2
    ensures var p := if model == Some(DeepSeekSelector) then DeepSeek else OpenAi;
      var e := Registry(cfg, p);
      && r.url == e.url && r.headers == AuthHeaders(e) && r.httpsAgent == e.agent
      && r.payload.model == (if p == DeepSeek then DeepSeekModel else DefaultOpenAiModel)
      && r.payload.messages[0] == Message(System, if p == DeepSeek then DeepSeekPdfPersona else PdfPersona)
    ensures r.payload.messages[1] == Message(User, PdfPrompt(text, question))
    ensures !r.payload.stream
  {
    var deepseek := model == Some(DeepSeekSelector);
    var messages := [
      Message(System, if deepseek then DeepSeekPdfPersona else PdfPersona),
      Message(User, PdfPrompt(text, question))
    ];
    var apiUrl := if deepseek then cfg.deepSeekApiUrl else cfg.openAiApiUrl;
    var apiKey := if deepseek then cfg.deepSeekApiKey else cfg.openAiApiKey;
    var agent := if deepseek then None else ChatAgent(cfg);
    Request(
      apiUrl,
      Payload(if deepseek then DeepSeekModel else DefaultOpenAiModel, messages, false),
      Headers("Bearer " + Interpolate(apiKey), JsonContentType),
      agent)
  }

  // ---------------------------------------------------------------------------
  // One dispatcher over the three routes
  // ---------------------------------------------------------------------------

  /** A route together with the fields of its JSON body. */
  datatype RouteCall =
    | ChatCall(message: string, model: Option<string>)
    | DeepSeekCall(message: string)
    | PdfCall(filename: string, question: Option<string>, model: Option<string>)

  /** The provider a call reaches: DeepSeek for `/api/deepseek` and for a PDF question with model `'deepseek'`. */
  function ProviderOf(call: RouteCall): (p: Provider)
    ensures p == DeepSeek <==> call.DeepSeekCall? || (call.PdfCall? && call.model == Some(DeepSeekSelector))
  {
    match call
    case ChatCall(_, _) => OpenAi
    case DeepSeekCall(_) => DeepSeek
    case PdfCall(_, _, model) => if model == Some(DeepSeekSelector) then DeepSeek else OpenAi
  }

  /**
   * The request a call sends, `text` being the extracted PDF text for
   * `/api/parse-pdf` (ignored by the other routes). Whatever the route, the
   * endpoint, the key in the bearer token and the agent come from one
   * provider's registry entry, and the payload is a system turn followed by a
   * user turn with streaming off.
   */
  function BuildRequest(cfg: Config, call: RouteCall, text: string): (r: Request)
    ensures var e := Registry(cfg, ProviderOf(call));
      r.url == e.url && r.headers == AuthHeaders(e) && r.httpsAgent == e.agent
    ensures r.payload.stream == false
    ensures |r.payload.messages| == 2
    ensures r.payload.messages[0].role == System && r.payload.messages[1].role == User
    // model names
    ensures call.ChatCall? ==>
      r.payload.model == (if Truthy(call.model) then call.model.value else DefaultOpenAiModel)
    ensures ProviderOf(call) == DeepSeek ==> r.payload.model == DeepSeekModel && r.httpsAgent == None
    ensures call.PdfCall? && ProviderOf(call) == OpenAi ==> r.payload.model == DefaultOpenAiModel
    // messages
    ensures !call.PdfCall? ==> r.payload.messages[1].content == call.message
    ensures call.ChatCall? ==> r.payload.messages[0].content == ChatPersona
    ensures call.DeepSeekCall? ==> r.payload.messages[0].content == DeepSeekPersona
    ensures call.PdfCall? ==> r.payload.messages[1].content == PdfPrompt(text, call.question)
    ensures call.PdfCall? ==>
      r.payload.messages[0].content == (if ProviderOf(call) == DeepSeek then DeepSeekPdfPersona else PdfPersona)
  {
    match call
    case ChatCall(message, model) => ChatRouteRequest(cfg, message, model)
    case DeepSeekCall(message) => DeepSeekRouteRequest(cfg, message)
    case PdfCall(_, question, model) => PdfRouteRequest(cfg, question, model, text)
  }

  /**
   * In the PDF route every selector other than `'deepseek'` (including a
   * missing one and any other model name) sends the same OpenAI request.
   */
  lemma PdfSelectorOnlyDeepSeekMatters(cfg: Config, filename: string, question: Option<string>,
                                       m1: Option<string>, m2: Option<string>, text: string)
    requires m1 != Some(DeepSeekSelector) && m2 != Some(DeepSeekSelector)
    ensures BuildRequest(cfg, PdfCall(filename, question, m1), text)
         == BuildRequest(cfg, PdfCall(filename, question, m2), text)
    ensures ProviderOf(PdfCall(filename, question, m1)) == OpenAi
  {
  }

  // ---------------------------------------------------------------------------
  // Replies
  // ---------------------------------------------------------------------------

  datatype Choice = Choice(content: string)

  /** What the provider call produced: a thrown error, or a response body with its `choices`. */
  datatype Upstream = Failed | Answered(choices: seq<Choice>)

  datatype Reply = Result(text: string) | ServerError(status: nat, error: string)

  const ChatFailedMessage: string := "调用 OpenAI /api/chat 失败"
  const DeepSeekFailedMessage: string := "调用 DeepSeek API 失败"
  const PdfFailedMessage: string := "PDF 解析或 AI 调用失败"

  /** The fixed message each route returns with status 500; it tells the three routes apart. */
  function ErrorMessage(call: RouteCall): (m: string)
    ensures m == ChatFailedMessage <==> call.ChatCall?
    ensures m == DeepSeekFailedMessage <==> call.DeepSeekCall?
    ensures m == PdfFailedMessage <==> call.PdfCall?
  {
    match call
    case ChatCall(_, _) => ChatFailedMessage
    case DeepSeekCall(_) => DeepSeekFailedMessage
    case PdfCall(_, _, _) => PdfFailedMessage
  }

  /** `{ result: choices[0].message.content }`; a failed call or a missing first choice gives 500. */
  function Respond(call: RouteCall, upstream: Upstream): (r: Reply)
    ensures r.Result? <==> upstream.Answered? && |upstream.choices| > 0
    ensures r.Result? ==> r.text == upstream.choices[0].content
    ensures r.ServerError? ==> r.status == 500 && r.error == ErrorMessage(call)
  {
    if upstream.Answered? && |upstream.choices| > 0 then Result(upstream.choices[0].content)
    else ServerError(500, ErrorMessage(call))
  }

  /** The request a route sent, if any, and the reply it gave. */
  datatype Exchange = Exchange(sent: Option<Request>, reply: Reply)

  /**
   * A whole route handler. `extracted` is the text pdf-parse produced from the
   * file the PDF route read (`None` when reading or parsing threw); the other
   * routes do not look at it.
   */
  function HandleCall(cfg: Config, call: RouteCall, extracted: Option<string>, upstream: Upstream): (x: Exchange)
    ensures x.sent.None? <==> call.PdfCall? && extracted.None?
    ensures x.sent.Some? ==> x.sent.value == BuildRequest(cfg, call, extracted.GetOr(""))
    ensures x.sent.Some? ==> x.reply == Respond(call, upstream)
    ensures x.sent.None? ==> x.reply == ServerError(500, ErrorMessage(call))
  {
    if call.PdfCall? && extracted.None? then Exchange(None, ServerError(500, ErrorMessage(call)))
    else Exchange(Some(BuildRequest(cfg, call, extracted.GetOr(""))), Respond(call, upstream))
  }
}
