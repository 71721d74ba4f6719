/**
 * Chat-completion requests: configuration defaults, endpoint and header
 * selection in `sendLLMRequest` and `generateInstructions`, the fixed prompts,
 * and extraction of the first choice's content from a reply.
 */
module LlmRequests {

  import opened Wrappers
  import opened JsValues

  datatype LlmConfig = LlmConfig(endpointType: string, endpointUrl: string, apiKey: string, maxTokens: int)

  const OpenAiUrl := "https://api.openai.com/v1/chat/completions"
  const JsonContentType := "application/json"
  const ChatModel := "gpt-4"
  const Temperature: real := 0.7
  const DefaultMaxTokens := 1000

  /** The two fixed system prompts. */
  datatype Prompt = Analyzer | Generator

  function PromptText(p: Prompt): string {
    match p
    case Analyzer =>
      "You are a semantic analyzer. Analyze the following agent instructions for ambiguity and suggest improvements. Respond ONLY with a JSON object with exactly these keys: \"clarityScore\" (a number between 0 and 100) and \"corrections\" (an array of objects, each with \"phrase\" and \"suggestion\"). Do not include any additional text."
    case Generator =>
      "You are an AI assistant that generates clear and precise instructions for AI agents. Generate a detailed set of instructions that demonstrates good practices for agent instruction writing."
  }

  /** The settings as read with `config.get(key, default)`. */
  function LoadLlmConfig(endpointType: Option<string>, endpointUrl: Option<string>,
                         apiKey: Option<string>, maxTokens: Option<int>): (r: LlmConfig)
    ensures endpointType.None? ==> r.endpointType == "openai"
    ensures endpointUrl.None? ==> r.endpointUrl == ""
    ensures apiKey.None? ==> r.apiKey == ""
    ensures maxTokens.None? ==> r.maxTokens == DefaultMaxTokens
    ensures endpointType.Some? ==> r.endpointType == endpointType.value
    ensures endpointUrl.Some? ==> r.endpointUrl == endpointUrl.value
    ensures apiKey.Some? ==> r.apiKey == apiKey.value
    ensures maxTokens.Some? ==> r.maxTokens == maxTokens.value
  {
    LlmConfig(
      match endpointType case Some(t) => t case None => "openai",
      match endpointUrl case Some(u) => u case None => "",
      match apiKey case Some(k) => k case None => "",
      match maxTokens case Some(n) => n case None => DefaultMaxTokens)
  }

  predicate IsAzure(config: LlmConfig) {
    config.endpointType == "azure"
  }

  datatype Endpoint = Endpoint(url: string, headers: map<string, string>)

  /**
   * `sendLLMRequest`'s choice: for azure the configured URL verbatim and an
   * `api-key` header; otherwise the configured URL, or the OpenAI URL when that
   * is empty, and a bearer `Authorization` header. Both add a JSON content type.
   */
  function AnalysisEndpoint(config: LlmConfig): (r: Endpoint)
    ensures r.headers.Keys == (if IsAzure(config) then {"api-key", "Content-Type"} else {"Authorization", "Content-Type"})
    ensures r.headers["Content-Type"] == JsonContentType
    ensures IsAzure(config) ==> r.url == config.endpointUrl && r.headers["api-key"] == config.apiKey
    ensures !IsAzure(config) ==> r.headers["Authorization"] == "Bearer " + config.apiKey
    ensures !IsAzure(config) && config.endpointUrl != "" ==> r.url == config.endpointUrl
    ensures !IsAzure(config) && config.endpointUrl == "" ==> r.url == OpenAiUrl
  {
    var headers: map<string, string> := map[];
    if IsAzure(config) then
      var headers := headers["api-key" := config.apiKey];
      Endpoint(config.endpointUrl, headers["Content-Type" := JsonContentType])
    else
      var headers := headers["Authorization" := "Bearer " + config.apiKey];
      Endpoint(if config.endpointUrl != "" then config.endpointUrl else OpenAiUrl,
               headers["Content-Type" := JsonContentType])
  }

  /** `generateInstructions`'s choice: like the analysis one, except that a non-azure URL is always OpenAI's. */
  function GenerationEndpoint(config: LlmConfig): (r: Endpoint)
    ensures !IsAzure(config) ==> r.url == OpenAiUrl
    ensures IsAzure(config) ==> r.url == config.endpointUrl
  {
    var auth := if IsAzure(config) then map["api-key" := config.apiKey]
                else map["Authorization" := "Bearer " + config.apiKey];
    Endpoint(if IsAzure(config) then config.endpointUrl else OpenAiUrl,
             map["Content-Type" := JsonContentType] + auth)
  }

  /**
   * The two endpoint choices send the same headers, and the same URL except when
   * a non-azure configuration names its own URL: generation then ignores it.
   */
  lemma EndpointsAgree(config: LlmConfig)
    ensures GenerationEndpoint(config).headers == AnalysisEndpoint(config).headers
    ensures GenerationEndpoint(config).url == AnalysisEndpoint(config).url
        <==> IsAzure(config) || config.endpointUrl == "" || config.endpointUrl == OpenAiUrl
  {
    var g, a := GenerationEndpoint(config).headers, AnalysisEndpoint(config).headers;
    assert g.Keys == a.Keys;
    forall k | k in g ensures g[k] == a[k] { }
  }

  /**
   * A chat message: the system message carries one of the fixed prompts; the
   * analysis request's user message is the document text, the generation
   * request's wraps the agent description in fixed sentences.
   */
  datatype Message = System(prompt: Prompt) | User(content: string) | DescribeAgent(description: string)

  /** The `content` string sent for a message. */
  function Content(m: Message): string {
    match m
    case System(p) => PromptText(p)
    case User(text) => text
    case DescribeAgent(d) =>
      "Generate a comprehensive set of instructions for an AI agent with the following description:\n\n"
      + d
      + "\n\nProvide clear, specific, and unambiguous instructions that will guide this agent in performing its tasks effectively."
  }

  /** A role for every message, as the payload's `role` field. */
  function Role(m: Message): string {
    if m.System? then "system" else "user"
  }

  datatype ChatRequest = ChatRequest(
    url: string, headers: map<string, string>,
    model: string, messages: seq<Message>, temperature: real, maxTokens: int)

  /** The analysis request: the analyzer prompt, then the document text verbatim as the user message. */
  function AnalysisRequest(text: string, config: LlmConfig): (r: ChatRequest)
    ensures r.url == AnalysisEndpoint(config).url && r.headers == AnalysisEndpoint(config).headers
    ensures r.messages == [System(Analyzer), User(text)]
    ensures r.model == ChatModel && r.temperature == Temperature && r.maxTokens == config.maxTokens
  {
    var e := AnalysisEndpoint(config);
    ChatRequest(e.url, e.headers, ChatModel,
                [System(Analyzer), User(text)], Temperature, config.maxTokens)
  }

  /** The generation request: the generator prompt and the description wrapped in a fixed user message. */
  function GenerationRequest(config: LlmConfig, description: string): (r: ChatRequest)
    ensures r.url == GenerationEndpoint(config).url && r.headers == GenerationEndpoint(config).headers
    ensures r.messages == [System(Generator), DescribeAgent(description)]
    ensures r.model == ChatModel && r.temperature == Temperature && r.maxTokens == config.maxTokens
  {
    var e := GenerationEndpoint(config);
    ChatRequest(e.url, e.headers, ChatModel,
                [System(Generator), DescribeAgent(description)],
                Temperature, config.maxTokens)
  }

  /** A reply body `{choices: [{message: {content}}]}` holding `content` as its first choice. */
  function ReplyWith(content: JsValue): JsValue {
    Obj(map["choices" := Arr([Obj(map["message" := Obj(map["content" := content])])])])
  }

  /** `data?.choices?.[0]?.message?.content`: the first choice's content, `undefined` where a link is missing. */
  function FirstChoiceContent(data: JsValue): JsValue {
    OptGet(OptGet(OptElem(OptGet(data, "choices"), 0), "message"), "content")
  }

  /**
   * The analyze command's lenient read, `data.choices?.[0]?.message?.content ?? ''`:
   * it throws only when the body itself is nullish; a missing choice, message or
   * content reads as the empty string, and a present content is returned as it is.
   */
  function AnalysisContent(data: JsValue): (r: Result<JsValue, Fault>)
    ensures r.Failure? <==> Nullish(data)
    ensures r.Failure? ==> r.error == ReadError(data, "choices")
    ensures !Nullish(data) && Nullish(FirstChoiceContent(data)) ==> r == Success(Str(""))
    ensures !Nullish(FirstChoiceContent(data)) ==> r == Success(FirstChoiceContent(data))
  {
    match Get(data, "choices")
    case Failure(e) => Failure(e)
    case Success(choices) =>
      Success(Coalesce(OptGet(OptGet(OptElem(choices, 0), "message"), "content"), Str("")))
  }

  /**
   * The generate command's strict read, `data.choices[0].message.content`: each
   * nullish link throws when the next one is read from it; with every link
   * present the content is returned as it is, even when it is nullish.
   */
  function GeneratedContent(data: JsValue): (r: Result<JsValue, Fault>)
    ensures var choices := OptGet(data, "choices");
      var first := OptElem(choices, 0);
      var message := OptGet(first, "message");
      && (Nullish(data) ==> r == Failure(ReadError(data, "choices")))
      && (!Nullish(data) && Nullish(choices) ==> r == Failure(ReadError(choices, "0")))
      && (!Nullish(data) && !Nullish(choices) && Nullish(first) ==> r == Failure(ReadError(first, "message")))
      && (!Nullish(data) && !Nullish(choices) && !Nullish(first) && Nullish(message) ==>
            r == Failure(ReadError(message, "content")))
      && (r.Success? <==> !Nullish(data) && !Nullish(choices) && !Nullish(first) && !Nullish(message))
    ensures r.Success? ==> r.value == FirstChoiceContent(data)
  {
    match Get(data, "choices")
    case Failure(e) => Failure(e)
    case Success(choices) =>
      match Elem(choices, 0)
      case Failure(e) => Failure(e)
      case Success(first) =>
        match Get(first, "message")
        case Failure(e) => Failure(e)
        case Success(message) => Get(message, "content")
  }

  /** Wherever the strict read succeeds, the lenient read gives the same content, `''` in place of a nullish one. */
  lemma StrictReadAgreesWithLenient(data: JsValue)
    requires GeneratedContent(data).Success?
    ensures AnalysisContent(data) == Success(Coalesce(GeneratedContent(data).value, Str("")))
  {
  }

  /** Only the first of several choices is read. */
  lemma FirstOfSeveralChoices(content: JsValue, others: seq<JsValue>)
    requires !Nullish(content)
    ensures var choice := Obj(map["message" := Obj(map["content" := content])]);
      var data := Obj(map["choices" := Arr([choice] + others)]);
      AnalysisContent(data) == Success(content) && GeneratedContent(data) == Success(content)
  {
    var choice := Obj(map["message" := Obj(map["content" := content])]);
    var data := Obj(map["choices" := Arr([choice] + others)]);
    assert OptElem(OptGet(data, "choices"), 0) == choice;
  }

  /** On a well-formed reply both reads give its content. */
  lemma ContentOfWellFormedReply(content: JsValue)
    requires !Nullish(content)
    ensures AnalysisContent(ReplyWith(content)) == Success(content)
    ensures GeneratedContent(ReplyWith(content)) == Success(content)
  {
    var data := ReplyWith(content);
    var choice := Obj(map["message" := Obj(map["content" := content])]);
    assert OptGet(data, "choices") == Arr([choice]);
    assert OptElem(Arr([choice]), 0) == choice;
  }
}
