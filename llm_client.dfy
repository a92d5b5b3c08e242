/**
 * LLMClient: sends a raw transcription to an OpenAI-compatible chat
 * completions endpoint and falls back to the raw text on every failure.
 *
 * URL parsing, JSON serialisation and the HTTP exchange are collaborators
 * given as a Network value; the client's own logic is the request it builds
 * and the way it treats each possible response.
 */
module Llm {
  import opened Wrappers
  import Text
  import Settings
  import Prompt

  const ChatCompletionsPath: string := "/v1/chat/completions"

  predicate IsSlash(c: char) {
    c == '/'
  }

  /**
   * The request URL: the endpoint with every leading and trailing '/'
   * removed, followed by the chat-completions path.
   */
  function RequestUrl(endpoint: string): (url: string)
    ensures |url| >= |ChatCompletionsPath| && url[|url| - |ChatCompletionsPath|..] == ChatCompletionsPath
    ensures var base := url[..|url| - |ChatCompletionsPath|];
      && Text.IsTrimmed(base, IsSlash)
      && base == Text.Trim(endpoint, IsSlash)
  {
    var base := Text.Trim(endpoint, IsSlash);
    assert (base + ChatCompletionsPath)[..|base|] == base;
    base + ChatCompletionsPath
  }

  /** The default endpoint, with or without a trailing slash, gives the same URL. */
  lemma DefaultRequestUrl()
    ensures RequestUrl(Settings.DefaultLlmEndpoint) == Settings.DefaultLlmEndpoint + ChatCompletionsPath
    ensures RequestUrl(Settings.DefaultLlmEndpoint + "/") == Settings.DefaultLlmEndpoint + ChatCompletionsPath
  {
    var e := Settings.DefaultLlmEndpoint;
    assert e[0] == 'h' && e[|e| - 1] == 'm';
    Text.TrimKeepsInner([], e, [], IsSlash);
    assert [] + e + [] == e;
    Text.TrimKeepsInner([], e, "/", IsSlash);
    assert [] + e + "/" == e + "/";
  }

  /** max_tokens: three tokens per character, but never fewer than 200. */
  function MaxTokens(rawText: string): (budget: int)
    ensures budget >= 200 && budget >= 3 * |rawText|
    ensures budget == 200 || budget == 3 * |rawText|
  {
    if |rawText| * 3 > 200 then |rawText| * 3 else 200
  }

  datatype Message = Message(role: string, content: string)

  /** The JSON body of the request. */
  datatype ChatBody = ChatBody(model: string, messages: seq<Message>, temperature: real, maxTokens: int)

  /** The fields of the URLRequest the client sets. */
  datatype Request = Request(url: string, httpMethod: string, headers: map<string, string>,
                             timeoutInterval: real, httpBody: Option<ChatBody>)

  /** A JSON value as JSONSerialization parses it. */
  datatype Json =
    | JObject(fields: map<string, Json>)
    | JArray(items: seq<Json>)
    | JString(text: string)
    | JNumber(number: real)
    | JBool(flag: bool)
    | JNull

  /** What the HTTP exchange produced; `body` is None when the data is not JSON. */
  datatype Response =
    | TransportError(reason: string)
    | NonHttpResponse
    | HttpResponse(statusCode: int, body: Option<Json>)

  /** The collaborators: URL parsing, body serialisation, and the exchange itself. */
  datatype Network = Network(urlParses: string -> bool, serializes: ChatBody -> bool, send: Request -> Response)

  /** The body for a transcription: two messages, system first, from the correction prompt. */
  function ChatBodyFor(settings: Settings.Defaults, rawText: string): (body: ChatBody)
    ensures |body.messages| == 2
    ensures body.messages[0] == Message("system", Prompt.SystemPrompt)
    ensures body.messages[1] == Message("user", rawText)
    ensures body.model == Settings.LlmModel(settings)
    ensures body.temperature == 0.3 && body.maxTokens == MaxTokens(rawText)
  {
    var prompt := Prompt.Build(rawTranscription := rawText);
    ChatBody(Settings.LlmModel(settings),
             [Message("system", prompt.system), Message("user", prompt.user)],
             0.3, MaxTokens(rawText))
  }

  /** The request the client sends: a POST with JSON and bearer headers and a 10 s timeout. */
  function ChatRequest(url: string, settings: Settings.Defaults, rawText: string): (request: Request)
    ensures request.url == url && request.httpMethod == "POST" && request.timeoutInterval == 10.0
    ensures request.headers.Keys == {"Content-Type", "Authorization"}
    ensures request.headers["Content-Type"] == "application/json"
    ensures request.headers["Authorization"] == "Bearer " + Settings.LlmApiKey(settings)
    ensures request.httpBody == Some(ChatBodyFor(settings, rawText))
  {
    Request(url, "POST",
            map["Content-Type" := "application/json", "Authorization" := "Bearer " + Settings.LlmApiKey(settings)],
            10.0, Some(ChatBodyFor(settings, rawText)))
  }

  /**
   * A chat completion answer the client can read: an object whose "choices"
   * is a non-empty array of objects only, whose first choice has a "message"
   * object holding a "content" string. Other fields may be present anywhere.
   */
  predicate IsChatAnswer(json: Json) {
    && json.JObject? && "choices" in json.fields
    && var choices := json.fields["choices"];
    && choices.JArray? && |choices.items| > 0
    && (forall i :: 0 <= i < |choices.items| ==> choices.items[i].JObject?)
    && "message" in choices.items[0].fields
    && var message := choices.items[0].fields["message"];
    && message.JObject? && "content" in message.fields && message.fields["content"].JString?
  }

  /** The first choice's message content of an answer. */
  function AnswerContent(json: Json): string
    requires IsChatAnswer(json)
  {
    json.fields["choices"].items[0].fields["message"].fields["content"].text
  }

  /**
   * `json["choices"] as? [[String: Any]]`, then the first choice's
   * "message" object, then its "content" string.
   */
  function ExtractContent(json: Json): (content: Option<string>)
    ensures content.Some? <==> IsChatAnswer(json)
    ensures content.Some? ==> content.value == AnswerContent(json)
  {
    if !json.JObject? || "choices" !in json.fields then None
    else
      var choices := json.fields["choices"];
      if !choices.JArray? || exists i :: 0 <= i < |choices.items| && !choices.items[i].JObject? then None
      else if |choices.items| == 0 then None
      else
        var first := choices.items[0].fields;
        if "message" !in first || !first["message"].JObject? then None
        else
          var message := first["message"].fields;
          if "content" !in message || !message["content"].JString? then None
          else Some(message["content"].text)
  }

  /** The smallest well-formed chat completion answer carrying `content`. */
  function ChatAnswer(content: string): Json {
    JObject(map["choices" := JArray([JObject(map["message" := JObject(map["content" := JString(content)])])])])
  }

  /**
   * A real answer carries more than the content: "id" and "model" at the top,
   * "index" and "finish_reason" in each choice, "role" in the message, and
   * possibly further choices. The first choice's content is what is read.
   */
  lemma ExtractAnswerWithOtherFields(top: map<string, Json>, choice: map<string, Json>,
                                     message: map<string, Json>, others: seq<Json>, content: string)
    requires forall i :: 0 <= i < |others| ==> others[i].JObject?
    ensures var answer := JObject(top["choices" := JArray([JObject(choice["message" := JObject(message["content" := JString(content)])])] + others)]);
      ExtractContent(answer) == Some(content)
  {
    var items := [JObject(choice["message" := JObject(message["content" := JString(content)])])] + others;
    assert forall i :: 0 <= i < |items| ==> items[i].JObject? by {
      forall i | 0 <= i < |items| ensures items[i].JObject? {
        if i > 0 { assert items[i] == others[i - 1]; }
      }
    }
  }

  /** A "choices" array with any element that is not an object does not parse, whatever the first choice says. */
  lemma ChoicesMustAllBeObjects(content: string, other: Json)
    requires !other.JObject?
    ensures ExtractContent(JObject(map["choices" := JArray(ChatAnswer(content).fields["choices"].items + [other])])) == None
  {
    var items := ChatAnswer(content).fields["choices"].items + [other];
    assert !items[1].JObject?;
  }

  /**
   * The client's treatment of the response: every failure yields the raw
   * text, and so does content that is empty once trimmed.
   */
  function HandleResponse(rawText: string, response: Response): (text: string)
    ensures text == rawText || (text != "" && Text.IsTrimmed(text, Text.IsWhitespaceOrNewline))
    ensures !(response.HttpResponse? && response.statusCode == 200 && response.body.Some?) ==> text == rawText
    ensures response.HttpResponse? && response.body.Some? && ExtractContent(response.body.value).None? ==> text == rawText
    ensures response.HttpResponse? && response.statusCode == 200 && response.body.Some? && IsChatAnswer(response.body.value) ==>
      var trimmed := Text.Trim(AnswerContent(response.body.value), Text.IsWhitespaceOrNewline);
      text == (if trimmed == [] then rawText else trimmed)
  {
    match response
    case TransportError(_) => rawText
    case NonHttpResponse => rawText
    case HttpResponse(status, body) =>
      if status != 200 then rawText
      else if body.None? then rawText
      else
        match ExtractContent(body.value)
        case None => rawText
        case Some(content) =>
          var corrected := Text.Trim(content, Text.IsWhitespaceOrNewline);
          if corrected == "" then rawText else corrected
  }

  /**
   * A 200 answer whose content reads as `content`: its trimmed form when some
   * character is not whitespace, the raw text when all of it is.
   */
  lemma AnswerIsTrimmedContent(rawText: string, answer: Json, content: string)
    requires ExtractContent(answer) == Some(content)
    ensures var text := HandleResponse(rawText, HttpResponse(200, Some(answer)));
      && (text == rawText <== forall i :: 0 <= i < |content| ==> Text.IsWhitespaceOrNewline(content[i]))
      && (text == Text.Trim(content, Text.IsWhitespaceOrNewline) <== exists i :: 0 <= i < |content| && !Text.IsWhitespaceOrNewline(content[i]))
  {
  }

  /**
   * What correctTranscription answers: the raw text when the URL does not
   * parse or the body does not serialise, otherwise the handled response to
   * the request built from the settings.
   */
  function Correction(settings: Settings.Defaults, rawText: string, network: Network): (corrected: string)
    ensures corrected == rawText || (corrected != "" && Text.IsTrimmed(corrected, Text.IsWhitespaceOrNewline))
    ensures var url := RequestUrl(Settings.LlmEndpoint(settings));
      && (!network.urlParses(url) ==> corrected == rawText)
      && (network.urlParses(url) && !network.serializes(ChatBodyFor(settings, rawText)) ==> corrected == rawText)
      && (network.urlParses(url) && network.serializes(ChatBodyFor(settings, rawText)) ==>
            corrected == HandleResponse(rawText, network.send(ChatRequest(url, settings, rawText))))
  {
    var url := RequestUrl(Settings.LlmEndpoint(settings));
    if !network.urlParses(url) || !network.serializes(ChatBodyFor(settings, rawText)) then rawText
    else HandleResponse(rawText, network.send(ChatRequest(url, settings, rawText)))
  }

  /**
   * correctTranscription: builds the request field by field, sends it, and
   * returns the corrected text or, on any failure, the raw text.
   */
  method CorrectTranscription(settings: Settings.Defaults, rawText: string, network: Network) returns (corrected: string)
    ensures corrected == Correction(settings, rawText, network)
  {
    var url := RequestUrl(Settings.LlmEndpoint(settings));
    if !network.urlParses(url) {
      return rawText;
    }
    var request := Request(url, "GET", map[], 60.0, None);
    request := request.(httpMethod := "POST");
    request := request.(headers := request.headers["Content-Type" := "application/json"]);
    request := request.(headers := request.headers["Authorization" := "Bearer " + Settings.LlmApiKey(settings)]);
    request := request.(timeoutInterval := 10.0);

    var prompt := Prompt.Build(rawText);
    var body := ChatBody(Settings.LlmModel(settings),
                         [Message("system", prompt.system), Message("user", prompt.user)],
                         0.3, MaxTokens(rawText));
    if !network.serializes(body) {
      return rawText;
    }
    request := request.(httpBody := Some(body));
    corrected := HandleResponse(rawText, network.send(request));
  }
}
