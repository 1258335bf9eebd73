/**
 * The backend `POST /ai/query` handler: validates the request body, issues
 * one chat-completion request to the upstream model provider, and answers
 * with an `{insight}` or `{error}` envelope.
 *
 * The handler is modelled as a pure function from the request body, the
 * configured API key and the upstream outcome to the HTTP response, the
 * upstream requests issued and the lines written to the error log.
 */
module QueryGateway {
  import opened JsValues

  const UpstreamUrl := "https://openrouter.ai/api/v1/chat/completions"
  const ModelId := "mistralai/mistral-7b-instruct:free"
  const SystemPrompt := "You are a business intelligence analyst. Provide concise actionable insights based on business data queries."
  const MaxTokens := 150
  const Temperature: real := 0.7
  const ContentType := "application/json"
  const Referer := "http://localhost:3000"
  const AppTitle := "My Business Insights App"

  const QueryRequired := "Query text is required."
  const NoResponse := "No response received"
  const ProcessingFailed := "Failed to process query"
  const LogLabel := "Mistral API error:"

  datatype ChatMessage = ChatMessage(role: string, content: JsValue)

  /** The one upstream chat-completion request: URL, JSON body and headers. */
  datatype ChatRequest = ChatRequest(
    url: string,
    model: string,
    messages: seq<ChatMessage>,
    maxTokens: int,
    temperature: real,
    authorization: string,
    contentType: string,
    referer: string,
    title: string)

  /** An HTTP error reply from the provider (axios rejects every non-2xx status). */
  datatype HttpFailure = HttpFailure(status: int, data: JsValue)

  datatype Message = Message(content: JsValue)

  /** What the upstream call produces.
      `Throws`: the call rejects (transport error: no `response`; non-2xx: the status and body).
      `NoChoicesField`: a reply whose body has no `choices` array.
      `Choices`: the reply's choices; `None` is a choice without a `message`. */
  datatype Upstream =
    | Throws(failure: Option<HttpFailure>)
    | NoChoicesField
    | Choices(choices: seq<Option<Message>>)

  /** The JSON body of the reply: exactly one of `insight` or `error`. */
  datatype Envelope = Insight(insight: string) | Error(error: string)

  datatype Response = Response(status: int, body: Envelope)

  /** One `console.error` line: the label, `error.response?.status` and `error.response?.data`. */
  datatype LogEntry = LogEntry(prefix: string, status: Option<int>, data: Option<JsValue>)

  datatype Outcome = Outcome(response: Response, calls: seq<ChatRequest>, log: seq<LogEntry>)

  /** What the provider's reply yields: the insight text, or the exception thrown. */
  datatype Extraction = Extracted(text: string) | Thrown(failure: Option<HttpFailure>)

  /** `String(process.env.OPENROUTER_API_KEY)`: an unset variable reads as `"undefined"`. */
  function KeyText(apiKey: Option<string>): (k: string)
  {
    match apiKey
    case Some(key) => key
    case None => "undefined"
  }

  /** `const {query} = req.body`: `None` when destructuring throws. */
  function QueryOf(body: JsValue): (query: Option<JsValue>) {
    Member(body, "query")
  }

  /** The request passes the `if (!query)` check. */
  predicate Validated(body: JsValue) {
    QueryOf(body).Some? && Truthy(QueryOf(body).value)
  }

  function BuildRequest(query: JsValue, apiKey: Option<string>): (request: ChatRequest) {
    ChatRequest(
      UpstreamUrl,
      ModelId,
      [ChatMessage("system", Str(SystemPrompt)), ChatMessage("user", query)],
      MaxTokens,
      Temperature,
      "Bearer " + Trim(KeyText(apiKey)),
      ContentType,
      Referer,
      AppTitle)
  }

  lemma NoResponseIsTrimmed()
    ensures Trim(NoResponse) == NoResponse
  {
    TrimPadded([], NoResponse, []);
    assert [] + NoResponse + [] == NoResponse;
  }

  /** `response.data.choices[0]?.message?.content?.trim() || "No response received"`.
      A missing `choices` array throws on indexing; a non-string, non-nullish
      `content` throws because it has no `trim` method. A successful
      extraction is never empty and never has surrounding whitespace. */
  function Extract(up: Upstream): (e: Extraction)
    ensures e.Extracted? ==> e.text != [] && Trim(e.text) == e.text
    ensures up.Throws? ==> e == Thrown(up.failure)
    ensures up.NoChoicesField? ==> e == Thrown(None)
  {
    match up
    case Throws(failure) => Thrown(failure)
    case NoChoicesField => Thrown(None)
    case Choices(cs) =>
      if |cs| == 0 || cs[0].None? then
        NoResponseIsTrimmed();
        Extracted(NoResponse)
      else
        match cs[0].value.content
        case Undefined => NoResponseIsTrimmed(); Extracted(NoResponse)
        case Null => NoResponseIsTrimmed(); Extracted(NoResponse)
        case Str(c) =>
          NoResponseIsTrimmed();
          TrimIdempotent(c);
          Extracted(if Trim(c) != [] then Trim(c) else NoResponse)
        case _ => Thrown(None)
  }

  /** The `processQuery` handler.
      The status is 200 exactly when the body is an insight, and 400 or 500
      otherwise; a 500 always carries the same opaque message and is the only
      reply that writes a log line. A body the handler cannot destructure
      fails before any upstream request; a falsy `query` is rejected with 400
      and no upstream request; a truthy one issues exactly one request of the
      fixed shape, whatever the provider then does. An insight is never empty
      and never has surrounding whitespace. */
  function ProcessQuery(body: JsValue, apiKey: Option<string>, up: Upstream): (o: Outcome)
    ensures o.response.status == 200 <==> o.response.body.Insight?
    ensures o.response.status == 200 || o.response.status == 400 || o.response.status == 500
    ensures o.response.status == 500 <==> o.log != []
    ensures o.response.status == 500 ==> o.response.body == Error(ProcessingFailed) && |o.log| == 1
    ensures QueryOf(body).None? ==>
      o == Outcome(Response(500, Error(ProcessingFailed)), [], [LogEntry(LogLabel, None, None)])
    ensures QueryOf(body).Some? && !Truthy(QueryOf(body).value) ==>
      o == Outcome(Response(400, Error(QueryRequired)), [], [])
    ensures Validated(body) ==>
      && |o.calls| == 1
      && o.calls[0].url == UpstreamUrl
      && o.calls[0].model == ModelId
      && o.calls[0].messages == [ChatMessage("system", Str(SystemPrompt)), ChatMessage("user", QueryOf(body).value)]
      && o.calls[0].maxTokens == 150
      && o.calls[0].temperature == 0.7
      && o.calls[0].authorization == "Bearer " + Trim(KeyText(apiKey))
      && o.calls[0].contentType == ContentType
      && o.calls[0].referer == Referer
      && o.calls[0].title == AppTitle
      && o.response.status != 400
    ensures !Validated(body) ==> o.calls == []
    ensures o.response.body.Insight? ==>
      o.response.body.insight != [] && Trim(o.response.body.insight) == o.response.body.insight
  {
    match QueryOf(body)
    case None => Outcome(Response(500, Error(ProcessingFailed)), [], [LogEntry(LogLabel, None, None)])
    case Some(query) =>
      if !Truthy(query) then
        Outcome(Response(400, Error(QueryRequired)), [], [])
      else
        var call := BuildRequest(query, apiKey);
        match Extract(up)
        case Extracted(text) => Outcome(Response(200, Insight(text)), [call], [])
        case Thrown(failure) =>
          var status := if failure.Some? then Some(failure.value.status) else None;
          var data := if failure.Some? then Some(failure.value.data) else None;
          Outcome(Response(500, Error(ProcessingFailed)), [call], [LogEntry(LogLabel, status, data)])
  }

  /** `res.json(...)`: the envelope as the JSON object the client parses. A
      client reading `insight` finds the text in an insight envelope and
      `undefined` in an error envelope. */
  function EnvelopeJson(e: Envelope): (j: JsValue)
    ensures j.Obj?
    ensures e.Insight? ==> Member(j, "insight") == Some(Str(e.insight))
    ensures e.Error? ==> Member(j, "insight") == Some(Undefined) && Member(j, "error") == Some(Str(e.error))
  {
    match e
    case Insight(text) => Obj(map["insight" := Str(text)])
    case Error(message) => Obj(map["error" := Str(message)])
  }

  /** A request body `{"query": q}`. */
  function QueryBody(q: JsValue): (body: JsValue) {
    Obj(map["query" := q])
  }

  /** Validation tests falsiness only: a non-empty all-whitespace query is
      forwarded unchanged to the provider. */
  lemma WhitespaceQueryIsForwarded(q: string, apiKey: Option<string>, up: Upstream)
    requires q != [] && AllWhitespace(q)
    ensures var o := ProcessQuery(QueryBody(Str(q)), apiKey, up);
      && o.response.status != 400
      && |o.calls| == 1
      && o.calls[0].messages[1] == ChatMessage("user", Str(q))
  {
  }

  /** An unset API key is not an error: the request goes out with the
      header `Bearer undefined`. */
  lemma UnsetKeyHeader(body: JsValue, up: Upstream)
    requires Validated(body)
    ensures ProcessQuery(body, None, up).calls[0].authorization == "Bearer undefined"
  {
    UndefinedIsTrimmed();
    assert "Bearer " + "undefined" == "Bearer undefined";
  }

  lemma UndefinedIsTrimmed()
    ensures Trim(KeyText(None)) == "undefined"
  {
    TrimPadded([], "undefined", []);
    assert [] + "undefined" + [] == "undefined";
  }

  /** Whitespace around a configured key is dropped from the header. */
  lemma PaddedKeyHeader(body: JsValue, up: Upstream, key: string, lead: string, trail: string)
    requires Validated(body)
    requires AllWhitespace(lead) && AllWhitespace(trail)
    requires key != [] ==> !IsWhitespace(key[0]) && !IsWhitespace(key[|key| - 1])
    ensures ProcessQuery(body, Some(lead + key + trail), up).calls[0].authorization == "Bearer " + key
  {
    TrimPadded(lead, key, trail);
  }

  /** A missing or empty query is rejected with 400 and reaches no provider. */
  lemma EmptyQueryRejected(apiKey: Option<string>, up: Upstream)
    ensures ProcessQuery(QueryBody(Str("")), apiKey, up)
            == Outcome(Response(400, Error(QueryRequired)), [], [])
    ensures ProcessQuery(Obj(map[]), apiKey, up)
            == Outcome(Response(400, Error(QueryRequired)), [], [])
  {
    assert QueryOf(QueryBody(Str(""))) == Some(Str(""));
    assert QueryOf(Obj(map[])) == Some(Undefined);
  }

  /** The upstream request depends only on the request and the key, never on
      what the provider answers. */
  lemma RequestIndependentOfReply(body: JsValue, apiKey: Option<string>, up1: Upstream, up2: Upstream)
    ensures ProcessQuery(body, apiKey, up1).calls == ProcessQuery(body, apiKey, up2).calls
  {
    if Validated(body) {
      var call := BuildRequest(QueryOf(body).value, apiKey);
      assert ProcessQuery(body, apiKey, up1).calls == [call];
      assert ProcessQuery(body, apiKey, up2).calls == [call];
    }
  }

  /** A first choice whose content is non-empty after trimming yields 200 with
      the trimmed content. */
  lemma ContentBecomesInsight(body: JsValue, apiKey: Option<string>, cs: seq<Option<Message>>, c: string)
    requires Validated(body)
    requires |cs| > 0 && cs[0] == Some(Message(Str(c))) && Trim(c) != []
    ensures ProcessQuery(body, apiKey, Choices(cs)).response == Response(200, Insight(Trim(c)))
  {
    assert Extract(Choices(cs)) == Extracted(Trim(c));
  }

  /** The reply has no usable content in the first choice. */
  predicate NoUsableContent(cs: seq<Option<Message>>) {
    || |cs| == 0
    || cs[0].None?
    || cs[0].value.content.Undefined?
    || cs[0].value.content.Null?
    || (cs[0].value.content.Str? && Trim(cs[0].value.content.s) == [])
  }

  /** No first choice, no message, no content, or content that trims to
      nothing: the insight is the literal fallback. */
  lemma FallbackInsight(body: JsValue, apiKey: Option<string>, cs: seq<Option<Message>>)
    requires Validated(body) && NoUsableContent(cs)
    ensures ProcessQuery(body, apiKey, Choices(cs)).response == Response(200, Insight(NoResponse))
  {
  }

  /** A content that is neither a string nor nullish has no `trim` method:
      the call throws and the reply is the opaque 500. */
  lemma NonStringContentFails(body: JsValue, apiKey: Option<string>, cs: seq<Option<Message>>)
    requires Validated(body)
    requires |cs| > 0 && cs[0].Some?
    requires !(cs[0].value.content.Undefined? || cs[0].value.content.Null? || cs[0].value.content.Str?)
    ensures ProcessQuery(body, apiKey, Choices(cs)).response == Response(500, Error(ProcessingFailed))
  {
    assert Extract(Choices(cs)) == Thrown(None);
  }

  /** Upstream failure detail reaches the log and never the reply: any two
      failing provider outcomes give the same response, and the log line
      carries the provider's status and body. */
  lemma FailureDetailOnlyLogged(body: JsValue, apiKey: Option<string>, f1: Option<HttpFailure>, f2: Option<HttpFailure>)
    requires Validated(body)
    ensures ProcessQuery(body, apiKey, Throws(f1)).response == Response(500, Error(ProcessingFailed))
    ensures ProcessQuery(body, apiKey, Throws(f1)).response
            == ProcessQuery(body, apiKey, Throws(f2)).response
            == ProcessQuery(body, apiKey, NoChoicesField).response
    ensures f1.Some? ==>
      ProcessQuery(body, apiKey, Throws(f1)).log == [LogEntry(LogLabel, Some(f1.value.status), Some(f1.value.data))]
    ensures ProcessQuery(body, apiKey, Throws(None)).log == [LogEntry(LogLabel, None, None)]
    ensures ProcessQuery(body, apiKey, NoChoicesField).log == [LogEntry(LogLabel, None, None)]
  {
    assert Extract(Throws(f1)) == Thrown(f1);
    assert Extract(Throws(f2)) == Thrown(f2);
    assert Extract(NoChoicesField) == Thrown(None);
    assert Extract(Throws(None)) == Thrown(None);
  }
}
