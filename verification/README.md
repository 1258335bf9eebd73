# DataWhisper query orchestration, modelled in Dafny

DataWhisper is a business dashboard where the user asks free-form questions
by typing or speaking, gets a short natural-language insight back from a
remote language model, hears it read aloud, and sees the latest insights
listed on the dashboard. Each chart can also show a short canned
"AI Explain" note. This project models the logic behind those features.
All of it is sequential and finite, and every outcome is an exact string.

- `JsValues.dfy` (module `JsValues`) holds the JavaScript semantics the code
  relies on. It defines JSON-shaped values and truthiness. It defines property
  reads, which throw on `undefined` and `null`. It defines
  `String.prototype.trim` over the ECMAScript whitespace and line-terminator
  code points.
- `QueryGateway.dfy` (module `QueryGateway`) models the `POST /ai/query`
  handler. It is a pure function. Its inputs are the request body, the
  configured API key (absent when the environment variable is unset) and the
  upstream provider's outcome. It returns the HTTP response, the upstream
  requests issued and the error-log lines.
- `VoiceInterface.dfy` (module `VoiceInterface`) models the voice/text
  panel. It is a class over `query`, `isListening`, `response` and `loading`.
  The asynchronous `processQuery` is split into two events: `BeginSubmit`,
  up to the `fetch`, and `Complete(outcome)`, once the fetch settles. The
  calls to `fetch`, `speak` and the recogniser's `listen` and `stop` go into
  ghost logs. The `onInsightReceived` callback is the host dashboard's
  method.
- `ExplainedChart.dfy` (module `ExplainedChart`) models the per-chart explain
  affordance. The title lookup is a pure function. A class per chart holds
  `loading`, `open` and `explanation`. The 700 ms timeout is the discrete
  event `TimerFires`.
- `InsightHistory.dfy` (module `InsightHistory`) models the dashboard's
  `aiInsights`. It is a class whose callback prepends, and its three-entry
  view is a pure function.

Where the design intent and the code differ, the model follows the code:

- A failed client request hands the apology string to `onInsightReceived`,
  so the apology enters the insight history.
- The Enter key starts a request without checking `loading`. A second
  request can be sent while one is in flight. The first completion then
  clears `loading` although the second is still outstanding.
- The server rejects only a falsy `query`. A non-empty all-whitespace query
  is forwarded to the provider.
- The explain timer callback checks nothing. No operation dismisses an
  explanation panel: a new explain collapses it only until its timer fires
  and reopens it.

## Model

| member | source | states |
|---|---|---|
| `JsValues.TrimStartSpec` | server/controllers/aiController.js:43 | Removing leading whitespace leaves a suffix of the input that does not start with whitespace, and what was removed is all whitespace |
| `JsValues.TrimEndSpec` | server/controllers/aiController.js:43 | Removing trailing whitespace leaves a prefix of the input that does not end with whitespace, and what was removed is all whitespace |
| `JsValues.TrimSpec` | server/controllers/aiController.js:43 | `trim()` gives the empty string exactly for all-whitespace input, and otherwise a string that starts and ends with non-whitespace |
| `JsValues.TrimSplits` | client/src/components/VoiceInterface.jsx:22 | Trimming only removes whitespace: every string is its trimmed form with whitespace before and after it |
| `JsValues.TrimPadded` | client/src/components/VoiceInterface.jsx:22 | Trimming any whitespace-padded string whose core has non-whitespace ends gives back exactly the core, so `Trim` is fully determined |
| `JsValues.TrimIdempotent` | server/controllers/aiController.js:43 | Trimming twice equals trimming once |
| `QueryGateway.Extract` | server/controllers/aiController.js:42-44 | The extraction throws when the provider call fails, and also when there is no `choices` field; an extracted insight is never empty and is already trimmed |
| `QueryGateway.ProcessQuery` | server/controllers/aiController.js:3-55 | Status 200 exactly with an insight body, otherwise 400/500 with an error body. An undestructurable body gives 500 with no request. A falsy query gives 400 `Query text is required.` with no request and no log. A truthy query issues exactly one request with the fixed URL, model, [system prompt, user query] messages, 150 tokens, temperature 0.7, and headers including `Bearer ` + trimmed key. Every 500 is `Failed to process query` with one log line |
| `QueryGateway.EnvelopeJson` | server/controllers/aiController.js:46 | The JSON sent for an insight has the text under `insight`; an error envelope has `insight` undefined and the message under `error` |
| `QueryGateway.WhitespaceQueryIsForwarded` | server/controllers/aiController.js:6 | A non-empty all-whitespace query passes validation and is sent upstream unchanged as the user message |
| `QueryGateway.EmptyQueryRejected` | server/controllers/aiController.js:5-8 | `{"query": ""}` and `{}` both give 400 `Query text is required.`, no upstream request and no log |
| `QueryGateway.UnsetKeyHeader` | server/controllers/aiController.js:31-33 | With no key configured the request still goes out, with `Authorization: Bearer undefined` |
| `QueryGateway.PaddedKeyHeader` | server/controllers/aiController.js:31-33 | Whitespace around a configured key is dropped from the `Authorization` header |
| `QueryGateway.RequestIndependentOfReply` | server/controllers/aiController.js:11-39 | The upstream requests issued depend only on the body and the key, never on what the provider answers |
| `QueryGateway.ContentBecomesInsight` | server/controllers/aiController.js:42-46 | A first choice whose content is non-empty after trimming gives 200 with the trimmed content |
| `QueryGateway.FallbackInsight` | server/controllers/aiController.js:42-44 | No first choice, no message, no content, or content that trims to nothing all give 200 `No response received` |
| `QueryGateway.NonStringContentFails` | server/controllers/aiController.js:43 | A content that is neither a string nor nullish has no `trim` method, so the handler answers 500 |
| `QueryGateway.FailureDetailOnlyLogged` | server/controllers/aiController.js:47-54 | Any two provider failures, and a missing `choices`, give the same 500 reply. The log line carries the provider's status and body when there was an HTTP reply, and none otherwise. That detail appears only in the log |
| `InsightHistory.Recent` | client/src/scenes/Dashboard.jsx:112 | The view has `min(3, n)` entries, and they are the history's first entries in order |
| `InsightHistory.Dashboard.constructor` | client/src/scenes/Dashboard.jsx:36 | The history starts empty |
| `InsightHistory.Dashboard.OnInsightReceived` | client/src/scenes/Dashboard.jsx:95 | The new insight goes in front, the old entries follow unchanged and in order, and the length grows by one |
| `InsightHistory.Dashboard.Render` | client/src/scenes/Dashboard.jsx:99-112 | The section is visible exactly when the history is non-empty, it lists the `Recent` view, and rendering changes nothing |
| `InsightHistory.RecentAfterReceive` | client/src/scenes/Dashboard.jsx:95 | After one more insight the view is that insight followed by the old view, less its oldest entry when the view was full |
| `InsightHistory.TwoArrivalsNewestFirst` | client/src/scenes/Dashboard.jsx:95 | Receiving `a` then `b` leaves `[b, a]` at the head of history and view, even when `a == b` (no deduplication) |
| `InsightHistory.ReceiveAllPrepends` | client/src/scenes/Dashboard.jsx:95 | After any run of arrivals the history is the arrivals reversed followed by the earlier history |
| `InsightHistory.ReceiveAllThenOne` | client/src/scenes/Dashboard.jsx:95 | One more arrival after a run puts it in front of the history the run left, exactly as one more `onInsightReceived` call does, so a run of arrivals is a run of callback calls |
| `InsightHistory.RecentShowsLatest` | client/src/scenes/Dashboard.jsx:112 | The k-th entry shown is the k-th most recent arrival |
| `VoiceInterface.Resolve` | client/src/components/VoiceInterface.jsx:35-57 | A truthy `data.insight` is displayed, delivered to the listener and spoken. A reply whose `insight` is missing or falsy is displayed and neither delivered nor spoken. A fetch failure, or `data` null, displays and delivers the apology but never speaks it |
| `VoiceInterface.VoiceSession.constructor` | client/src/components/VoiceInterface.jsx:8-11 | Empty query, not listening, no response, not loading, no calls logged |
| `VoiceInterface.VoiceSession.BeginSubmit` | client/src/components/VoiceInterface.jsx:21-33 | A query that trims to nothing changes nothing and sends nothing; otherwise `loading` is set and one request carrying the untrimmed query is sent |
| `VoiceInterface.VoiceSession.Complete` | client/src/components/VoiceInterface.jsx:35-57 | The new response, the delivered and spoken values and the host history prepend are those of `Resolve`; `loading` is false afterwards whatever happened |
| `VoiceInterface.VoiceSession.HandleVoiceInput` | client/src/components/VoiceInterface.jsx:60-68 | When listening it calls `stop` and clears `isListening`; otherwise it calls `listen` and sets it |
| `VoiceInterface.VoiceSession.ClickMic` | client/src/components/VoiceInterface.jsx:161-164 | The mic button does nothing while loading, and otherwise toggles listening |
| `VoiceInterface.VoiceSession.OnSpeechResult` | client/src/components/VoiceInterface.jsx:15-18 | A recognition result becomes the query and listening stops |
| `VoiceInterface.VoiceSession.OnTextChange` | client/src/components/VoiceInterface.jsx:135 | Typing sets only the query |
| `VoiceInterface.VoiceSession.SelectSuggestion` | client/src/components/VoiceInterface.jsx:103-113 | A suggestion click sets only the query, to that suggestion's text |
| `VoiceInterface.VoiceSession.ClickSend` | client/src/components/VoiceInterface.jsx:187-190 | The Send button is ignored while loading; otherwise it submits |
| `VoiceInterface.VoiceSession.PressKey` | client/src/components/VoiceInterface.jsx:138 | Enter submits with no `loading` check; other keys do nothing |
| `VoiceInterface.GatewayReplyEffects` | client/src/components/VoiceInterface.jsx:35-45 | Of the gateway's replies, only a 200 insight is delivered and spoken; a 400 or 500 error envelope is displayed only |
| `VoiceInterface.DoubleSubmitThroughEnter` | client/src/components/VoiceInterface.jsx:138 | While a request is in flight Send is refused but Enter sends a second request, and the first completion clears `loading` with the second outstanding |
| `VoiceInterface.BlankQueryNotSent` | client/src/components/VoiceInterface.jsx:22 | An empty or all-whitespace query is never sent and leaves `loading` false |
| `VoiceInterface.FailureEntersHistory` | client/src/components/VoiceInterface.jsx:46-54 | A failed request puts the apology at the head of the dashboard's insight history |
| `ExplainedChart.ExplanationFor` | client/src/components/AIExplainedChart.jsx:30 | `Sales By Category` and `Monthly Sales` get their exact canned texts; any other title gets `Insight for "<title>".`; never empty |
| `ExplainedChart.FallbackQuotesTitle` | client/src/components/AIExplainedChart.jsx:30 | The fallback contains the title verbatim, right after the opening quote |
| `ExplainedChart.FallbackDistinguishesTitles` | client/src/components/AIExplainedChart.jsx:30 | Different unmapped titles get different explanations |
| `ExplainedChart.ExplainPanel.constructor` | client/src/components/AIExplainedChart.jsx:20-24 | Each chart instance starts not loading, closed, with an empty explanation |
| `ExplainedChart.ExplainPanel.HandleExplain` | client/src/components/AIExplainedChart.jsx:26-28 | Explaining sets `loading`, closes the panel, keeps the explanation and schedules one timer |
| `ExplainedChart.ExplainPanel.ClickExplain` | client/src/components/AIExplainedChart.jsx:47-48 | The button does nothing while loading, so at most one timer is ever pending (`Guarded`) |
| `ExplainedChart.ExplainPanel.TimerFires` | client/src/components/AIExplainedChart.jsx:29-33 | The explanation becomes the title's explanation, the panel opens and `loading` clears, so repeated explains show identical text |
| `ExplainedChart.ExplainLeavesOthers` | client/src/components/AIExplainedChart.jsx:20-28 | For any two distinct charts, explaining one leaves the other's `loading`, `open`, `explanation` and pending timers unchanged |
| `ExplainedChart.IndependentPanels` | client/src/components/AIExplainedChart.jsx:20-24 | Two charts keep separate state: re-explaining one closes only it, and each shows its own text |

## Left out

- Network I/O is not modelled: `axios.post` to the provider, the client's `fetch` and `response.json()`. Each becomes an outcome parameter (`Upstream`, `FetchOutcome`).
- Configuration reads from `process.env` and `import.meta.env` are parameters. The client's base URL is not modelled, because it only forms the request URL.
- The speech libraries (`listen`, `stop`, `speak`) are foreign calls. They appear only as ghost log entries.
- The 700 ms delay is not modelled. Only the discrete `TimerFires` event is.
- React rendering is not modelled: re-render scheduling, state batching and stale closures. Every event runs atomically and in sequence. Requests to the server are independent calls of a pure function.
- The render-time timestamp, the data grid and its number formatting, and all layout and styling are not modelled.
- `server/routes/aiRoutes.js` only wires `POST /query` to the handler. It is not part of this model.
- `JsValues.Member`: property reads see own properties only. Inherited `Object.prototype` members are not modelled.
- `ExplainedChart.ExplanationFor`: the canned table is a map of its two own entries. A title that names an inherited `Object.prototype` member, such as `toString`, finds that member in the source and the fallback text in the model.
- The client's `console.error` of a failed request is not modelled. Only the server's log line is.
- `VoiceInterface.VoiceSession.Complete`: prepends to the dashboard's current history. The source's callback prepends to the `aiInsights` captured when the dashboard last rendered. So with two requests outstanding through Enter, both completions may start from the same old history, and the second insight then replaces the first instead of joining it. The model keeps both.
- Numbers are exact reals. JSON cannot carry NaN or infinities, so only zero is a falsy number.
- The provider's reply is abstracted to its `choices` array and each choice's `message.content`. A `choices` field that is present but not an array is not modelled.
