/**
 * The voice/text query panel. Its four pieces of state (`query`,
 * `isListening`, `response`, `loading`) are the fields of a class; the
 * asynchronous `processQuery` is split into the event that starts it
 * (`BeginSubmit`, up to the `fetch`) and the event that finishes it
 * (`Complete`, with what the fetch produced). Calls to the collaborators
 * that the model cannot see (`fetch`, `speak`, the recogniser's
 * `listen`/`stop`) are recorded in ghost logs; `onInsightReceived` is the
 * host dashboard's `OnInsightReceived`, absent when there is no host.
 */
module VoiceInterface {
  import opened JsValues
  import opened InsightHistory
  import QueryGateway

  const Apology := "Sorry, I encountered an error processing your query."

  /** The quick-suggestion buttons, in display order. */
  const Suggestions := [
    "What are our top selling products?",
    "Show me sales trends",
    "Which region performs best?",
    "How can we improve revenue?"
  ]

  /** `{insight: errorMessage}`, shown after a failed request. */
  function ApologyReply(): (reply: JsValue) {
    Obj(map["insight" := Str(Apology)])
  }

  /** What awaiting `fetch(...)` and `response.json()` produced. */
  datatype FetchOutcome = FetchFailed | Received(data: JsValue)

  datatype RecognizerCall = Listen | Stop

  /** The effects of finishing a request: the new `response`, the value
      passed to `onInsightReceived` and the value passed to `speak`. */
  datatype Resolution = Resolution(response: JsValue, delivered: Option<JsValue>, spoken: Option<JsValue>)

  function AsSeq(o: Option<JsValue>): (s: seq<JsValue>)
  {
    if o.Some? then [o.value] else []
  }

  /** The `catch` branch: the apology is displayed and handed to the
      listener, and nothing is spoken. */
  function FailureResolution(hasListener: bool): (r: Resolution) {
    Resolution(ApologyReply(), if hasListener then Some(Str(Apology)) else None, None)
  }

  /** The `try` body of `processQuery` after the request was sent, and its
      `catch`. Reading `data.insight` throws when `data` is `null`, which
      lands in the `catch` like a failed fetch.
      A truthy insight is displayed, handed to the listener and spoken; a
      reply without one (such as the gateway's error envelope) is displayed
      and nothing else; a failure displays and delivers the apology but never
      speaks it. */
  function Resolve(outcome: FetchOutcome, hasListener: bool): (r: Resolution)
    ensures outcome.FetchFailed? ==>
      && r.response == ApologyReply()
      && r.spoken == None
      && r.delivered == (if hasListener then Some(Str(Apology)) else None)
    ensures outcome.Received? && Member(outcome.data, "insight").None? ==>
      r == FailureResolution(hasListener)
    ensures outcome.Received? && Member(outcome.data, "insight").Some? ==>
      var v := Member(outcome.data, "insight").value;
      && r.response == outcome.data
      && (r.spoken.Some? <==> Truthy(v))
      && (r.spoken.Some? ==> r.spoken.value == v)
    ensures outcome.Received? && Member(outcome.data, "insight").Some? && !Truthy(Member(outcome.data, "insight").value) ==>
      r == Resolution(outcome.data, None, None)
    ensures r.spoken.Some? ==> Truthy(r.spoken.value) && (hasListener ==> r.delivered == r.spoken)
    ensures r.delivered.Some? ==> hasListener && Truthy(r.delivered.value)
    ensures hasListener && r.spoken.None? && r.delivered.Some? ==> r.delivered == Some(Str(Apology))
  {
    match outcome
    case FetchFailed => FailureResolution(hasListener)
    case Received(data) =>
      match Member(data, "insight")
      case None => FailureResolution(hasListener)
      case Some(v) =>
        if Truthy(v) then Resolution(data, if hasListener then Some(v) else None, Some(v))
        else Resolution(data, None, None)
  }

  class VoiceSession {
    var query: string
    var isListening: bool
    var response: Option<JsValue>
    var loading: bool
    const host: Dashboard?

    ghost var fetched: seq<string>
    ghost var spoken: seq<JsValue>
    ghost var delivered: seq<JsValue>
    ghost var recognizer: seq<RecognizerCall>
    ghost var pending: nat
    ghost var completed: nat

    /** `loading` implies a request is outstanding; every request sent is
        either completed or pending and carried a non-blank query; only
        truthy values are spoken or delivered, at most one of each per
        completed request, and nothing is delivered without a host. */
    ghost predicate Valid()
      reads this
    {
      && (loading ==> pending > 0)
      && |fetched| == completed + pending
      && (forall i :: 0 <= i < |fetched| ==> Trim(fetched[i]) != [])
      && (forall i :: 0 <= i < |spoken| ==> Truthy(spoken[i]))
      && (forall i :: 0 <= i < |delivered| ==> Truthy(delivered[i]))
      && |spoken| <= completed && |delivered| <= completed
      && (host == null ==> delivered == [])
    }

    constructor (host: Dashboard?)
      ensures Valid() && this.host == host
      ensures query == "" && !isListening && response == None && !loading
      ensures fetched == [] && spoken == [] && delivered == [] && recognizer == []
      ensures pending == 0 && completed == 0
    {
      this.host := host;
      query, isListening, response, loading := "", false, None, false;
      fetched, spoken, delivered, recognizer := [], [], [], [];
      pending, completed := 0, 0;
    }

    /** `processQuery` up to the `fetch`: a query that trims to nothing
        returns at once and changes nothing; otherwise `loading` is set and
        the untrimmed query is sent. */
    method BeginSubmit() returns (accepted: bool)
      requires Valid()
      modifies this
      ensures Valid()
      ensures accepted <==> Trim(old(query)) != []
      ensures !accepted ==> unchanged(this)
      ensures accepted ==>
        && loading
        && fetched == old(fetched) + [old(query)]
        && pending == old(pending) + 1
      ensures query == old(query) && isListening == old(isListening) && response == old(response)
      ensures spoken == old(spoken) && delivered == old(delivered) && recognizer == old(recognizer)
      ensures completed == old(completed)
    {
      if Trim(query) == [] {
        return false;
      }
      loading := true;
      fetched := fetched + [query];
      pending := pending + 1;
      accepted := true;
    }

    /** `processQuery` after the `fetch` settles, including `finally`:
        the effects are those `Resolve` gives, and `loading` is cleared
        whatever happened, even while another request is still outstanding. */
    method Complete(outcome: FetchOutcome)
      requires Valid() && pending > 0
      modifies this, host
      ensures Valid()
      ensures var r := Resolve(outcome, host != null);
        && response == Some(r.response)
        && delivered == old(delivered) + AsSeq(r.delivered)
        && spoken == old(spoken) + AsSeq(r.spoken)
        && (host != null ==> host.aiInsights == AsSeq(r.delivered) + old(host.aiInsights))
      ensures !loading && pending == old(pending) - 1 && completed == old(completed) + 1
      ensures query == old(query) && isListening == old(isListening)
      ensures fetched == old(fetched) && recognizer == old(recognizer)
    {
      ghost var r := Resolve(outcome, host != null);
      pending, completed := pending - 1, completed + 1;
      var failed := false;
      match outcome {
        case FetchFailed =>
          failed := true;
        case Received(data) =>
          response := Some(data);
          var insight := Member(data, "insight");
          if insight.None? {
            failed := true;
          } else if Truthy(insight.value) {
            if host != null {
              host.OnInsightReceived(insight.value);
              delivered := delivered + [insight.value];
            }
            spoken := spoken + [insight.value];
          }
      }
      if failed {
        response := Some(ApologyReply());
        if host != null {
          host.OnInsightReceived(Str(Apology));
          delivered := delivered + [Str(Apology)];
        }
      }
      loading := false;
    }

    /** `handleVoiceInput`: stop listening when listening, start otherwise. */
    method HandleVoiceInput()
      requires Valid()
      modifies this
      ensures Valid()
      ensures isListening == !old(isListening)
      ensures recognizer == old(recognizer) + [if old(isListening) then Stop else Listen]
      ensures query == old(query) && response == old(response) && loading == old(loading)
      ensures fetched == old(fetched) && spoken == old(spoken) && delivered == old(delivered)
      ensures pending == old(pending) && completed == old(completed)
    {
      if isListening {
        recognizer := recognizer + [Stop];
        isListening := false;
      } else {
        recognizer := recognizer + [Listen];
        isListening := true;
      }
    }

    /** The microphone button, disabled while `loading`. */
    method ClickMic()
      requires Valid()
      modifies this
      ensures Valid()
      ensures old(loading) ==> unchanged(this)
      ensures !old(loading) ==>
        && isListening == !old(isListening)
        && recognizer == old(recognizer) + [if old(isListening) then Stop else Listen]
      ensures query == old(query) && response == old(response) && loading == old(loading)
      ensures fetched == old(fetched) && spoken == old(spoken) && delivered == old(delivered)
      ensures pending == old(pending) && completed == old(completed)
    {
      if !loading {
        HandleVoiceInput();
      }
    }

    /** The recogniser's `onResult` callback. */
    method OnSpeechResult(text: string)
      requires Valid()
      modifies this
      ensures Valid()
      ensures query == text && !isListening
      ensures response == old(response) && loading == old(loading)
      ensures fetched == old(fetched) && spoken == old(spoken) && delivered == old(delivered)
      ensures recognizer == old(recognizer) && pending == old(pending) && completed == old(completed)
    {
      query := text;
      isListening := false;
    }

    /** The text field's `onChange`. */
    method OnTextChange(text: string)
      requires Valid()
      modifies this
      ensures Valid()
      ensures query == text
      ensures isListening == old(isListening) && response == old(response) && loading == old(loading)
      ensures fetched == old(fetched) && spoken == old(spoken) && delivered == old(delivered)
      ensures recognizer == old(recognizer) && pending == old(pending) && completed == old(completed)
    {
      query := text;
    }

    /** A quick-suggestion button: sets the query and nothing else. */
    method SelectSuggestion(index: nat)
      requires Valid() && index < |Suggestions|
      modifies this
      ensures Valid()
      ensures query == Suggestions[index]
      ensures isListening == old(isListening) && response == old(response) && loading == old(loading)
      ensures fetched == old(fetched) && spoken == old(spoken) && delivered == old(delivered)
      ensures recognizer == old(recognizer) && pending == old(pending) && completed == old(completed)
    {
      query := Suggestions[index];
    }

    /** The Send button, disabled while `loading`. */
    method ClickSend() returns (accepted: bool)
      requires Valid()
      modifies this
      ensures Valid()
      ensures old(loading) ==> !accepted && unchanged(this)
      ensures accepted <==> !old(loading) && Trim(old(query)) != []
      ensures accepted ==> fetched == old(fetched) + [old(query)] && pending == old(pending) + 1 && loading
      ensures !accepted ==> unchanged(this)
      ensures query == old(query) && isListening == old(isListening) && response == old(response)
      ensures spoken == old(spoken) && delivered == old(delivered) && recognizer == old(recognizer)
      ensures completed == old(completed)
    {
      if loading {
        accepted := false;
      } else {
        accepted := BeginSubmit();
      }
    }

    /** The text field's key handler: Enter starts `processQuery` with no
        check of `loading`. */
    method PressKey(key: string) returns (accepted: bool)
      requires Valid()
      modifies this
      ensures Valid()
      ensures accepted <==> key == "Enter" && Trim(old(query)) != []
      ensures accepted ==> fetched == old(fetched) + [old(query)] && pending == old(pending) + 1 && loading
      ensures !accepted ==> unchanged(this)
      ensures query == old(query) && isListening == old(isListening) && response == old(response)
      ensures spoken == old(spoken) && delivered == old(delivered) && recognizer == old(recognizer)
      ensures completed == old(completed)
    {
      if key == "Enter" {
        accepted := BeginSubmit();
      } else {
        accepted := false;
      }
    }
  }

  /** The gateway's replies as the panel sees them: a 200 insight is shown,
      delivered and spoken; a 400 or 500 error envelope is shown but neither
      delivered nor spoken. */
  lemma GatewayReplyEffects(body: JsValue, apiKey: Option<string>, up: QueryGateway.Upstream)
    ensures
      var o := QueryGateway.ProcessQuery(body, apiKey, up);
      var r := Resolve(Received(QueryGateway.EnvelopeJson(o.response.body)), true);
      && r.response == QueryGateway.EnvelopeJson(o.response.body)
      && (o.response.status == 200 ==>
            r.spoken == r.delivered == Some(Str(o.response.body.insight)))
      && (o.response.status != 200 ==> r.spoken == None && r.delivered == None)
  {
    var o := QueryGateway.ProcessQuery(body, apiKey, up);
    var j := QueryGateway.EnvelopeJson(o.response.body);
    if o.response.status == 200 {
      assert Member(j, "insight") == Some(Str(o.response.body.insight));
      assert Truthy(Str(o.response.body.insight));
      assert Resolve(Received(j), true) == Resolution(j, Some(Str(o.response.body.insight)), Some(Str(o.response.body.insight)));
    } else {
      assert Member(j, "insight") == Some(Undefined);
      assert Resolve(Received(j), true) == Resolution(j, None, None);
    }
  }

  /** Pressing Enter while a request is in flight sends a second request,
      and the first completion clears `loading` although the second is still
      outstanding; the Send button, by contrast, is ignored while loading. */
  method DoubleSubmitThroughEnter(q: string) returns (first: bool, viaSend: bool, viaEnter: bool, loadingAfterFirst: bool)
    requires Trim(q) != []
    ensures first && !viaSend && viaEnter && !loadingAfterFirst
  {
    var session := new VoiceSession(null);
    session.OnTextChange(q);
    assert session.query == q && !session.loading;
    first := session.ClickSend();
    assert first && session.loading && session.query == q;
    viaSend := session.ClickSend();
    assert session.loading && session.query == q;
    viaEnter := session.PressKey("Enter");
    assert session.pending == 2;
    session.Complete(FetchFailed);
    assert session.pending == 1;
    loadingAfterFirst := session.loading;
  }

  /** A query that is empty or all whitespace is never sent. */
  method BlankQueryNotSent(blank: string) returns (sent: bool, loadingAfter: bool)
    requires AllWhitespace(blank)
    ensures !sent && !loadingAfter
  {
    var session := new VoiceSession(null);
    session.OnTextChange(blank);
    TrimSpec(blank);
    sent := session.ClickSend();
    loadingAfter := session.loading;
  }

  /** A failed request puts the apology at the head of the dashboard's
      insight history. */
  method FailureEntersHistory() returns (newest: JsValue, shown: seq<JsValue>)
    ensures newest == Str(Apology) && shown == [Str(Apology)]
  {
    var dashboard := new Dashboard();
    var session := new VoiceSession(dashboard);
    session.SelectSuggestion(0);
    var accepted := session.ClickSend();
    assert session.pending == 1 && dashboard.aiInsights == [];
    assert Resolve(FetchFailed, true) == FailureResolution(true);
    session.Complete(FetchFailed);
    newest := dashboard.aiInsights[0];
    var visible;
    visible, shown := dashboard.Render();
  }
}
