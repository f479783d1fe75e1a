/** The widget and chat-proxy together: what the widget's fetch gives for each
    response of the handler, and what one submitted turn then shows and keeps
    (chatbot.js:85-113 against netlify/functions/chat-proxy.js:19-178). */
module EndToEnd {
  import opened Js
  import opened AssistantService
  import opened ReplySelection
  import opened ChatProxy
  import opened ChatProxyProofs
  import opened ChatWindow

  /** Lines 85-94 of chatbot.js: the POST carrying `{ message, thread_id }`;
      a `thread_id` that is `null` or absent reads the same on the other side. */
  function RequestEvent(req: ChatRequest): Event {
    Event("POST", Fields(Some(req.message), req.threadId))
  }

  /** `res.json()` on the body the handler sends. The empty body of a
      preflight answer does not parse; an error body has none of the fields
      the widget reads. */
  function BodyOf(p: Payload): Parsed<ReplyData> {
    match p
    case NoContent => NotJson("Unexpected end of JSON input")
    case Error(_) => Json(ReplyData(None, None, None))
    case ChatReply(reply, threadId) => Json(ReplyData(threadId, Some(reply), None))
    case RunStarted(threadId, _) => Json(ReplyData(threadId, None, None))
  }

  /** What the widget's fetch gives for the handler's outcome: `ok` is a 2xx
      status. A turn still polling ends when the platform stops the function,
      which the widget sees as an answer that is not `ok`. */
  function AnswerOf(o: Outcome): ClientAnswer {
    match o
    case Responded(r) => Answer(200 <= r.statusCode < 300, BodyOf(r.body))
    case StillPolling => Answer(false, NotJson("Task timed out"))
  }

  /** The widget answers with the proxy's reply, trimmed, exactly when the
      handler answered 200, and keeps the thread the handler used;
      otherwise it shows the fallback text and keeps its thread id. The
      `(No response)` fallback of line 102 is never what a 200 leads to. */
  lemma ReplyReachesBubble(req: ChatRequest, env: Env, sc: Script)
    requires req.message != ""
    ensures var t := ProxyTurn(RequestEvent(req), env, sc);
      var a := AnswerOf(t.outcome);
      && (Usable(a) <==> t.outcome.Responded? && t.outcome.response.statusCode == 200)
      && (Usable(a) ==>
            && sc.listMessages.Answered? && sc.listMessages.json.Json? && sc.listMessages.json.value.data.Some?
            && ThreadUsed(req.threadId, sc).Some?
            && Shown(a) == Trim(ReplyFrom(sc.listMessages.json.value.data.value))
            && a.body.value.threadId == ThreadUsed(req.threadId, sc).value)
      && (!Usable(a) ==> Shown(a) == Fallback)
  {
    var ev := RequestEvent(req);
    var t := ProxyTurn(ev, env, sc);
    if t.outcome.Responded? {
      NoOtherSuccess(ev, env, sc);
      if t.outcome.response.statusCode == 200 {
        SuccessBody(ev, env, sc);
        ReplyNeverEmpty(sc.listMessages.json.value.data.value);
      }
    }
  }

  /** The handler answers a POST with 200, 400 or 500 only, and its 200 always
      carries a reply. */
  lemma NoOtherSuccess(ev: Event, env: Env, sc: Script)
    requires ev.httpMethod != "OPTIONS"
    requires ProxyTurn(ev, env, sc).outcome.Responded?
    ensures var r := ProxyTurn(ev, env, sc).outcome.response;
      && r.statusCode in {200, 400, 500}
      && (r.statusCode == 200 <==> r.body.ChatReply?)
      && (r.statusCode != 200 ==> r.body.Error?)
  {
    if Admitted(ev, env) && ThreadUsed(ev.body.threadId, sc).Some? {
      TurnIsExchange(ev, env, sc);
    }
  }

  /** One submitted turn with chat-proxy behind the fetch: the window ends as
      `Submit` leaves it for the answer the handler's turn gives. */
  method Chat(w: Window, env: Env, sc: Script) returns (sent: Option<ChatRequest>)
    modifies w
    ensures Trim(old(w.input)) == "" ==>
      sent == None && w.input == old(w.input) && w.threadId == old(w.threadId) && w.messages == old(w.messages)
    ensures Trim(old(w.input)) != "" ==>
      var req := ChatRequest(Trim(old(w.input)), old(w.threadId));
      var a := AnswerOf(ProxyTurn(RequestEvent(req), env, sc).outcome);
      && sent == Some(req)
      && w.input == ""
      && w.messages == old(w.messages) + [UserBubble(req.message), BotMessage(None), Bubble(Shown(a), "bot")]
      && w.threadId == if Usable(a) then a.body.value.threadId else old(w.threadId)
  {
    var request := ChatRequest(Trim(w.input), w.threadId);
    var answer := AnswerOf(ProxyTurn(RequestEvent(request), env, sc).outcome);
    sent := w.Submit(answer);
  }

  /** The conversation keeps its thread: after a 200 on a thread with a
      truthy id, the widget's next request carries that id, and the handler
      posts on it without creating another thread. */
  lemma NextTurnReusesThread(req: ChatRequest, env: Env, sc: Script, next: string, env': Env, sc': Script)
    requires req.message != "" && next != ""
    requires ProxyTurn(RequestEvent(req), env, sc).outcome.Responded?
    requires ProxyTurn(RequestEvent(req), env, sc).outcome.response.statusCode == 200
    requires Truthy(env'.apiKey) && Truthy(env'.assistantId)
    ensures ThreadUsed(req.threadId, sc).Some?
    ensures var threadId := ThreadUsed(req.threadId, sc).value;
      var a := AnswerOf(ProxyTurn(RequestEvent(req), env, sc).outcome);
      && a.body.value.threadId == threadId
      && (Truthy(threadId) ==>
            var calls := ProxyTurn(RequestEvent(ChatRequest(next, threadId)), env', sc').calls;
            && Count(calls, ThreadCreation) == 0
            && |calls| >= 1 && calls[0] == PostMessage(threadId, next))
  {
    ReplyReachesBubble(req, env, sc);
    var threadId := ThreadUsed(req.threadId, sc).value;
    if Truthy(threadId) {
      ThreadReused(RequestEvent(ChatRequest(next, threadId)), env', sc');
    }
  }

  /** The first turn of a page has no thread yet, so the handler creates one. */
  lemma FirstTurnCreatesThread(message: string, env: Env, sc: Script)
    requires message != ""
    requires Truthy(env.apiKey) && Truthy(env.assistantId)
    ensures var calls := ProxyTurn(RequestEvent(ChatRequest(message, None)), env, sc).calls;
      |calls| >= 1 && calls[0] == CreateThread && Count(calls, ThreadCreation) == 1
  {
    ThreadCreated(RequestEvent(ChatRequest(message, None)), env, sc);
  }
}
