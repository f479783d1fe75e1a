/** The start-run handler (netlify/functions/start-run.js:3-116): the first
    half of a turn, which creates the thread if needed, posts the message and
    starts a run, then answers with both ids at once. Unlike chat-proxy it
    looks at every answer's `ok` flag, and the first step that fails throws,
    so nothing after it is called.

    `RunTurn` states the outcome and the calls; `StartRun` is the handler,
    step by step, proved to produce exactly that turn. */
module StartRun {
  import opened Js
  import opened AssistantService

  const MissingBody: string := "Missing request body."
  const MissingFields: string := "Missing message, assistant ID, or API key."
  const InternalError: string := "Internal server error"
  const ThreadFailed: string := "Thread creation failed: "
  const PostFailed: string := "Message post failed: "
  const RunFailed: string := "Run creation failed: "

  /** Line 113: `error.message || 'Internal server error'`. */
  function ErrorText(error: string): (m: string)
    ensures m != ""
    ensures error != "" ==> m == error
    ensures error == "" ==> m == InternalError
  {
    if error == "" then InternalError else error
  }

  /** The 500 answer of the `catch` for an exception with message `error`. */
  function Fail(error: string): Response {
    Response(500, Error(ErrorText(error)))
  }

  /** What a step throws, if anything: the network failure's message, the
      step's heading followed by the answer's text when `ok` is false, or
      (for the steps that read the body as JSON) the parse failure's message. */
  function StepError(r: Reply<IdBody>, heading: string, readsJson: bool): (e: Option<string>)
    ensures r.Rejected? ==> e == Some(r.error)
    ensures r.Answered? && !r.ok ==> e == Some(heading + r.text)
    ensures r.Answered? && r.ok ==> (e.Some? <==> readsJson && r.json.NotJson?)
    ensures r.Answered? && r.ok && readsJson && r.json.NotJson? ==> e == Some(r.json.error)
  {
    match r
    case Rejected(error) => Some(error)
    case Answered(ok, text, json) =>
      if !ok then Some(heading + text)
      else if readsJson && json.NotJson? then Some(json.error)
      else None
  }

  /** The request passes the checks of lines 20-44. */
  predicate Accepted(ev: Event, env: Env) {
    && ev.httpMethod != "OPTIONS"
    && ev.body.Fields? && Truthy(ev.body.message)
    && Truthy(env.apiKey) && Truthy(env.assistantId)
  }

  /** The whole request. */
  function RunTurn(ev: Event, env: Env, sc: Script): Turn {
    if ev.httpMethod == "OPTIONS" then Turn(Responded(Response(200, NoContent)), [])
    else
      match ev.body
      case NoBody => Turn(Responded(Response(400, Error(MissingBody))), [])
      case Malformed(error) => Turn(Responded(Fail(error)), [])
      case Fields(message, threadIn) =>
        if !Truthy(message) || !Truthy(env.apiKey) || !Truthy(env.assistantId) then
          Turn(Responded(Response(400, Error(MissingFields))), [])
        else if Truthy(threadIn) then Launch(message.value, threadIn, env.assistantId.value, sc, [])
        else
          match StepError(sc.createThread, ThreadFailed, true)
          case Some(error) => Turn(Responded(Fail(error)), [CreateThread])
          case None => Launch(message.value, sc.createThread.json.value.id, env.assistantId.value, sc, [CreateThread])
  }

  /** Lines 66-107: the post and the run on `threadId`, after the calls `before`. */
  function Launch(message: string, threadId: Option<string>, assistantId: string, sc: Script, before: seq<Call>): Turn {
    var posted := before + [PostMessage(threadId, message)];
    match StepError(sc.postMessage, PostFailed, false)
    case Some(error) => Turn(Responded(Fail(error)), posted)
    case None =>
      var started := posted + [CreateRun(threadId, assistantId)];
      match StepError(sc.createRun, RunFailed, true)
      case Some(error) => Turn(Responded(Fail(error)), started)
      case None => Turn(Responded(Response(200, RunStarted(threadId, sc.createRun.json.value.id))), started)
  }

  /** The handler: each service call is appended to `calls` as it is made. */
  method HandleStart(ev: Event, env: Env, sc: Script) returns (response: Response, calls: seq<Call>)
    ensures Turn(Responded(response), calls) == RunTurn(ev, env, sc)
  {
    calls := [];
    if ev.httpMethod == "OPTIONS" {
      return Response(200, NoContent), calls;
    }
    if ev.body.NoBody? {
      return Response(400, Error(MissingBody)), calls;
    }
    if ev.body.Malformed? {
      return Fail(ev.body.error), calls;
    }
    var message, threadIn := ev.body.message, ev.body.threadId;
    if !Truthy(message) || !Truthy(env.apiKey) || !Truthy(env.assistantId) {
      return Response(400, Error(MissingFields)), calls;
    }
    var threadId := threadIn;
    if !Truthy(threadIn) {
      calls := calls + [CreateThread];
      var error := StepError(sc.createThread, ThreadFailed, true);
      if error.Some? {
        return Fail(error.value), calls;
      }
      threadId := sc.createThread.json.value.id;
    }
    ghost var before := calls;
    calls := calls + [PostMessage(threadId, message.value)];
    var error := StepError(sc.postMessage, PostFailed, false);
    if error.Some? {
      return Fail(error.value), calls;
    }
    calls := calls + [CreateRun(threadId, env.assistantId.value)];
    error := StepError(sc.createRun, RunFailed, true);
    if error.Some? {
      return Fail(error.value), calls;
    }
    response := Response(200, RunStarted(threadId, sc.createRun.json.value.id));
    assert Turn(Responded(response), calls) == Launch(message.value, threadId, env.assistantId.value, sc, before);
  }

  /** What the service's answer to a call of this handler makes it throw. */
  function CallError(c: Call, sc: Script): Option<string> {
    match c
    case CreateThread => StepError(sc.createThread, ThreadFailed, true)
    case PostMessage(_, _) => StepError(sc.postMessage, PostFailed, false)
    case CreateRun(_, _) => StepError(sc.createRun, RunFailed, true)
    case _ => None
  }

  /** The preflight is answered with an empty 200 and no call (lines 7-17). */
  lemma PreflightAnswered(ev: Event, env: Env, sc: Script)
    requires ev.httpMethod == "OPTIONS"
    ensures RunTurn(ev, env, sc) == Turn(Responded(Response(200, NoContent)), [])
  {
  }

  /** Lines 20-26: no body is a 400 with no call. */
  lemma MissingBodyRejected(ev: Event, env: Env, sc: Script)
    requires ev.httpMethod != "OPTIONS" && ev.body.NoBody?
    ensures RunTurn(ev, env, sc) == Turn(Responded(Response(400, Error(MissingBody))), [])
  {
  }

  /** Line 28: a body that does not parse, or parses to `null`, throws
      before any call, and the answer is a 500 carrying the exception's
      message. */
  lemma MalformedBodyFails(ev: Event, env: Env, sc: Script)
    requires ev.httpMethod != "OPTIONS" && ev.body.Malformed?
    ensures RunTurn(ev, env, sc) == Turn(Responded(Response(500, Error(ErrorText(ev.body.error)))), [])
  {
  }

  /** Lines 33-44: a missing message, API key or assistant id is a 400 with no call. */
  lemma MissingFieldsRejected(ev: Event, env: Env, sc: Script)
    requires ev.httpMethod != "OPTIONS" && ev.body.Fields?
    requires !Truthy(ev.body.message) || !Truthy(env.apiKey) || !Truthy(env.assistantId)
    ensures RunTurn(ev, env, sc) == Turn(Responded(Response(400, Error(MissingFields))), [])
  {
  }

  /** The service is called exactly when the checks pass. */
  lemma CallsIffAccepted(ev: Event, env: Env, sc: Script)
    ensures RunTurn(ev, env, sc).calls != [] <==> Accepted(ev, env)
  {
  }

  /** The thread the handler works on, if it gets one: the given id when
      truthy, else the `id` of a successfully created thread. */
  function ThreadUsed(threadIn: Option<string>, sc: Script): Option<Option<string>> {
    if Truthy(threadIn) then Some(threadIn)
    else if StepError(sc.createThread, ThreadFailed, true).None? then Some(sc.createThread.json.value.id)
    else None
  }

  /** Lines 47-64: a thread is created exactly when `thread_id` is falsy,
      and at most once; a truthy one is used verbatim for the post. */
  lemma ThreadCreatedIffMissing(ev: Event, env: Env, sc: Script)
    requires Accepted(ev, env)
    ensures var calls := RunTurn(ev, env, sc).calls;
      && (CreateThread in calls <==> !Truthy(ev.body.threadId))
      && Count(calls, ThreadCreation) == (if Truthy(ev.body.threadId) then 0 else 1)
      && (Truthy(ev.body.threadId) ==> calls[0] == PostMessage(ev.body.threadId, ev.body.message.value))
  {
    var calls := RunTurn(ev, env, sc).calls;
    if Truthy(ev.body.threadId) {
      CountNone(calls, ThreadCreation);
    } else {
      assert calls == [CreateThread] + calls[1..];
      CountNone(calls[1..], ThreadCreation);
      CountAppend([CreateThread], calls[1..], ThreadCreation);
      CountOne(CreateThread, ThreadCreation);
    }
  }

  /** Lines 58-61, 77-80, 93-96 and 108-114: every call but the last
      succeeded, and the answer is a 500 exactly when the last one failed,
      carrying that step's message; so nothing is called after the first
      failure. */
  lemma FirstFailureStops(ev: Event, env: Env, sc: Script)
    requires Accepted(ev, env)
    ensures var t := RunTurn(ev, env, sc);
      var last := t.calls[|t.calls| - 1];
      && t.calls != []
      && (forall j :: 0 <= j < |t.calls| - 1 ==> CallError(t.calls[j], sc).None?)
      && (t.outcome.response.statusCode == 500 <==> CallError(last, sc).Some?)
      && (CallError(last, sc).Some? ==> t.outcome.response.body == Error(ErrorText(CallError(last, sc).value)))
  {
  }

  /** Lines 66-107: on success the calls are the optional thread creation,
      one post and one run, in that order, and the body carries the thread
      used and the run created. */
  lemma SuccessfulStart(ev: Event, env: Env, sc: Script)
    requires Accepted(ev, env)
    requires RunTurn(ev, env, sc).outcome.response.statusCode == 200
    ensures ThreadUsed(ev.body.threadId, sc).Some?
    ensures var threadId := ThreadUsed(ev.body.threadId, sc).value;
      var t := RunTurn(ev, env, sc);
      && t.calls == (if Truthy(ev.body.threadId) then [] else [CreateThread])
                    + [PostMessage(threadId, ev.body.message.value), CreateRun(threadId, env.assistantId.value)]
      && sc.createRun.Answered? && sc.createRun.json.Json?
      && t.outcome.response.body == RunStarted(threadId, sc.createRun.json.value.id)
  {
  }
}
