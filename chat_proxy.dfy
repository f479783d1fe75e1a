/** The chat-proxy handler (netlify/functions/chat-proxy.js:19-178): one chat
    turn against the Assistants service, answered synchronously.

    `ProxyTurn` states what a request leads to: its outcome and the calls made,
    in order. `HandleChat` is the handler itself, written step by step with
    the status poll as a `while` loop, and it is proved to produce exactly
    that turn. The lemmas then state the handler's guarantees about
    `ProxyTurn`. */
module ChatProxy {
  import opened Js
  import opened AssistantService
  import opened ReplySelection

  const PollInterval: nat := 1500

  const InvalidJson: string := "Invalid JSON in request body."
  const MissingMessage: string := "Missing message in request body."
  const Misconfigured: string := "Server misconfiguration: Missing API key or Assistant ID"
  const InternalError: string := "Internal server error"

  /** Every exception the handler meets ends in the outer `catch`. */
  const Failed: Outcome := Responded(Response(500, Error(InternalError)))

  /** `message` and `thread_id` of `JSON.parse(event.body || '{}')`; `None`
      when parsing or reading a field throws. An absent body reads as `{}`. */
  function BodyFields(body: RequestBody): Option<(Option<string>, Option<string>)> {
    match body
    case NoBody => Some((None, None))
    case Malformed(_) => None
    case Fields(message, threadId) => Some((message, threadId))
  }

  /** The `id` of `res.json()`; `None` when the fetch rejects or the body is
      not JSON. `ok` is never looked at. */
  function IdFrom(r: Reply<IdBody>): Option<Option<string>> {
    match r
    case Answered(_, _, Json(b)) => Some(b.id)
    case _ => None
  }

  /** The two statuses the loop keeps waiting on. */
  predicate Pending(status: Option<string>) {
    status == Some("in_progress") || status == Some("queued")
  }

  /** A status answer that keeps the loop going. */
  predicate KeepsPolling(r: Reply<StatusBody>) {
    r.Answered? && r.json.Json? && Pending(r.json.value.status)
  }

  /** How the poll ends: on a status that is not pending (possibly missing),
      on an exception, or with no further answer from the service. */
  datatype PollEnd = Settled(status: Option<string>) | PollThrew | OutOfAnswers

  datatype Polled = Polled(end: PollEnd, calls: seq<Call>)

  /** The poll of lines 124-138 from the `k`-th status answer on, entered with
      a pending status: one pause and one fetch per round. */
  function PollFrom(threadId: Option<string>, runId: Option<string>, statuses: seq<Reply<StatusBody>>, k: nat): Polled
    requires k <= |statuses|
    decreases |statuses| - k
  {
    if k == |statuses| then Polled(OutOfAnswers, [])
    else
      var round := [Sleep(PollInterval), GetRun(threadId, runId)];
      if KeepsPolling(statuses[k]) then
        var rest := PollFrom(threadId, runId, statuses, k + 1);
        Polled(rest.end, round + rest.calls)
      else if statuses[k].Answered? && statuses[k].json.Json? then Polled(Settled(statuses[k].json.value.status), round)
      else Polled(PollThrew, round)
  }

  /** The whole request. */
  function ProxyTurn(ev: Event, env: Env, sc: Script): Turn {
    if ev.httpMethod == "OPTIONS" then Turn(Responded(Response(200, NoContent)), [])
    else
      match BodyFields(ev.body)
      case None => Turn(Responded(Response(400, Error(InvalidJson))), [])
      case Some((message, threadIn)) =>
        if !Truthy(message) then Turn(Responded(Response(400, Error(MissingMessage))), [])
        else if !Truthy(env.apiKey) || !Truthy(env.assistantId) then Turn(Responded(Response(500, Error(Misconfigured))), [])
        else if Truthy(threadIn) then Exchange(message.value, threadIn, env.assistantId.value, sc, [])
        else
          match IdFrom(sc.createThread)
          case None => Turn(Failed, [CreateThread])
          case Some(threadId) => Exchange(message.value, threadId, env.assistantId.value, sc, [CreateThread])
  }

  /** Everything after the thread is known (lines 99-166), after the calls `before`. */
  function Exchange(message: string, threadId: Option<string>, assistantId: string, sc: Script, before: seq<Call>): Turn {
    var posted := before + [PostMessage(threadId, message)];
    if sc.postMessage.Rejected? then Turn(Failed, posted)
    else
      var started := posted + [CreateRun(threadId, assistantId)];
      match IdFrom(sc.createRun)
      case None => Turn(Failed, started)
      case Some(runId) =>
        var poll := PollFrom(threadId, runId, sc.statuses, 0);
        var polled := started + poll.calls;
        match poll.end
        case OutOfAnswers => Turn(StillPolling, polled)
        case PollThrew => Turn(Failed, polled)
        case Settled(_) =>
          var listed := polled + [ListMessages(threadId)];
          match sc.listMessages
          case Answered(_, _, Json(ListBody(Some(data)))) =>
            Turn(Responded(Response(200, ChatReply(ReplyFrom(data), threadId))), listed)
          case _ => Turn(Failed, listed)
  }

  /** The handler: validation, the thread, the post, the run, the status poll
      and the message list, each service call appended to `calls` as it is
      made. */
  method HandleChat(ev: Event, env: Env, sc: Script) returns (outcome: Outcome, calls: seq<Call>)
    ensures Turn(outcome, calls) == ProxyTurn(ev, env, sc)
  {
    calls := [];
    if ev.httpMethod == "OPTIONS" {
      return Responded(Response(200, NoContent)), calls;
    }
    var message: Option<string>, threadIn: Option<string>;
    match BodyFields(ev.body) {
      case None =>
        return Responded(Response(400, Error(InvalidJson))), calls;
      case Some(fields) =>
        message, threadIn := fields.0, fields.1;
    }
    if !Truthy(message) {
      return Responded(Response(400, Error(MissingMessage))), calls;
    }
    if !Truthy(env.apiKey) || !Truthy(env.assistantId) {
      return Responded(Response(500, Error(Misconfigured))), calls;
    }
    var threadId: Option<string>;
    if Truthy(threadIn) {
      threadId := threadIn;
    } else {
      calls := calls + [CreateThread];
      match IdFrom(sc.createThread) {
        case None => return Failed, calls;
        case Some(id) => threadId := id;
      }
    }
    var rest: seq<Call>;
    outcome, rest := Converse(message.value, threadId, env.assistantId.value, sc);
    calls := calls + rest;
  }

  /** Lines 99-166: the post, the run, the status poll and the message list
      on the thread `threadId`. */
  method Converse(message: string, threadId: Option<string>, assistantId: string, sc: Script)
    returns (outcome: Outcome, calls: seq<Call>)
    ensures forall before :: Turn(outcome, before + calls) == Exchange(message, threadId, assistantId, sc, before)
  {
    calls := [PostMessage(threadId, message)];
    if sc.postMessage.Rejected? {
      return Failed, calls;
    }
    calls := calls + [CreateRun(threadId, assistantId)];
    var runId: Option<string>;
    match IdFrom(sc.createRun) {
      case None => return Failed, calls;
      case Some(id) => runId := id;
    }
    var end, rounds := Poll(threadId, runId, sc.statuses);
    calls := calls + rounds;
    match end {
      case OutOfAnswers => return StillPolling, calls;
      case PollThrew => return Failed, calls;
      case Settled(_) =>
    }
    calls := calls + [ListMessages(threadId)];
    match sc.listMessages {
      case Answered(_, _, Json(ListBody(Some(data)))) =>
        return Responded(Response(200, ChatReply(ReplyFrom(data), threadId))), calls;
      case _ =>
        return Failed, calls;
    }
  }

  /** Lines 124-138: `runStatus` starts as `in_progress`; each round pauses,
      fetches the run and takes its status, until the status is neither
      `in_progress` nor `queued`. */
  method Poll(threadId: Option<string>, runId: Option<string>, statuses: seq<Reply<StatusBody>>)
    returns (end: PollEnd, calls: seq<Call>)
    ensures Polled(end, calls) == PollFrom(threadId, runId, statuses, 0)
  {
    calls := [];
    var status: Option<string> := Some("in_progress");
    var k := 0;
    while Pending(status)
      invariant k <= |statuses|
      invariant Pending(status) ==>
        PollFrom(threadId, runId, statuses, 0)
          == Polled(PollFrom(threadId, runId, statuses, k).end, calls + PollFrom(threadId, runId, statuses, k).calls)
      invariant !Pending(status) ==> PollFrom(threadId, runId, statuses, 0) == Polled(Settled(status), calls)
      decreases |statuses| - k
    {
      if k == |statuses| {
        return OutOfAnswers, calls;
      }
      calls := calls + [Sleep(PollInterval), GetRun(threadId, runId)];
      var answer := statuses[k];
      if !(answer.Answered? && answer.json.Json?) {
        return PollThrew, calls;
      }
      status := answer.json.value.status;
      k := k + 1;
    }
    return Settled(status), calls;
  }
}
