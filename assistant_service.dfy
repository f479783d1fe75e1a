/** The vocabulary the two Netlify handlers share: the incoming request, the
    environment, the calls they make to the Assistants service, the replies
    that service gives, and the response a handler returns.

    The service is abstract: a `Script` says what it answers to each kind of
    call, and a handler records every call it makes, in order, as a `Call`.
    Reading `await` as "next step", each handler is a straight sequence of
    such calls. */
module AssistantService {
  import opened Js

  /** A JSON body as read by `JSON.parse`/`res.json()`: either it does not
      parse (the `SyntaxError` message is kept) or it yields a value. */
  datatype Parsed<B> = NotJson(error: string) | Json(value: B)

  /** What a `fetch` gives back: a rejected promise (network failure, with its
      message), or an answer with its `ok` flag, its body as text, and its
      body as JSON. */
  datatype Reply<B> =
    | Rejected(error: string)
    | Answered(ok: bool, text: string, json: Parsed<B>)

  /** The fields of the service's JSON bodies that the handlers read. */
  datatype IdBody = IdBody(id: Option<string>)               // a thread, a message or a run
  datatype StatusBody = StatusBody(status: Option<string>)   // a run being polled
  datatype ListBody = ListBody(data: Option<seq<Message>>)   // the thread's message list

  /** One message of a thread: its role, its `created_at`, and the text value
      of each content part (`None` when a part has no `text.value`). A missing
      `content` field is `None`. */
  datatype Message = Message(role: string, createdAt: int, content: Option<seq<Option<string>>>)

  /** Everything the service will answer during one request. The status polls
      are answered in order from `statuses`. */
  datatype Script = Script(
    createThread: Reply<IdBody>,
    postMessage: Reply<IdBody>,
    createRun: Reply<IdBody>,
    statuses: seq<Reply<StatusBody>>,
    listMessages: Reply<ListBody>)

  /** The calls a handler makes. A thread or run id the service did not
      supply is `None` (the source then interpolates `undefined`). */
  datatype Call =
    | CreateThread
    | PostMessage(threadId: Option<string>, content: string)
    | CreateRun(threadId: Option<string>, assistantId: string)
    | Sleep(ms: nat)
    | GetRun(threadId: Option<string>, runId: Option<string>)
    | ListMessages(threadId: Option<string>)

  /** The two fields a client sends. A body that does not parse, or parses
      to `null`, is malformed: reading a field of `null` raises a `TypeError`.
      A body that parses to a number, a string or a boolean is not: reading
      its fields gives `undefined`, so it is `Fields(None, None)`. */
  datatype RequestBody =
    | NoBody                                                  // absent or the empty string
    | Malformed(error: string)                                // does not parse, or parses to `null`
    | Fields(message: Option<string>, threadId: Option<string>)

  datatype Event = Event(httpMethod: string, body: RequestBody)

  /** `process.env.OPENAI_API_KEY` and `process.env.OPENAI_ASSISTANT_ID`. */
  datatype Env = Env(apiKey: Option<string>, assistantId: Option<string>)

  /** The body of a handler's response. */
  datatype Payload =
    | NoContent                                              // the empty body of a preflight answer
    | Error(error: string)                                   // `{ error }`
    | ChatReply(reply: string, threadId: Option<string>)     // `{ reply, thread_id }`
    | RunStarted(threadId: Option<string>, runId: Option<string>)  // `{ thread_id, run_id }`

  datatype Response = Response(statusCode: int, body: Payload)

  /** How one request ends: with a response, or still waiting on the status
      poll when the script has no further answer for it. */
  datatype Outcome = Responded(response: Response) | StillPolling

  /** The outcome together with every call made, in order. */
  datatype Turn = Turn(outcome: Outcome, calls: seq<Call>)

  datatype CallKind = ThreadCreation | MessagePost | RunCreation | Pause | RunFetch | MessageList

  function KindOf(c: Call): CallKind {
    match c
    case CreateThread => ThreadCreation
    case PostMessage(_, _) => MessagePost
    case CreateRun(_, _) => RunCreation
    case Sleep(_) => Pause
    case GetRun(_, _) => RunFetch
    case ListMessages(_) => MessageList
  }

  /** The number of calls of kind `k` in a trace. */
  function Count(calls: seq<Call>, k: CallKind): nat {
    if calls == [] then 0 else (if KindOf(calls[0]) == k then 1 else 0) + Count(calls[1..], k)
  }

  lemma {:induction false} CountAppend(a: seq<Call>, b: seq<Call>, k: CallKind)
    ensures Count(a + b, k) == Count(a, k) + Count(b, k)
  {
    if a == [] {
      assert a + b == b;
    } else {
      assert (a + b)[0] == a[0] && (a + b)[1..] == a[1..] + b;
      CountAppend(a[1..], b, k);
    }
  }

  lemma CountPair(a: Call, b: Call, k: CallKind)
    ensures Count([a, b], k) == (if KindOf(a) == k then 1 else 0) + (if KindOf(b) == k then 1 else 0)
  {
    assert [a, b] == [a] + [b];
    CountAppend([a], [b], k);
    CountOne(a, k);
    CountOne(b, k);
  }

  lemma CountOne(a: Call, k: CallKind)
    ensures Count([a], k) == (if KindOf(a) == k then 1 else 0)
  {
    assert [a][1..] == [];
  }

  lemma {:induction false} CountNone(calls: seq<Call>, k: CallKind)
    requires forall j :: 0 <= j < |calls| ==> KindOf(calls[j]) != k
    ensures Count(calls, k) == 0
  {
    if calls != [] {
      CountNone(calls[1..], k);
    }
  }
}
