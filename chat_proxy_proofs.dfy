/** What the chat-proxy handler guarantees, stated about `ProxyTurn` (which
    `HandleChat` is proved to follow): validation makes no service call, the
    thread is reused or created once, exactly one post and one run follow,
    the poll runs one round per pending status plus one, the message list is
    read whatever the run's final status, and the success body carries the
    reply and the thread actually used. */
module ChatProxyProofs {
  import opened Js
  import opened AssistantService
  import opened ReplySelection
  import opened ChatProxy
  import opened SeqFacts

  /** The request gets past validation (lines 23-81). */
  predicate Admitted(ev: Event, env: Env) {
    && ev.httpMethod != "OPTIONS"
    && ev.body.Fields? && Truthy(ev.body.message)
    && Truthy(env.apiKey) && Truthy(env.assistantId)
  }

  /** The thread the handler works on (lines 84-95), if it gets one: the
      client's when truthy, otherwise the `id` of the created thread. */
  function ThreadUsed(threadIn: Option<string>, sc: Script): Option<Option<string>> {
    if Truthy(threadIn) then Some(threadIn) else IdFrom(sc.createThread)
  }

  /** The statuses `k` to `i - 1` keep the loop going and status `i` ends it. */
  predicate SettlesAt(statuses: seq<Reply<StatusBody>>, k: nat, i: nat) {
    && k <= i < |statuses| && !KeepsPolling(statuses[i])
    && forall j :: k <= j < i ==> KeepsPolling(statuses[j])
  }

  /** Lines 124-138: when status `i` is the first that is not pending, the
      loop makes `i - k + 1` rounds of one pause and one fetch, and nothing
      else; it ends on that status, or on an exception if that answer is not
      a status body. */
  lemma {:induction false} PollRounds(threadId: Option<string>, runId: Option<string>, statuses: seq<Reply<StatusBody>>, k: nat, i: nat)
    requires SettlesAt(statuses, k, i)
    ensures var p := PollFrom(threadId, runId, statuses, k);
      && |p.calls| == 2 * (i - k + 1)
      && (forall j :: 0 <= j < |p.calls| ==> p.calls[j] == if j % 2 == 0 then Sleep(PollInterval) else GetRun(threadId, runId))
      && Count(p.calls, Pause) == i - k + 1 && Count(p.calls, RunFetch) == i - k + 1
      && p.end == if statuses[i].Answered? && statuses[i].json.Json? then Settled(statuses[i].json.value.status) else PollThrew
  {
    PollShape(threadId, runId, statuses, k, i);
    PollCounts(threadId, runId, statuses, k, i);
    PollEnds(threadId, runId, statuses, k, i);
  }

  lemma {:induction false} PollShape(threadId: Option<string>, runId: Option<string>, statuses: seq<Reply<StatusBody>>, k: nat, i: nat)
    requires SettlesAt(statuses, k, i)
    ensures var p := PollFrom(threadId, runId, statuses, k);
      && |p.calls| == 2 * (i - k + 1)
      && (forall j :: 0 <= j < |p.calls| ==> p.calls[j] == if j % 2 == 0 then Sleep(PollInterval) else GetRun(threadId, runId))
    decreases i - k
  {
    if k < i {
      PollShape(threadId, runId, statuses, k + 1, i);
      var round := [Sleep(PollInterval), GetRun(threadId, runId)];
      var rest := PollFrom(threadId, runId, statuses, k + 1);
      assert PollFrom(threadId, runId, statuses, k).calls == round + rest.calls;
      forall j | 2 <= j < |round + rest.calls|
        ensures (round + rest.calls)[j] == rest.calls[j - 2]
      {
      }
    }
  }

  lemma {:induction false} PollCounts(threadId: Option<string>, runId: Option<string>, statuses: seq<Reply<StatusBody>>, k: nat, i: nat)
    requires SettlesAt(statuses, k, i)
    ensures var p := PollFrom(threadId, runId, statuses, k);
      Count(p.calls, Pause) == i - k + 1 && Count(p.calls, RunFetch) == i - k + 1
    decreases i - k
  {
    var round := [Sleep(PollInterval), GetRun(threadId, runId)];
    CountPair(Sleep(PollInterval), GetRun(threadId, runId), Pause);
    CountPair(Sleep(PollInterval), GetRun(threadId, runId), RunFetch);
    if k < i {
      PollCounts(threadId, runId, statuses, k + 1, i);
      var rest := PollFrom(threadId, runId, statuses, k + 1);
      assert PollFrom(threadId, runId, statuses, k).calls == round + rest.calls;
      CountAppend(round, rest.calls, Pause);
      CountAppend(round, rest.calls, RunFetch);
    }
  }

  lemma {:induction false} PollEnds(threadId: Option<string>, runId: Option<string>, statuses: seq<Reply<StatusBody>>, k: nat, i: nat)
    requires SettlesAt(statuses, k, i)
    ensures PollFrom(threadId, runId, statuses, k).end
            == if statuses[i].Answered? && statuses[i].json.Json? then Settled(statuses[i].json.value.status) else PollThrew
    decreases i - k
  {
    if k < i {
      PollEnds(threadId, runId, statuses, k + 1, i);
    }
  }

  /** When every remaining status is pending the handler is still polling
      once the service has no answer left, after one round per status. */
  lemma {:induction false} PollExhausted(threadId: Option<string>, runId: Option<string>, statuses: seq<Reply<StatusBody>>, k: nat)
    requires k <= |statuses|
    requires forall j :: k <= j < |statuses| ==> KeepsPolling(statuses[j])
    ensures var p := PollFrom(threadId, runId, statuses, k);
      p.end == OutOfAnswers && Count(p.calls, Pause) == |statuses| - k && Count(p.calls, RunFetch) == |statuses| - k
    decreases |statuses| - k
  {
    if k < |statuses| {
      PollExhausted(threadId, runId, statuses, k + 1);
      var round := [Sleep(PollInterval), GetRun(threadId, runId)];
      CountPair(Sleep(PollInterval), GetRun(threadId, runId), Pause);
      CountPair(Sleep(PollInterval), GetRun(threadId, runId), RunFetch);
      CountAppend(round, PollFrom(threadId, runId, statuses, k + 1).calls, Pause);
      CountAppend(round, PollFrom(threadId, runId, statuses, k + 1).calls, RunFetch);
    }
  }

  /** The poll makes only pauses and run fetches, on the thread and run it was given. */
  lemma {:induction false} PollOnlyPolls(threadId: Option<string>, runId: Option<string>, statuses: seq<Reply<StatusBody>>, k: nat)
    requires k <= |statuses|
    ensures forall c :: c in PollFrom(threadId, runId, statuses, k).calls ==> c == Sleep(PollInterval) || c == GetRun(threadId, runId)
    decreases |statuses| - k
  {
    if k < |statuses| {
      PollOnlyPolls(threadId, runId, statuses, k + 1);
    }
  }

  lemma PollCountsNothingElse(threadId: Option<string>, runId: Option<string>, statuses: seq<Reply<StatusBody>>, k: CallKind)
    requires k != Pause && k != RunFetch
    ensures Count(PollFrom(threadId, runId, statuses, 0).calls, k) == 0
  {
    var calls := PollFrom(threadId, runId, statuses, 0).calls;
    PollOnlyPolls(threadId, runId, statuses, 0);
    forall j | 0 <= j < |calls| ensures KindOf(calls[j]) != k {
      assert calls[j] in calls;
    }
    CountNone(calls, k);
  }

  /** The exchange appends its calls to the ones made before it. */
  lemma ExchangeAppends(message: string, threadId: Option<string>, assistantId: string, sc: Script, before: seq<Call>)
    ensures var e := Exchange(message, threadId, assistantId, sc, before);
      var f := Exchange(message, threadId, assistantId, sc, []);
      e.outcome == f.outcome && e.calls == before + f.calls
  {
    var posted := [PostMessage(threadId, message)];
    var started := posted + [CreateRun(threadId, assistantId)];
    Assoc(before, posted, [CreateRun(threadId, assistantId)]);
    if !sc.postMessage.Rejected? && IdFrom(sc.createRun).Some? {
      var poll := PollFrom(threadId, runId := IdFrom(sc.createRun).value, statuses := sc.statuses, k := 0);
      Assoc(before, started, poll.calls);
      Assoc(before, started + poll.calls, [ListMessages(threadId)]);
    }
  }

  /** Lines 99-118: one message post on the thread, then (unless the post is
      rejected by the network) one run creation on it; no further thread is
      created, and the message list is read at most once. */
  lemma ExchangeCalls(message: string, threadId: Option<string>, assistantId: string, sc: Script)
    ensures var calls := Exchange(message, threadId, assistantId, sc, []).calls;
      && |calls| >= 1 && calls[0] == PostMessage(threadId, message)
      && (sc.postMessage.Rejected? ==> |calls| == 1)
      && (!sc.postMessage.Rejected? ==> |calls| >= 2 && calls[1] == CreateRun(threadId, assistantId))
      && Count(calls, ThreadCreation) == 0
      && Count(calls, MessagePost) == 1
      && Count(calls, RunCreation) == (if sc.postMessage.Rejected? then 0 else 1)
      && Count(calls, MessageList) <= 1
  {
    var post := [PostMessage(threadId, message)];
    var run := [CreateRun(threadId, assistantId)];
    var calls := Exchange(message, threadId, assistantId, sc, []).calls;
    forall k: CallKind ensures Count(post, k) == (if k == MessagePost then 1 else 0) && Count(run, k) == (if k == RunCreation then 1 else 0) {
      CountOne(PostMessage(threadId, message), k);
      CountOne(CreateRun(threadId, assistantId), k);
    }
    assert [] + post == post;
    if !sc.postMessage.Rejected? {
      forall k: CallKind ensures Count(post + run, k) == Count(post, k) + Count(run, k) {
        CountAppend(post, run, k);
      }
      if IdFrom(sc.createRun).Some? {
        var poll := PollFrom(threadId, IdFrom(sc.createRun).value, sc.statuses, 0);
        assert [] + post + run == post + run;
        forall k: CallKind | k != Pause && k != RunFetch
          ensures Count(post + run + poll.calls, k) == Count(post + run, k)
        {
          PollCountsNothingElse(threadId, IdFrom(sc.createRun).value, sc.statuses, k);
          CountAppend(post + run, poll.calls, k);
        }
        if poll.end.Settled? {
          assert calls == post + run + poll.calls + [ListMessages(threadId)];
          forall k: CallKind | k != Pause && k != RunFetch
            ensures Count(calls, k) == Count(post + run, k) + (if k == MessageList then 1 else 0)
          {
            CountAppend(post + run + poll.calls, [ListMessages(threadId)], k);
            CountOne(ListMessages(threadId), k);
          }
        } else {
          assert calls == post + run + poll.calls;
        }
      } else {
        assert calls == post + run;
      }
    }
  }

  /** The preflight is answered with an empty 200 and no call (lines 23-33). */
  lemma PreflightAnswered(ev: Event, env: Env, sc: Script)
    requires ev.httpMethod == "OPTIONS"
    ensures ProxyTurn(ev, env, sc) == Turn(Responded(Response(200, NoContent)), [])
  {
  }

  /** A body that does not parse, or parses to `null`, is a 400 with no call
      (lines 38-52). */
  lemma InvalidBodyRejected(ev: Event, env: Env, sc: Script)
    requires ev.httpMethod != "OPTIONS" && ev.body.Malformed?
    ensures ProxyTurn(ev, env, sc) == Turn(Responded(Response(400, Error(InvalidJson))), [])
  {
  }

  /** A missing or empty message is a 400 with no call (lines 54-63); an
      absent body counts as `{}` and so lands here. */
  lemma MissingMessageRejected(ev: Event, env: Env, sc: Script)
    requires ev.httpMethod != "OPTIONS"
    requires ev.body.NoBody? || (ev.body.Fields? && !Truthy(ev.body.message))
    ensures ProxyTurn(ev, env, sc) == Turn(Responded(Response(400, Error(MissingMessage))), [])
  {
  }

  /** A missing API key or assistant id is a 500 with no call (lines 66-81). */
  lemma MisconfigurationRejected(ev: Event, env: Env, sc: Script)
    requires ev.httpMethod != "OPTIONS" && ev.body.Fields? && Truthy(ev.body.message)
    requires !Truthy(env.apiKey) || !Truthy(env.assistantId)
    ensures ProxyTurn(ev, env, sc) == Turn(Responded(Response(500, Error(Misconfigured))), [])
  {
  }

  /** The service is called exactly when validation passes. */
  lemma CallsIffAdmitted(ev: Event, env: Env, sc: Script)
    ensures ProxyTurn(ev, env, sc).calls != [] <==> Admitted(ev, env)
  {
    if Admitted(ev, env) {
      var threadIn := ev.body.threadId;
      if Truthy(threadIn) {
        ExchangeCalls(ev.body.message.value, threadIn, env.assistantId.value, sc);
      }
    }
  }

  /** Lines 84-95, a truthy `thread_id`: no thread is created and the first
      call posts the message on that very thread. */
  lemma ThreadReused(ev: Event, env: Env, sc: Script)
    requires Admitted(ev, env) && Truthy(ev.body.threadId)
    ensures var calls := ProxyTurn(ev, env, sc).calls;
      && Count(calls, ThreadCreation) == 0
      && |calls| >= 1 && calls[0] == PostMessage(ev.body.threadId, ev.body.message.value)
  {
    ExchangeCalls(ev.body.message.value, ev.body.threadId, env.assistantId.value, sc);
  }

  /** Lines 84-95, no usable `thread_id`: the first call creates a thread,
      it is the only creation, and the message is posted on the created
      thread's `id`; if that call throws, nothing follows. */
  lemma ThreadCreated(ev: Event, env: Env, sc: Script)
    requires Admitted(ev, env) && !Truthy(ev.body.threadId)
    ensures var t := ProxyTurn(ev, env, sc);
      && |t.calls| >= 1 && t.calls[0] == CreateThread
      && Count(t.calls, ThreadCreation) == 1
      && (IdFrom(sc.createThread).None? ==> t == Turn(Failed, [CreateThread]))
      && (IdFrom(sc.createThread).Some? ==>
            |t.calls| >= 2 && t.calls[1] == PostMessage(IdFrom(sc.createThread).value, ev.body.message.value))
  {
    match IdFrom(sc.createThread) {
      case None =>
        CountOne(CreateThread, ThreadCreation);
      case Some(threadId) =>
        var m, a := ev.body.message.value, env.assistantId.value;
        ExchangeAppends(m, threadId, a, sc, [CreateThread]);
        ExchangeCalls(m, threadId, a, sc);
        CountOne(CreateThread, ThreadCreation);
        CountAppend([CreateThread], Exchange(m, threadId, a, sc, []).calls, ThreadCreation);
    }
  }

  /** Lines 99-118: once the thread is known the handler posts the message
      exactly once and then, unless the post is rejected, creates exactly one
      run, both on that thread. */
  lemma OnePostThenOneRun(ev: Event, env: Env, sc: Script)
    requires Admitted(ev, env) && ThreadUsed(ev.body.threadId, sc).Some?
    ensures var calls := ProxyTurn(ev, env, sc).calls;
      var threadId := ThreadUsed(ev.body.threadId, sc).value;
      var j := if Truthy(ev.body.threadId) then 0 else 1;
      && |calls| > j && calls[j] == PostMessage(threadId, ev.body.message.value)
      && Count(calls, MessagePost) == 1
      && (sc.postMessage.Rejected? ==> |calls| == j + 1)
      && (!sc.postMessage.Rejected? ==>
            |calls| > j + 1 && calls[j + 1] == CreateRun(threadId, env.assistantId.value) && Count(calls, RunCreation) == 1)
  {
    var m, a := ev.body.message.value, env.assistantId.value;
    var threadId := ThreadUsed(ev.body.threadId, sc).value;
    ExchangeCalls(m, threadId, a, sc);
    if !Truthy(ev.body.threadId) {
      ExchangeAppends(m, threadId, a, sc, [CreateThread]);
      CountOne(CreateThread, MessagePost);
      CountOne(CreateThread, RunCreation);
      CountAppend([CreateThread], Exchange(m, threadId, a, sc, []).calls, MessagePost);
      CountAppend([CreateThread], Exchange(m, threadId, a, sc, []).calls, RunCreation);
    }
  }

  /** The request reaches the status poll: admitted, a thread, the post
      answered and a run body read. */
  predicate ReachesPoll(ev: Event, env: Env, sc: Script) {
    Admitted(ev, env) && ThreadUsed(ev.body.threadId, sc).Some? && !sc.postMessage.Rejected? && IdFrom(sc.createRun).Some?
  }

  /** The turn's calls are the ones before the exchange followed by the
      exchange's own. */
  lemma TurnIsExchange(ev: Event, env: Env, sc: Script)
    requires Admitted(ev, env) && ThreadUsed(ev.body.threadId, sc).Some?
    ensures var m, a, threadId := ev.body.message.value, env.assistantId.value, ThreadUsed(ev.body.threadId, sc).value;
      var f := Exchange(m, threadId, a, sc, []);
      var before := if Truthy(ev.body.threadId) then [] else [CreateThread];
      ProxyTurn(ev, env, sc) == Turn(f.outcome, before + f.calls)
  {
    var m, a, threadId := ev.body.message.value, env.assistantId.value, ThreadUsed(ev.body.threadId, sc).value;
    ExchangeAppends(m, threadId, a, sc, if Truthy(ev.body.threadId) then [] else [CreateThread]);
  }

  /** The exchange once the run is created: the post, the run, the poll's
      rounds, and the message list when the poll settles. */
  lemma {:induction false} ExchangePolls(message: string, threadId: Option<string>, assistantId: string, sc: Script, i: nat)
    requires !sc.postMessage.Rejected? && IdFrom(sc.createRun).Some? && SettlesAt(sc.statuses, 0, i)
    ensures var calls := Exchange(message, threadId, assistantId, sc, []).calls;
      && Count(calls, Pause) == i + 1 && Count(calls, RunFetch) == i + 1
      && (sc.statuses[i].Answered? && sc.statuses[i].json.Json? ==>
            calls[|calls| - 1] == ListMessages(threadId) && Count(calls, MessageList) == 1)
  {
    var runId := IdFrom(sc.createRun).value;
    PollRounds(threadId, runId, sc.statuses, 0, i);
    ExchangeCalls(message, threadId, assistantId, sc);
    var head := [PostMessage(threadId, message), CreateRun(threadId, assistantId)];
    var poll := PollFrom(threadId, runId, sc.statuses, 0);
    var tail := if poll.end.Settled? then [ListMessages(threadId)] else [];
    assert [] + [PostMessage(threadId, message)] + [CreateRun(threadId, assistantId)] == head;
    assert Exchange(message, threadId, assistantId, sc, []).calls == head + poll.calls + tail;
    forall k: CallKind | k == Pause || k == RunFetch
      ensures Count(head + poll.calls + tail, k) == Count(poll.calls, k)
    {
      CountPair(PostMessage(threadId, message), CreateRun(threadId, assistantId), k);
      CountOne(ListMessages(threadId), k);
      CountAppend(head, poll.calls, k);
      CountAppend(head + poll.calls, tail, k);
    }
    CountOne(ListMessages(threadId), MessageList);
    CountAppend(head + poll.calls, tail, MessageList);
  }

  /** Lines 124-141: when status `i` is the first that is not pending, the
      request pauses and fetches the run exactly `i + 1` times; when that
      answer is a status body, whatever the status (`completed`, `failed`,
      missing...), the last call lists the thread's messages, and there is
      exactly one such call. */
  lemma PollThenList(ev: Event, env: Env, sc: Script, i: nat)
    requires ReachesPoll(ev, env, sc) && SettlesAt(sc.statuses, 0, i)
    ensures var calls := ProxyTurn(ev, env, sc).calls;
      && Count(calls, Pause) == i + 1 && Count(calls, RunFetch) == i + 1
      && (sc.statuses[i].Answered? && sc.statuses[i].json.Json? ==>
            calls[|calls| - 1] == ListMessages(ThreadUsed(ev.body.threadId, sc).value) && Count(calls, MessageList) == 1)
  {
    var m, a, threadId := ev.body.message.value, env.assistantId.value, ThreadUsed(ev.body.threadId, sc).value;
    TurnIsExchange(ev, env, sc);
    ExchangePolls(m, threadId, a, sc, i);
    var before := if Truthy(ev.body.threadId) then [] else [CreateThread];
    var rest := Exchange(m, threadId, a, sc, []).calls;
    forall k: CallKind | k != ThreadCreation ensures Count(before + rest, k) == Count(rest, k) {
      CountOne(CreateThread, k);
      CountAppend(before, rest, k);
    }
  }

  /** The example of a run that is queued, then in progress, then
      completed: three pauses and three fetches, then the message list. */
  lemma ThreeRoundsExample(ev: Event, env: Env, sc: Script)
    requires ReachesPoll(ev, env, sc)
    requires sc.statuses == [Answered(true, "", Json(StatusBody(Some("queued")))),
                             Answered(true, "", Json(StatusBody(Some("in_progress")))),
                             Answered(true, "", Json(StatusBody(Some("completed"))))]
    ensures var calls := ProxyTurn(ev, env, sc).calls;
      Count(calls, Pause) == 3 && Count(calls, RunFetch) == 3 && calls[|calls| - 1].ListMessages?
  {
    PollThenList(ev, env, sc, 2);
  }

  /** A failed run is not a separate path: the messages are listed all the
      same and, when the list comes back, the answer is a 200. */
  lemma FailedRunStillListed(ev: Event, env: Env, sc: Script)
    requires ReachesPoll(ev, env, sc)
    requires sc.statuses == [Answered(true, "", Json(StatusBody(Some("failed"))))]
    requires sc.listMessages.Answered? && sc.listMessages.json.Json? && sc.listMessages.json.value.data.Some?
    ensures var t := ProxyTurn(ev, env, sc);
      && t.calls[|t.calls| - 1] == ListMessages(ThreadUsed(ev.body.threadId, sc).value)
      && t.outcome.Responded? && t.outcome.response.statusCode == 200
  {
    PollThenList(ev, env, sc, 0);
    TurnIsExchange(ev, env, sc);
  }

  /** Lines 141-166: a 200 answer is only given to an admitted request
      whose message list came back with a `data` field, and its body is the
      reply chosen from that list together with the thread actually used. */
  lemma SuccessBody(ev: Event, env: Env, sc: Script)
    requires ev.httpMethod != "OPTIONS"
    requires ProxyTurn(ev, env, sc).outcome.Responded? && ProxyTurn(ev, env, sc).outcome.response.statusCode == 200
    ensures Admitted(ev, env) && ThreadUsed(ev.body.threadId, sc).Some?
    ensures sc.listMessages.Answered? && sc.listMessages.json.Json? && sc.listMessages.json.value.data.Some?
    ensures ProxyTurn(ev, env, sc).outcome.response.body
              == ChatReply(ReplyFrom(sc.listMessages.json.value.data.value), ThreadUsed(ev.body.threadId, sc).value)
  {
    if Admitted(ev, env) && ThreadUsed(ev.body.threadId, sc).Some? {
      TurnIsExchange(ev, env, sc);
    }
  }

  /** Every call after the thread is known is on that thread. */
  lemma OneThread(ev: Event, env: Env, sc: Script)
    requires Admitted(ev, env) && ThreadUsed(ev.body.threadId, sc).Some?
    ensures var threadId := ThreadUsed(ev.body.threadId, sc).value;
      forall c :: c in ProxyTurn(ev, env, sc).calls ==>
        c.CreateThread? || c.Sleep? || c.threadId == threadId
  {
    var m, a, threadId := ev.body.message.value, env.assistantId.value, ThreadUsed(ev.body.threadId, sc).value;
    TurnIsExchange(ev, env, sc);
    if !sc.postMessage.Rejected? && IdFrom(sc.createRun).Some? {
      PollOnlyPolls(threadId, IdFrom(sc.createRun).value, sc.statuses, 0);
    }
  }
}
