/** How chat-proxy picks the reply out of the thread's message list
    (netlify/functions/chat-proxy.js:151-155): keep the assistant messages,
    sort them newest first with the engine's stable sort, take the first, and
    read the text value of its first content part, falling back to
    `(No reply)`. */
module ReplySelection {
  import opened Js
  import opened AssistantService

  const NoReply: string := "(No reply)"

  predicate IsAssistant(m: Message) {
    m.role == "assistant"
  }

  /** `filter((msg) => msg.role === 'assistant')`. */
  function Assistants(data: seq<Message>): (r: seq<Message>)
    ensures |r| <= |data|
  {
    if data == [] then []
    else if IsAssistant(data[0]) then [data[0]] + Assistants(data[1..])
    else Assistants(data[1..])
  }

  /** The filter keeps exactly the assistant messages. */
  lemma {:induction false} AssistantsExactly(data: seq<Message>)
    ensures forall m :: m in Assistants(data) <==> m in data && IsAssistant(m)
  {
    if data != [] {
      AssistantsExactly(data[1..]);
      assert data == [data[0]] + data[1..];
    }
  }

  predicate NewestFirst(s: seq<Message>) {
    forall i, j :: 0 <= i < j < |s| ==> s[i].createdAt >= s[j].createdAt
  }

  /** Inserts `x` before the first message that is not newer than it. Every
      message of `ys` comes after `x` in the original order, so on a tie `x`
      goes first: this is what a stable sort with the comparator
      `b.created_at - a.created_at` does. */
  function Insert(x: Message, ys: seq<Message>): (r: seq<Message>)
    ensures |r| == |ys| + 1
    ensures r[0] == if ys == [] || ys[0].createdAt <= x.createdAt then x else ys[0]
    ensures multiset(r) == multiset(ys) + multiset{x}
  {
    if ys == [] then [x]
    else if ys[0].createdAt <= x.createdAt then [x] + ys
    else
      assert ys == [ys[0]] + ys[1..];
      [ys[0]] + Insert(x, ys[1..])
  }

  /** `sort((a, b) => b.created_at - a.created_at)`, stable. */
  function SortNewestFirst(xs: seq<Message>): (r: seq<Message>)
    ensures |r| == |xs|
    ensures multiset(r) == multiset(xs)
  {
    if xs == [] then []
    else
      assert xs == [xs[0]] + xs[1..];
      Insert(xs[0], SortNewestFirst(xs[1..]))
  }

  lemma {:induction false} InsertKeepsOrder(x: Message, ys: seq<Message>)
    requires NewestFirst(ys)
    ensures NewestFirst(Insert(x, ys))
  {
    if ys != [] && ys[0].createdAt > x.createdAt {
      var t := Insert(x, ys[1..]);
      InsertKeepsOrder(x, ys[1..]);
      InsertBounded(x, ys[1..], ys[0].createdAt);
      ConsKeepsOrder(ys[0], t);
    }
  }

  /** Inserting below a bound every message already respects keeps the bound. */
  lemma {:induction false} InsertBounded(x: Message, ys: seq<Message>, c: int)
    requires x.createdAt <= c
    requires forall k :: 0 <= k < |ys| ==> ys[k].createdAt <= c
    ensures forall k :: 0 <= k < |Insert(x, ys)| ==> Insert(x, ys)[k].createdAt <= c
  {
    if ys != [] && ys[0].createdAt > x.createdAt {
      InsertBounded(x, ys[1..], c);
    }
  }

  lemma ConsKeepsOrder(y: Message, t: seq<Message>)
    requires NewestFirst(t)
    requires forall k :: 0 <= k < |t| ==> t[k].createdAt <= y.createdAt
    ensures NewestFirst([y] + t)
  {
    var r := [y] + t;
    forall i, j | 0 <= i < j < |r| ensures r[i].createdAt >= r[j].createdAt {
      if i > 0 {
        assert r[i] == t[i - 1] && r[j] == t[j - 1];
      } else {
        assert r[j] == t[j - 1];
      }
    }
  }

  /** The sorted list is newest first. */
  lemma {:induction false} SortIsNewestFirst(xs: seq<Message>)
    ensures NewestFirst(SortNewestFirst(xs))
  {
    if xs != [] {
      SortIsNewestFirst(xs[1..]);
      InsertKeepsOrder(xs[0], SortNewestFirst(xs[1..]));
    }
  }

  /** `data[i]` is the assistant message the handler replies with: an
      assistant message, no assistant message is newer, and every earlier
      assistant message is strictly older. */
  predicate IsLatestAssistant(data: seq<Message>, i: nat) {
    && i < |data| && IsAssistant(data[i])
    && (forall j :: 0 <= j < |data| && IsAssistant(data[j]) ==> data[j].createdAt <= data[i].createdAt)
    && (forall j :: 0 <= j < i && IsAssistant(data[j]) ==> data[j].createdAt < data[i].createdAt)
  }

  /** The index of the first-listed newest assistant message, if there is an
      assistant message at all. */
  function LatestAssistantIndex(data: seq<Message>): (r: Option<nat>)
    ensures r.None? <==> forall j :: 0 <= j < |data| ==> !IsAssistant(data[j])
    ensures r.Some? ==> IsLatestAssistant(data, r.value)
  {
    if data == [] then None
    else
      var rest := LatestAssistantIndex(data[1..]);
      assert forall j :: 1 <= j < |data| ==> data[j] == data[1..][j - 1];
      if !IsAssistant(data[0]) then
        if rest.None? then None else Some(rest.value + 1)
      else if rest.None? || data[1..][rest.value].createdAt <= data[0].createdAt then Some(0)
      else Some(rest.value + 1)
  }

  /** There is at most one such message. */
  lemma LatestAssistantUnique(data: seq<Message>, i: nat, k: nat)
    requires IsLatestAssistant(data, i) && IsLatestAssistant(data, k)
    ensures i == k
  {
  }

  lemma {:induction false} NoAssistantsExactly(data: seq<Message>)
    ensures Assistants(data) == [] <==> forall j :: 0 <= j < |data| ==> !IsAssistant(data[j])
  {
    if data != [] {
      NoAssistantsExactly(data[1..]);
      assert forall j :: 1 <= j < |data| ==> data[j] == data[1..][j - 1];
      assert data[0] in data;
    }
  }

  /** The head of the sorted assistant messages is the one `IsLatestAssistant`
      singles out: the newest, and on a tie the first listed. */
  lemma {:induction false} SortedHeadIsLatest(data: seq<Message>)
    requires Assistants(data) != []
    ensures LatestAssistantIndex(data).Some?
    ensures SortNewestFirst(Assistants(data))[0] == data[LatestAssistantIndex(data).value]
  {
    NoAssistantsExactly(data);
    var rest := data[1..];
    NoAssistantsExactly(rest);
    if !IsAssistant(data[0]) {
      SortedHeadIsLatest(rest);
      SkipOther(data);
    } else if Assistants(rest) == [] {
      assert Assistants(data) == [data[0]];
    } else {
      SortedHeadIsLatest(rest);
      AssistantsStep(data);
      SortOfCons(data[0], Assistants(rest));
      LatestOfAssistantHead(data);
      assert data[LatestAssistantIndex(rest).value + 1] == rest[LatestAssistantIndex(rest).value];
    }
  }

  /** A message of another role in front changes neither the assistant
      messages nor, but for the shift, the index of the newest. */
  lemma SkipOther(data: seq<Message>)
    requires data != [] && !IsAssistant(data[0]) && LatestAssistantIndex(data[1..]).Some?
    ensures Assistants(data) == Assistants(data[1..])
    ensures LatestAssistantIndex(data) == Some(LatestAssistantIndex(data[1..]).value + 1)
    ensures data[LatestAssistantIndex(data).value] == data[1..][LatestAssistantIndex(data[1..]).value]
  {
  }

  lemma AssistantsStep(data: seq<Message>)
    requires data != []
    ensures Assistants(data) == if IsAssistant(data[0]) then [data[0]] + Assistants(data[1..]) else Assistants(data[1..])
  {
  }

  lemma SortOfCons(x: Message, xs: seq<Message>)
    ensures SortNewestFirst([x] + xs) == Insert(x, SortNewestFirst(xs))
  {
    assert ([x] + xs)[1..] == xs;
  }

  /** An assistant message in front is the newest unless a later one is
      strictly newer. */
  lemma LatestOfAssistantHead(data: seq<Message>)
    requires data != [] && IsAssistant(data[0]) && LatestAssistantIndex(data[1..]).Some?
    ensures var l := LatestAssistantIndex(data[1..]).value;
      LatestAssistantIndex(data) == if data[1..][l].createdAt <= data[0].createdAt then Some(0) else Some(l + 1)
  {
  }

  /** `lastMessage?.content?.[0]?.text?.value`. */
  function FirstText(m: Option<Message>): Option<string> {
    match m
    case None => None
    case Some(msg) =>
      match msg.content
      case None => None
      case Some(parts) => if parts == [] then None else parts[0]
  }

  /** Lines 151-155: the reply. */
  function ReplyFrom(data: seq<Message>): string {
    var assistants := Assistants(data);
    var last := if assistants == [] then None else Some(SortNewestFirst(assistants)[0]);
    var text := FirstText(last);
    if Truthy(text) then text.value else NoReply
  }

  /** What the reply is, in terms of the message list itself: the text of
      the first content part of the newest assistant message (the first listed
      on a tie), or `(No reply)` when there is no assistant message or that
      text is missing or empty. */
  lemma ReplyIsLatestAssistantText(data: seq<Message>)
    ensures (forall j :: 0 <= j < |data| ==> !IsAssistant(data[j])) ==> ReplyFrom(data) == NoReply
    ensures forall i: nat :: IsLatestAssistant(data, i) ==>
              ReplyFrom(data) == (if Truthy(FirstText(Some(data[i]))) then FirstText(Some(data[i])).value else NoReply)
  {
    NoAssistantsExactly(data);
    if Assistants(data) != [] {
      SortedHeadIsLatest(data);
      forall i: nat | IsLatestAssistant(data, i) ensures i == LatestAssistantIndex(data).value {
        LatestAssistantUnique(data, i, LatestAssistantIndex(data).value);
      }
    }
  }

  /** The reply is never empty. */
  lemma ReplyNeverEmpty(data: seq<Message>)
    ensures ReplyFrom(data) != ""
  {
  }
}
