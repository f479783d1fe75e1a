/** The chat widget of chatbot.js: the bubbles it appends to the message
    list (createBubble, lines 40-69), the spinner (lines 71-73) and the
    submit handler (lines 76-114), which holds the conversation's one piece
    of state, `thread_id`.

    The message list is kept as the sequence of its children. A user bubble
    shows its text as plain text; a bot message is a wrapper holding the
    avatar and a bubble built from a text, whose inner HTML is that text
    rewritten (`Display`). */
module ChatWindow {
  import opened Js
  import opened AssistantService
  import opened TextPipeline
  import opened TextPipelineProofs
  import opened FormatProofs

  /** One child of the message list. `BotMessage(Some(c))` is a wrapper whose
      bubble was built from the text `c`; `BotMessage(None)` is a wrapper
      whose bubble was removed: `remove()` is called on the bubble that
      createBubble returns, which is the inner element, so the wrapper and its
      avatar stay in the list. */
  datatype Entry = UserBubble(text: string) | BotMessage(bubble: Option<string>)

  /** Lines 71-73. */
  const Spinner: string := "<span class=" + "\"spinner\"></span>" + " Toby is" + " thinking..."

  /** Lines 109-112. */
  const Fallback: string := "\U{1F916} My circuits" + " got tangled for" + " a second." + " Can we try" + " that again?"

  /** Line 102. */
  const NoResponse: string := "(No response)"

  /** Lines 42-44: what a bot bubble shows for `content`. */
  function BotHtml(content: string): string {
    FormatMarkdown(RepairInlineCitations(StripCitations(content)))
  }

  /** Lines 46-65: the entry createBubble appends. */
  function Bubble(content: string, sender: string): Entry {
    if sender == "bot" then BotMessage(Some(content)) else UserBubble(content)
  }

  /** What an entry shows: a user bubble its `textContent`, a bot bubble its
      `innerHTML`, and an emptied wrapper no text at all. */
  function Display(e: Entry): string {
    match e
    case UserBubble(text) => text
    case BotMessage(None) => ""
    case BotMessage(Some(content)) => BotHtml(content)
  }

  /** The fields of the chat-proxy answer the widget reads. */
  datatype ReplyData = ReplyData(threadId: Option<string>, reply: Option<string>, response: Option<string>)

  /** What the widget's fetch gives: a network failure, or an answer with its
      `ok` flag and its body as read by `res.json()`. */
  datatype ClientAnswer = NetworkError | Answer(ok: bool, body: Parsed<ReplyData>)

  /** The request body the widget sends (line 92). */
  datatype ChatRequest = ChatRequest(message: string, threadId: Option<string>)

  /** The answer the `try` block gets through: `ok`, and a body that parses. */
  predicate Usable(a: ClientAnswer) {
    a.Answer? && a.ok && a.body.Json?
  }

  /** Line 102: `(data.reply || data.response || '(No response)').trim()`. */
  function ReplyText(d: ReplyData): (r: string)
    ensures r == [] || (!IsSpace(r[0]) && !IsSpace(r[|r| - 1]))
    ensures Truthy(d.reply) ==> r == Trim(d.reply.value)
    ensures !Truthy(d.reply) && Truthy(d.response) ==> r == Trim(d.response.value)
    ensures !Truthy(d.reply) && !Truthy(d.response) ==> r == NoResponse
  {
    var chosen := if Truthy(d.reply) then d.reply.value else if Truthy(d.response) then d.response.value else NoResponse;
    assert Trim(NoResponse) == NoResponse by {
      assert SkipSpaces(NoResponse, 0) == 0;
      assert DropTrailingSpaces(NoResponse, 0, |NoResponse|) == |NoResponse|;
    }
    Trim(chosen)
  }

  /** The text of the bot message that ends a submitted turn. */
  function Shown(a: ClientAnswer): string {
    if Usable(a) then ReplyText(a.body.value) else Fallback
  }

  /** Every submitted turn leaves three children: the user's bubble with the
      trimmed, non-empty message, the spinner's emptied wrapper, and the bot's
      answer. */
  predicate Transcript(entries: seq<Entry>) {
    && |entries| % 3 == 0
    && forall t :: 0 <= t < |entries| / 3 ==> WholeTurn(entries[3 * t], entries[3 * t + 1], entries[3 * t + 2])
  }

  predicate WholeTurn(question: Entry, spinner: Entry, reply: Entry) {
    && question.UserBubble? && question.text != "" && Trim(question.text) == question.text
    && spinner == BotMessage(None)
    && reply.BotMessage? && reply.bubble.Some?
  }

  class Window {
    /** The textarea's value. */
    var input: string
    /** The closure variable `thread_id`. */
    var threadId: Option<string>
    /** The children of the message list. */
    var messages: seq<Entry>

    /** Lines 1-5: an empty list and no thread yet. */
    constructor (initialInput: string)
      ensures input == initialInput && threadId == None && messages == []
    {
      input := initialInput;
      threadId := None;
      messages := [];
    }

    /** Lines 40-69: appends the entry for `content` and returns the position
        of its bubble. */
    method CreateBubble(content: string, sender: string) returns (at: nat)
      modifies this
      ensures messages == old(messages) + [Bubble(content, sender)]
      ensures at == |old(messages)| && at < |messages|
      ensures input == old(input) && threadId == old(threadId)
    {
      at := |messages|;
      messages := messages + [Bubble(content, sender)];
    }

    /** `thinkingBubble.remove()`: the bubble at `at` leaves the list; for a
        bot message its wrapper stays behind, empty. */
    method RemoveBubble(at: nat)
      requires at < |messages|
      modifies this
      ensures messages == if old(messages)[at].BotMessage?
                          then old(messages)[at := BotMessage(None)]
                          else old(messages)[..at] + old(messages)[at + 1..]
      ensures input == old(input) && threadId == old(threadId)
    {
      if messages[at].BotMessage? {
        messages := messages[at := BotMessage(None)];
      } else {
        messages := messages[..at] + messages[at + 1..];
      }
    }

    /** Lines 71-73: the spinner's bubble, which shows the spinner text as
        written. */
    method ShowSpinner() returns (at: nat)
      modifies this
      ensures messages == old(messages) + [Bubble(Spinner, "bot")]
      ensures at == |old(messages)| && Display(messages[at]) == Spinner
      ensures input == old(input) && threadId == old(threadId)
    {
      SpinnerShownAsWritten();
      at := CreateBubble(Spinner, "bot");
    }

    /** Lines 76-114, with `answer` what the fetch to chat-proxy gives. An
        empty or blank input sends nothing and changes nothing. Otherwise the
        trimmed message is shown and sent with the current `thread_id`, the
        input is cleared, the spinner is shown and then removed, and the
        answer's reply (or the fallback text on any failure) is shown; the
        thread id is replaced by the answer's only when the answer is usable. */
    method Submit(answer: ClientAnswer) returns (sent: Option<ChatRequest>)
      modifies this
      ensures Trim(old(input)) == "" ==>
        sent == None && input == old(input) && threadId == old(threadId) && messages == old(messages)
      ensures Trim(old(input)) != "" ==>
        && sent == Some(ChatRequest(Trim(old(input)), old(threadId)))
        && input == ""
        && messages == old(messages) + [UserBubble(Trim(old(input))), BotMessage(None), Bubble(Shown(answer), "bot")]
        && threadId == if Usable(answer) then answer.body.value.threadId else old(threadId)
    {
      var message := Trim(input);
      if message == "" {
        return None;
      }
      var _ := CreateBubble(message, "user");
      input := "";
      var thinking := ShowSpinner();
      sent := Some(ChatRequest(message, threadId));
      Receive(thinking, answer);
      Replaced(old(messages), UserBubble(message), Bubble(Spinner, "bot"), BotMessage(None), Bubble(Shown(answer), "bot"));
    }

    /** Lines 96-113, once the fetch has given `answer`: the spinner's bubble
        at `thinking` is removed, `thread_id` is taken from a usable answer,
        and the reply (or the fallback text) is shown. */
    method Receive(thinking: nat, answer: ClientAnswer)
      requires thinking < |messages| && messages[thinking].BotMessage?
      modifies this
      ensures messages == old(messages)[thinking := BotMessage(None)] + [Bubble(Shown(answer), "bot")]
      ensures input == old(input)
      ensures threadId == if Usable(answer) then answer.body.value.threadId else old(threadId)
    {
      RemoveBubble(thinking);
      var shown: string;
      if Usable(answer) {
        threadId := answer.body.value.threadId;
        shown := ReplyText(answer.body.value);
      } else {
        shown := Fallback;
      }
      var _ := CreateBubble(shown, "bot");
    }
  }

  lemma Replaced<T>(s: seq<T>, a: T, b: T, b': T, c: T)
    ensures (s + [a] + [b])[|s| + 1 := b'] + [c] == s + [a, b', c]
  {
  }

  /** A submitted turn keeps the message list a sequence of whole turns. */
  lemma SubmitKeepsTranscript(before: seq<Entry>, message: string, shown: string)
    requires Transcript(before) && message != "" && Trim(message) == message
    ensures Transcript(before + [UserBubble(message), BotMessage(None), Bubble(shown, "bot")])
  {
    var after := before + [UserBubble(message), BotMessage(None), Bubble(shown, "bot")];
    forall t | 0 <= t < |after| / 3 ensures WholeTurn(after[3 * t], after[3 * t + 1], after[3 * t + 2]) {
      if t < |before| / 3 {
        assert after[3 * t] == before[3 * t] && after[3 * t + 1] == before[3 * t + 1] && after[3 * t + 2] == before[3 * t + 2];
      } else {
        assert 3 * t == |before|;
      }
    }
  }

  /** Trimming a trimmed text changes nothing. */
  lemma TrimTwice(s: string)
    ensures Trim(Trim(s)) == Trim(s)
  {
    var r := Trim(s);
    assert SkipSpaces(r, 0) == 0;
    assert DropTrailingSpaces(r, 0, |r|) == |r|;
  }

  /** Lines 78-79: input that is empty or only white space sends nothing. */
  lemma BlankInputSendsNothing(s: string)
    ensures Trim(s) == "" <==> AllSpace(s)
  {
  }

  /** User text is shown as typed (line 63), markup included, while the
      same text from the bot is rewritten. */
  lemma UserTextVerbatim(t: string)
    requires '*' !in t && '【' !in t && '[' !in t && NoLineTerminator(t)
    ensures Display(Bubble("**" + t + "**", "user")) == "**" + t + "**"
    ensures Display(Bubble("**" + t + "**", "bot")) == "<strong>" + t + "</strong>"
  {
    var s := "**" + t + "**";
    assert '【' !in s && '[' !in s;
    assert StripCitations(s) == s by { StripLeavesUnmarkedText(s); }
    assert RepairInlineCitations(s) == s by { NoBracketNoSource(s); RepairLeavesPlainText(s); }
    BoldAlone(t);
  }

  /** A bold span on its own becomes one strong element and nothing else. */
  lemma BoldAlone(t: string)
    requires '*' !in t && NoLineTerminator(t)
    ensures FormatMarkdown("**" + t + "**") == "<strong>" + t + "</strong>"
  {
    var u := "<strong>" + t + "</strong>";
    assert ReplaceAll(Bold, "**" + t + "**") == u by {
      assert "**" + t + "**" + "" == "**" + t + "**" && u + "" == u;
      BoldThenPlain(t, "");
    }
    StrongStays(t);
  }

  /** The strong element is left alone by all four formatting rules. */
  lemma StrongStays(t: string)
    requires '*' !in t && NoLineTerminator(t)
    ensures var u := "<strong>" + t + "</strong>";
      ReplaceAll(Bold, u) == u && FormatMarkdown(u) == u
  {
    var a, c := "<strong>", "</strong>";
    var u := a + t + c;
    assert OneLine(a) by {}
    assert OneLine(c) by {}
    assert OneLine(t) by {
      forall m | 0 <= m < |t| ensures !IsLineTerminator(t[m]) {
        NoLineTerminatorAt(t, m);
      }
    }
    OneLineConcat(a, t);
    OneLineConcat(a + t, c);
    assert u[0] == '<';
    ReplaceIdle(Bold, u);
    FormatLeavesPlainText(u);
  }

  /** A character none of the rewriting rules looks for. */
  predicate PlainChar(c: char) {
    c != '【' && c != '[' && c != '*' && !IsLineTerminator(c)
  }

  predicate Plain(s: string) {
    forall i :: 0 <= i < |s| ==> PlainChar(s[i])
  }

  lemma PlainConcat(a: string, b: string)
    requires Plain(a) && Plain(b)
    ensures Plain(a + b)
  {
  }

  /** Text of one line with no citation bracket, no `[`, no `*`, and not
      starting with a digit is shown by a bot bubble exactly as it is. */
  lemma PlainBotText(s: string)
    requires Plain(s)
    requires s == [] || !IsDigit(s[0])
    ensures BotHtml(s) == s
  {
    StripLeavesUnmarkedText(s);
    assert '[' !in s && '*' !in s;
    NoBracketNoSource(s);
    RepairLeavesPlainText(s);
    FormatLeavesPlainText(s);
  }

  /** The spinner passes through the pipeline unchanged. */
  lemma SpinnerShownAsWritten()
    ensures BotHtml(Spinner) == Spinner
  {
    var a, b, c, d := "<span class=", "\"spinner\"></span>", " Toby is", " thinking...";
    assert Spinner == a + b + c + d && Spinner[0] == '<' by {}
    assert Plain(a) by {}
    assert Plain(b) by {}
    assert Plain(c) by {}
    assert Plain(d) by {}
    PlainConcat(a, b);
    PlainConcat(a + b, c);
    PlainConcat(a + b + c, d);
    PlainBotText(Spinner);
  }

  /** The fallback text passes through the pipeline unchanged. */
  lemma FallbackShownAsWritten()
    ensures BotHtml(Fallback) == Fallback
  {
    var a, b, c, d, e := "\U{1F916} My circuits", " got tangled for", " a second.", " Can we try", " that again?";
    assert Fallback == a + b + c + d + e && !IsDigit(Fallback[0]) by {}
    assert Plain(a) by {}
    assert Plain(b) by {}
    assert Plain(c) by {}
    assert Plain(d) by {}
    assert Plain(e) by {}
    PlainConcat(a, b);
    PlainConcat(a + b, c);
    PlainConcat(a + b + c, d);
    PlainConcat(a + b + c + d, e);
    PlainBotText(Fallback);
  }

  /** No citation marker starts at a `【` followed by `digits:digits]`. */
  lemma StripKeepsIndexPair(x: string, segment: string, position: string)
    requires '【' !in x
    requires |segment| > 0 && AllIn(segment, Digit)
    requires |position| > 0 && AllIn(position, Digit)
    ensures StripCitations(x + "【" + segment + ":" + position + "]") == x + "【" + segment + ":" + position + "]"
  {
    var s := x + "【" + segment + ":" + position + "]";
    var q := |x| + 1;
    assert s[q..] == segment + ":" + position + "]";
    NotInClass(segment, Digit, '【');
    NotInClass(position, Digit, '【');
    forall m | 0 <= m < |s| ensures CitationAt(s, m).None? {
      if m == |x| {
        IndexPairMatches(s, |x|, q, segment, position);
      } else {
        assert s[m] != '【' by {
          if m < |x| {
            assert s[m] == x[m];
          } else {
            assert s[m] == s[q..][m - q];
          }
        }
      }
    }
    ReplaceIdle(Citation, s);
  }

  /** Lines 42-44 and 56: a source note in a bot reply survives stripping
      (it is not a citation marker yet), is repaired into the canonical
      marker, and formatting leaves that marker alone; so the marker is
      what the bubble shows. */
  lemma RepairedMarkerSurvives(doubled: bool, ws: string, name: string, segment: string, position: string)
    requires PlainSourceName(ws, name) && '【' !in name && '*' !in name
    requires |segment| > 0 && AllIn(segment, Digit)
    requires |position| > 0 && AllIn(position, Digit)
    ensures BotHtml(SourceNote(if doubled then DoubledBracket else SingleBracket, ws, name, segment, position))
            == CanonicalMarker(segment, position, name)
  {
    var c := if doubled then DoubledBracket else SingleBracket;
    var x := "[Source:" + ws + name + (if doubled then "】】" else "】");
    NotInClass(ws, Space, '【');
    assert SourceNote(c, ws, name, segment, position) == x + "【" + segment + ":" + position + "]";
    StripKeepsIndexPair(x, segment, position);
    RepairRewritesSourceNote(doubled, ws, name, segment, position);
    MarkerFormatsAsWritten(segment, position, name);
  }

  /** No `*` and no line terminator. */
  predicate OneLine(s: string) {
    forall i :: 0 <= i < |s| ==> s[i] != '*' && !IsLineTerminator(s[i])
  }

  lemma OneLineConcat(a: string, b: string)
    requires OneLine(a) && OneLine(b)
    ensures OneLine(a + b)
  {
  }

  /** Formatting leaves the canonical marker alone. */
  lemma MarkerFormatsAsWritten(segment: string, position: string, name: string)
    requires AllIn(segment, Digit) && AllIn(position, Digit)
    requires '*' !in name && forall m :: 0 <= m < |name| ==> !IsLineTerminator(name[m])
    ensures FormatMarkdown(CanonicalMarker(segment, position, name)) == CanonicalMarker(segment, position, name)
  {
    var a, b, c, d := "【", ":", "†", "†lines】";
    assert OneLine(a) by {}
    assert OneLine(b) by {}
    assert OneLine(c) by {}
    assert OneLine(d) by {}
    assert OneLine(segment) && OneLine(position) && OneLine(name);
    OneLineConcat(a, segment);
    OneLineConcat(a + segment, b);
    OneLineConcat(a + segment + b, position);
    OneLineConcat(a + segment + b + position, c);
    OneLineConcat(a + segment + b + position + c, name);
    OneLineConcat(a + segment + b + position + c + name, d);
    var marker := CanonicalMarker(segment, position, name);
    assert marker == a + segment + b + position + c + name + d;
    assert marker[0] == '【';
    FormatLeavesPlainText(marker);
  }

  /** The canonical marker is a citation marker with the note `lines`. */
  lemma CanonicalIsMarker(segment: string, position: string, name: string)
    ensures AllIn("lines", NoteChar)
    ensures "" + Marker(segment, position, name, Some("lines")) + "" == CanonicalMarker(segment, position, name)
  {
    var n := "lines";
    assert forall m :: 0 <= m < |n| ==> InClass(n[m], NoteChar);
    assert "†" + n + "】" == "†lines】";
  }

  /** The order matters: were the repaired marker stripped afterwards, it
      would vanish. */
  lemma StrippingAfterRepairWouldDeleteIt(ws: string, name: string, segment: string, position: string)
    requires PlainSourceName(ws, name) && |name| > 0 && AllIn(name, NameChar)
    requires |segment| > 0 && AllIn(segment, Digit)
    requires |position| > 0 && AllIn(position, Digit)
    ensures StripCitations(RepairInlineCitations(SourceNote(SingleBracket, ws, name, segment, position))) == ""
  {
    RepairRewritesSourceNote(false, ws, name, segment, position);
    CanonicalIsMarker(segment, position, name);
    StripRemovesMarker("", segment, position, name, Some("lines"), "");
    assert StripCitations("") == "";
  }
}
