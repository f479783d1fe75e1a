# Toby chat widget and its Netlify functions, modelled in Dafny

The models cover three parts of the system:

- The browser widget (`chatbot.js`). Its text pipeline turns an assistant reply into the HTML a bot bubble shows:
  - citation markers are stripped;
  - textual `[Source: …]` notes are repaired into canonical markers;
  - a small Markdown subset is formatted.

  The model also covers the bubbles the widget appends, the spinner, and the submit handler. The submit handler keeps the conversation's `thread_id`.
- The `chat-proxy` function. It validates the request, reuses or creates an Assistants thread, posts the message, starts a run, polls the run until it leaves `queued`/`in_progress`, then answers with the newest assistant message.
- The `start-run` function. It does the first half of a turn and stops at the first failed step.

## Layout

| module | file | contents |
|---|---|---|
| `Js` | js.dfy | JavaScript runtime facts: optional values, truthiness, `\s`, `\d`, line terminators, `String.prototype.trim` |
| `TextPipeline` | text_pipeline.dfy | the seven global regular expressions of the three rewriters, as one table-driven replace loop |
| `TextPipelineProofs` | text_pipeline_proofs.dfy | what stripping and repairing do |
| `FormatProofs` | format_proofs.dfy | what formatting does |
| `ChatWindow` | chat_window.dfy | the widget as a `Window` class (input, thread id, message list) |
| `AssistantService` | assistant_service.dfy | the calls the handlers make and the answers a scripted service gives |
| `ReplySelection` | reply_selection.dfy | filter, stable newest-first sort, first text part |
| `ChatProxy` | chat_proxy.dfy | the chat-proxy handler |
| `ChatProxyProofs` | chat_proxy_proofs.dfy | the chat-proxy handler's guarantees |
| `StartRun` | start_run.dfy | the start-run handler and its guarantees |
| `EndToEnd` | end_to_end.dfy | the widget with chat-proxy behind its fetch |
| `SeqFacts` | seq_facts.dfy | sequence reassociation facts used by the proofs |

### The handlers

Each handler has two forms:

- a reference function of the request, the environment and a `Script`. The function gives the turn's outcome and every service call made, in order. A `Script` lists what the service answers to each call;
- the handler itself, as a method. Chat-proxy's poll is a `while` loop. Each method is proved to produce exactly the reference function's turn.

The lemmas state the handlers' guarantees about the reference functions.

### Stripping twice

`stripCitations` is not idempotent. On `【1:2†a【3:4†b】†c】`, one pass deletes only the inner marker, leaving `【1:2†a†c】`. That result is itself a marker, so a second pass deletes it (`TextPipelineProofs.StripNotIdempotent`).

## Model

| member | source | states |
|---|---|---|
| `Js.Trim` | chatbot.js:78 | the result has no white space at either end, is no longer than the input, and is empty exactly when the input is all white space |
| `Js.TrimKeepsMiddle` | chatbot.js:78 | trimming removes only white space at the two ends: the input is white space, then the result, then white space |
| `TextPipeline.CitationAt` | chatbot.js:37 | a citation match ends after the position it starts at, inside the text, and is replaced by nothing |
| `TextPipeline.LazyUntil` | chatbot.js:24 | a lazy group's closer, when found, lies after the group's start and is exactly the closer at the position reported |
| `TextPipelineProofs.ReplaceSkips` | chatbot.js:37 | a global replace copies every character where no match starts |
| `TextPipelineProofs.ReplaceIdle` | chatbot.js:37 | a global replace with no match anywhere leaves the text unchanged |
| `TextPipelineProofs.MarkerMatches` | chatbot.js:37 | every well-formed marker matches the citation regex, and the match spans the whole marker whatever follows it |
| `TextPipelineProofs.MatchIsMarker` | chatbot.js:37 | conversely, whatever the citation regex matches is a well-formed marker, so stripping deletes markers and nothing else |
| `TextPipelineProofs.StripAroundMatch` | chatbot.js:37 | a match at the start of a suffix is deleted, and stripping the text around it is independent on both sides |
| `TextPipelineProofs.StripRemovesMarker` | chatbot.js:36-38 | a well-formed marker, with or without its note, is deleted wherever it stands, and the text on its two sides is stripped independently |
| `TextPipelineProofs.StripLeavesUnmarkedText` | chatbot.js:36-38 | text without `【` comes back unchanged |
| `TextPipelineProofs.StripOnlyDeletes` | chatbot.js:36-38 | stripping never lengthens the text and only removes characters (multiset inclusion) |
| `TextPipelineProofs.StripExamples` | chatbot.js:37 | the markers `【3:7†Manual A†lines】` and `【3:7†Manual A】` between two letters vanish |
| `TextPipelineProofs.StripKeepsOpenMarker` | chatbot.js:37 | an unclosed marker is kept |
| `TextPipelineProofs.StripInnerMarkerFirst` | chatbot.js:37 | in a marker nested in another, only the inner one is deleted |
| `TextPipelineProofs.StripOuterMarkerSecond` | chatbot.js:37 | what remains of that nesting is itself a marker and is deleted |
| `TextPipelineProofs.StripNotIdempotent` | chatbot.js:36-38 | stripping twice differs from stripping once on the nested example |
| `TextPipelineProofs.LazyIsFirst` | chatbot.js:32-33 | a lazy group's closer is the first one: no closer and no line terminator occurs before it |
| `TextPipelineProofs.IndexPairMatches` | chatbot.js:32-33 | `digits:digits]` is captured with its two index groups and ends where the text ends |
| `TextPipelineProofs.SourceRuleRewrites` | chatbot.js:32-33 | each repair rule rewrites its source note into the canonical marker `【n:m†name†lines】` |
| `TextPipelineProofs.SourceRuleIdle` | chatbot.js:32-33 | a repair rule leaves text alone when its bracket closer occurs nowhere |
| `TextPipelineProofs.RepairRewritesSourceNote` | chatbot.js:30-34 | the two rules in order turn a doubled- or single-bracket source note into the canonical marker |
| `TextPipelineProofs.RepairExamples` | chatbot.js:30-34 | both bracket forms of `[Source: Manual A…【3:7]` become `【3:7†Manual A†lines】` |
| `TextPipelineProofs.RepairLeavesPlainText` | chatbot.js:30-34 | text with no `[Source:` comes back unchanged |
| `TextPipelineProofs.NoBracketNoSource` | chatbot.js:32-33 | text without `[` contains no `[Source:` |
| `FormatProofs.BoldThenPlain` | chatbot.js:24 | `**t**` becomes `<strong>t</strong>` and the text after it is copied |
| `FormatProofs.NumberedTwoItems` | chatbot.js:25 | two consecutive `N. text` lines each become a numbered paragraph, still separated by a line feed |
| `FormatProofs.NumberedAfterBlankLine` | chatbot.js:25 | the numbered-line rule leaves an opening line and blank line alone and rewrites the list after them |
| `FormatProofs.ParagraphBetween` | chatbot.js:26 | a blank line becomes `<br><br>` while a single line feed is left for the next rule |
| `FormatProofs.LineBreakBetween` | chatbot.js:27 | a single line feed becomes `<br>` |
| `FormatProofs.LineBreakRemovesLineFeeds` | chatbot.js:27 | after the last rule no line feed is left |
| `FormatProofs.FormatHasNoLineFeed` | chatbot.js:22-28 | formatted text never contains a line feed |
| `FormatProofs.FormatLeavesPlainText` | chatbot.js:22-28 | one-line text without `*` not starting with a digit comes back unchanged |
| `FormatProofs.FormatBoldParagraphList` | chatbot.js:22-28 | a bold heading line, a blank line and a two-item list come out as the strong element, `<br><br>`, and the two numbered paragraphs joined by `<br>` |
| `FormatProofs.FormatExample` | chatbot.js:22-28 | the concrete reply `**Hi** there`, blank line, `1. First`, `2. Second` formats as expected |
| `ChatWindow.ReplyText` | chatbot.js:102 | the shown text is the trimmed `reply` when truthy, else the trimmed `response` when truthy, else `(No response)`; never padded with white space |
| `ChatWindow.Window.constructor` | chatbot.js:1-5 | the list starts empty and `thread_id` starts `null` |
| `ChatWindow.Window.CreateBubble` | chatbot.js:40-69 | one entry is appended: a bot message for `bot`, a user bubble otherwise; its position is returned |
| `ChatWindow.Window.RemoveBubble` | chatbot.js:104 | `remove()` on a bot bubble empties its wrapper in place, and on a user bubble removes it from the list |
| `ChatWindow.Window.ShowSpinner` | chatbot.js:71-73 | the spinner bubble is appended and shows the spinner markup as written |
| `ChatWindow.Window.Submit` | chatbot.js:76-114 | blank input changes nothing. Otherwise the trimmed message is sent with the current thread id, the input is cleared, and three entries are appended: the user bubble, the emptied spinner wrapper, and the reply or the fallback. The thread id is replaced only by a usable answer's |
| `ChatWindow.Window.Receive` | chatbot.js:96-113 | the spinner is removed, a usable answer's thread id is taken, and its reply text or the fallback is shown |
| `ChatWindow.SubmitKeepsTranscript` | chatbot.js:76-105 | a submitted turn keeps the message list a sequence of whole turns |
| `ChatWindow.TrimTwice` | chatbot.js:78 | the trimmed message is already trimmed |
| `ChatWindow.BlankInputSendsNothing` | chatbot.js:78-79 | the message is empty exactly when the input is only white space |
| `ChatWindow.UserTextVerbatim` | chatbot.js:40-65 | a user bubble shows Markdown as typed while a bot bubble renders it |
| `ChatWindow.BoldAlone` | chatbot.js:22-28 | a lone bold span formats to one strong element |
| `ChatWindow.StrongStays` | chatbot.js:22-28 | a strong element is left alone by all four formatting rules |
| `ChatWindow.PlainBotText` | chatbot.js:42-44 | one-line text with no bracket, `*` or leading digit is shown by a bot bubble as it is |
| `ChatWindow.SpinnerShownAsWritten` | chatbot.js:72 | the spinner text passes the whole pipeline unchanged |
| `ChatWindow.FallbackShownAsWritten` | chatbot.js:110 | the fallback text passes the whole pipeline unchanged |
| `ChatWindow.StripKeepsIndexPair` | chatbot.js:37 | `【digits:digits]` is not a citation marker and survives stripping |
| `ChatWindow.RepairedMarkerSurvives` | chatbot.js:42-44 | a source note in a bot reply is shown as the canonical marker: it survives stripping, is repaired, and formatting keeps it |
| `ChatWindow.MarkerFormatsAsWritten` | chatbot.js:22-28 | formatting leaves the canonical marker alone |
| `ChatWindow.CanonicalIsMarker` | chatbot.js:32-37 | the canonical marker is a citation marker with note `lines` |
| `ChatWindow.StrippingAfterRepairWouldDeleteIt` | chatbot.js:42-43 | were the order reversed, stripping would delete the repaired marker |
| `ReplySelection.Assistants` | netlify/functions/chat-proxy.js:152 | the filter is never longer than the list |
| `ReplySelection.AssistantsExactly` | netlify/functions/chat-proxy.js:152 | the filter keeps exactly the assistant messages |
| `ReplySelection.Insert` | netlify/functions/chat-proxy.js:153 | insertion adds one message, keeps all the others, and puts the new one first on a tie |
| `ReplySelection.SortNewestFirst` | netlify/functions/chat-proxy.js:153 | the sort is a permutation |
| `ReplySelection.SortIsNewestFirst` | netlify/functions/chat-proxy.js:153 | the sorted list is ordered by `created_at`, newest first |
| `ReplySelection.LatestAssistantIndex` | netlify/functions/chat-proxy.js:151-153 | there is an index exactly when there is an assistant message; it is the newest, and the first listed on a tie |
| `ReplySelection.LatestAssistantUnique` | netlify/functions/chat-proxy.js:151-153 | there is only one such message |
| `ReplySelection.SortedHeadIsLatest` | netlify/functions/chat-proxy.js:151-153 | the head of the sorted assistant messages is that newest, first-listed message |
| `ReplySelection.ReplyIsLatestAssistantText` | netlify/functions/chat-proxy.js:151-155 | the reply is the first content part's text of the newest assistant message, or `(No reply)` when there is none or its text is missing or empty |
| `ReplySelection.ReplyNeverEmpty` | netlify/functions/chat-proxy.js:155 | the reply is never empty |
| `ChatProxy.HandleChat` | netlify/functions/chat-proxy.js:19-178 | the handler gives exactly the outcome and the call sequence of the reference turn |
| `ChatProxy.Converse` | netlify/functions/chat-proxy.js:99-166 | the post, run, poll and list step gives exactly the reference exchange after whatever calls came before |
| `ChatProxy.Poll` | netlify/functions/chat-proxy.js:124-138 | the loop gives exactly the reference poll |
| `ChatProxyProofs.PollRounds` | netlify/functions/chat-proxy.js:124-138 | when status `i` is the first not pending, there are `i-k+1` rounds of one 1500 ms pause and one run fetch, alternating, and nothing else. The poll ends on that status, or on an exception if that answer is not a status body |
| `ChatProxyProofs.PollExhausted` | netlify/functions/chat-proxy.js:124-138 | when every status is pending the handler is still polling after one round per status |
| `ChatProxyProofs.PollOnlyPolls` | netlify/functions/chat-proxy.js:126-135 | the poll only pauses and fetches the given run on the given thread |
| `ChatProxyProofs.ExchangeCalls` | netlify/functions/chat-proxy.js:99-149 | the exchange starts with one post, then one run unless the post was rejected. It creates no thread and lists messages at most once |
| `ChatProxyProofs.PreflightAnswered` | netlify/functions/chat-proxy.js:23-33 | a preflight is an empty 200 with no call |
| `ChatProxyProofs.InvalidBodyRejected` | netlify/functions/chat-proxy.js:38-52 | a body that does not parse, or parses to `null`, is a 400 with no call |
| `ChatProxyProofs.MissingMessageRejected` | netlify/functions/chat-proxy.js:54-63 | a missing or empty message, including an absent body, is a 400 with no call |
| `ChatProxyProofs.MisconfigurationRejected` | netlify/functions/chat-proxy.js:66-81 | a missing API key or assistant id is a 500 with no call |
| `ChatProxyProofs.CallsIffAdmitted` | netlify/functions/chat-proxy.js:23-95 | the service is called if and only if validation passes |
| `ChatProxyProofs.ThreadReused` | netlify/functions/chat-proxy.js:84-95 | a truthy `thread_id` creates no thread and is posted on as given |
| `ChatProxyProofs.ThreadCreated` | netlify/functions/chat-proxy.js:84-95 | no usable `thread_id` creates exactly one thread, first. The message is posted on the created id, and a failed creation ends the turn with a 500 |
| `ChatProxyProofs.OnePostThenOneRun` | netlify/functions/chat-proxy.js:99-120 | exactly one post on the thread used, then exactly one run on it unless the post was rejected |
| `ChatProxyProofs.TurnIsExchange` | netlify/functions/chat-proxy.js:84-166 | the turn is the optional thread creation followed by the exchange on the thread used |
| `ChatProxyProofs.ExchangePolls` | netlify/functions/chat-proxy.js:124-149 | the exchange pauses and fetches once per round, and ends with the single message-list call when the poll settles |
| `ChatProxyProofs.PollThenList` | netlify/functions/chat-proxy.js:124-149 | the whole turn makes `i+1` pauses and fetches. Whatever the final status, it then lists the messages of the thread used, once and last |
| `ChatProxyProofs.ThreeRoundsExample` | netlify/functions/chat-proxy.js:124-141 | queued, in progress, completed: three pauses, three fetches, then the list |
| `ChatProxyProofs.FailedRunStillListed` | netlify/functions/chat-proxy.js:124-166 | a failed run is not a separate path: the messages are listed and the answer is a 200 |
| `ChatProxyProofs.SuccessBody` | netlify/functions/chat-proxy.js:141-166 | a 200 goes only to an admitted request whose list came back with `data`, and carries the chosen reply and the thread used |
| `ChatProxyProofs.OneThread` | netlify/functions/chat-proxy.js:84-149 | every call after the thread is known is on that thread |
| `StartRun.ErrorText` | netlify/functions/start-run.js:113 | the error text is the exception's message when that is non-empty, and `Internal server error` when it is empty |
| `StartRun.StepError` | netlify/functions/start-run.js:47-98 | a step throws on a network failure. It also throws on a non-ok answer, with the step's heading and the answer's text. For a step that reads JSON, it throws on a body that does not parse, with the parse error's message. Otherwise it does not throw |
| `StartRun.HandleStart` | netlify/functions/start-run.js:3-116 | the handler gives exactly the response and the call sequence of the reference turn |
| `StartRun.PreflightAnswered` | netlify/functions/start-run.js:7-17 | a preflight is an empty 200 with no call |
| `StartRun.MissingBodyRejected` | netlify/functions/start-run.js:20-26 | no body is a 400 with no call |
| `StartRun.MalformedBodyFails` | netlify/functions/start-run.js:28 | a body that does not parse, or parses to `null`, is a 500 with the exception's message and no call |
| `StartRun.MissingFieldsRejected` | netlify/functions/start-run.js:33-44 | a missing message, API key or assistant id is a 400 with no call |
| `StartRun.CallsIffAccepted` | netlify/functions/start-run.js:20-98 | the service is called if and only if the checks pass |
| `StartRun.ThreadCreatedIffMissing` | netlify/functions/start-run.js:47-64 | a thread is created if and only if `thread_id` is falsy, at most once; a truthy one is posted on first |
| `StartRun.FirstFailureStops` | netlify/functions/start-run.js:47-115 | every call but the last succeeded. The answer is a 500 exactly when the last failed, and carries that step's message |
| `StartRun.SuccessfulStart` | netlify/functions/start-run.js:66-107 | on success the calls are the optional creation, one post and one run, and the body carries the thread used and the run created |
| `EndToEnd.ReplyReachesBubble` | chatbot.js:96-113 | the widget shows the proxy's trimmed reply and keeps the thread the proxy used exactly when the handler answered 200. Otherwise it shows the fallback |
| `EndToEnd.NoOtherSuccess` | netlify/functions/chat-proxy.js:19-178 | a POST is answered 200, 400 or 500 only; a 200 always carries a reply and any other status an error |
| `EndToEnd.Chat` | chatbot.js:76-114 | one submitted turn with chat-proxy behind the fetch leaves the window as `Submit` does for that turn's answer |
| `EndToEnd.NextTurnReusesThread` | chatbot.js:92-99 | after a 200 on a truthy thread the next request carries that id, and the handler posts on it without creating a thread |
| `EndToEnd.FirstTurnCreatesThread` | chatbot.js:5 | the first turn of a page has no thread, so the handler creates exactly one |

## Left out

- Page behaviour. The auto-growing textarea, the Enter shortcut, scrolling, the input height reset, and the avatar element's attributes are not modelled: they are presentation only.
- Response headers. chat-proxy.js reads `event.headers.origin` at module scope (lines 9-11), where `event` is not defined, and its handlers use an undeclared `ALLOWED_ORIGIN` (lines 27, 47, 58, 74, 162, 172). As written, loading the module or building any response would throw. The model gives each path the status and body the code evidently intends, and leaves headers out.
- netlify/functions/check-run.js is not part of this model.
- Logging (`console.log`, `console.error`) is not modelled: it has no effect on results.
- Timing. The 1500 ms `setTimeout` pause is recorded as a `Sleep` call rather than a delay. The platform's function timeout is not modelled either: a poll that never settles is the outcome `StillPolling`, reached when the scripted service has no answer left.
- The service and the network are not modelled directly: a `Script` of replies stands for them, and the HTTP request details (URLs, headers, authorisation) are not modelled.
- JSON values. Only the fields the code reads are kept. A request body that parses to a number, a string or a boolean has both fields absent. A field of the wrong JSON type (a number for `message`, say) is not modelled. `created_at` is an integer, so a non-numeric comparator result is not modelled.
- Text is a sequence of Unicode characters. UTF-16 surrogate pairs are not modelled, and this is harmless for the characters the patterns mention.
- The DOM is not modelled as a tree: the message list is a sequence of entries. A bot entry keeps its source text, and `ChatWindow.Display` gives the inner HTML the bubble shows.
- The widget's fetch: `EndToEnd.AnswerOf` turns a handler outcome into what the fetch sees; other network failures are the `NetworkError` answer.
- `ReplySelection.Assistants`: its own contract only bounds the length, and which messages it keeps is stated by `ReplySelection.AssistantsExactly`.
- `TextPipeline.CitationAt`: its own contract gives only the bounds of a match and its empty replacement. Which spans it matches is stated by `TextPipelineProofs.MarkerMatches` and `TextPipelineProofs.MatchIsMarker`.
