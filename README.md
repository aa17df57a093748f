# Moderator chat — a Dafny model of its decision logic

The moderator chat is a small Next.js application. Users post messages to a shared log on one
page. An AI moderator answers on a timer (every minute at high rate, every five minutes at low
rate) and when someone presses "Trigger Moderator". It also attempts one answer right after the
first message. The page
gets each moderator turn from a server route. The route checks the posted body, builds a prompt
(one system message, then the last ten messages) and asks the OpenAI completion service for a
reply.

This project models those two pieces and proves their properties:

- `moderator_page.dfy`, module `ModeratorPage`: the page (`app/page.tsx`). Class `ModeratorChat`
  has one field per piece of React state and one for the `lastModeratorResponseTime` ref, which
  starts at 0. It has one method per handler:
  - `Tick` is one firing of the ten-second interval.
  - `BeginAttempt` and `CompleteAttempt` are the two halves of `handleModeratorResponse`, before
    and after the `await`.
  - `Submit`, `ManualTrigger` and `TopicSet` are the other handlers; three small setters model
    the switches and the text field.
  - `TickFires` is the timer's pure rule.
  - `Valid()` is the class invariant the methods keep: every log entry is one the page can create,
    and a set topic is trimmed and non-empty.
- `chat_route.dfy`, module `ChatRoute`: the route (`app/api/chat/route.ts`), written as pure
  functions.
  - `Validate` runs the checks in their order: messages, then topic, then API key. When they all
    pass it builds the completion request.
  - `Interpret` reads the backend's answer.
  - `Handle` composes the two into a `Result`; `Post` turns that into the HTTP answer
    (200 with the reply, or 500 with the error message).
  - `RecentTurns` is `messages.slice(-10)`.
- `js.dfy`, module `Js`: the JavaScript built-ins the two files rely on. These are string
  truthiness, `trim` (with ECMAScript's whitespace set) and `slice` with a negative start.
- `conversation.dfy`, module `Conversation`: the log entry `{ role, content, timestamp }` and the
  body the page posts.
- `integration.dfy`, module `Integration`: the page and the route joined over HTTP. `Transmit` is
  the JSON body as the route reads it, and `Receive` is the route's answer as the page reads it.
  It holds the lemmas that follow an attempt from the page to the route and back.
- `wrappers.dfy`: `Option` and `Result`.

The clock (`Date.now()`) enters as integer parameters. `CompleteAttempt` takes two readings: one
stamps the appended message and the other sets `lastModeratorResponseTime`, as the two separate
calls at app/page.tsx:65-66 do. An attempt's `fetch` is not modelled. The request it would post
is returned by the method that starts the attempt. Its answer enters `CompleteAttempt` as a
`FetchOutcome`. On the route side, the completion service's answer enters as a `BackendOutcome`.

Points where the code's behaviour is easy to misread; the model follows the code:

- **No single-flight.** The timer path never consults `isLoading` (app/page.tsx:36), so a tick
  can start a second attempt while one is in flight. Only the manual trigger is refused while
  loading. `Tick`'s contract says so, and `ModeratorPage.OverlappingTicks` shows two tick-started
  attempts around a refused manual trigger.
- **Last response time.** It starts at 0 (app/page.tsx:22). So the first tick with a non-empty
  log fires at once.
- **Topic check.** The route checks that the topic is truthy (app/api/chat/route.ts:11), not
  that it is non-blank. The page only ever sends a trimmed, non-empty topic.
- **Role name.** The moderator's messages have role `"assistant"`.
- **First-message bootstrap.** The bootstrap posts the log as it was before the new message,
  so the route always rejects it (see "## Findings").

## Model

| member | source | states |
|---|---|---|
| `Js.TrimStart` | app/page.tsx:77 | `s.trimStart()` is no longer than `s` and keeps its last character |
| `Js.TrimEnd` | app/page.tsx:77 | `s.trimEnd()` is no longer than `s` and keeps its first character |
| `Js.Trim` | my-app/components/TopicModal.tsx:16-17 | `s.trim()` is no longer than `s` and is empty or ends with a non-space |
| `Js.SliceFrom` | app/api/chat/route.ts:41 | `s.slice(start)` is no longer than `s`; a start at or past the end gives nothing, a non-negative start below the end leaves |s| - start elements, and a negative start `-k` leaves min(k, n) elements; which elements they are is stated for `slice(-k)` by `Js.SliceFromNegative` |
| `Js.TrimStartDropsLeadingSpace` | app/page.tsx:77 | trimming the start keeps a suffix; every dropped character is whitespace and the kept part starts with a non-space |
| `Js.TrimEndDropsTrailingSpace` | app/page.tsx:77 | trimming the end keeps a prefix; every dropped character is whitespace and the kept part ends with a non-space |
| `Js.TrimEmptyIffBlank` | app/page.tsx:77 | `s.trim()` is empty if and only if every character of `s` is whitespace |
| `Js.IsBlank` | app/page.tsx:77 | the `!input.trim()` test holds exactly for all-whitespace input |
| `Js.TrimFixedIffTrimmed` | my-app/components/TopicModal.tsx:16-17 | `trim` leaves a string unchanged if and only if it is empty or starts and ends with a non-space |
| `Js.TrimIdempotent` | my-app/components/TopicModal.tsx:16-17 | the result of `trim` is trimmed, and trimming it again changes nothing |
| `Js.SliceFromNegative` | app/api/chat/route.ts:41 | `slice(-k)` is the last min(k, n) elements, as a suffix |
| `ModeratorPage.ResponseInterval` | app/page.tsx:34 | 60000 ms (one minute) at high rate and 300000 ms (five minutes) at low rate |
| `ModeratorPage.RateName` | app/page.tsx:56 | the rate is posted as "high" or "low", and as "high" exactly at high rate |
| `ModeratorPage.TickFires` | app/page.tsx:32-36 | the tick rule never fires with an empty log or within one minute of the last response, and always fires with a non-empty log once five minutes have passed |
| `ModeratorPage.ErrorText` | app/page.tsx:61-69 | the shown error is the text that came with the failure or one of the two fixed defaults; a failure reported by the route always shows a non-empty text; a thrown Error shows its own message, and a throw without an Error shows "An unknown error occurred" |
| `ModeratorPage.DialogTopicOk` | my-app/components/TopicModal.tsx:14-19 | a topic the dialog hands over (a non-empty `trim()` result) meets `TopicSet`'s precondition |
| `ModeratorPage.TickBoundary` | app/page.tsx:32-36 | with a non-empty log, the tick fires exactly at last-response + interval and not one millisecond earlier |
| `ModeratorPage.TickMonotone` | app/page.tsx:32-36 | once the tick rule fires it keeps firing at later times until the last response time moves; high rate fires whenever low rate does |
| `ModeratorPage.AppendWellFormed` | app/page.tsx:65-80 | appending a non-blank user message or an assistant message keeps every log entry well formed |
| `ModeratorPage.ErrorTextOfFailure` | app/page.tsx:61-69 | a failure reported by the route shows the route's error text when that is truthy, and otherwise exactly the default text "An error occurred while fetching the response." |
| `ModeratorPage.IntendedBootstrapRequest` | app/page.tsx:83-85 | the corrected bootstrap request carries the earlier log unchanged followed by the new message, plus the topic and rate |
| `ModeratorPage.ModeratorChat.TimerActive` | app/page.tsx:30 | the interval runs if and only if the moderator is on and a topic is set; under the class invariant that topic is trimmed and non-empty |
| `ModeratorPage.ModeratorChat.constructor` | app/page.tsx:12-22 | empty log and input, no error, no topic, moderator off, low rate, not loading, dialog open, last response time 0 |
| `ModeratorPage.ModeratorChat.SetInput` | app/page.tsx:159-165 | the text field's value becomes the typed text; nothing else changes |
| `ModeratorPage.ModeratorChat.SetModeratorOn` | app/page.tsx:110-114 | the moderator switch sets `isModeratorOn`; nothing else changes |
| `ModeratorPage.ModeratorChat.SetHighRate` | app/page.tsx:120-125 | the rate switch sets `isHighRate`; nothing else changes |
| `ModeratorPage.ModeratorChat.TopicSet` | app/page.tsx:95-98 | the topic becomes the given one and the dialog closes; the invariant is kept |
| `ModeratorPage.ModeratorChat.BeginAttempt` | app/page.tsx:45-57 | without a topic nothing changes and nothing is posted; otherwise loading is set, the error cleared, and the snapshot, rate name and topic are posted |
| `ModeratorPage.ModeratorChat.CompleteAttempt` | app/page.tsx:59-72 | on success exactly one assistant message is appended after the unchanged log and the last response time becomes the second clock reading; on failure the log and last response time stay and the error is the route's text or a default; loading ends either way |
| `ModeratorPage.ModeratorChat.Tick` | app/page.tsx:30-39 | an attempt starts if and only if the moderator is on, a topic is set, the interval for the current rate has elapsed (inclusive) and the log is non-empty; `isLoading` is not consulted; a posted request has a trimmed non-empty topic and only entries the page creates |
| `ModeratorPage.ModeratorChat.ManualTrigger` | app/page.tsx:89-93 | an attempt starts if and only if nothing is loading, the log is non-empty and a topic is set; otherwise nothing changes; a posted request has a trimmed non-empty topic and only entries the page creates |
| `ModeratorPage.ModeratorChat.Submit` | app/page.tsx:75-87 | blank input or no topic changes nothing; otherwise exactly one user message with the untrimmed input is appended and the input cleared, and a bootstrap attempt starts if and only if the moderator is on and the log was empty, posting the pre-submit log, whose topic and entries are ones the page creates |
| `ModeratorPage.OverlappingTicks` | app/page.tsx:30-39 | two ticks during one loading attempt both start an attempt, while a manual trigger between them is refused |
| `ChatRoute.Instruction.Text` | app/api/chat/route.ts:20-29 | the system message has the length of its five parts and starts with the fixed lead and ends with the fixed tail whatever the topic and rate |
| `ChatRoute.InstructionEmbeds` | app/api/chat/route.ts:20-29 | the system message is the fixed lead, the topic, the fixed middle, the rate and the fixed tail, each at its offset |
| `ChatRoute.RecentTurns` | app/api/chat/route.ts:41 | the window holds min(10, n) messages, and they are the last ones of the log in their original order |
| `ChatRoute.RecentTurnsOfShortLog` | app/api/chat/route.ts:41 | a log of at most ten messages is forwarded whole |
| `ChatRoute.RecentTurnsAfterAppend` | app/api/chat/route.ts:41 | appending one message adds it at the end of the window and drops the oldest once the window is full |
| `ChatRoute.RecentTurnsOfFifteen` | app/api/chat/route.ts:41 | after fifteen messages exactly the last ten are forwarded, in order |
| `ChatRoute.Prompt` | app/api/chat/route.ts:39-42 | the prompt is one system message followed by the given turns, unchanged and in order |
| `ChatRoute.WindowedPromptShape` | app/api/chat/route.ts:39-42 | the prompt has 1 + min(10, n) entries: the system message, then the last min(10, n) messages in order |
| `ChatRoute.HasMessages` | app/api/chat/route.ts:7 | the messages check passes exactly for an array with at least one entry |
| `ChatRoute.Validate` | app/api/chat/route.ts:5-43 | an unparseable body fails with the parser's message; a missing, non-array or empty `messages` fails first; then a falsy topic; then a missing key; all checks passing is necessary and sufficient for success, and the request then carries the model, the key and the windowed prompt |
| `ChatRoute.Interpret` | app/api/chat/route.ts:46-58 | success if and only if the status is OK and the content is non-empty, and the result is then exactly that content; a non-OK status gives "OpenAI API error: " plus the backend's message or else the status text; empty content gives "No response received from OpenAI"; a thrown error keeps its message |
| `ChatRoute.Handle` | app/api/chat/route.ts:4-58 | a request failing validation gets that failure without the backend being consulted; a valid one gets the backend's interpreted answer |
| `ChatRoute.RejectedRequestIgnoresBackend` | app/api/chat/route.ts:7-18 | a request rejected by validation gets the same result whatever the backend would have answered |
| `ChatRoute.ToResponse` | app/api/chat/route.ts:58-67 | status 200 if and only if success, with the reply; every failure is status 500 with its message |
| `ChatRoute.Post` | app/api/chat/route.ts:3-69 | the status is 200 or 500; a success is a 200 carrying that reply, which is non-empty; every failure is a 500 carrying the failure's message |
| `Integration.Transmit` | app/page.tsx:56 | the body the route destructures at app/api/chat/route.ts:5 carries the page's log, rate and topic; its messages check passes exactly for a non-empty log and its topic check exactly for a non-empty topic |
| `Integration.IsOk` | app/page.tsx:61 | `res.ok` holds for the route's 200 and fails for its 500 |
| `Integration.Receive` | app/page.tsx:59-65 | the page sees success exactly for an OK status, with the route's reply; otherwise it sees the route's error field |
| `Integration.RouteAnswerReachesPage` | app/api/chat/route.ts:58-67 | the route's reply reaches the page unchanged and non-empty; a route failure becomes the page's error text, with the page's default only for an empty message |
| `Integration.StartedAttemptReachesBackend` | app/api/chat/route.ts:7-18 | a posted log that is non-empty with a non-empty topic (every tick or manual attempt) passes the first two checks; only the key and then the backend decide the outcome |
| `Integration.BootstrapAlwaysRejected` | app/page.tsx:83-85 | the bootstrap request as written (empty log) always gets 500 "Messages are required and must be a non-empty array", which becomes the page's error |
| `Integration.IntendedBootstrapReachesBackend` | app/page.tsx:83-85 | the corrected bootstrap request passes the route's checks up to the API key, so only the key and the backend decide it |
| `Integration.FirstMessageScenario` | app/page.tsx:75-87 | first message with the moderator on: the bootstrap starts at once with an empty log and is rejected, the log keeps only the user message, and the next tick starts an attempt carrying that message, which passes the route's checks so that only the API key and the backend decide it |

## Left out

- The `setInterval`/`clearInterval` machinery, the ten-second cadence, and the effect that
  re-creates the interval whenever the messages, the rate, the switch or the topic change
  (app/page.tsx:28-43). `Tick` is one firing, called from outside with the current time.
- Rendering, the scroll-into-view effect, the Alert/Switch/Button markup and the disabled state of
  the buttons (app/page.tsx:24-26, 100-172). `Submit` and `ManualTrigger` model the handlers'
  own checks only.
- Network I/O and JSON parsing: the page's `fetch`/`res.json()` and the route's `req.json()` and
  OpenAI call. Their results are inputs (`FetchOutcome`, `RequestBody`, `BackendOutcome`).
- Async interleaving and React's batching of state updates. Each handler runs atomically on the
  current state. The one place where the closure's stale value matters, the bootstrap's pre-submit
  `messages`, is modelled explicitly.
- `Date.now()` and `process.env`: the clock is integer parameters and the API key an optional
  string.
- `console.error` and the `details` (stack trace) field of the route's error body
  (app/api/chat/route.ts:60, 64).
- JSON values of other types: `topic` is modelled as an optional string, `responseRate` as
  the string the prompt shows, and the items of a `messages` array as log entries. A non-string
  truthy topic, how a missing rate would render, and array items of other shapes are not
  modelled. The route accepts any non-empty array and forwards its items as they are, so none of
  its decisions depends on their shape.
- `ChatRoute.Interpret`: an error thrown with a non-Error value (the route's
  "An unknown error occurred" fallback) is not modelled. Every throw on the route's path is an
  Error with a message.
- `Integration.Receive`: a 2xx answer without a `response` field is not modelled, because the
  route never sends one.
- my-app/config/monaco.ts is not part of this model: it configures an unrelated code editor.
  my-app/components/TopicModal.tsx contributes only its trimming rule, as `TopicSet`'s
  precondition (`ModeratorPage.DialogTopicOk`).

## Findings

| source | as written | input that shows it | evidently intended | confidence | as-written member | corrected member |
|---|---|---|---|---|---|---|
| app/page.tsx:83-85 | the first-message bootstrap calls `handleModeratorResponse`, which posts the `messages` captured before the append at line 80, that is `[]`; the route rejects an empty array at app/api/chat/route.ts:7-9 | topic "climate policy", moderator on, empty log, submit "hello": the bootstrap gets 500 "Messages are required and must be a non-empty array", the page shows that error, and the first moderator turn only comes from a later tick | the bootstrap posts the log including the new message, so the moderator answers the first message at once | high; not executed | `Integration.BootstrapAlwaysRejected` (with `ModeratorPage.ModeratorChat.Submit`, `Integration.FirstMessageScenario`) | `Integration.IntendedBootstrapReachesBackend` (with `ModeratorPage.IntendedBootstrapRequest`) |

`ModeratorChat.Submit` keeps the request as written, so the class matches the code. The
corrected request is stated beside it, together with the property proved about it.
