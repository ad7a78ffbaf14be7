# QuickChex attendance relay: a Dafny model

QuickChex is a browser page plus one proxy route that marks attendance on a
third-party portal. The page sends the user's credentials to the route. The
route posts them to an external automation API and relays that API's
progress events back to the page as Server-Sent Events (SSE).

This project models three pieces of that system and proves properties of
them:

- **The relay endpoint** (`Relay`, `Reframer`). The `GET` handler of
  `app/api/mark-attendance/route.ts` is modelled in two halves around its
  one network call:
  - `Decide` covers query validation, the configuration check and building
    the upstream body.
  - `Respond` maps what the upstream did to the response.

  The per-chunk re-framing loop is `Frames` / `StreamFrames`. It is also
  written as a loop in `PumpChunk` / `Pump`.
- **The page's run and credential state machine** (`Client`). The state of
  `app/page.tsx` is one `Home` record. Each handler is one total transition
  function:
  - the mount effect that loads saved credentials;
  - `handleCredentialsError`;
  - the button click;
  - the subscription's message and error handlers.

  Every subscription the page opens is kept, with the credentials its
  handlers captured. So "at most one open subscription" and "a closed
  subscription delivers nothing" are stated, not built in.
- **The progress bar summary** (`Progress`). This is the memoised
  computation of `app/components/ProgressBar.tsx`, over `real`.

Shared definitions:
- `Types` holds the records of `app/types.ts`. An event's status is
  `Tagged`: a run-time tag that spells a known tag is always that tag's
  constructor. So comparing constructors is the same as the code's
  comparison of tag strings.
- `Text` holds JavaScript's `trim`, the `\r\n|\r|\n` split, `startsWith`,
  and the decimal text of a number, each with its defining properties.

The model follows the code as written:
- `app_success` closes the subscription (`app/page.tsx:136`). A later
  `cookies_update` is therefore never handled (`Client.SuccessThenCookiesUpdate`).
  The page has no handler for `cookies_update` anyway.
- Every `app_error`, malformed payload, transport error, and failure to
  open the subscription clears the stored credentials
  (`app/page.tsx:133-134, 147-148, 157, 163`). The code matches no
  login-failure phrases.
- The page sends only the three credentials (`app/page.tsx:117-121`), never
  continuation tokens (`Relay.ClientRunForwarded`).
- The continuation query names are `_quikchex_app_session` and
  `remember_user_token`. "Missing" means missing or empty (JavaScript
  truthiness).
- The re-framer keeps no partial line between chunks. A line split across
  two reads comes out as two frames (`Reframer.RechunkingSplitsLines`).
  Frames are not invariant under re-chunking. Only concatenation over
  chunks holds (`Reframer.StreamFramesAppend`).

## Model

| member | source | states |
|---|---|---|
| Types.ParseTag | app/types.ts:7-10 | Reading any tag string gives a canonical status that spells the same tag back. |
| Types.ParseTagOfTag | app/types.ts:8 | Reading back the tag of a canonical status gives that status. Tags and statuses correspond one to one. |
| Types.TagDecides | app/types.ts:8 | For an event's status, the tag string is `app_error`, `app_success`, `cookies_update`, `step_success`, `step_error` or `info` exactly when the status is that constructor. |
| Text.Trim | app/api/mark-attendance/route.ts:102 | `trim` keeps one contiguous piece of its argument. Only trimmable characters lie on either side of it. The piece neither starts nor ends with one. It is empty iff the whole argument is trimmable. |
| Text.TrimIdempotent | app/api/mark-attendance/route.ts:102 | Trimming twice gives the same result as trimming once. |
| Text.TrimKeepsNoBreak | app/api/mark-attendance/route.ts:96-102 | Trimming a piece that has no CR or LF gives a piece with none. |
| Text.SplitLines | app/api/mark-attendance/route.ts:96 | The split on `\r\n|\r|\n` gives at least one piece, and no piece holds a CR or LF. |
| Text.JoinSplitLines | app/api/mark-attendance/route.ts:96 | Joining the pieces with LF gives the input with every CRLF and lone CR turned into LF. A CRLF is one break. |
| Text.SplitJoinLines | app/api/mark-attendance/route.ts:96 | Splitting break-free lines joined by LF gives the lines back. |
| Text.DecimalString | app/api/mark-attendance/route.ts:68 | The decimal text of a status is non-empty, all digits, and has no leading zero. |
| Text.DecimalRoundTrip | app/api/mark-attendance/route.ts:68 | Reading the decimal text back gives the number. |
| Reframer.JsonCheckIrrelevant | app/api/mark-attendance/route.ts:103-114 | The per-line rule as written, with its `JSON.parse` check, gives the same line as `Reframe`. This holds whenever valid JSON starts like JSON. JSON validity never changes the outcome. |
| Reframer.ReframeAsWritten | app/api/mark-attendance/route.ts:103-115 | The line is kept or wrapped as `data: <line>`. A `data:` line is always kept. A line with no SSE field name is always wrapped, whether or not it parses as JSON. |
| Reframer.Reframe | app/api/mark-attendance/route.ts:103-115 | The result always carries an SSE field name. A line with one passes unchanged. Any other line becomes exactly `data: ` followed by the line. |
| Reframer.Frame | app/api/mark-attendance/route.ts:102-117 | Each frame is a payload plus a blank line. The payload is non-empty, trimmed, free of CR/LF, starts with a field prefix, and is the framed line. |
| Reframer.FrameOfLine | app/api/mark-attendance/route.ts:98-117 | A non-blank piece gives a well-formed frame whose payload is its trimmed text, framed. |
| Reframer.FramesOfParts | app/api/mark-attendance/route.ts:98-118 | The pieces of a chunk give at most one well-formed frame each. |
| Reframer.Frames | app/api/mark-attendance/route.ts:92-118 | Every frame sent for a chunk is well formed. |
| Reframer.StreamFrames | app/api/mark-attendance/route.ts:86-119 | Every frame sent for a whole upstream body is well formed. |
| Reframer.FramesOfOnePart | app/api/mark-attendance/route.ts:98-117 | A piece that is blank after trimming gives no frame. Any other piece gives exactly one frame: the frame of its trimmed text. |
| Reframer.FramesOfPartsAppend | app/api/mark-attendance/route.ts:98-118 | The frames of two runs of pieces are the frames of the first followed by those of the second. Order is preserved. |
| Reframer.StreamFramesAppend | app/api/mark-attendance/route.ts:86-119 | The frames of a stream of chunks are the frames of its first chunks followed by those of the rest. No state is carried between chunks. |
| Reframer.PumpChunk | app/api/mark-attendance/route.ts:92-118 | The inner loop sends exactly the frames of the chunk, in order. |
| Reframer.Pump | app/api/mark-attendance/route.ts:86-119 | The read loop sends exactly the frames of every chunk, in arrival order. |
| Reframer.FramesOfJoinedLines | app/api/mark-attendance/route.ts:96-117 | n non-blank, break-free lines joined by LF give n frames. Frame i is the frame of line i. |
| Reframer.FramesOfPlainLine | app/api/mark-attendance/route.ts:102-117 | A chunk that is one trimmed line without a field prefix gives exactly the frame `data: <line>` plus a blank line. |
| Reframer.RechunkingSplitsLines | app/api/mark-attendance/route.ts:92-96 | The chunk `ab` gives one frame. The chunks `a`, `b` give two frames, so re-chunking changes the output. |
| Relay.GetCons | app/api/mark-attendance/route.ts:8-13 | A query lookup checks the first entry before the rest. |
| Relay.GetAbsent | app/api/mark-attendance/route.ts:8-13 | A query lookup finds nothing iff no entry has the name. |
| Relay.GetFirst | app/api/mark-attendance/route.ts:8-13 | A query lookup returns the value of the first entry with the name. |
| Relay.UpstreamBodyFields | app/api/mark-attendance/route.ts:43-55 | The upstream body begins with the three credentials, in order. |
| Relay.Decide | app/api/mark-attendance/route.ts:15-55 | The handler plans an upstream call iff all three credentials are non-empty and the URL is configured. The call goes to that URL. Every other outcome is a JSON error. |
| Relay.Respond | app/api/mark-attendance/route.ts:65-146 | The response is a stream iff the upstream answered with an ok status. Every error response has a non-200 status, and never a null body status: a non-ok answer the JSON `Response` cannot carry falls to the `catch`. |
| Relay.Response.Headers | app/api/mark-attendance/route.ts:131-138 | The first header is `Content-Type`, and it is `application/json` iff the response is a JSON error, which has no other header. A stream is `text/event-stream` with `Cache-Control: no-cache`, `Connection: keep-alive` and `X-Accel-Buffering: no`. |
| Relay.Handle | app/api/mark-attendance/route.ts:6-147 | An upstream request is sent iff the plan forwards. |
| Relay.MissingCredentialsRejected | app/api/mark-attendance/route.ts:15-20 | A missing or empty credential gives 400 with body `{"status":"error","message":"Missing credentials"}`. No upstream call is made, whatever the configuration. |
| Relay.UnconfiguredRejected | app/api/mark-attendance/route.ts:24-31 | With all credentials given and no URL, the response is 500 `API URL not configured on server`, and no upstream call is made. |
| Relay.ForwardIff | app/api/mark-attendance/route.ts:15-63 | The upstream is called iff the credentials are given and the URL is set. The call goes to the configured URL. |
| Relay.UpstreamBodyFaithful | app/api/mark-attendance/route.ts:43-55 | The body carries the three credentials as queried. Each continuation token is present iff its query value is non-empty, and then carries that value. The body holds nothing else. |
| Relay.BodyFields | app/api/mark-attendance/route.ts:43-55 | Looking up each of the five names in the body gives the credential, or the token exactly when it is truthy. The body has 3 to 5 fields to match. |
| Relay.UpstreamErrorMapped | app/api/mark-attendance/route.ts:65-72 | A non-ok upstream status s other than 304 gives status s and message `External API Error: s`. Two answers that differ only in error text give the same response. |
| Relay.UpstreamErrorNamesStatus | app/api/mark-attendance/route.ts:68 | The digits after the prefix of that message read back as the status. |
| Relay.ConnectFailureMapped | app/api/mark-attendance/route.ts:65-146 | A failed fetch, an unreadable error body, or a non-ok answer with status 304 gives 500 `Failed to connect to external API proxy`. For 304, the `Response` constructor at line 68 throws because the status forbids a body. |
| Relay.OkAnswerStreams | app/api/mark-attendance/route.ts:74-138 | An ok answer streams exactly the re-framed chunks, all well formed. The stream ends with an error signal iff a read failed. |
| Relay.ClientQuery | app/page.tsx:117-123 | The page's query holds the three credentials and no continuation token. |
| Relay.ClientRunForwarded | app/page.tsx:117-121 | A run started with complete credentials is forwarded with a body of exactly the three credentials. |
| Client.InitialCoherent | app/page.tsx:10-16 | The freshly mounted page is in a coherent state. |
| Client.CoherentAtMostOneOpen | app/page.tsx:113-125 | In a coherent state at most one subscription is open. |
| Client.CloseCurrent | app/page.tsx:113-115 | Closing affects only the current subscription and leaves it closed. Closing a closed one is a no-op. |
| Client.LoadStored | app/page.tsx:39-59 | Credentials are loaded only from a stored bundle whose three fields are non-empty. An entry that changes is removed and leaves no credentials. An absent or empty entry changes nothing. Coherence is kept. |
| Client.LoadFromInitial | app/page.tsx:39-59 | On mount, credentials are loaded iff storage holds a complete bundle. Otherwise none are loaded, and any entry but an absent or empty one is removed. |
| Client.ClearCredentials | app/page.tsx:69-76 | The stored entry is gone, `hasStored` is false, `loaded` is null and processing stops. Log and subscriptions are unchanged. |
| Client.Start | app/page.tsx:107-164 | Starting sets processing, empties the log, closes the current subscription and opens one with the run's credentials. If opening throws, the log holds one `app_error` entry and the credentials are cleared. |
| Client.Click | app/page.tsx:78-105 | Stored credentials take precedence over the form. Without them, a form with an empty field sets the log to exactly one `info` entry and opens nothing. With neither, nothing changes. Coherence is kept. |
| Client.StartClosesPrevious | app/page.tsx:110-125 | A successful start from a coherent state closes every earlier subscription. It leaves exactly one open, with processing on and an empty log. |
| Client.OnEvent | app/page.tsx:127-142 | The event goes at the end of the log. The tag `app_error` closes and clears. `app_success` closes, stops processing and stores exactly the run's credentials with `hasStored` true. Any other tag changes only the log. |
| Client.MalformedMessage | app/page.tsx:145 | The synthetic message is `Error processing message: ` followed by the raw data, or by `Malformed data received.` when the data is empty. |
| Client.Fail | app/page.tsx:143-158 | A failure appends exactly one `app_error` entry, closes the subscription, clears the credentials and stops processing. |
| Client.Deliver | app/page.tsx:127-158 | A closed subscription delivers nothing. An open one adds exactly one log entry, after the old log. Coherence is kept. |
| Client.NonTerminalByTag | app/page.tsx:132-135 | An event counts as non-terminal exactly when its tag string is neither `app_error` nor `app_success`, the two strings the handler compares. |
| Client.OngoingEventsAppend | app/page.tsx:129-142 | Events other than `app_error`/`app_success` are appended in arrival order. Processing, storage and subscriptions are untouched. |
| Client.ClosedDeliversNothing | app/page.tsx:133-136 | Once a subscription is closed, nothing it delivers changes the page. |
| Client.TerminalEndsRun | app/page.tsx:132-158 | A terminal delivery closes the run and stops processing. Nothing that follows on that subscription is handled. |
| Client.SuccessThenCookiesUpdate | app/page.tsx:135-141 | After `app_success`, a following `cookies_update` is never handled. The stored bundle is the run's own credentials. |
| Client.FailureClearsStorage | app/page.tsx:132-158 | An `app_error`, malformed data or a transport error leaves storage empty, `hasStored` false, `loaded` null and processing off. The last log entry is `app_error`. |
| Progress.BaseProgress | app/components/ProgressBar.tsx:34-37 | The base share lies within 10 and 95. |
| Progress.BaseProgressSteps | app/components/ProgressBar.tsx:34-37 | One to seven events give 12.5 each. Eight or more give 95. The base never falls as the log grows. |
| Progress.LatestText | app/components/ProgressBar.tsx:27-31 | The shown text is never empty, and is the event's own message when it has one. |
| Progress.Compute | app/components/ProgressBar.tsx:13-80 | Progress lies in [0, 100]. Complete holds iff the latest tag is `app_error` or `cookies_update`, and then progress is 100. A non-empty log reports its latest status and a message. |
| Progress.EmptyLog | app/components/ProgressBar.tsx:14-22 | An empty log gives 0, not complete, and no message or status. |
| Progress.ProgressByTag | app/components/ProgressBar.tsx:44-71 | `app_error`/`cookies_update` give 100 and complete. `app_success` gives 95, not complete. `step_success` gives base + 5, within [15, 100]. Every other tag gives the base, not complete. |
| Progress.LatestMessageFallback | app/components/ProgressBar.tsx:27-31 | The message is the event's own message if non-empty, else `Cookies updated successfully` for `cookies_update`, else `Processing...`. |
| Progress.DependsOnCountAndLatest | app/components/ProgressBar.tsx:24-37 | Two logs of equal length with the same latest event give the same bar. |
| Progress.BarFollowsPage | app/components/ProgressBar.tsx:48-52 | `Compute` over the log the page holds after it handles a failure on its current subscription is complete at 100. |
| Progress.BarAfterSuccess | app/components/ProgressBar.tsx:60-63 | `Compute` over the log the page holds after it handles `app_success` is at 95, not complete. |
| Progress.ComputeAfterStart | app/components/ProgressBar.tsx:14-52 | `Compute` over the log the page holds right after starting a run is the empty summary at 0. When opening the subscription threw, it is complete at 100 with the failure message. |

## Left out

- Streaming plumbing is not modelled: `fetch`, `ReadableStream`, the reader lock, `controller.enqueue/error/close`, `TextDecoder`/`TextEncoder`, and console logging. The upstream's behaviour is a parameter (`UpstreamReply`), and its body is a sequence of already decoded chunks plus a flag for a failed read.
- `JSON.parse` is not modelled. In the re-framer it is the `isJson` parameter, used only through the fact that a JSON text starts with one of `{ [ " - 0-9 t f n`. On the page, a message's data is either `Parsed` or `Malformed`. A saved entry is `EmptyText`, `Unparseable` or a `Bundle`, and a missing field reads as "".
- Relay.Response.Body: builds the JSON error text by concatenation, with no `JSON.stringify` escaping. Every message the handler sends is fixed text or digits.
- Client.Deliver: only data that parses to `null` is `Malformed`, handled as one `app_error` entry. The code appends the `null` first and then throws on `data.status`, so the log gets two entries. Data that parses to a number, string, boolean or array is `Parsed`, with a status that is neither `app_error` nor `app_success` (`Unknown("")`). The page appends it and treats it as an ongoing event.
- `app/page.tsx` does not render the progress bar. The `Progress` lemmas that take a `Client.Home` apply `Compute` to the log the page holds, as a pairing of the two models.
- Browser and React machinery is not modelled: `EventSource` internals and reconnection, hook scheduling and state batching, toasts and their timer, `scrollIntoView`, and `formRef.reset()`. Each handler is one atomic step.
- Whether the form is rendered and the button shown is JSX, so `Click` takes the form as an optional parameter.
- The unmount cleanup effect (`app/page.tsx:61-67`) is not modelled. It only closes the subscription when the page goes away.
- The percentage label's `Math.round`, the bar's CSS width, the message history list, `app/components/StatusMessage.tsx`, the instructions page, the layout and the Tailwind configuration are presentation only.
- `scripts/generate-secret.js` is a one-off utility and is not modelled.
- Response headers are modelled as a fixed list per response kind. The `Content-Type` of the upstream POST is not modelled.
- Relay.HttpStatus: upstream statuses are limited to 200-599, the range a fetched response can carry.
