# Slack assistant bridge — verified model

This project models the core of a small Flask service, `api/app.py`. The
service answers Slack's Events API webhook. For each new message event it
claims the event id and starts an assistant run on the OpenAI Assistants
backend. It polls the run until it reaches a terminal status, reads the
reply, turns Markdown links into Slack's `<url|label>` form, and posts the
result into the Slack thread. It does not post when the thread's last
message is already that text. A failed post triggers one alert to an
administrator.

The model is written in Dafny, in six modules:

- `Common` (`common.dfy`): optional values, results, the decimal rendering of
  status codes, and the `Action` record of observable effects.
- `PyStr` (`pystr.dfy`): Python's `str.find` and string slicing, with `-1` on
  a miss, negative indices, clamping and empty slices.
- `Formatter` (`formatter.dfy`): `format_links`, as a rewriting pass
  (`Rewrite`), the loop run with fuel (`FormatWithin`), and the imperative
  loop (`FormatLinks`) proved equal to it.
- `RunClient` (`runclient.dfy`): `create_thread`, the polling loop
  `wait_for_run_completion` (a function and the `while` loop proved equal to
  it), `get_thread_messages` and the check on the shape of the reply.
- `Notifier` (`notifier.dfy`): `get_last_message` and `send_gpt_response`.
- `Intake` (`intake.dfy`): the `/slack` handler. `Deliver` is the handler as
  a function of the processed set. `EventIntake` is the class holding that
  set, whose `Handle` method updates it in place.

The network, Slack and the backend are oracles passed in as values:

- a `World` holds what the backend answers to the create, poll and messages
  requests;
- a `Slack` value holds the thread's messages and the outcome of each post.

Each call returns the list of effects it performed, in order (`Action`).
`format_links` does not terminate on every input, so it takes a fuel bound.
`None` or `NoResponse` means the fuel ran out while the source would still be
looping.

Only "completed", "failed" and "incomplete" end the polling loop
(api/app.py:81). A run that stays "cancelled", "expired" or
"requires_action" is polled for as long as the backend answers, so the call
never answers; the model keeps this behaviour (`NonTerminalRunNeverAnswers`).

## Model

| member | source | states |
|---|---|---|
| Common.DecimalRoundTrip | api/app.py:67-68 | the decimal text of a status code reads back as that code |
| Common.DecimalInjective | api/app.py:67-68 | different status codes give different texts in the error message |
| PyStr.Clamp | api/app.py:109-112 | a Python index lands in 0..n, in-range indices are kept, and negative ones count from the end |
| PyStr.FindFromIsFirst | api/app.py:105-106 | `find` answers -1 or a position holding the character, and no earlier position from the start holds it; on -1 none does |
| PyStr.FindAt | api/app.py:105-110 | `find` answers the first occurrence at or after the start |
| PyStr.FindMiss | api/app.py:105-110 | `find` answers -1 when the character does not occur from the start on |
| PyStr.RangeIs | api/app.py:109-112 | the characters between two positions are the Dafny sub-sequence, or empty when start >= stop |
| PyStr.SliceIs | api/app.py:109-112 | Python slicing: in-range bounds select that sub-sequence, a stop of -1 drops the last character, and start >= stop gives "" |
| Formatter.StopsIffSettled | api/app.py:104-108 | the loop breaks exactly when no `)` follows any `[` (a missing `[`, or no `)` after the first one) |
| Formatter.FormatLinks | api/app.py:101-113 | the `while` loop returns what `FormatWithin` (the loop as a recursive function) returns, for the same fuel |
| Formatter.ResultSettled | api/app.py:104-113 | whatever the loop returns has no `)` after any `[` |
| Formatter.SettledUnchanged | api/app.py:104-108 | text with no `)` after any `[` comes back unchanged |
| Formatter.NoBracketSettled | api/app.py:105-108 | text without `[` is settled, so `SettledUnchanged` returns it unchanged |
| Formatter.Idempotent | api/app.py:101-113 | formatting an already formatted text gives the same text |
| Formatter.FuelIrrelevant | api/app.py:104-113 | once the loop ends, a larger bound gives the same result |
| Formatter.RewriteAt | api/app.py:105-112 | a pass whose searches find `[`, then `]`, then `(` immediately after that `]`, then `)`, replaces the link by Slack's `<url…label>` link and keeps the text around it |
| Formatter.OneLinkSearches | api/app.py:105-110 | on a single well-formed link, the four searches find its four delimiters |
| Formatter.RewriteOneLink | api/app.py:105-112 | one pass turns `pre[label](url)post` into `pre` + Slack's link + `post` |
| Formatter.OneLink | api/app.py:101-113 | `format_links` turns a single well-formed link into Slack's `<url…label>` link and keeps the text before and after it |
| Formatter.DocsExample | api/app.py:101-113 | "see [docs](http://x/y) now" becomes Slack's link to http://x/y labelled "docs", between "see " and " now" |
| Formatter.RewriteNoParen | api/app.py:109-112 | with no `(` in the text, the url slice runs from the start of the text up to the `)` |
| Formatter.LoopingStep | api/app.py:105-112 | on a `[`…`)`…`]` shape with no `(`, a pass never breaks and produces the same shape again |
| Formatter.LoopingCopy | api/app.py:109-112 | the rewritten text keeps the looping shape at the moved positions |
| Formatter.NeverSettles | api/app.py:104-112 | on that shape the loop never ends, whatever the bound |
| Formatter.BracketParenHangs | api/app.py:104-112 | `format_links("[a)b]")` never returns |
| RunClient.AwaitRun | api/app.py:72-85 | polling stops at the first terminal status or exception, after exactly that many polls; every earlier reply was non-terminal |
| RunClient.WaitForRunCompletion | api/app.py:72-85 | the `while` loop returns what `AwaitRun` specifies |
| RunClient.ExtractReply | api/app.py:200-208 | the reply is the first part's text value exactly when data, content, first part and text are all present; KeyError('value') is raised exactly when all of those are present but the text has no value; every other failure is "Unexpected API response structure" |
| RunClient.NonTerminalKeepsPolling | api/app.py:81-85 | a status outside "completed", "failed" and "incomplete" never ends the loop, however many times the backend answers with it |
| RunClient.CancelledKeepsPolling | api/app.py:81-85 | a run reported as "cancelled" is polled for as long as the backend answers |
| RunClient.PollingExample | api/app.py:72-85 | queued, in_progress, in_progress, completed ends with "completed" after four polls |
| Notifier.SendGptResponse | api/app.py:130-152 | reads the thread once. It posts the formatted text exactly when that text differs from the last message. It ends posted iff the first post succeeds, alerted iff the first post fails and the admin alert succeeds, and raised, with the alert's error text, iff both fail. It uses up one Slack post outcome per post it makes and no more |
| Notifier.PostsIffDifferent | api/app.py:133-152 | a post happens if and only if the formatted text differs from the thread's last message |
| Notifier.FailedPostAlertsOnce | api/app.py:136-150 | a failed post is followed by exactly one alert; the call returns iff the alert succeeds, and otherwise raises the alert's error |
| Notifier.MissingMessagePosts | api/app.py:122-135 | an empty thread or a failed lookup never suppresses the reply: the formatted text is posted |
| Notifier.SettledPosted | api/app.py:130-142 | a link-free text that differs from the last message is posted as written |
| Intake.NotifyInTry | api/app.py:210-215 | the notifier inside the `try` block: a normal return gives the intended answer after reading the thread; the block throws iff the notifier raises, with its text; it hangs iff formatting never ends |
| Intake.TryBlock | api/app.py:187-215 | the run is created first; returning normally implies the thread was read; an "ok" answer implies the run completed |
| Intake.Execute | api/app.py:187-219 | every answer other than a hang comes after the thread was read; "ok" only for a completed run |
| Intake.Deliver | api/app.py:154-219 | the handshake, retry and known-id answers do nothing; any other call claims its id before any backend call; the processed set only grows |
| Intake.CalledBackendIffClaimed | api/app.py:173-188 | a run is created if and only if the call is not a handshake, not a retry, and its id is new |
| Intake.KnownNeverRuns | api/app.py:178-180 | in a sequence of calls, an id processed before the sequence never reaches the backend |
| Intake.AtMostOnce | api/app.py:178-188 | of two sequential calls with the same event id, at most one creates a run |
| Intake.FailedRunReported | api/app.py:212-215 | a run ending "failed" or "incomplete", whose report differs from the thread's last message and posts successfully, gives exactly the claim, the create, the polls, the thread read and that post, and is answered with the error |
| Intake.FailedRunExecutes | api/app.py:192-219 | the failed-run branch under every Slack behaviour: the report never hangs; a suppressed, posted or alerted report answers "Run failed with status: <status>" after the create and the polls; a failed alert is reported in turn as "Error: <its text>" |
| Intake.FailedRunAnswers | api/app.py:178-219 | the same for a claimed call: the answer is the failure message whether the report is posted, suppressed as a repeat, or replaced by an alert, and the call always answers unless the alert fails |
| Intake.FailureMessageSettled | api/app.py:213-214 | the failure report contains no link, so it is posted as written |
| Intake.ThrownReported | api/app.py:216-219 | any exception from the `try` block of a claimed call is posted as "Error: <text>" after the block's effects. The call answers with that error when the report is suppressed, posted or alerted; it fails with the report's own exception when that raises; it never answers when formatting the report never ends |
| Intake.PollFaultReported | api/app.py:187-219 | a poll that raises is posted as "Error: <text>" after the polls, and answered accordingly |
| Intake.FetchFailureExecutes | api/app.py:194-219 | that exception is posted as "Error: <text>" after the fetch |
| Intake.MessagesStatusReported | api/app.py:95-97 | a messages answer other than 200 is reported and answered as "Error: Failed to get thread messages: <code>, <body>" |
| Intake.MessagesFaultReported | api/app.py:89-94 | a messages request that raises is reported and answered as "Error: <its text>" |
| Intake.StructureErrorReported | api/app.py:200-208 | a reply missing data, content, first part or text is reported and answered as "Error: Unexpected API response structure" |
| Intake.CompletedReplyExecutes | api/app.py:194-219 | the completed branch: "ok" whenever the notifier returns; a hang when formatting never ends; a notifier exception posted as "Error: <text>" on the posts that remain |
| Intake.CompletedAnswersOk | api/app.py:194-211 | a completed run whose formatted reply differs from the last message and posts successfully: the reply is posted and the answer is "ok" |
| Intake.AlertedAnswersOk | api/app.py:143-150 | a failed reply post whose admin alert succeeds still answers "ok", with the alert in the thread |
| Intake.FailedAlertReported | api/app.py:146-150 | when the alert fails too, its error is posted as "Error: <text>" and answered with that error |
| Intake.CreateFailureReported | api/app.py:216-219 | a failed create ends with "Error: Failed to create thread: …" posted and answered |
| Intake.CreateFaultReported | api/app.py:59-65 | a create request that raises (a refused connection, a timeout) is posted as "Error: <its text>" right after the attempt, and answered accordingly |
| Intake.AlwaysNotifies | api/app.py:187-219 | every claimed call that returns has read the thread, so it has tried to report |
| Intake.CompletedFetchesOnce | api/app.py:192-195 | a completed run is fetched exactly once, right after the polls; afterwards only Slack is called |
| Intake.ExceptOnlySlack | api/app.py:216-219 | the `except` branch only adds Slack calls after the `try` block's effects |
| Intake.CompletedExecutesOnce | api/app.py:187-219 | for a completed run, the create, the polls and one fetch come first; after them only Slack is called |
| Intake.CompletedRunFetchesOnce | api/app.py:178-219 | the same for a claimed call: claim, create, the polls, one fetch, then only Slack |
| Intake.NonTerminalRunNeverAnswers | api/app.py:81-85 | a run whose status stays outside the three terminal ones makes the call poll on: it never answers and never reports in the thread |
| Intake.CompletedAfterFourPolls | api/app.py:188-195 | the polling example seen from the handler: the fetch is the seventh effect, and no poll or fetch follows it |
| Intake.EventIntake.constructor | api/app.py:31-47 | the processed set starts as the stored ids, or empty when the file cannot be read |
| Intake.EventIntake.Handle | api/app.py:154-219 | the new processed set and the answer are those `Deliver` gives for the old set; the set only grows |

## Left out

- Flask, `request.get_json`, `jsonify` and HTTP status codes. The answer is the `Response` datatype, and an exception escaping the handler is `ServerError`.
- Network calls and their payloads beyond the fields the code reads. These come from the `World` and `Slack` oracles, so the texts of the exceptions raised by the create, poll and messages requests and by Slack are supplied as data.
- `time.sleep`, and all logging.
- Writing the processed-id file (`save_processed_events`). Nothing in the model reads the file back within a process.
- Intake.EventIntake.Handle: does not model the lock or concurrent requests. Calls are handled one after the other. In the source the check at line 178 runs before the lock is taken, so two concurrent calls with the same id could both be processed. The at-most-once lemmas hold only for sequential calls.
- Formatter.BracketParenHangs: treats memory as unbounded. On "[a)b]" the text doubles on each pass, so the real process runs out of memory within a few dozen passes. It then raises MemoryError, which the handler's `except` branch would post as an error, or the process is killed.
- Formatter.FormatLinks: runs the loop for at most `fuel` passes. `None` means it would still be looping, which `NeverSettles` shows can be forever.
- RunClient.WaitForRunCompletion: polls over a finite list of replies. When the list runs out without a terminal status, the result is `StillWaiting` and the handler answers `NoResponse`.
- Notifier.SendGptResponse: every thread message has a text. A message without a `text` key raises KeyError in the source, and this is not modelled. The thread's content is fixed for the duration of one call.
- Some reply shapes the code reads are not modelled: a 200 messages answer whose body is not JSON (api/app.py:98); a first content part that is not a dict, where `'text' in` becomes a substring test on a string or a TypeError on `None` (api/app.py:203); and a `text` entry that is null (api/app.py:204). Content parts are modelled as dicts, and text entries as dicts with or without a `value`.
- Only `SlackApiError` is modelled for posts. Other exceptions from the Slack client are not.
- A create answer of 200 whose body is not JSON is not modelled. A missing `thread_id` is modelled as `None`.
