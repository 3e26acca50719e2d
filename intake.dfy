/** The `/slack` webhook handler (api/app.py:154-219) and the set of processed
    event ids it keeps (api/app.py:27-47). Calls are handled one after the
    other; the lock, Flask and the JSON file are not modelled. */
module Intake {
  import opened Common
  import opened Formatter
  import opened RunClient
  import opened Notifier

  /** The fields the handler reads from one webhook call; every one may be
      absent. `retryNum` is the X-Slack-Retry-Num header. */
  datatype Request = Request(
    kind: Option<string>,
    challenge: Option<string>,
    eventId: Option<string>,
    text: Option<string>,
    channel: Option<string>,
    ts: Option<string>,
    retryNum: Option<string>)

  /** The handler's JSON answer. `ServerError` is an exception escaping the
      handler (the framework answers 500); `NoResponse` a call that never
      returns (endless polling or formatting). */
  datatype Response =
    | Challenge(challenge: Option<string>)   // {"challenge": ...}
    | Ok                                     // {"status": "ok"}
    | AlreadyProcessed                       // {"status": "ok", "message": "Event already processed"}
    | Error(message: string)                 // {"status": "error", "message": ...}
    | ServerError(error: string)
    | NoResponse

  /** Everything the outside world answers during one call. */
  datatype World = World(
    create: CreateReply,
    polls: seq<PollReply>,
    messages: MessagesReply,
    slack: Slack)

  /** How the `try` block of api/app.py:187-215 ends, what it did, and the
      Slack post outcomes still unused. */
  datatype Ending = Returned(response: Response) | Threw(error: string) | Hangs
  datatype Attempt = Attempt(ending: Ending, trace: seq<Action>, slack: Slack)

  /** One call's answer, effects, and the processed set afterwards. */
  datatype Handled = Handled(response: Response, trace: seq<Action>, processed: set<Option<string>>)

  predicate IsHandshake(req: Request) {
    req.kind == Some("url_verification")
  }

  /** `if retry_num:` — a present but empty header is not a retry. */
  predicate IsRetry(req: Request) {
    req.retryNum.Some? && req.retryNum.value != ""
  }

  /** `event.get('text', '')`. */
  function UserMessage(req: Request): (s: string) {
    if req.text.Some? then req.text.value else ""
  }

  function PollActions(threadId: Option<string>, n: nat): (r: seq<Action>)
    ensures |r| == n && forall k :: 0 <= k < n ==> r[k] == PollRun(threadId)
  {
    if n == 0 then [] else PollActions(threadId, n - 1) + [PollRun(threadId)]
  }

  /** The notifier ran for this call: it read the call's thread. */
  ghost predicate ReadThread(trace: seq<Action>, req: Request) {
    exists k :: 0 <= k < |trace| && trace[k] == ReadReplies(req.channel, req.ts)
  }

  /** `send_gpt_response` called from inside the `try` block: an exception
      from it lands in the `except` branch. */
  function NotifyInTry(req: Request, text: string, trace: seq<Action>, slack: Slack,
                       admin: string, fuel: nat, done: Response): (a: Attempt)
    ensures a.ending.Returned? ==> a.ending.response == done && ReadThread(a.trace, req)
    ensures var n := SendGptResponse(req.channel, req.ts, text, slack, admin, fuel);
      (a.ending.Threw? <==> n.outcome.Raised?) &&
      (a.ending.Threw? ==> a.ending.error == n.outcome.error) &&
      (a.ending.Hangs? <==> FormatWithin(text, fuel).None?)
  {
    var n := SendGptResponse(req.channel, req.ts, text, slack, admin, fuel);
    var ending := match n.outcome
      case Raised(e) => Threw(e)
      case FormatHangs => Hangs
      case _ => Returned(done);
    assert n.outcome != FormatHangs ==> (trace + n.trace)[|trace|] == ReadReplies(req.channel, req.ts);
    Attempt(ending, trace + n.trace, n.slack)
  }

  /** The `try` block of api/app.py:187-215. */
  function TryBlock(req: Request, w: World, admin: string, fuel: nat): (a: Attempt)
    ensures |a.trace| >= 1 && a.trace[0] == CreateRun(UserMessage(req))
    ensures a.ending.Returned? ==> ReadThread(a.trace, req)
    ensures a.ending == Returned(Ok) ==> AwaitRun(w.polls).Finished? && AwaitRun(w.polls).status == "completed"
  {
    var t0 := [CreateRun(UserMessage(req))];
    match StartRun(w.create)
    case Failure(e) => Attempt(Threw(e), t0, w.slack)
    case Success(threadId) =>
      var wait := AwaitRun(w.polls);
      var t1 := t0 + PollActions(threadId, wait.polls);
      match wait
      case StillWaiting(_) => Attempt(Hangs, t1, w.slack)
      case Faulted(e, _) => Attempt(Threw(e), t1, w.slack)
      case Finished(status, _) =>
        if status == "completed" then
          var t2 := t1 + [FetchMessages(threadId)];
          match FetchReply(w.messages)
          case Failure(e) => Attempt(Threw(e), t2, w.slack)
          case Success(reply) => NotifyInTry(req, reply, t2, w.slack, admin, fuel, Ok)
        else
          var message := "Run failed with status: " + status;
          NotifyInTry(req, message, t1, w.slack, admin, fuel, Error(message))
  }

  /** The answer after the `except` branch posted `message`: an exception
      from that post escapes the handler, a post that never ends gives no
      answer, and otherwise the handler answers with the error. */
  function ReportAnswer(outcome: Dispatch, message: string): (r: Response)
    ensures r == NoResponse <==> outcome == FormatHangs
    ensures r.ServerError? <==> outcome.Raised?
    ensures r.Error? ==> r == Error(message)
    ensures outcome.Raised? ==> r == ServerError(outcome.error)
    ensures !outcome.Raised? && outcome != FormatHangs ==> r == Error(message)
  {
    match outcome
    case Raised(e) => ServerError(e)
    case FormatHangs => NoResponse
    case _ => Error(message)
  }

  /** Steps 187-219: the `try` block and its `except` branch, which reports
      the exception in the thread; an exception from that report escapes. */
  function Execute(req: Request, w: World, admin: string, fuel: nat): (r: (Response, seq<Action>))
    ensures |r.1| >= 1 && r.1[0] == CreateRun(UserMessage(req))
    ensures r.0 != NoResponse ==> ReadThread(r.1, req)
    ensures r.0 == Ok ==> AwaitRun(w.polls).Finished? && AwaitRun(w.polls).status == "completed"
  {
    var a := TryBlock(req, w, admin, fuel);
    match a.ending
    case Returned(response) => (response, a.trace)
    case Hangs => (NoResponse, a.trace)
    case Threw(e) =>
      var message := "Error: " + e;
      var n := SendGptResponse(req.channel, req.ts, message, a.slack, admin, fuel);
      var response := ReportAnswer(n.outcome, message);
      assert n.outcome != FormatHangs ==> (a.trace + n.trace)[|a.trace|] == ReadReplies(req.channel, req.ts);
      (response, a.trace + n.trace)
  }

  /** One call of the handler against the processed set: the handshake and
      the retry header answer at once, a known event id is refused, and any
      other call claims its id before any backend call. No id ever leaves
      the set: a claim survives every failure after it. */
  function Deliver(processed: set<Option<string>>, req: Request, w: World, admin: string, fuel: nat): (h: Handled)
    ensures processed <= h.processed <= processed + {req.eventId}
    ensures IsHandshake(req) ==> h == Handled(Challenge(req.challenge), [], processed)
    ensures !IsHandshake(req) && IsRetry(req) ==> h == Handled(Ok, [], processed)
    ensures !IsHandshake(req) && !IsRetry(req) && req.eventId in processed ==>
      h == Handled(AlreadyProcessed, [], processed)
    ensures h.trace != [] <==> !IsHandshake(req) && !IsRetry(req) && req.eventId !in processed
    ensures h.trace != [] ==>
      h.processed == processed + {req.eventId} &&
      |h.trace| >= 2 && h.trace[0] == Claim(req.eventId) && h.trace[1] == CreateRun(UserMessage(req))
  {
    if IsHandshake(req) then Handled(Challenge(req.challenge), [], processed)
    else if IsRetry(req) then Handled(Ok, [], processed)
    else if req.eventId in processed then Handled(AlreadyProcessed, [], processed)
    else
      var r := Execute(req, w, admin, fuel);
      Handled(r.0, [Claim(req.eventId)] + r.1, processed + {req.eventId})
  }

  /** The call created an assistant run. */
  ghost predicate CalledBackend(h: Handled) {
    exists k :: 0 <= k < |h.trace| && h.trace[k].CreateRun?
  }

  lemma CalledBackendIffClaimed(processed: set<Option<string>>, req: Request, w: World, admin: string, fuel: nat)
    ensures var h := Deliver(processed, req, w, admin, fuel);
      CalledBackend(h) <==> !IsHandshake(req) && !IsRetry(req) && req.eventId !in processed
  {
    var h := Deliver(processed, req, w, admin, fuel);
    if h.trace != [] {
      assert h.trace[1].CreateRun?;
    }
  }

  /** One webhook call with what the world answers during it. */
  datatype Call = Call(req: Request, world: World)

  /** The handler run on `calls` one after the other, starting from the
      processed set `processed`. */
  function Replay(processed: set<Option<string>>, calls: seq<Call>, admin: string, fuel: nat): (hs: seq<Handled>)
    ensures |hs| == |calls|
    decreases |calls|
  {
    if calls == [] then []
    else
      var h := Deliver(processed, calls[0].req, calls[0].world, admin, fuel);
      [h] + Replay(h.processed, calls[1..], admin, fuel)
  }

  /** A call whose event id was already processed before the run never
      reaches the backend. */
  lemma {:induction false} KnownNeverRuns(processed: set<Option<string>>, calls: seq<Call>,
                                          admin: string, fuel: nat, a: nat)
    requires a < |calls| && calls[a].req.eventId in processed
    ensures !CalledBackend(Replay(processed, calls, admin, fuel)[a])
    decreases a
  {
    var h := Deliver(processed, calls[0].req, calls[0].world, admin, fuel);
    if a == 0 {
      CalledBackendIffClaimed(processed, calls[0].req, calls[0].world, admin, fuel);
    } else {
      assert calls[1..][a - 1] == calls[a];
      KnownNeverRuns(h.processed, calls[1..], admin, fuel, a - 1);
    }
  }

  /** At most once: of two calls carrying the same event id, at most one
      creates a run, whatever happens in between and however the first one
      ends. */
  lemma {:induction false} AtMostOnce(processed: set<Option<string>>, calls: seq<Call>,
                                      admin: string, fuel: nat, a: nat, b: nat)
    requires a < b < |calls| && calls[a].req.eventId == calls[b].req.eventId
    ensures var hs := Replay(processed, calls, admin, fuel);
      !(CalledBackend(hs[a]) && CalledBackend(hs[b]))
    decreases a
  {
    var hs := Replay(processed, calls, admin, fuel);
    var h := Deliver(processed, calls[0].req, calls[0].world, admin, fuel);
    assert calls[1..][b - 1] == calls[b];
    if a == 0 {
      CalledBackendIffClaimed(processed, calls[0].req, calls[0].world, admin, fuel);
      if CalledBackend(hs[0]) {
        KnownNeverRuns(h.processed, calls[1..], admin, fuel, b - 1);
      }
    } else {
      assert calls[1..][a - 1] == calls[a];
      AtMostOnce(h.processed, calls[1..], admin, fuel, a - 1, b - 1);
    }
  }

  /** A run that ends in a terminal status other than "completed" is reported
      in the thread with the literal status, and the call answers with the
      same message (no exception escapes) when that post goes through. */
  lemma FailedRunReported(processed: set<Option<string>>, req: Request, w: World, admin: string, fuel: nat,
                          status: string, polls: nat)
    requires !IsHandshake(req) && !IsRetry(req) && req.eventId !in processed
    requires Created(w.create)
    requires AwaitRun(w.polls) == Finished(status, polls) && status != "completed"
    requires LastMessage(w.slack.thread) != Some("Run failed with status: " + status)
    requires w.slack.posts == [] || w.slack.posts[0].None?
    ensures var h := Deliver(processed, req, w, admin, fuel);
      var message := "Run failed with status: " + status;
      h.response == Error(message) &&
      h.trace == [Claim(req.eventId), CreateRun(UserMessage(req))] + PollActions(w.create.threadId, polls) +
                 [ReadReplies(req.channel, req.ts), PostMessage(req.channel, req.ts, message)]
  {
    var message := "Run failed with status: " + status;
    FailureMessageSettled(status);
    SettledPosted(req.channel, req.ts, message, w.slack, admin, fuel);
    FailedRunTry(req, w, admin, fuel, status, polls);
    NoThrowNoReport(req, w, admin, fuel);
  }

  /** The failed-run branch inside the `try`/`except`, whatever Slack does:
      the report never hangs; the call answers with the failure message when
      the report is suppressed, posted or alerted; and when the alert fails
      too, its exception is reported in turn. */
  lemma FailedRunExecutes(req: Request, w: World, admin: string, fuel: nat, status: string, polls: nat)
    requires Created(w.create)
    requires AwaitRun(w.polls) == Finished(status, polls) && status != "completed"
    ensures var message := "Run failed with status: " + status;
      var n := SendGptResponse(req.channel, req.ts, message, w.slack, admin, fuel);
      var r := Execute(req, w, admin, fuel);
      var before := [CreateRun(UserMessage(req))] + PollActions(w.create.threadId, polls);
      !n.outcome.FormatHangs? &&
      (n.outcome.Suppressed? || n.outcome.Posted? || n.outcome.AdminAlerted? ==>
        r.0 == Error(message) && r.1 == before + n.trace) &&
      (n.outcome.Raised? ==>
        var report := SendGptResponse(req.channel, req.ts, "Error: " + n.outcome.error, n.slack, admin, fuel);
        r.1 == before + n.trace + report.trace &&
        r.0 == ReportAnswer(report.outcome, "Error: " + n.outcome.error))
  {
    var message := "Run failed with status: " + status;
    FailureMessageSettled(status);
    SettledUnchanged(message, fuel);
    FailedRunTry(req, w, admin, fuel, status, polls);
    var n := SendGptResponse(req.channel, req.ts, message, w.slack, admin, fuel);
    if n.outcome.Raised? {
      ThrowReported(req, w, admin, fuel, n.outcome.error);
    } else {
      NoThrowNoReport(req, w, admin, fuel);
    }
  }

  /** The same at the handler: a failed run answers with "Run failed with
      status: <status>" whether the report is posted, suppressed as a repeat,
      or replaced by an alert, always after the claim, the create and the
      polls. */
  lemma FailedRunAnswers(processed: set<Option<string>>, req: Request, w: World, admin: string, fuel: nat,
                         status: string, polls: nat)
    requires !IsHandshake(req) && !IsRetry(req) && req.eventId !in processed
    requires Created(w.create)
    requires AwaitRun(w.polls) == Finished(status, polls) && status != "completed"
    ensures var message := "Run failed with status: " + status;
      var n := SendGptResponse(req.channel, req.ts, message, w.slack, admin, fuel);
      Deliver(processed, req, w, admin, fuel).response != NoResponse || n.outcome.Raised?
    ensures var message := "Run failed with status: " + status;
      var n := SendGptResponse(req.channel, req.ts, message, w.slack, admin, fuel);
      var h := Deliver(processed, req, w, admin, fuel);
      var before := [Claim(req.eventId), CreateRun(UserMessage(req))] + PollActions(w.create.threadId, polls);
      n.outcome.Suppressed? || n.outcome.Posted? || n.outcome.AdminAlerted? ==>
        h.response == Error(message) && h.trace == before + n.trace
    ensures var message := "Run failed with status: " + status;
      var n := SendGptResponse(req.channel, req.ts, message, w.slack, admin, fuel);
      var h := Deliver(processed, req, w, admin, fuel);
      n.outcome.Raised? ==>
        var report := SendGptResponse(req.channel, req.ts, "Error: " + n.outcome.error, n.slack, admin, fuel);
        h.response == ReportAnswer(report.outcome, "Error: " + n.outcome.error)
  {
    FailedRunExecutes(req, w, admin, fuel, status, polls);
    DeliverClaims(processed, req, w, admin, fuel);
  }

  /** The failure report of a terminal run has no link in it, so it is posted
      exactly as written. */
  lemma FailureMessageSettled(status: string)
    requires IsTerminal(status) && status != "completed"
    ensures Settled("Run failed with status: " + status)
  {
    assert status == "failed" || status == "incomplete";
    NoBracketSettled("Run failed with status: " + status);
  }

  /** A terminal status other than "completed" goes straight to the notifier
      with "Run failed with status: <status>", after the polls. */
  lemma FailedRunTry(req: Request, w: World, admin: string, fuel: nat, status: string, polls: nat)
    requires Created(w.create)
    requires AwaitRun(w.polls) == Finished(status, polls) && status != "completed"
    ensures var message := "Run failed with status: " + status;
      TryBlock(req, w, admin, fuel) ==
      NotifyInTry(req, message, [CreateRun(UserMessage(req))] + PollActions(w.create.threadId, polls),
                  w.slack, admin, fuel, Error(message))
  {
    assert StartRun(w.create) == Success(w.create.threadId);
  }

  /** `create_thread` answering with a status other than 200 raises at once,
      before any poll. */
  lemma CreateFailureThrows(req: Request, w: World, admin: string, fuel: nat)
    requires w.create.CreateReply? && w.create.statusCode != 200
    ensures TryBlock(req, w, admin, fuel) ==
      Attempt(Threw("Failed to create thread: " + Decimal(w.create.statusCode) + ", " + w.create.body),
              [CreateRun(UserMessage(req))], w.slack)
  {
    assert StartRun(w.create).Failure?;
  }

  /** The `except` branch: an exception from the `try` block is posted as
      "Error: <text>" after what the `try` block already did. */
  lemma ThrowReported(req: Request, w: World, admin: string, fuel: nat, e: string)
    requires TryBlock(req, w, admin, fuel).ending == Threw(e)
    ensures var a := TryBlock(req, w, admin, fuel);
      var n := SendGptResponse(req.channel, req.ts, "Error: " + e, a.slack, admin, fuel);
      var r := Execute(req, w, admin, fuel);
      r.1 == a.trace + n.trace && r.0 == ReportAnswer(n.outcome, "Error: " + e)
  {
  }

  /** An exception in the `try` block is reported in the thread as
      "Error: <text>", and the call answers with that message unless the
      report itself raises or never ends. */
  lemma CreateFailureReported(processed: set<Option<string>>, req: Request, w: World, admin: string, fuel: nat)
    requires !IsHandshake(req) && !IsRetry(req) && req.eventId !in processed
    requires w.create.CreateReply? && w.create.statusCode != 200
    ensures var h := Deliver(processed, req, w, admin, fuel);
      var message := "Error: " + ("Failed to create thread: " + Decimal(w.create.statusCode) + ", " + w.create.body);
      var n := SendGptResponse(req.channel, req.ts, message, w.slack, admin, fuel);
      h.trace == [Claim(req.eventId), CreateRun(UserMessage(req))] + n.trace &&
      h.response == ReportAnswer(n.outcome, message)
  {
    var e := "Failed to create thread: " + Decimal(w.create.statusCode) + ", " + w.create.body;
    CreateFailureThrows(req, w, admin, fuel);
    ThrowReported(req, w, admin, fuel, e);
    var r := Execute(req, w, admin, fuel);
    var h := Deliver(processed, req, w, admin, fuel);
    assert h.trace == [Claim(req.eventId)] + r.1 && h.response == r.0;
  }

  /** A create request that raises before any answer (a refused connection,
      a timeout) is reported in the thread as "Error: <its text>". */
  lemma CreateFaultReported(processed: set<Option<string>>, req: Request, w: World, admin: string, fuel: nat)
    requires !IsHandshake(req) && !IsRetry(req) && req.eventId !in processed
    requires w.create.CreateFault?
    ensures var h := Deliver(processed, req, w, admin, fuel);
      var message := "Error: " + w.create.error;
      var n := SendGptResponse(req.channel, req.ts, message, w.slack, admin, fuel);
      h.trace == [Claim(req.eventId), CreateRun(UserMessage(req))] + n.trace &&
      h.response == ReportAnswer(n.outcome, message)
  {
    var e := w.create.error;
    assert TryBlock(req, w, admin, fuel) == Attempt(Threw(e), [CreateRun(UserMessage(req))], w.slack);
    ThrowReported(req, w, admin, fuel, e);
    var r := Execute(req, w, admin, fuel);
    var h := Deliver(processed, req, w, admin, fuel);
    assert h.trace == [Claim(req.eventId)] + r.1 && h.response == r.0;
  }

  /** A claimed call: the handler's answer and effects are those of the
      `try`/`except` steps, behind the claim. */
  lemma DeliverClaims(processed: set<Option<string>>, req: Request, w: World, admin: string, fuel: nat)
    requires !IsHandshake(req) && !IsRetry(req) && req.eventId !in processed
    ensures var r := Execute(req, w, admin, fuel);
      Deliver(processed, req, w, admin, fuel) == Handled(r.0, [Claim(req.eventId)] + r.1, processed + {req.eventId})
  {
  }

  /** An exception in the `try` block of a claimed call: the handler posts
      "Error: <text>" after what the block did and answers accordingly. */
  lemma ThrownReported(processed: set<Option<string>>, req: Request, w: World, admin: string, fuel: nat, e: string)
    requires !IsHandshake(req) && !IsRetry(req) && req.eventId !in processed
    requires TryBlock(req, w, admin, fuel).ending == Threw(e)
    ensures var a := TryBlock(req, w, admin, fuel);
      var n := SendGptResponse(req.channel, req.ts, "Error: " + e, a.slack, admin, fuel);
      var h := Deliver(processed, req, w, admin, fuel);
      h.trace == [Claim(req.eventId)] + a.trace + n.trace && h.response == ReportAnswer(n.outcome, "Error: " + e)
    ensures var a := TryBlock(req, w, admin, fuel);
      var n := SendGptResponse(req.channel, req.ts, "Error: " + e, a.slack, admin, fuel);
      var h := Deliver(processed, req, w, admin, fuel);
      (n.outcome.Suppressed? || n.outcome.Posted? || n.outcome.AdminAlerted? ==> h.response == Error("Error: " + e)) &&
      (n.outcome.Raised? ==> h.response == ServerError(n.outcome.error)) &&
      (n.outcome.FormatHangs? ==> h.response == NoResponse)
  {
    ThrowReported(req, w, admin, fuel, e);
    var r := Execute(req, w, admin, fuel);
    var h := Deliver(processed, req, w, admin, fuel);
    assert h.trace == [Claim(req.eventId)] + r.1 && h.response == r.0;
  }

  /** An exception while polling (a failed request, or a reply without the
      expected fields) ends the `try` block right after that poll. */
  lemma PollFaultThrows(req: Request, w: World, admin: string, fuel: nat, e: string, polls: nat)
    requires Created(w.create)
    requires AwaitRun(w.polls) == Faulted(e, polls)
    ensures TryBlock(req, w, admin, fuel) ==
      Attempt(Threw(e), [CreateRun(UserMessage(req))] + PollActions(w.create.threadId, polls), w.slack)
  {
    assert StartRun(w.create) == Success(w.create.threadId);
  }

  /** A poll that raises is reported in the thread as "Error: <text>". */
  lemma PollFaultReported(processed: set<Option<string>>, req: Request, w: World, admin: string, fuel: nat,
                          e: string, polls: nat)
    requires !IsHandshake(req) && !IsRetry(req) && req.eventId !in processed
    requires Created(w.create)
    requires AwaitRun(w.polls) == Faulted(e, polls)
    ensures var n := SendGptResponse(req.channel, req.ts, "Error: " + e, w.slack, admin, fuel);
      var h := Deliver(processed, req, w, admin, fuel);
      h.trace == [Claim(req.eventId), CreateRun(UserMessage(req))] + PollActions(w.create.threadId, polls) + n.trace &&
      h.response == ReportAnswer(n.outcome, "Error: " + e)
  {
    PollFaultThrows(req, w, admin, fuel, e, polls);
    ThrownReported(processed, req, w, admin, fuel, e);
  }

  /** After a completed run, a failure to fetch or read the messages ends the
      `try` block right after the fetch. */
  lemma FetchFailureThrows(req: Request, w: World, admin: string, fuel: nat, e: string, polls: nat)
    requires Created(w.create)
    requires AwaitRun(w.polls) == Finished("completed", polls)
    requires FetchReply(w.messages) == Failure(e)
    ensures TryBlock(req, w, admin, fuel) ==
      Attempt(Threw(e), [CreateRun(UserMessage(req))] + PollActions(w.create.threadId, polls) +
                        [FetchMessages(w.create.threadId)], w.slack)
  {
    assert StartRun(w.create) == Success(w.create.threadId);
  }

  /** A failed fetch or an unreadable reply is reported in the thread as
      "Error: <text>" after the fetch. */
  lemma FetchFailureExecutes(req: Request, w: World, admin: string, fuel: nat, e: string, polls: nat)
    requires Created(w.create)
    requires AwaitRun(w.polls) == Finished("completed", polls)
    requires FetchReply(w.messages) == Failure(e)
    ensures var n := SendGptResponse(req.channel, req.ts, "Error: " + e, w.slack, admin, fuel);
      var r := Execute(req, w, admin, fuel);
      r.1 == [CreateRun(UserMessage(req))] + PollActions(w.create.threadId, polls) +
             [FetchMessages(w.create.threadId)] + n.trace &&
      r.0 == ReportAnswer(n.outcome, "Error: " + e)
  {
    FetchFailureThrows(req, w, admin, fuel, e, polls);
    ThrowReported(req, w, admin, fuel, e);
  }

  /** A messages request answered with a status other than 200 is reported
      as "Error: Failed to get thread messages: <code>, <body>". */
  lemma MessagesStatusReported(processed: set<Option<string>>, req: Request, w: World, admin: string, fuel: nat,
                               polls: nat)
    requires !IsHandshake(req) && !IsRetry(req) && req.eventId !in processed
    requires Created(w.create)
    requires AwaitRun(w.polls) == Finished("completed", polls)
    requires w.messages.MessagesReply? && w.messages.statusCode != 200
    ensures var message := "Error: " + ("Failed to get thread messages: " + Decimal(w.messages.statusCode) + ", " + w.messages.body);
      var n := SendGptResponse(req.channel, req.ts, message, w.slack, admin, fuel);
      Deliver(processed, req, w, admin, fuel).response == ReportAnswer(n.outcome, message)
  {
    var e := "Failed to get thread messages: " + Decimal(w.messages.statusCode) + ", " + w.messages.body;
    FetchFailureExecutes(req, w, admin, fuel, e, polls);
    DeliverClaims(processed, req, w, admin, fuel);
  }

  /** A messages request that raises before any answer is reported as
      "Error: <its text>". */
  lemma MessagesFaultReported(processed: set<Option<string>>, req: Request, w: World, admin: string, fuel: nat,
                              polls: nat)
    requires !IsHandshake(req) && !IsRetry(req) && req.eventId !in processed
    requires Created(w.create)
    requires AwaitRun(w.polls) == Finished("completed", polls)
    requires w.messages.MessagesFault?
    ensures var message := "Error: " + w.messages.error;
      var n := SendGptResponse(req.channel, req.ts, message, w.slack, admin, fuel);
      Deliver(processed, req, w, admin, fuel).response == ReportAnswer(n.outcome, message)
  {
    FetchFailureExecutes(req, w, admin, fuel, w.messages.error, polls);
    DeliverClaims(processed, req, w, admin, fuel);
  }

  /** A reply without data, content, a first part or its text is reported
      as "Error: Unexpected API response structure". */
  lemma StructureErrorReported(processed: set<Option<string>>, req: Request, w: World, admin: string, fuel: nat,
                               polls: nat)
    requires !IsHandshake(req) && !IsRetry(req) && req.eventId !in processed
    requires Created(w.create)
    requires AwaitRun(w.polls) == Finished("completed", polls)
    requires w.messages.MessagesReply? && w.messages.statusCode == 200
    requires ExtractReply(w.messages.payload).Failure? && ExtractReply(w.messages.payload) != Failure("'value'")
    ensures var message := "Error: " + StructureError;
      var n := SendGptResponse(req.channel, req.ts, message, w.slack, admin, fuel);
      Deliver(processed, req, w, admin, fuel).response == ReportAnswer(n.outcome, message)
  {
    FetchFailureExecutes(req, w, admin, fuel, StructureError, polls);
    DeliverClaims(processed, req, w, admin, fuel);
  }

  /** A completed run whose reply was read goes to the notifier, and the
      `try` block answers "ok" if the notifier returns. */
  lemma CompletedNotifies(req: Request, w: World, admin: string, fuel: nat, reply: string, polls: nat)
    requires Created(w.create)
    requires AwaitRun(w.polls) == Finished("completed", polls)
    requires FetchReply(w.messages) == Success(reply)
    ensures TryBlock(req, w, admin, fuel) ==
      NotifyInTry(req, reply, [CreateRun(UserMessage(req))] + PollActions(w.create.threadId, polls) +
                              [FetchMessages(w.create.threadId)], w.slack, admin, fuel, Ok)
  {
    assert StartRun(w.create) == Success(w.create.threadId);
  }

  /** The completed branch inside the `try`/`except`: "ok" when the notifier
      returns, and the notifier's exception reported as "Error: <text>". */
  lemma CompletedReplyExecutes(req: Request, w: World, admin: string, fuel: nat, reply: string, polls: nat)
    requires Created(w.create)
    requires AwaitRun(w.polls) == Finished("completed", polls)
    requires FetchReply(w.messages) == Success(reply)
    ensures var n := SendGptResponse(req.channel, req.ts, reply, w.slack, admin, fuel);
      var r := Execute(req, w, admin, fuel);
      var before := [CreateRun(UserMessage(req))] + PollActions(w.create.threadId, polls) +
                    [FetchMessages(w.create.threadId)];
      (n.outcome.Suppressed? || n.outcome.Posted? || n.outcome.AdminAlerted? ==>
        r.0 == Ok && r.1 == before + n.trace) &&
      (n.outcome.FormatHangs? ==> r.0 == NoResponse) &&
      (n.outcome.Raised? ==>
        var report := SendGptResponse(req.channel, req.ts, "Error: " + n.outcome.error, n.slack, admin, fuel);
        r.1 == before + n.trace + report.trace &&
        r.0 == ReportAnswer(report.outcome, "Error: " + n.outcome.error))
  {
    CompletedNotifies(req, w, admin, fuel, reply, polls);
    var n := SendGptResponse(req.channel, req.ts, reply, w.slack, admin, fuel);
    if n.outcome.Raised? {
      ThrowReported(req, w, admin, fuel, n.outcome.error);
    } else {
      NoThrowNoReport(req, w, admin, fuel);
    }
  }

  /** A completed run whose formatted reply differs from the thread's last
      message and whose post succeeds: the reply is posted and the handler
      answers "ok". */
  lemma CompletedAnswersOk(processed: set<Option<string>>, req: Request, w: World, admin: string, fuel: nat,
                           reply: string, polls: nat)
    requires !IsHandshake(req) && !IsRetry(req) && req.eventId !in processed
    requires Created(w.create)
    requires AwaitRun(w.polls) == Finished("completed", polls)
    requires FetchReply(w.messages) == Success(reply)
    requires Differs(reply, w.slack, fuel) && NextPost(w.slack).0.None?
    ensures var h := Deliver(processed, req, w, admin, fuel);
      h.response == Ok && PostMessage(req.channel, req.ts, FormatWithin(reply, fuel).value) in h.trace
  {
    CompletedReplyExecutes(req, w, admin, fuel, reply, polls);
    DeliverClaims(processed, req, w, admin, fuel);
    var n := SendGptResponse(req.channel, req.ts, reply, w.slack, admin, fuel);
    var h := Deliver(processed, req, w, admin, fuel);
    var before := [Claim(req.eventId), CreateRun(UserMessage(req))] + PollActions(w.create.threadId, polls) +
                  [FetchMessages(w.create.threadId)];
    assert h.trace[|before| + 1] == n.trace[1];
  }

  /** A failed post whose alert goes through still answers "ok", and the
      alert to the administrator is in the thread. */
  lemma AlertedAnswersOk(processed: set<Option<string>>, req: Request, w: World, admin: string, fuel: nat,
                         reply: string, polls: nat, err: SlackError)
    requires !IsHandshake(req) && !IsRetry(req) && req.eventId !in processed
    requires Created(w.create)
    requires AwaitRun(w.polls) == Finished("completed", polls)
    requires FetchReply(w.messages) == Success(reply)
    requires Differs(reply, w.slack, fuel)
    requires |w.slack.posts| >= 1 && w.slack.posts[0] == Some(err)
    requires |w.slack.posts| == 1 || w.slack.posts[1].None?
    ensures var h := Deliver(processed, req, w, admin, fuel);
      h.response == Ok && PostMessage(req.channel, req.ts, AdminAlert(admin, err.code)) in h.trace
  {
    CompletedReplyExecutes(req, w, admin, fuel, reply, polls);
    DeliverClaims(processed, req, w, admin, fuel);
    var n := SendGptResponse(req.channel, req.ts, reply, w.slack, admin, fuel);
    var h := Deliver(processed, req, w, admin, fuel);
    var before := [Claim(req.eventId), CreateRun(UserMessage(req))] + PollActions(w.create.threadId, polls) +
                  [FetchMessages(w.create.threadId)];
    assert n.outcome.AdminAlerted?;
    assert h.trace[|before| + 2] == n.trace[2];
  }

  /** A failed post whose alert fails too: the alert's exception reaches the
      `except` branch, which posts "Error: <its text>" and answers with it when
      that post goes through. */
  lemma FailedAlertReported(processed: set<Option<string>>, req: Request, w: World, admin: string, fuel: nat,
                            reply: string, polls: nat, err: SlackError, err2: SlackError)
    requires !IsHandshake(req) && !IsRetry(req) && req.eventId !in processed
    requires Created(w.create)
    requires AwaitRun(w.polls) == Finished("completed", polls)
    requires FetchReply(w.messages) == Success(reply)
    requires Differs(reply, w.slack, fuel)
    requires |w.slack.posts| >= 2 && w.slack.posts[0] == Some(err) && w.slack.posts[1] == Some(err2)
    requires Differs("Error: " + err2.description, Slack(w.slack.thread, w.slack.posts[2..]), fuel)
    requires |w.slack.posts| == 2 || w.slack.posts[2].None?
    ensures var h := Deliver(processed, req, w, admin, fuel);
      h.response == Error("Error: " + err2.description) &&
      PostMessage(req.channel, req.ts, FormatWithin("Error: " + err2.description, fuel).value) in h.trace
  {
    CompletedReplyExecutes(req, w, admin, fuel, reply, polls);
    DeliverClaims(processed, req, w, admin, fuel);
    var n := SendGptResponse(req.channel, req.ts, reply, w.slack, admin, fuel);
    assert n.outcome == Raised(err2.description);
    assert n.slack == Slack(w.slack.thread, w.slack.posts[2..]);
    var report := SendGptResponse(req.channel, req.ts, "Error: " + err2.description, n.slack, admin, fuel);
    assert report.outcome == Posted;
    var h := Deliver(processed, req, w, admin, fuel);
    var before := [Claim(req.eventId), CreateRun(UserMessage(req))] + PollActions(w.create.threadId, polls) +
                  [FetchMessages(w.create.threadId)];
    assert h.trace[|before| + |n.trace| + 1] == report.trace[1];
  }

  /** Every call that claims its id and returns has tried to tell the thread
      something: the notifier ran and read the thread. */
  lemma AlwaysNotifies(processed: set<Option<string>>, req: Request, w: World, admin: string, fuel: nat)
    requires !IsHandshake(req) && !IsRetry(req) && req.eventId !in processed
    ensures var h := Deliver(processed, req, w, admin, fuel);
      h.response != NoResponse ==> ReadThread(h.trace, req)
  {
    var h := Deliver(processed, req, w, admin, fuel);
    var r := Execute(req, w, admin, fuel);
    if h.response != NoResponse {
      var k :| 0 <= k < |r.1| && r.1[k] == ReadReplies(req.channel, req.ts);
      assert h.trace[k + 1] == ReadReplies(req.channel, req.ts);
    }
  }

  /** Only the Slack client was called. */
  ghost predicate SlackOnly(trace: seq<Action>) {
    forall k :: 0 <= k < |trace| ==> trace[k].ReadReplies? || trace[k].PostMessage?
  }

  /** A run that completes after `p` polls is followed by exactly one fetch of
      the thread's messages, and after that only Slack is called. */
  lemma CompletedFetchesOnce(req: Request, w: World, admin: string, fuel: nat)
    requires Created(w.create)
    requires AwaitRun(w.polls).Finished? && AwaitRun(w.polls).status == "completed"
    ensures var a := TryBlock(req, w, admin, fuel);
      var p := AwaitRun(w.polls).polls;
      |a.trace| >= p + 2 &&
      a.trace[..p + 2] == [CreateRun(UserMessage(req))] + PollActions(w.create.threadId, p) + [FetchMessages(w.create.threadId)] &&
      SlackOnly(a.trace[p + 2..])
  {
    var tid := w.create.threadId;
    assert StartRun(w.create) == Success(tid);
    var p := AwaitRun(w.polls).polls;
    var t2 := [CreateRun(UserMessage(req))] + PollActions(tid, p) + [FetchMessages(tid)];
    var a := TryBlock(req, w, admin, fuel);
    match FetchReply(w.messages)
    case Failure(e) =>
      assert a == Attempt(Threw(e), t2, w.slack);
      assert a.trace[p + 2..] == [];
    case Success(reply) =>
      var n := SendGptResponse(req.channel, req.ts, reply, w.slack, admin, fuel);
      assert a.trace == t2 + n.trace;
      assert a.trace[..p + 2] == t2 && a.trace[p + 2..] == n.trace;
  }

  /** Appending Slack calls keeps a prefix and keeps the tail Slack-only. */
  lemma AppendSlackOnly(t: seq<Action>, x: seq<Action>, m: nat)
    requires m <= |t| && SlackOnly(t[m..]) && SlackOnly(x)
    ensures (t + x)[..m] == t[..m] && SlackOnly((t + x)[m..])
  {
    assert (t + x)[m..] == t[m..] + x;
  }

  /** Without an exception the `except` branch adds nothing. */
  lemma NoThrowNoReport(req: Request, w: World, admin: string, fuel: nat)
    requires !TryBlock(req, w, admin, fuel).ending.Threw?
    ensures Execute(req, w, admin, fuel).1 == TryBlock(req, w, admin, fuel).trace
    ensures TryBlock(req, w, admin, fuel).ending.Returned? ==>
      Execute(req, w, admin, fuel).0 == TryBlock(req, w, admin, fuel).ending.response
  {
  }

  /** The same seen from the whole `try`/`except`: the `except` branch only
      adds Slack calls. */
  lemma CompletedExecutesOnce(req: Request, w: World, admin: string, fuel: nat)
    requires Created(w.create)
    requires AwaitRun(w.polls).Finished? && AwaitRun(w.polls).status == "completed"
    ensures var r := Execute(req, w, admin, fuel);
      var p := AwaitRun(w.polls).polls;
      |r.1| >= p + 2 &&
      r.1[..p + 2] == [CreateRun(UserMessage(req))] + PollActions(w.create.threadId, p) + [FetchMessages(w.create.threadId)] &&
      SlackOnly(r.1[p + 2..])
  {
    CompletedFetchesOnce(req, w, admin, fuel);
    ExceptOnlySlack(req, w, admin, fuel);
    var p := AwaitRun(w.polls).polls;
    ExtendsSlackOnly(TryBlock(req, w, admin, fuel).trace, Execute(req, w, admin, fuel).1, p + 2);
  }

  /** A trace that extends `t` by Slack calls keeps `t`'s first `m` effects,
      and after them still only calls Slack. */
  lemma ExtendsSlackOnly(t: seq<Action>, r: seq<Action>, m: nat)
    requires m <= |t| && SlackOnly(t[m..])
    requires |r| >= |t| && r[..|t|] == t && SlackOnly(r[|t|..])
    ensures |r| >= m && r[..m] == t[..m] && SlackOnly(r[m..])
  {
    AppendSlackOnly(t, r[|t|..], m);
    assert r == t + r[|t|..];
  }

  /** The `except` branch only adds Slack calls after what the `try` block
      did. */
  lemma ExceptOnlySlack(req: Request, w: World, admin: string, fuel: nat)
    ensures var a := TryBlock(req, w, admin, fuel);
      var r := Execute(req, w, admin, fuel);
      |r.1| >= |a.trace| && r.1[..|a.trace|] == a.trace && SlackOnly(r.1[|a.trace|..])
  {
    var a := TryBlock(req, w, admin, fuel);
    var r := Execute(req, w, admin, fuel);
    if a.ending.Threw? {
      var e := a.ending.error;
      ThrowReported(req, w, admin, fuel, e);
      var n := SendGptResponse(req.channel, req.ts, "Error: " + e, a.slack, admin, fuel);
      assert r.1[|a.trace|..] == n.trace;
    } else {
      NoThrowNoReport(req, w, admin, fuel);
    }
  }

  /** A claimed call whose run completes after `p` polls: the claim, the run,
      `p` polls, exactly one fetch of the messages, and afterwards only Slack. */
  lemma CompletedRunFetchesOnce(processed: set<Option<string>>, req: Request, w: World, admin: string, fuel: nat)
    requires !IsHandshake(req) && !IsRetry(req) && req.eventId !in processed
    requires Created(w.create)
    requires AwaitRun(w.polls).Finished? && AwaitRun(w.polls).status == "completed"
    ensures var h := Deliver(processed, req, w, admin, fuel);
      var p := AwaitRun(w.polls).polls;
      |h.trace| >= p + 3 &&
      (forall k :: 2 <= k < p + 2 ==> h.trace[k] == PollRun(w.create.threadId)) &&
      h.trace[p + 2] == FetchMessages(w.create.threadId) &&
      SlackOnly(h.trace[p + 3..])
  {
    CompletedExecutesOnce(req, w, admin, fuel);
    var r := Execute(req, w, admin, fuel);
    ClaimShifts(Claim(req.eventId), r.1, CreateRun(UserMessage(req)), w.create.threadId, AwaitRun(w.polls).polls);
  }

  /** The completed-run shape of a trace, one position further on once the
      claim is put in front of it. */
  lemma ClaimShifts(claim: Action, x: seq<Action>, create: Action, tid: Option<string>, p: nat)
    requires |x| >= p + 2 && x[..p + 2] == [create] + PollActions(tid, p) + [FetchMessages(tid)]
    requires SlackOnly(x[p + 2..])
    ensures var y := [claim] + x;
      |y| >= p + 3 &&
      (forall k :: 2 <= k < p + 2 ==> y[k] == PollRun(tid)) &&
      y[p + 2] == FetchMessages(tid) &&
      SlackOnly(y[p + 3..])
  {
    var y := [claim] + x;
    forall k | 2 <= k < p + 3
      ensures y[k] == x[..p + 2][k - 1]
    {
    }
    assert y[p + 3..] == x[p + 2..];
  }

  /** A run whose status stays outside "completed", "failed" and
      "incomplete" is polled for as long as the backend answers: the call
      never answers and never reports in the thread. */
  lemma NonTerminalRunNeverAnswers(processed: set<Option<string>>, req: Request, w: World, admin: string, fuel: nat,
                                   status: string)
    requires !IsHandshake(req) && !IsRetry(req) && req.eventId !in processed
    requires Created(w.create)
    requires !IsTerminal(status) && forall k :: 0 <= k < |w.polls| ==> w.polls[k] == RunStatus(status)
    ensures var h := Deliver(processed, req, w, admin, fuel);
      h.response == NoResponse &&
      h.trace == [Claim(req.eventId), CreateRun(UserMessage(req))] + PollActions(w.create.threadId, |w.polls|)
  {
    NeverStopsWaits(w.polls);
    assert StartRun(w.create) == Success(w.create.threadId);
    assert TryBlock(req, w, admin, fuel).ending == Hangs;
  }

  /** The polling example seen from the handler: three non-terminal polls and
      a "completed" one lead to exactly one fetch of the messages, right after
      the fourth poll. */
  lemma CompletedAfterFourPolls(processed: set<Option<string>>, req: Request, w: World, admin: string, fuel: nat)
    requires !IsHandshake(req) && !IsRetry(req) && req.eventId !in processed
    requires Created(w.create)
    requires w.polls == [RunStatus("queued"), RunStatus("in_progress"), RunStatus("in_progress"),
                         RunStatus("completed")]
    ensures var h := Deliver(processed, req, w, admin, fuel);
      |h.trace| >= 7 &&
      (forall k :: 2 <= k < 6 ==> h.trace[k] == PollRun(w.create.threadId)) &&
      h.trace[6] == FetchMessages(w.create.threadId) &&
      (forall k :: 7 <= k < |h.trace| ==> !h.trace[k].FetchMessages? && !h.trace[k].PollRun?)
  {
    PollingExample([]);
    assert w.polls + [] == w.polls;
    CompletedRunFetchesOnce(processed, req, w, admin, fuel);
    SlackOnlyAfter(Deliver(processed, req, w, admin, fuel).trace, 7);
  }

  /** Only Slack calls from position `m` on: no poll and no fetch there. */
  lemma SlackOnlyAfter(t: seq<Action>, m: nat)
    requires m <= |t| && SlackOnly(t[m..])
    ensures forall k :: m <= k < |t| ==> !t[k].FetchMessages? && !t[k].PollRun?
  {
    forall k | m <= k < |t|
      ensures !t[k].FetchMessages? && !t[k].PollRun?
    {
      assert t[k] == t[m..][k - m];
    }
  }

  /** The module-level state of api/app.py: the processed event ids. */
  class EventIntake {
    var processed: set<Option<string>>
    const admin: string

    /** `load_processed_events`: the ids stored in the file, or none when the
        file is missing or unreadable (`persisted` is None). */
    constructor(persisted: Option<seq<Option<string>>>, admin: string)
      ensures persisted.None? ==> processed == {}
      ensures persisted.Some? ==> forall id :: id in processed <==> id in persisted.value
      ensures this.admin == admin
    {
      processed := if persisted.Some? then (set id | id in persisted.value) else {};
      this.admin := admin;
    }

    /** `slack()`: answers one webhook call, claiming its event id first when
        it does any work. */
    method Handle(req: Request, w: World, fuel: nat) returns (response: Response, trace: seq<Action>)
      modifies this
      ensures Deliver(old(processed), req, w, admin, fuel) == Handled(response, trace, processed)
      ensures old(processed) <= processed
    {
      if IsHandshake(req) {
        return Challenge(req.challenge), [];
      }
      if IsRetry(req) {
        return Ok, [];
      }
      if req.eventId in processed {
        return AlreadyProcessed, [];
      }
      processed := processed + {req.eventId};
      var r := Execute(req, w, admin, fuel);
      response := r.0;
      trace := [Claim(req.eventId)] + r.1;
    }
  }
}
