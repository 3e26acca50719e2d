/** The assistant-backend side of the handler: `create_thread`
    (api/app.py:49-70), `wait_for_run_completion` (72-85), `get_thread_messages`
    (87-99) and the structure check on the messages payload (200-208). The HTTP
    calls themselves are replaced by the replies they return. */
module RunClient {
  import opened Common

  /** What POST /threads/runs answered: the HTTP status, the body text, and
      the `thread_id` field of the JSON body (absent: None); or the text of
      the exception the request raised (a refused connection, a timeout). */
  datatype CreateReply =
    | CreateReply(statusCode: nat, body: string, threadId: Option<string>)
    | CreateFault(error: string)

  /** The backend answered the create request with 200. */
  predicate Created(reply: CreateReply) {
    reply.CreateReply? && reply.statusCode == 200
  }

  /** What one GET /threads/{id}/runs answered: the status of `data[0]`, or
      the text of the exception raised while reading it (missing `data`, an
      empty list, a body that is not JSON). */
  datatype PollReply = RunStatus(status: string) | PollFault(error: string)

  /** How the polling loop ended after `polls` requests; `StillWaiting` means
      every reply so far asked for another poll, so the loop is still running. */
  datatype Wait =
    | Finished(status: string, polls: nat)
    | Faulted(error: string, polls: nat)
    | StillWaiting(polls: nat)

  /** The `text` entry of a content part; `value` is None when the entry has
      no "value" key. */
  datatype TextEntry = TextEntry(value: Option<string>)

  /** One element of a message's `content` list; `text` is None when the
      element has no "text" key. */
  datatype ContentPart = ContentPart(text: Option<TextEntry>)

  /** A message's `content`: `Absent` when the key is missing, null, or not a
      list; otherwise the list. */
  datatype Content = Absent | Parts(parts: seq<ContentPart>)

  datatype Message = Message(content: Content)

  /** The messages payload; `data` is None when the key is missing or null. */
  datatype MessagesPayload = MessagesPayload(data: Option<seq<Message>>)

  /** What GET /threads/{id}/messages answered, or the text of the exception
      the request raised. */
  datatype MessagesReply =
    | MessagesReply(statusCode: nat, body: string, payload: MessagesPayload)
    | MessagesFault(error: string)

  const StructureError := "Unexpected API response structure"

  /** `create_thread`: the new run's thread id, or the text of the exception
      it raises: the request's own, or the one for a status other than 200. */
  function StartRun(reply: CreateReply): (r: Result<Option<string>, string>)
    ensures r.Success? <==> Created(reply)
    ensures r.Success? ==> r.value == reply.threadId
    ensures reply.CreateFault? ==> r == Failure(reply.error)
    ensures reply.CreateReply? && r.Failure? ==>
      r.error == "Failed to create thread: " + Decimal(reply.statusCode) + ", " + reply.body
  {
    match reply
    case CreateFault(e) => Failure(e)
    case CreateReply(statusCode, body, threadId) =>
      if statusCode != 200 then
        Failure("Failed to create thread: " + Decimal(statusCode) + ", " + body)
      else
        Success(threadId)
  }

  predicate IsTerminal(status: string) {
    status == "completed" || status == "failed" || status == "incomplete"
  }

  /** A poll reply that ends the loop: a terminal status, or an exception. */
  predicate Stops(p: PollReply) {
    p.PollFault? || IsTerminal(p.status)
  }

  /** The polling loop over the replies the backend gives, in order. It ends
      at the first reply that stops it, after exactly that many polls; every
      earlier reply carried a status outside the terminal three (queued,
      in_progress, or anything else). */
  function AwaitRun(replies: seq<PollReply>): (w: Wait)
    ensures w.polls <= |replies|
    ensures forall k :: 0 <= k < |replies| && k + 1 < w.polls ==> !Stops(replies[k])
    ensures w.Finished? ==> w.polls >= 1 && replies[w.polls - 1] == RunStatus(w.status) && IsTerminal(w.status)
    ensures w.Faulted? ==> w.polls >= 1 && replies[w.polls - 1] == PollFault(w.error)
    ensures w.StillWaiting? ==> w.polls == |replies| && forall k :: 0 <= k < |replies| ==> !Stops(replies[k])
  {
    if |replies| == 0 then StillWaiting(0)
    else match replies[0]
      case PollFault(e) => Faulted(e, 1)
      case RunStatus(s) =>
        if IsTerminal(s) then Finished(s, 1)
        else match AwaitRun(replies[1..])
          case Finished(t, n) => Finished(t, n + 1)
          case Faulted(e, n) => Faulted(e, n + 1)
          case StillWaiting(n) => StillWaiting(n + 1)
  }

  /** Replies none of which stops the loop leave it waiting after all of
      them. */
  lemma NeverStopsWaits(replies: seq<PollReply>)
    requires forall k :: 0 <= k < |replies| ==> !Stops(replies[k])
    ensures AwaitRun(replies) == StillWaiting(|replies|)
  {
  }

  /** A status outside the three terminal ones ("cancelled", "expired",
      "requires_action", ...) never ends the loop: it polls on for as long
      as the backend keeps answering with it. */
  lemma {:induction false} NonTerminalKeepsPolling(status: string, n: nat)
    requires !IsTerminal(status)
    ensures AwaitRun(seq(n, _ => RunStatus(status))) == StillWaiting(n)
  {
    var replies := seq(n, _ => RunStatus(status));
    forall k | 0 <= k < n
      ensures !Stops(replies[k])
    {
    }
    NeverStopsWaits(replies);
  }

  lemma CancelledKeepsPolling(n: nat)
    ensures AwaitRun(seq(n, _ => RunStatus("cancelled"))) == StillWaiting(n)
  {
    assert "cancelled"[1] != "completed"[1];
    NonTerminalKeepsPolling("cancelled", n);
  }

  /** `wait_for_run_completion`: poll until a status is terminal. */
  method WaitForRunCompletion(replies: seq<PollReply>) returns (w: Wait)
    ensures w == AwaitRun(replies)
  {
    var i := 0;
    while i < |replies|
      invariant i <= |replies|
      invariant forall k :: 0 <= k < i ==> !Stops(replies[k])
    {
      match replies[i]
      case PollFault(e) =>
        return Faulted(e, i + 1);
      case RunStatus(s) =>
        if IsTerminal(s) {
          return Finished(s, i + 1);
        }
      i := i + 1;
    }
    return StillWaiting(|replies|);
  }

  /** The structure check of api/app.py:201-208: the text of the first content
      part of the first message, or the text of the exception raised. A text
      entry without "value" raises KeyError('value'), whose text is "'value'". */
  function ExtractReply(p: MessagesPayload): (r: Result<string, string>)
    ensures r.Success? <==>
      p.data.Some? && |p.data.value| > 0 && p.data.value[0].content.Parts? &&
      |p.data.value[0].content.parts| > 0 && p.data.value[0].content.parts[0].text.Some? &&
      p.data.value[0].content.parts[0].text.value.value.Some?
    ensures r.Success? ==> r.value == p.data.value[0].content.parts[0].text.value.value.value
    ensures r.Failure? ==> r.error == StructureError || r.error == "'value'"
    ensures r == Failure("'value'") <==>
      p.data.Some? && |p.data.value| > 0 && p.data.value[0].content.Parts? &&
      |p.data.value[0].content.parts| > 0 && p.data.value[0].content.parts[0].text.Some? &&
      p.data.value[0].content.parts[0].text.value.value.None?
  {
    if p.data.None? || |p.data.value| == 0 then Failure(StructureError)
    else match p.data.value[0].content
      case Absent => Failure(StructureError)
      case Parts(parts) =>
        if |parts| == 0 || parts[0].text.None? then Failure(StructureError)
        else match parts[0].text.value.value
          case None => Failure("'value'")
          case Some(v) => Success(v)
  }

  /** `get_thread_messages` followed by the structure check. */
  function FetchReply(reply: MessagesReply): (r: Result<string, string>)
    ensures reply.MessagesFault? ==> r == Failure(reply.error)
    ensures reply.MessagesReply? && reply.statusCode != 200 ==>
      r == Failure("Failed to get thread messages: " + Decimal(reply.statusCode) + ", " + reply.body)
    ensures reply.MessagesReply? && reply.statusCode == 200 ==> r == ExtractReply(reply.payload)
  {
    match reply
    case MessagesFault(e) => Failure(e)
    case MessagesReply(statusCode, body, payload) =>
      if statusCode != 200 then
        Failure("Failed to get thread messages: " + Decimal(statusCode) + ", " + body)
      else
        ExtractReply(payload)
  }

  /** The polling example: queued, in_progress, in_progress, completed ends
      with "completed" after the fourth poll. */
  lemma PollingExample(rest: seq<PollReply>)
    ensures AwaitRun([RunStatus("queued"), RunStatus("in_progress"), RunStatus("in_progress"),
                      RunStatus("completed")] + rest) == Finished("completed", 4)
  {
    var s := [RunStatus("queued"), RunStatus("in_progress"), RunStatus("in_progress"),
              RunStatus("completed")] + rest;
    assert !Stops(s[0]) && !Stops(s[1]) && !Stops(s[2]) && Stops(s[3]);
    assert s[3] == RunStatus("completed");
    var w := AwaitRun(s);
    assert w.polls == 4;
  }
}
