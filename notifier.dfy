/** `get_last_message` and `send_gpt_response` (api/app.py:115-152): post a
    reply into a Slack thread unless the thread's last message already equals
    it, and tag the administrator when the post fails. */
module Notifier {
  import opened Common
  import opened Formatter

  /** A SlackApiError: its `response['error']` code and its `str(e)` text. */
  datatype SlackError = SlackError(code: string, description: string)

  /** What Slack does during one webhook call: the texts of the thread's
      messages as conversations.replies returns them (None when that call
      raises), and the outcome of each chat.postMessage in call order (None:
      it succeeds; calls past the end of the list succeed). */
  datatype Slack = Slack(thread: Option<seq<string>>, posts: seq<Option<SlackError>>)

  /** How `send_gpt_response` ended. `Raised` carries the text of the
      exception that escapes it; `FormatHangs` means `format_links` never
      returned. */
  datatype Dispatch =
    | Suppressed
    | Posted
    | AdminAlerted(code: string)
    | Raised(error: string)
    | FormatHangs

  datatype Notice = Notice(outcome: Dispatch, trace: seq<Action>, slack: Slack)

  /** `get_last_message`: the text of the last message of the thread; None
      when the thread is empty or the lookup raises. */
  function LastMessage(thread: Option<seq<string>>): (r: Option<string>)
    ensures r.Some? <==> thread.Some? && |thread.value| > 0
    ensures r.Some? ==> r.value == thread.value[|thread.value| - 1]
  {
    match thread
    case None => None
    case Some(texts) => if |texts| > 0 then Some(texts[|texts| - 1]) else None
  }

  /** The alert posted after a failed post (api/app.py:144-149). */
  function AdminAlert(admin: string, code: string): (s: string) {
    "<@" + admin + "> Error sending message to Slack: " + code
  }

  /** The outcome of the next chat.postMessage, and what remains. */
  function NextPost(slack: Slack): (r: (Option<SlackError>, Slack)) {
    if |slack.posts| == 0 then (None, slack)
    else (slack.posts[0], Slack(slack.thread, slack.posts[1..]))
  }

  /** The formatted text exists and differs from the thread's last message,
      so `send_gpt_response` posts it (a missing last message counts as
      different). */
  predicate Differs(text: string, slack: Slack, fuel: nat) {
    FormatWithin(text, fuel).Some? && LastMessage(slack.thread) != FormatWithin(text, fuel)
  }

  /** `send_gpt_response`, run with at most `fuel` passes of `format_links`. */
  function SendGptResponse(channel: Option<string>, ts: Option<string>, text: string,
                           slack: Slack, admin: string, fuel: nat): (n: Notice)
    ensures n.outcome == FormatHangs <==> FormatWithin(text, fuel).None?
    ensures n.outcome == FormatHangs ==> n.trace == []
    ensures n.outcome != FormatHangs ==> |n.trace| >= 1 && n.trace[0] == ReadReplies(channel, ts)
    ensures n.outcome == Suppressed <==>
      FormatWithin(text, fuel).Some? && LastMessage(slack.thread) == FormatWithin(text, fuel)
    ensures n.outcome == Suppressed ==> |n.trace| == 1
    ensures n.outcome.Posted? || n.outcome.AdminAlerted? || n.outcome.Raised? ==>
      |n.trace| >= 2 && n.trace[1] == PostMessage(channel, ts, FormatWithin(text, fuel).value)
    ensures n.outcome.Posted? <==> |n.trace| == 2
    ensures n.outcome.AdminAlerted? || n.outcome.Raised? ==>
      NextPost(slack).0.Some? && |n.trace| == 3 &&
      n.trace[2] == PostMessage(channel, ts, AdminAlert(admin, NextPost(slack).0.value.code))
    ensures n.outcome.AdminAlerted? ==> n.outcome.code == NextPost(slack).0.value.code
    ensures n.outcome.Posted? <==> Differs(text, slack, fuel) && NextPost(slack).0.None?
    ensures n.outcome.AdminAlerted? <==>
      Differs(text, slack, fuel) && NextPost(slack).0.Some? && NextPost(NextPost(slack).1).0.None?
    ensures n.outcome.Raised? <==>
      Differs(text, slack, fuel) && NextPost(slack).0.Some? && NextPost(NextPost(slack).1).0.Some?
    ensures n.outcome.Raised? ==> n.outcome.error == NextPost(NextPost(slack).1).0.value.description
    ensures n.slack.thread == slack.thread
    ensures n.outcome == Suppressed || n.outcome == FormatHangs ==> n.slack == slack
    ensures n.outcome.Posted? ==> n.slack == NextPost(slack).1
    ensures n.outcome.AdminAlerted? || n.outcome.Raised? ==> n.slack == NextPost(NextPost(slack).1).1
    ensures forall k :: 0 <= k < |n.trace| ==> n.trace[k].ReadReplies? || n.trace[k].PostMessage?
  {
    match FormatWithin(text, fuel)
    case None => Notice(FormatHangs, [], slack)
    case Some(formatted) =>
      var read := [ReadReplies(channel, ts)];
      if LastMessage(slack.thread) == Some(formatted) then Notice(Suppressed, read, slack)
      else
        var post := PostMessage(channel, ts, formatted);
        var (first, afterFirst) := NextPost(slack);
        match first
        case None => Notice(Posted, read + [post], afterFirst)
        case Some(err) =>
          var alert := PostMessage(channel, ts, AdminAlert(admin, err.code));
          var (second, afterSecond) := NextPost(afterFirst);
          match second
          case None => Notice(AdminAlerted(err.code), read + [post, alert], afterSecond)
          case Some(err2) => Notice(Raised(err2.description), read + [post, alert], afterSecond)
  }

  /** A post is attempted exactly when the formatted reply differs from the
      thread's last message, a missing last message counting as different. */
  lemma PostsIffDifferent(channel: Option<string>, ts: Option<string>, text: string,
                          slack: Slack, admin: string, fuel: nat)
    requires FormatWithin(text, fuel).Some?
    ensures var n := SendGptResponse(channel, ts, text, slack, admin, fuel);
      (exists k :: 0 <= k < |n.trace| && n.trace[k].PostMessage?) <==>
      LastMessage(slack.thread) != FormatWithin(text, fuel)
  {
    var n := SendGptResponse(channel, ts, text, slack, admin, fuel);
    if LastMessage(slack.thread) != FormatWithin(text, fuel) {
      assert n.trace[1].PostMessage?;
    }
  }

  /** A failed post is followed by exactly one alert to the administrator;
      `send_gpt_response` returns normally unless that alert fails too. */
  lemma FailedPostAlertsOnce(channel: Option<string>, ts: Option<string>, text: string,
                             slack: Slack, admin: string, fuel: nat, err: SlackError)
    requires FormatWithin(text, fuel).Some?
    requires LastMessage(slack.thread) != FormatWithin(text, fuel)
    requires |slack.posts| >= 1 && slack.posts[0] == Some(err)
    ensures var n := SendGptResponse(channel, ts, text, slack, admin, fuel);
      n.trace == [ReadReplies(channel, ts), PostMessage(channel, ts, FormatWithin(text, fuel).value),
                  PostMessage(channel, ts, AdminAlert(admin, err.code))] &&
      (n.outcome == AdminAlerted(err.code) <==> |slack.posts| == 1 || slack.posts[1].None?) &&
      (|slack.posts| >= 2 && slack.posts[1].Some? ==> n.outcome == Raised(slack.posts[1].value.description))
  {
  }

  /** An empty thread, or a lookup that raises, never suppresses the reply:
      the formatted text is posted. */
  lemma MissingMessagePosts(channel: Option<string>, ts: Option<string>, text: string,
                            slack: Slack, admin: string, fuel: nat)
    requires FormatWithin(text, fuel).Some?
    requires slack.thread.None? || slack.thread.value == []
    ensures var n := SendGptResponse(channel, ts, text, slack, admin, fuel);
      n.outcome != Suppressed && |n.trace| >= 2 &&
      n.trace[1] == PostMessage(channel, ts, FormatWithin(text, fuel).value)
  {
    assert LastMessage(slack.thread).None?;
  }

  /** A settled text that differs from the thread's last message is posted
      as it is, and the call ends there when that post succeeds. */
  lemma SettledPosted(channel: Option<string>, ts: Option<string>, text: string,
                      slack: Slack, admin: string, fuel: nat)
    requires Settled(text) && LastMessage(slack.thread) != Some(text)
    requires slack.posts == [] || slack.posts[0].None?
    ensures var n := SendGptResponse(channel, ts, text, slack, admin, fuel);
      n.outcome == Posted && n.trace == [ReadReplies(channel, ts), PostMessage(channel, ts, text)]
  {
    SettledUnchanged(text, fuel);
  }
}
