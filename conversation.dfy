/** One round trip, end to end: the widget's request reaches the API route,
    the route's response comes back to the widget. The request body the
    widget builds holds only `messages` (src/app/components/ChatComponent.tsx
    line 28), so the route never sees a persona or topic from it. */
module Conversation {
  import opened Common
  import D = Dispatcher
  import W = ChatWidget

  /** The route's view of the widget's request body. */
  function RequestOf(s: W.WidgetState): D.Incoming
  {
    D.Parsed(D.Request(D.Array(W.Payload(s)), None, None))
  }

  /** The widget's view of the route's response: `response.ok` is a 2xx
      status, and the JSON body carries `error` on failure and `content` on
      success (an envelope has no content, which the widget never reads). */
  function Delivered(r: D.Response): W.ClientOutcome
  {
    W.Received(200 <= r.status < 300,
      match r.body
      case Reply(_, content) => W.Json(None, content)
      case Failure(error, _) => W.Json(Some(error), ""))
  }

  /** `slice(-5)` of a list grown by one message: the new message closes the
      window, after at most four older ones. */
  lemma WindowSnoc(ms: seq<Message>, m: Message)
    ensures D.Window(ms + [m]) == D.Window(ms)[if |ms| >= 5 then 1 else 0..] + [m]
  {
    var all := ms + [m];
    if |ms| >= 5 {
      assert all[|all| - 5..] == ms[|ms| - 4..] + [m];
      assert D.Window(ms)[1..] == ms[|ms| - 4..];
    } else {
      assert D.Window(all) == all;
    }
  }

  /** Whatever came before, the prompt ends with the newest message's line
      followed by the assistant cue. */
  lemma PromptEndsWithNewest(systemPrompt: string, ms: seq<Message>, m: Message)
    ensures var p := D.BuildPrompt(systemPrompt, ms + [m]);
            var tail := D.FormatLine(m) + D.AssistantCue;
            |tail| <= |p| && p[|p| - |tail|..] == tail
  {
    var older := D.Window(ms)[if |ms| >= 5 then 1 else 0..];
    var w := D.Window(ms + [m]);
    WindowSnoc(ms, m);
    assert w == older + [m];
    var line := D.FormatLine(m);
    var head := if older == [] then "" else D.Format(older) + "\n";
    D.FormatSnoc(older, m);
    assert D.Format(w) == head + line;
    PromptTail(systemPrompt, ms + [m], head, line);
  }

  /** A prompt whose transcript ends with `line` ends with `line` and the cue. */
  lemma PromptTail(systemPrompt: string, ms: seq<Message>, head: string, line: string)
    requires D.Format(D.Window(ms)) == head + line
    ensures var p := D.BuildPrompt(systemPrompt, ms);
            var tail := line + D.AssistantCue;
            |tail| <= |p| && p[|p| - |tail|..] == tail
  {
    var pre := systemPrompt + D.ConversationHeader + head;
    var tail := line + D.AssistantCue;
    assert D.BuildPrompt(systemPrompt, ms) == pre + tail;
    SuffixOfConcat(pre, tail);
  }

  /** The widget's request carries no persona or topic, so the route always
      answers it with Solomon's prompt. */
  lemma WidgetRequestUsesSolomon(s: W.WidgetState)
    ensures D.Compose(RequestOf(s)) == D.Ok(D.BuildPrompt(D.SolomonPrompt, W.Payload(s)))
  {
    assert D.SelectPrompt(None, None) == D.SolomonPrompt;
  }

  /** The prompt built from the widget's request ends with the user's new
      line followed by the assistant cue. */
  lemma PromptEndsWithUserLine(s: W.WidgetState)
    ensures var p := D.BuildPrompt(D.SolomonPrompt, W.Payload(s));
            var tail := "Human: " + s.input + D.AssistantCue;
            |tail| <= |p| && p[|p| - |tail|..] == tail
  {
    PromptEndsWithNewest(D.SolomonPrompt, s.messages, W.UserMessage(s));
    assert D.FormatLine(W.UserMessage(s)) == "Human: " + s.input;
  }

  /** A submit answered by the route: when the model produced text the widget
      shows it as the one new assistant message after the user's; on every
      failure the user's message stays, nothing else is appended, and the
      fixed notice is shown. */
  lemma RoundTrip(s: W.WidgetState, generate: string -> D.GenerateOutcome)
    requires W.Inv(s) && W.Accepts(s)
    ensures var outcome := generate(D.BuildPrompt(D.SolomonPrompt, W.Payload(s)));
            var t := W.AfterSubmit(s, Delivered(D.Handle(RequestOf(s), generate)));
      && (outcome.Generated? ==> t.messages == W.Payload(s) + [Message("assistant", outcome.text)] && t.error == None)
      && (!outcome.Generated? ==> t.messages == W.Payload(s) && t.error == Some(W.FailureNotice))
      && !t.isLoading
  {
    WidgetRequestUsesSolomon(s);
    var r := D.Handle(RequestOf(s), generate);
    D.HandleResponses(RequestOf(s), generate);
    W.SubmitOutcome(s, Delivered(r));
  }
}
