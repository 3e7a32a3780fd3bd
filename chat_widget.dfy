/** The chat widget's state and its submit handler
    (src/app/components/ChatComponent.tsx). `handleSubmit` runs as two steps:
    a synchronous begin (guard, append the user's message, start loading) and
    a completion once the HTTP exchange has an outcome (append the reply or
    show the error, stop loading). The exchange itself is a parameter. */
module ChatWidget {
  import opened Common

  const Greeting: Message := Message("assistant", "Greetings, I am Solomon, son of David, king of Israel. I have been blessed by the LORD with wisdom to share understanding about the Proverbs and matters of life. What wisdom do you seek?")

  const FailureNotice: string := "Failed to get wisdom. Please try again."

  // ------------------------------------------------------------ input.trim()

  /** The characters `String.prototype.trim` removes: ECMAScript white space
      and line terminators. */
  predicate IsWhitespace(c: char)
  {
    c == '\t' || c == '\n' || c == '\U{000B}' || c == '\U{000C}' || c == '\r' || c == ' '
    || c == '\U{00A0}' || c == '\U{1680}' || ('\U{2000}' <= c <= '\U{200A}')
    || c == '\U{2028}' || c == '\U{2029}' || c == '\U{202F}' || c == '\U{205F}'
    || c == '\U{3000}' || c == '\U{FEFF}'
  }

  function TrimStart(s: string): string
  {
    if s != [] && IsWhitespace(s[0]) then TrimStart(s[1..]) else s
  }

  function TrimEnd(s: string): string
  {
    if s != [] && IsWhitespace(s[|s| - 1]) then TrimEnd(s[..|s| - 1]) else s
  }

  function Trim(s: string): string
  {
    TrimEnd(TrimStart(s))
  }

  /** What trimming leaves is a piece of the input that neither starts nor
      ends with white space. */
  lemma {:induction false} TrimStartSpec(s: string)
    ensures exists k :: 0 <= k <= |s| && TrimStart(s) == s[k..] && forall i :: 0 <= i < k ==> IsWhitespace(s[i])
    ensures TrimStart(s) != [] ==> !IsWhitespace(TrimStart(s)[0])
  {
    if s != [] && IsWhitespace(s[0]) {
      TrimStartSpec(s[1..]);
      var k :| 0 <= k <= |s[1..]| && TrimStart(s[1..]) == s[1..][k..] && forall i :: 0 <= i < k ==> IsWhitespace(s[1..][i]);
      assert TrimStart(s) == s[k + 1..];
      assert forall i :: 0 <= i < k + 1 ==> IsWhitespace(s[i]) by {
        forall i | 0 <= i < k + 1 ensures IsWhitespace(s[i]) {
          if i > 0 { assert s[i] == s[1..][i - 1]; }
        }
      }
    } else {
      assert TrimStart(s) == s[0..];
    }
  }

  lemma {:induction false} TrimEndSpec(s: string)
    ensures exists k :: 0 <= k <= |s| && TrimEnd(s) == s[..k] && forall i :: k <= i < |s| ==> IsWhitespace(s[i])
    ensures TrimEnd(s) != [] ==> !IsWhitespace(TrimEnd(s)[|TrimEnd(s)| - 1])
  {
    if s != [] && IsWhitespace(s[|s| - 1]) {
      var t := s[..|s| - 1];
      TrimEndSpec(t);
      var k :| 0 <= k <= |t| && TrimEnd(t) == t[..k] && forall i :: k <= i < |t| ==> IsWhitespace(t[i]);
      assert TrimEnd(s) == s[..k];
    } else {
      assert TrimEnd(s) == s[..|s|];
    }
  }

  /** An input of white space only trims away entirely. */
  lemma {:induction false} TrimStartOfBlank(s: string)
    requires forall i :: 0 <= i < |s| ==> IsWhitespace(s[i])
    ensures TrimStart(s) == ""
  {
    if s != [] {
      TrimStartOfBlank(s[1..]);
    }
  }

  /** A character that is not white space survives trimming. */
  lemma NonBlankSurvivesTrim(s: string, i: int)
    requires 0 <= i < |s| && !IsWhitespace(s[i])
    ensures Trim(s) != ""
  {
    TrimStartSpec(s);
    var k :| 0 <= k <= |s| && TrimStart(s) == s[k..] && forall i :: 0 <= i < k ==> IsWhitespace(s[i]);
    var t := s[k..];
    assert t[i - k] == s[i];
    TrimEndSpec(t);
    var j :| 0 <= j <= |t| && TrimEnd(t) == t[..j] && forall i :: j <= i < |t| ==> IsWhitespace(t[i]);
    assert i - k < j;
  }

  /** The guard `!input.trim()`: trimming leaves nothing exactly when every
      character of the input is white space. */
  lemma TrimEmptyIffBlank(s: string)
    ensures Trim(s) == "" <==> forall i :: 0 <= i < |s| ==> IsWhitespace(s[i])
  {
    if forall i :: 0 <= i < |s| ==> IsWhitespace(s[i]) {
      TrimStartOfBlank(s);
    } else {
      var i :| 0 <= i < |s| && !IsWhitespace(s[i]);
      NonBlankSurvivesTrim(s, i);
    }
  }

  // ------------------------------------------------------------------ state

  datatype WidgetState = WidgetState(messages: seq<Message>, input: string, isLoading: bool, error: Option<string>)

  /** What `fetch` and the two `json()` reads produced: a transport failure,
      or a response with its `ok` flag and its body. */
  datatype ClientOutcome = TransportFailure | Received(ok: bool, body: ClientBody)

  /** The response body: not JSON at all, or an object whose `error` field
      may be present and whose `content` field is the reply. */
  datatype ClientBody = NotJson | Json(error: Option<string>, content: string)

  function Initial(): WidgetState
  {
    WidgetState([Greeting], "", false, None)
  }

  /** The guard: a submit goes ahead unless the input is blank or a request
      is already in flight. */
  predicate Accepts(s: WidgetState)
  {
    Trim(s.input) != "" && !s.isLoading
  }

  function UserMessage(s: WidgetState): Message
  {
    Message("user", s.input)
  }

  /** The messages the request carries: the list as it was when the submit
      began, followed by the user's message. */
  function Payload(s: WidgetState): seq<Message>
  {
    s.messages + [UserMessage(s)]
  }

  function AfterBegin(s: WidgetState): WidgetState
  {
    if !Accepts(s) then s
    else WidgetState(Payload(s), "", true, None)
  }

  /** The exchange yields a reply only when the status is ok, the body is
      JSON and its `error` field is not truthy. */
  predicate Succeeds(o: ClientOutcome)
  {
    o.Received? && o.ok && o.body.Json? && !Truthy(o.body.error)
  }

  function AfterComplete(s: WidgetState, o: ClientOutcome): WidgetState
  {
    if Succeeds(o) then s.(messages := s.messages + [Message("assistant", o.body.content)], isLoading := false)
    else s.(error := Some(FailureNotice), isLoading := false)
  }

  /** A whole `handleSubmit`: the begin step and, when it went ahead, the
      completion. */
  function AfterSubmit(s: WidgetState, o: ClientOutcome): WidgetState
  {
    if Accepts(s) then AfterComplete(AfterBegin(s), o) else s
  }

  /** The user's interactions: typing, submitting, closing the error banner. */
  datatype Event = Type(text: string) | Submit(outcome: ClientOutcome) | DismissError

  function AfterEvent(s: WidgetState, e: Event): WidgetState
  {
    match e
    case Type(text) => s.(input := text)
    case Submit(o) => AfterSubmit(s, o)
    case DismissError => s.(error := None)
  }

  function AfterEvents(s: WidgetState, es: seq<Event>): WidgetState
    decreases |es|
  {
    if es == [] then s else AfterEvents(AfterEvent(s, es[0]), es[1..])
  }

  /** The invariant of the widget: the greeting opens the list, every message
      is from the user or the assistant, and while a request is in flight the
      last message is the user's and no error is shown. */
  predicate Inv(s: WidgetState)
  {
    && |s.messages| >= 1
    && s.messages[0] == Greeting
    && (forall i :: 0 <= i < |s.messages| ==> s.messages[i].role in {"user", "assistant"})
    && (s.isLoading ==> s.messages[|s.messages| - 1].role == "user" && s.error == None)
  }

  // ----------------------------------------------------------- properties

  lemma InitialState()
    ensures Inv(Initial())
    ensures Initial().messages == [Greeting] && Greeting.role == "assistant"
    ensures Initial().input == "" && !Initial().isLoading && Initial().error == None
  {
  }

  /** A blank input, or a request already in flight, makes submit a no-op. */
  lemma RejectedSubmitChangesNothing(s: WidgetState, o: ClientOutcome)
    requires s.isLoading || forall i :: 0 <= i < |s.input| ==> IsWhitespace(s.input[i])
    ensures AfterBegin(s) == s && AfterSubmit(s, o) == s
  {
    TrimEmptyIffBlank(s.input);
  }

  /** An accepted begin clears the error, starts loading, empties the input
      and appends the raw, untrimmed input as one user message; the request
      carries exactly the list the widget now shows. */
  lemma BeginAccepted(s: WidgetState)
    requires Inv(s) && Accepts(s)
    ensures var t := AfterBegin(s);
      && t.messages == s.messages + [Message("user", s.input)]
      && t.messages == Payload(s)
      && t.input == "" && t.isLoading && t.error == None
      && Inv(t)
  {
  }

  /** A completed submit keeps the user's message; it appends exactly one
      assistant message with the returned content on success, and on every
      failure appends nothing and shows the fixed notice; loading is over
      either way. */
  lemma SubmitOutcome(s: WidgetState, o: ClientOutcome)
    requires Inv(s) && Accepts(s)
    ensures var t := AfterSubmit(s, o);
      && t.messages[..|s.messages| + 1] == s.messages + [Message("user", s.input)]
      && (Succeeds(o) ==> t.messages == s.messages + [Message("user", s.input), Message("assistant", o.body.content)]
                          && t.error == None)
      && (!Succeeds(o) ==> t.messages == s.messages + [Message("user", s.input)] && t.error == Some(FailureNotice))
      && !t.isLoading && t.input == ""
  {
    var t := AfterSubmit(s, o);
    assert t.messages[..|s.messages| + 1] == s.messages + [Message("user", s.input)];
  }

  /** Transport failures, non-ok statuses, unreadable bodies and bodies with
      an error field all end the same way. */
  lemma FailuresAreAlike(s: WidgetState, o1: ClientOutcome, o2: ClientOutcome)
    requires !Succeeds(o1) && !Succeeds(o2)
    ensures AfterSubmit(s, o1) == AfterSubmit(s, o2)
  {
  }

  lemma {:induction false} EventPreservesInv(s: WidgetState, e: Event)
    requires Inv(s)
    ensures Inv(AfterEvent(s, e))
    ensures s.messages <= AfterEvent(s, e).messages
    ensures !s.isLoading ==> !AfterEvent(s, e).isLoading
  {
    match e
    case Type(_) =>
    case DismissError =>
    case Submit(o) =>
      if Accepts(s) {
        var b := AfterBegin(s);
        assert Inv(b);
        var t := AfterComplete(b, o);
        assert forall i :: 0 <= i < |b.messages| ==> t.messages[i] == b.messages[i];
      }
  }

  /** Along any sequence of interactions the invariant holds, and the
      message list only grows: the old list is always a prefix of the new. */
  lemma {:induction false} EventsPreserveInv(s: WidgetState, es: seq<Event>)
    requires Inv(s)
    ensures Inv(AfterEvents(s, es))
    ensures s.messages <= AfterEvents(s, es).messages
    decreases |es|
  {
    if es != [] {
      EventPreservesInv(s, es[0]);
      EventsPreserveInv(AfterEvent(s, es[0]), es[1..]);
    }
  }

  // ------------------------------------------------------------ the widget

  class Widget {
    var messages: seq<Message>
    var input: string
    var isLoading: bool
    var error: Option<string>

    function State(): WidgetState
      reads this
    {
      WidgetState(messages, input, isLoading, error)
    }

    constructor ()
      ensures State() == Initial()
    {
      messages := [Greeting];
      input := "";
      isLoading := false;
      error := None;
    }

    /** The input's `onChange`. */
    method SetInput(text: string)
      modifies this
      ensures State() == AfterEvent(old(State()), Type(text))
    {
      input := text;
    }

    /** The error banner's close button. */
    method DismissError()
      modifies this
      ensures State() == AfterEvent(old(State()), Event.DismissError)
    {
      error := None;
    }

    /** The synchronous part of `handleSubmit`; `payload` is the body's
      `messages` when the submit goes ahead. */
    method Begin() returns (accepted: bool, payload: seq<Message>)
      modifies this
      ensures accepted == Accepts(old(State()))
      ensures accepted ==> payload == Payload(old(State()))
      ensures State() == AfterBegin(old(State()))
    {
      payload := [];
      accepted := !(Trim(input) == "" || isLoading);
      if !accepted {
        return;
      }
      error := None;
      isLoading := true;
      var userMessage := Message("user", input);
      payload := messages + [userMessage];
      messages := messages + [userMessage];
      input := "";
    }

    /** The part of `handleSubmit` after the exchange, `finally` included. */
    method Complete(outcome: ClientOutcome)
      modifies this
      ensures State() == AfterComplete(old(State()), outcome)
    {
      if Succeeds(outcome) {
        messages := messages + [Message("assistant", outcome.body.content)];
      } else {
        error := Some(FailureNotice);
      }
      isLoading := false;
    }

    method HandleSubmit(outcome: ClientOutcome)
      modifies this
      ensures State() == AfterEvent(old(State()), Submit(outcome))
    {
      var accepted, payload := Begin();
      if accepted {
        Complete(outcome);
      }
    }
  }
}
