/** The API route that turns a chat request into one prompt for the language
    model and wraps the model's answer, or any failure, into a response
    (src/app/api/gemini/chat/route.ts). The model call itself is a parameter:
    `generate` maps the composed prompt to what the SDK call produced. */
module Dispatcher {
  import opened Common
  import Data

  // The persona and topic prompts are opaque, distinct texts; a persona
  // prompt is kept to its opening sentence, a topic prompt whole.
  const SolomonPrompt: string := "Act as King Solomon, the wisest king who ever lived."
  const DavidPrompt: string := "Act as King David, a man after God's own heart."
  const PaulPrompt: string := "Act as Apostle Paul, the great apostle to the Gentiles."
  const WisdomPrompt: string := "You are a biblical wisdom expert focusing on practical application of biblical wisdom principles. Draw from Proverbs, Ecclesiastes, and other wisdom literature to provide clear, actionable guidance for modern life challenges."
  const LovePrompt: string := "You are a biblical expert on love and relationships, drawing from Scripture to provide guidance on godly relationships, marriage, family, and Christian love in action."

  const CharacterPrompts: map<string, string> := map["solomon" := SolomonPrompt, "david" := DavidPrompt, "paul" := PaulPrompt]
  const TopicPrompts: map<string, string> := map["wisdom" := WisdomPrompt, "love" := LovePrompt]

  const FailureText: string := "Failed to get wisdom. Please try asking again."
  const InvalidMessagesText: string := "Invalid messages format"
  const EmptyResponseText: string := "Empty response from Gemini"
  const UnknownErrorText: string := "Unknown error"

  /** A thrown JavaScript value: an `Error` carries a message, anything else does not. */
  datatype Thrown = ErrorObject(message: string) | NonError

  datatype Result<T> = Ok(value: T) | Err(failure: Thrown)

  /** The `messages` field of the parsed body: absent (or falsy), some other
      non-array value, or an array of messages. */
  datatype MessagesField = Missing | NotArray | Array(items: seq<Message>)

  datatype Request = Request(messages: MessagesField, characterId: Option<string>, topicId: Option<string>)

  /** What `await req.json()` and the destructuring produced. */
  datatype Incoming = Unparsable(failure: Thrown) | Parsed(request: Request)

  /** What the model call produced: text, a missing result or response, or a throw. */
  datatype GenerateOutcome = Generated(text: string) | NoResponse | Raised(failure: Thrown)

  datatype ResponseBody = Reply(role: string, content: string) | Failure(error: string, details: string)

  datatype Response = Response(status: int, body: ResponseBody)

  // ---------------------------------------------------------------- selection

  /** `id && TABLE[id]`: the selector is truthy and names an own entry with a
      non-empty prompt. */
  predicate Known(table: map<string, string>, id: Option<string>)
  {
    Truthy(id) && id.value in table && table[id.value] != ""
  }

  /** The system prompt: the persona's when its id is known, else the topic's
      when its id is known, else Solomon's. */
  function SelectPrompt(characterId: Option<string>, topicId: Option<string>): (p: string)
    ensures p in CharacterPrompts.Values || p in TopicPrompts.Values
    ensures p != ""
  {
    if Known(CharacterPrompts, characterId) then CharacterPrompts[characterId.value]
    else if Known(TopicPrompts, topicId) then TopicPrompts[topicId.value]
    else CharacterPrompts["solomon"]
  }

  /** A known persona wins whatever the topic is. */
  lemma CharacterTakesPrecedence(c: string, topicId: Option<string>)
    requires c in CharacterPrompts
    ensures SelectPrompt(Some(c), topicId) == CharacterPrompts[c]
  {
  }

  /** With no known persona a known topic is used, and with neither the
      default persona; the three cases are told apart by the prompt chosen. */
  lemma SelectionCases(characterId: Option<string>, topicId: Option<string>)
    ensures characterId.Some? && characterId.value in CharacterPrompts
            <==> SelectPrompt(characterId, topicId) in {SolomonPrompt, DavidPrompt, PaulPrompt}
                 && (SelectPrompt(characterId, topicId) != SolomonPrompt || characterId == Some("solomon"))
    ensures !(characterId.Some? && characterId.value in CharacterPrompts) && topicId.Some? && topicId.value in TopicPrompts
            ==> SelectPrompt(characterId, topicId) == TopicPrompts[topicId.value]
    ensures !(characterId.Some? && characterId.value in CharacterPrompts) && !(topicId.Some? && topicId.value in TopicPrompts)
            ==> SelectPrompt(characterId, topicId) == SolomonPrompt
  {
  }

  /** Every persona prompt belongs to a listed persona and every topic prompt
      to a listed topic. */
  lemma PromptKeysAreTableIds()
    ensures forall k :: k in CharacterPrompts ==> Data.IsCharacterId(k)
    ensures forall k :: k in TopicPrompts ==> Data.IsTopicId(k)
  {
    Data.TableIds();
    forall k | k in CharacterPrompts ensures Data.IsCharacterId(k) {
      Data.FindCharacterExact(k, Data.Characters[0]);
    }
    forall k | k in TopicPrompts ensures Data.IsTopicId(k) {
      Data.FindTopicExact(k, Data.Topics[0]);
    }
  }

  // ------------------------------------------------ selection, as written

  /** The names a plain object literal inherits from `Object.prototype`. */
  const InheritedNames: set<string> := {
    "constructor", "toString", "toLocaleString", "valueOf", "hasOwnProperty",
    "isPrototypeOf", "propertyIsEnumerable", "__proto__", "__defineGetter__",
    "__defineSetter__", "__lookupGetter__", "__lookupSetter__"
  }

  /** What `TABLE[key]` yields on an object literal: an own prompt, an
      inherited member (a function or the prototype, always truthy), or
      `undefined`. */
  datatype PropertyValue = OwnPrompt(text: string) | InheritedMember(name: string) | Undefined

  function PropertyOf(table: map<string, string>, key: string): (v: PropertyValue)
    ensures v.OwnPrompt? <==> key in table
  {
    if key in table then OwnPrompt(table[key])
    else if key in InheritedNames then InheritedMember(key)
    else Undefined
  }

  predicate TruthyProperty(v: PropertyValue)
  {
    (v.OwnPrompt? && v.text != "") || v.InheritedMember?
  }

  /** The selection exactly as the route writes it, property access included. */
  function SelectPromptAsWritten(characterId: Option<string>, topicId: Option<string>): (v: PropertyValue)
    ensures v.Undefined? == false
  {
    if Truthy(characterId) && TruthyProperty(PropertyOf(CharacterPrompts, characterId.value)) then
      PropertyOf(CharacterPrompts, characterId.value)
    else if Truthy(topicId) && TruthyProperty(PropertyOf(TopicPrompts, topicId.value)) then
      PropertyOf(TopicPrompts, topicId.value)
    else OwnPrompt(CharacterPrompts["solomon"])
  }

  /** As written, the persona id "constructor" selects the inherited
      `Object` function instead of falling back to Solomon's prompt, which is
      what `SelectPrompt` does. */
  lemma InheritedNameSelectedAsWritten()
    ensures SelectPromptAsWritten(Some("constructor"), None) == InheritedMember("constructor")
    ensures SelectPrompt(Some("constructor"), None) == SolomonPrompt
  {
    assert "constructor" !in CharacterPrompts;
  }

  /** On every selector that is not an inherited name the two selections
      agree, so the corrected one changes nothing else. */
  lemma AsWrittenAgreesOffInheritedNames(characterId: Option<string>, topicId: Option<string>)
    requires characterId.Some? ==> characterId.value !in InheritedNames
    requires topicId.Some? ==> topicId.value !in InheritedNames
    ensures SelectPromptAsWritten(characterId, topicId) == OwnPrompt(SelectPrompt(characterId, topicId))
  {
  }

  // ------------------------------------------------------ window and format

  /** `Array.prototype.slice(start)`: a negative start counts from the end,
      and both forms are clamped to the array. */
  function SliceFrom<T>(s: seq<T>, start: int): (r: seq<T>)
    ensures |r| <= |s| && r == s[|s| - |r|..]
    ensures start >= 0 ==> |r| == if start <= |s| then |s| - start else 0
    ensures start < 0 ==> |r| == if -start <= |s| then -start else |s|
  {
    if start >= 0 then (if start <= |s| then s[start..] else [])
    else (if |s| + start >= 0 then s[|s| + start..] else s)
  }

  /** The messages that reach the prompt: `messages.slice(-5)`. */
  function Window(ms: seq<Message>): (w: seq<Message>)
    ensures |w| <= 5
    ensures |w| == if |ms| < 5 then |ms| else 5
    ensures w == ms[|ms| - |w|..]
    ensures |ms| <= 5 ==> w == ms
  {
    SliceFrom(ms, -5)
  }

  function RoleLabel(role: string): string
  {
    if role == "user" then "Human" else "Assistant"
  }

  /** One transcript line: `${label}: ${content}`. */
  function FormatLine(m: Message): string
  {
    RoleLabel(m.role) + ": " + m.content
  }

  /** Two messages render to the same line exactly when they agree on being
      from the user and on their content: every other role reads as the
      assistant, and nothing else is lost. */
  lemma FormatLineInjective(m1: Message, m2: Message)
    ensures FormatLine(m1) == FormatLine(m2) <==> (m1.role == "user") == (m2.role == "user") && m1.content == m2.content
  {
    if (m1.role == "user") != (m2.role == "user") {
      // "Human: " and "Assistant: " already differ in their first character.
      assert FormatLine(m1)[0] != FormatLine(m2)[0];
    } else if FormatLine(m1) == FormatLine(m2) {
      // Equal labels: the contents are what follows them.
      var l := RoleLabel(m1.role) + ": ";
      assert m1.content == FormatLine(m1)[|l|..];
      assert m2.content == FormatLine(m2)[|l|..];
    }
  }

  function Lines(ms: seq<Message>): (ls: seq<string>)
    ensures |ls| == |ms|
    ensures forall i :: 0 <= i < |ms| ==> ls[i] == FormatLine(ms[i])
  {
    seq(|ms|, i requires 0 <= i < |ms| => FormatLine(ms[i]))
  }

  /** The rendered transcript: the lines joined by newlines. */
  function Format(ms: seq<Message>): string
  {
    Join(Lines(ms), "\n")
  }

  /** The transcript grows by exactly one newline and one line per message,
      in order. */
  lemma {:induction false} FormatSnoc(ms: seq<Message>, m: Message)
    ensures Format(ms + [m]) == (if ms == [] then "" else Format(ms) + "\n") + FormatLine(m)
  {
    assert Lines(ms + [m]) == Lines(ms) + [FormatLine(m)];
    JoinSnoc(Lines(ms), FormatLine(m), "\n");
    if ms == [] {
      assert "" + FormatLine(m) == FormatLine(m);
    }
  }

  const ConversationHeader: string := "\n\nConversation:\n"
  const AssistantCue: string := "\n\nAssistant:"

  /** The final prompt sent to the model. */
  function BuildPrompt(systemPrompt: string, ms: seq<Message>): string
  {
    systemPrompt + ConversationHeader + Format(Window(ms)) + AssistantCue
  }

  /** The prompt opens with the system prompt, ends with the assistant cue,
      and carries the rendered window in between. */
  lemma PromptShape(systemPrompt: string, ms: seq<Message>)
    ensures var p := BuildPrompt(systemPrompt, ms);
      && |p| == |systemPrompt| + |ConversationHeader| + |Format(Window(ms))| + |AssistantCue|
      && p[..|systemPrompt|] == systemPrompt
      && p[|p| - |AssistantCue|..] == AssistantCue
      && p[|systemPrompt| + |ConversationHeader|..|p| - |AssistantCue|] == Format(Window(ms))
  {
  }

  /** Messages older than the last five never reach the prompt. */
  lemma OlderMessagesIgnored(systemPrompt: string, older: seq<Message>, recent: seq<Message>)
    requires |recent| >= 5
    ensures BuildPrompt(systemPrompt, older + recent) == BuildPrompt(systemPrompt, recent)
  {
    var all := older + recent;
    assert all[|all| - 5..] == recent[|recent| - 5..];
  }

  // ----------------------------------------------------------- the handler

  /** Everything `POST` does before calling the model: validation, selection,
      windowing and composition. */
  function Compose(incoming: Incoming): (r: Result<string>)
    ensures incoming.Unparsable? ==> r == Err(incoming.failure)
    ensures incoming.Parsed? && !incoming.request.messages.Array? ==> r == Err(ErrorObject(InvalidMessagesText))
    ensures incoming.Parsed? && incoming.request.messages.Array? ==> r.Ok?
  {
    match incoming
    case Unparsable(e) => Err(e)
    case Parsed(req) =>
      if !req.messages.Array? then Err(ErrorObject(InvalidMessagesText))
      else Ok(BuildPrompt(SelectPrompt(req.characterId, req.topicId), req.messages.items))
  }

  /** The catch block: every failure becomes the same 500 envelope. */
  function ErrorResponse(e: Thrown): Response
  {
    Response(500, Failure(FailureText, if e.ErrorObject? then e.message else UnknownErrorText))
  }

  function Handle(incoming: Incoming, generate: string -> GenerateOutcome): Response
  {
    match Compose(incoming)
    case Err(e) => ErrorResponse(e)
    case Ok(prompt) =>
      match generate(prompt)
      case Generated(text) => Response(200, Reply("assistant", text))
      case NoResponse => ErrorResponse(ErrorObject(EmptyResponseText))
      case Raised(e) => ErrorResponse(e)
  }

  /** A success carries the model's text as an assistant reply; every other
      response is the 500 envelope with the fixed message; and the status is
      200 exactly when the request was valid and the model produced text. */
  lemma HandleResponses(incoming: Incoming, generate: string -> GenerateOutcome)
    ensures var r := Handle(incoming, generate);
      && (r.status == 200 <==> Compose(incoming).Ok? && generate(Compose(incoming).value).Generated?)
      && (r.status == 200 ==> r.body == Reply("assistant", generate(Compose(incoming).value).text))
      && (r.status != 200 ==> r.status == 500 && r.body.Failure? && r.body.error == FailureText)
  {
  }

  /** A request without a messages array is answered with the envelope
      naming the invalid format, and the model is never consulted. */
  lemma InvalidRequestNeverGenerates(req: Request, g1: string -> GenerateOutcome, g2: string -> GenerateOutcome)
    requires !req.messages.Array?
    ensures Handle(Parsed(req), g1) == Handle(Parsed(req), g2)
    ensures Handle(Parsed(req), g1) == Response(500, Failure(FailureText, InvalidMessagesText))
  {
  }

  /** The details of the envelope: the error's message, or "Unknown error"
      for a thrown non-Error value. */
  lemma FailureDetails(req: Request, generate: string -> GenerateOutcome)
    requires req.messages.Array?
    ensures var p := BuildPrompt(SelectPrompt(req.characterId, req.topicId), req.messages.items);
      && (generate(p) == NoResponse ==> Handle(Parsed(req), generate).body.details == EmptyResponseText)
      && (generate(p) == Raised(NonError) ==> Handle(Parsed(req), generate).body.details == UnknownErrorText)
      && (forall msg :: generate(p) == Raised(ErrorObject(msg)) ==> Handle(Parsed(req), generate).body.details == msg)
  {
  }
}
