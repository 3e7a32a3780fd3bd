# Biblical Wisdom chat: a Dafny model

This project models the core logic of the "Biblical Wisdom" Next.js application:

- **Prompt route.** The `POST /api/gemini/chat` route validates the request body. It picks a persona or topic system prompt, keeps the last five messages, renders them as a `Human:`/`Assistant:` transcript, and hands the prompt to the model. It answers with the reply or with a fixed 500 error envelope.
- **Chat widget.** The widget holds the conversation, the input box, the loading flag and the error banner. Its submit handler runs the guard, the optimistic append of the user's message, the fetch and its failure cases, and the final reset.
- **Sidebar.** The sidebar:
  - reads the current persona or topic from the URL path;
  - groups the stored chat history by persona, topic or "general";
  - shows the group for the current context, with its heading;
  - navigates to a chat or a new chat;
  - deletes one chat or all of them.
- **Reference tables.** These hold the ten personas and the ten topics.

Modules:

- `Common` (`common.dfy`) holds the JavaScript behaviour the rest relies on:
  - truthiness of an optional string;
  - `Array.prototype.join`, and `String.prototype.split` on one character.
- `Data` (`data.dfy`) holds the persona and topic tables and `find` by id.
- `Dispatcher` (`dispatcher.dfy`) models the API route. The model call is a parameter `generate: string -> GenerateOutcome`.
- `ChatWidget` (`chat_widget.dfy`) models the chat component. It has two levels:
  - a state-transition specification on `WidgetState` values, with its invariant;
  - the class `Widget`, whose fields are the component's four pieces of state and whose methods are proved against those transitions.
- `Sidebar` (`sidebar.dfy`) models the layout's sidebar:
  - path parsing, routes, deletion, grouping, the current list and the heading as functions;
  - the grouping `reduce` as the method `GroupChats`, proved against `Grouped`;
  - the class `Layout`, which holds the stored history (local storage) and the displayed `chatHistory`.
- `Conversation` (`conversation.dfy`) connects the widget to the route for one round trip.

Two facts about the code shape the model:

- **Prompt precedence.** In `route.ts` (lines 49-55) a known `characterId` is tested before `topicId`; `SelectPrompt` and `CharacterTakesPrecedence` follow that order.
- **Persona in the widget.** The persona page passes `characterId` to the chat component and the topic page passes `topicId`, but `ChatComponent` declares no props. Its request body holds only `messages` (`ChatComponent.tsx` line 28). So the route always falls back to Solomon's prompt for it (`Conversation.WidgetRequestUsesSolomon`).

## Model

| member | source | states |
|---|---|---|
| Common.JoinSnoc | src/app/api/gemini/chat/route.ts:61-63 | `join` of a list grown by one part adds the separator and that part, and nothing before a single part |
| Common.Join | src/app/api/gemini/chat/route.ts:63 | `Array.prototype.join`; no contract of its own, specified by `JoinSnoc` and by `Split`/`SplitJoin`, which invert it |
| Common.Split | src/app/components/Layout.tsx:19 | `split('/')` yields at least one part; no part holds the separator; joining the parts with it gives back the path |
| Common.SplitJoin | src/app/components/Layout.tsx:19 | splitting a join of separator-free parts gives back exactly those parts |
| Common.IndexOf | src/app/components/Layout.tsx:19 | the first occurrence of a character: it is there, and not before |
| Data.TableIds | src/app/lib/data.ts:16-150 | ten personas and ten topics, with exactly these ids, in order |
| Data.NamesNonEmpty | src/app/lib/data.ts:16-87 | every persona has a non-empty name |
| Data.IdsUnique | src/app/lib/data.ts:16-150 | persona ids are distinct, topic ids are distinct, and no id is both |
| Data.FirstIndex | src/app/components/Layout.tsx:71 | `find` by id stops at the first record carrying the id, and finds nothing exactly when no record carries it |
| Data.FirstIndexExact | src/app/components/Layout.tsx:142-158 | among distinct ids, `find` stops exactly at the position of the id |
| Data.FindCharacter | src/app/components/Layout.tsx:71 | `characters.find` by id; no contract of its own, specified by `FindCharacterExact` |
| Data.FindTopic | src/app/components/Layout.tsx:151-158 | `topics.find` by id; no contract of its own, specified by `FindTopicExact` |
| Data.FindCharacterExact | src/app/lib/data.ts:16-87 | in the persona table, lookup returns exactly the matching record, and succeeds exactly for the ten listed ids |
| Data.FindTopicExact | src/app/lib/data.ts:89-150 | in the topic table, lookup returns exactly the matching record, and succeeds exactly for the ten listed ids |
| Data.CharacterTopicDisjoint | src/app/lib/data.ts:16-150 | no key is found in both tables |
| Dispatcher.SelectPrompt | src/app/api/gemini/chat/route.ts:48-55 | the system prompt is always one of the table prompts and never empty |
| Dispatcher.CharacterTakesPrecedence | src/app/api/gemini/chat/route.ts:49-50 | a known persona id selects its prompt whatever the topic |
| Dispatcher.SelectionCases | src/app/api/gemini/chat/route.ts:48-55 | all three branches: a known persona's prompt; otherwise a known topic's prompt; otherwise Solomon's |
| Dispatcher.PromptKeysAreTableIds | src/app/api/gemini/chat/route.ts:6-35 | every prompt key is an id of the persona table or of the topic table |
| Dispatcher.PropertyOf | src/app/api/gemini/chat/route.ts:49-51 | an object-literal lookup yields an own prompt exactly for the literal's own keys |
| Dispatcher.SelectPromptAsWritten | src/app/api/gemini/chat/route.ts:48-55 | the selection as written never yields `undefined` |
| Dispatcher.InheritedNameSelectedAsWritten | src/app/api/gemini/chat/route.ts:49-50 | as written, the persona id `constructor` selects the inherited `Object` function; the corrected selection gives Solomon's prompt |
| Dispatcher.AsWrittenAgreesOffInheritedNames | src/app/api/gemini/chat/route.ts:48-55 | for ids that are not inherited `Object.prototype` names, the written and the corrected selection agree |
| Dispatcher.SliceFrom | src/app/api/gemini/chat/route.ts:58 | `slice(start)` is a suffix of the list, of the length JavaScript gives for non-negative and negative starts |
| Dispatcher.Window | src/app/api/gemini/chat/route.ts:58 | `slice(-5)` holds at most five messages; it holds all of them when there are at most five, and otherwise the last five |
| Dispatcher.FormatLineInjective | src/app/api/gemini/chat/route.ts:61-62 | two messages render to the same line if and only if both or neither come from the user and their contents are equal |
| Dispatcher.FormatLine | src/app/api/gemini/chat/route.ts:61-62 | one transcript line; no contract of its own, specified by `FormatLineInjective` |
| Dispatcher.Lines | src/app/api/gemini/chat/route.ts:61-62 | the rendering keeps one line per message, in order |
| Dispatcher.FormatSnoc | src/app/api/gemini/chat/route.ts:61-63 | a transcript grown by one message gains a newline, unless it was empty, and then that message's line |
| Dispatcher.Format | src/app/api/gemini/chat/route.ts:61-63 | the transcript, `map` then `join('\n')`; no contract of its own, specified by `Lines`, `FormatSnoc` and `FormatLineInjective` |
| Dispatcher.PromptShape | src/app/api/gemini/chat/route.ts:66 | the prompt is the system prompt, then the conversation header, then the transcript of the window, then the assistant cue |
| Dispatcher.OlderMessagesIgnored | src/app/api/gemini/chat/route.ts:58-66 | messages before the last five do not change the prompt |
| Dispatcher.BuildPrompt | src/app/api/gemini/chat/route.ts:58-66 | the final prompt; no contract of its own, specified by `PromptShape`, `OlderMessagesIgnored` and `Conversation.PromptEndsWithNewest` |
| Dispatcher.Compose | src/app/api/gemini/chat/route.ts:39-66 | an unreadable body fails with its own error; a body without a messages array fails with "Invalid messages format"; any other body yields a prompt |
| Dispatcher.HandleResponses | src/app/api/gemini/chat/route.ts:68-96 | status 200 if and only if the body is valid and the model produced text, and then the body is an assistant reply with that text; every other response is the 500 envelope with the fixed message |
| Dispatcher.InvalidRequestNeverGenerates | src/app/api/gemini/chat/route.ts:41-43 | without a messages array the answer does not depend on the model, and it is the envelope naming the invalid format |
| Dispatcher.FailureDetails | src/app/api/gemini/chat/route.ts:71-73 | the envelope's details: "Empty response from Gemini" for no response, the thrown error's message, or "Unknown error" for a non-Error throw (catch at lines 87-95) |
| Dispatcher.ErrorResponse | src/app/api/gemini/chat/route.ts:87-95 | the catch block's 500 envelope; no contract of its own, specified by `HandleResponses`, `InvalidRequestNeverGenerates` and `FailureDetails` |
| Dispatcher.Handle | src/app/api/gemini/chat/route.ts:37-96 | the `POST` handler; no contract of its own, specified by `HandleResponses`, `InvalidRequestNeverGenerates` and `FailureDetails` |
| ChatWidget.TrimStartSpec | src/app/components/ChatComponent.tsx:16 | `trimStart` removes exactly a whitespace prefix, and what is left starts with a non-whitespace character |
| ChatWidget.TrimEndSpec | src/app/components/ChatComponent.tsx:16 | `trimEnd` removes exactly a whitespace suffix, and what is left ends with a non-whitespace character |
| ChatWidget.TrimStartOfBlank | src/app/components/ChatComponent.tsx:16 | an input of white space only trims to the empty string |
| ChatWidget.NonBlankSurvivesTrim | src/app/components/ChatComponent.tsx:16 | an input holding a non-white-space character does not trim to the empty string |
| ChatWidget.TrimEmptyIffBlank | src/app/components/ChatComponent.tsx:16 | `input.trim()` is empty if and only if every character of the input is whitespace |
| ChatWidget.TrimStart | src/app/components/ChatComponent.tsx:16 | the leading half of `trim()`; no contract of its own, specified by `TrimStartSpec` and `TrimStartOfBlank` |
| ChatWidget.TrimEnd | src/app/components/ChatComponent.tsx:16 | the trailing half of `trim()`; no contract of its own, specified by `TrimEndSpec` |
| ChatWidget.Trim | src/app/components/ChatComponent.tsx:16 | `input.trim()`; no contract of its own, specified by `TrimEmptyIffBlank`, `TrimStartOfBlank` and `NonBlankSurvivesTrim` |
| ChatWidget.Accepts | src/app/components/ChatComponent.tsx:16 | the guard of `handleSubmit`; no contract of its own, specified by `RejectedSubmitChangesNothing`, `BeginAccepted` and `TrimEmptyIffBlank` |
| ChatWidget.InitialState | src/app/components/ChatComponent.tsx:6-12 | the widget starts with the greeting alone, an empty input, not loading and no error, and satisfies the invariant |
| ChatWidget.Initial | src/app/components/ChatComponent.tsx:6-12 | the initial state; no contract of its own, specified by `InitialState` |
| ChatWidget.RejectedSubmitChangesNothing | src/app/components/ChatComponent.tsx:16 | a submit while loading, or with a blank input, changes nothing |
| ChatWidget.BeginAccepted | src/app/components/ChatComponent.tsx:19-23 | an accepted submit clears the error, sets loading, appends the user's message, clears the input, and keeps the invariant |
| ChatWidget.AfterBegin | src/app/components/ChatComponent.tsx:16-23 | the begin step of a submit; no contract of its own, specified by `BeginAccepted` and `RejectedSubmitChangesNothing` |
| ChatWidget.SubmitOutcome | src/app/components/ChatComponent.tsx:18-42 | after a submit the user's message stays. On success exactly one assistant message with the returned content follows it. On any failure nothing follows it and the fixed notice is shown. Loading is over and the input is empty. |
| ChatWidget.AfterComplete | src/app/components/ChatComponent.tsx:31-42 | the completion of a submit; no contract of its own, specified by `SubmitOutcome` and `FailuresAreAlike` |
| ChatWidget.FailuresAreAlike | src/app/components/ChatComponent.tsx:31-39 | a network failure, a non-ok status, an unreadable body and a body with an error field all leave the same state |
| ChatWidget.AfterSubmit | src/app/components/ChatComponent.tsx:14-43 | the whole `handleSubmit`; no contract of its own, specified by `SubmitOutcome`, `FailuresAreAlike`, `RejectedSubmitChangesNothing` and `EventPreservesInv` |
| ChatWidget.EventPreservesInv | src/app/components/ChatComponent.tsx:14-52 | typing, submitting and dismissing keep the invariant, never drop a message, and never start loading from idle |
| ChatWidget.EventsPreserveInv | src/app/components/ChatComponent.tsx:14-90 | any sequence of events from a valid state keeps the invariant, and the message list only grows |
| ChatWidget.Widget.constructor | src/app/components/ChatComponent.tsx:6-12 | the fields start as the initial state |
| ChatWidget.Widget.SetInput | src/app/components/ChatComponent.tsx:90 | typing replaces the input and nothing else |
| ChatWidget.Widget.DismissError | src/app/components/ChatComponent.tsx:52 | closing the banner clears the error and nothing else |
| ChatWidget.Widget.Begin | src/app/components/ChatComponent.tsx:16-28 | reports whether the guard let the submit through, returns the request's messages (the old list and the user's message), and moves to the begun state |
| ChatWidget.Widget.Complete | src/app/components/ChatComponent.tsx:31-42 | applies the exchange's outcome: the reply is appended, or the notice is set; loading ends |
| ChatWidget.Widget.HandleSubmit | src/app/components/ChatComponent.tsx:14-43 | a whole submit leaves the state the submit transition gives |
| Sidebar.NonEmpty | src/app/components/Layout.tsx:19 | `filter(Boolean)` keeps no more parts than it was given, and its result holds exactly the non-empty parts |
| Sidebar.NonEmptyAppend | src/app/components/Layout.tsx:19 | filtering a concatenation filters each side, so with `NonEmpty`'s contract the result is the non-empty parts in their order |
| Sidebar.Segments | src/app/components/Layout.tsx:19 | path segments are non-empty and hold no slash |
| Sidebar.CurrentContext | src/app/components/Layout.tsx:17-27 | a context exists if and only if the path has at least two segments |
| Sidebar.PathJoin | src/app/components/Layout.tsx:19 | a two-segment path is the join of an empty part, the kind and the id |
| Sidebar.ContextOfPath | src/app/components/Layout.tsx:17-27 | for plain segments, the path `/kind/id` yields exactly that kind and id |
| Sidebar.NoContextOfShortPath | src/app/components/Layout.tsx:21-26 | a one-segment path has no context |
| Sidebar.PathOf | src/app/components/Layout.tsx:18 | the pathname is a prefix of the route and holds no query |
| Sidebar.PathOfQuery | src/app/components/Layout.tsx:18 | the pathname of `path?query` is `path` |
| Sidebar.ChatRouteCases | src/app/components/Layout.tsx:67-78 | `general` chats go to `/?chat=`, persona chats to `/chat/key?chat=`, and every other key, listed topic or not, to `/topic/key?chat=`; a topic id is never a persona id |
| Sidebar.ChatRoute | src/app/components/Layout.tsx:67-78 | `navigateToChat`'s route; no contract of its own, specified by `ChatRouteCases` and `ChatRouteKeepsGroup` |
| Sidebar.RouteFor | src/app/components/Layout.tsx:67-78 | the three branches of `navigateToChat` given the persona test; no contract of its own, specified by `RouteForKeepsGroup` and `ChatRouteCases` |
| Sidebar.CurrentKey | src/app/components/Layout.tsx:63 | the current group key is never empty, and is `general` without a context |
| Sidebar.RouteForKeepsGroup | src/app/components/Layout.tsx:67-78 | the page a chat link leads to reads back the same group key, with kind `chat` or `topic` |
| Sidebar.ChatRouteKeepsGroup | src/app/components/Layout.tsx:63-78 | after navigating to a chat of the current group, the sidebar shows the same group |
| Sidebar.NewChatKeepsContext | src/app/components/Layout.tsx:81-91 | a new chat in a persona or topic context leads to a path with the same context |
| Sidebar.NewChatRoute | src/app/components/Layout.tsx:81-95 | `startNewChat`'s route; no contract of its own, specified by `NewChatKeepsContext` |
| Sidebar.Without | src/app/components/Layout.tsx:39 | the filtered history holds exactly the records whose id differs, and is no longer |
| Sidebar.WithoutAppend | src/app/components/Layout.tsx:39 | the filter distributes over concatenation, so order is kept |
| Sidebar.WithoutAbsent | src/app/components/Layout.tsx:39 | deleting an id no record carries changes nothing |
| Sidebar.WithoutPresent | src/app/components/Layout.tsx:39 | with unique ids, deleting a present id removes exactly one record |
| Sidebar.Members | src/app/components/Layout.tsx:52-59 | a group holds exactly the history's records with that key, and no more of them |
| Sidebar.KeysInOrder | src/app/components/Layout.tsx:52-59 | the group keys are distinct, and are exactly the keys that some record has |
| Sidebar.MembersSnoc | src/app/components/Layout.tsx:57 | a chat added at the end joins the end of its own group only |
| Sidebar.KeysInOrderSnoc | src/app/components/Layout.tsx:54-56 | a new key is created when a chat's key is first met, at the end |
| Sidebar.MembersOfUnmetKey | src/app/components/Layout.tsx:54 | a key no chat has has no members |
| Sidebar.GroupKey | src/app/components/Layout.tsx:53 | a chat's group key is never empty, and is its persona id whenever it has one |
| Sidebar.GroupedSnoc | src/app/components/Layout.tsx:52-59 | one reduce step: the chat's group is created if absent and the chat is pushed onto it; every other group is kept |
| Sidebar.Grouped | src/app/components/Layout.tsx:52-59 | the object `groupedChats` builds; no contract of its own, specified by `GroupedSnoc`, `GroupsPartition`, `GroupSizesSum` and `CurrentChatsAreMembers` |
| Sidebar.GroupChats | src/app/components/Layout.tsx:52-59 | the reduce loop computes exactly the grouping |
| Sidebar.SumSizesSnoc | src/app/components/Layout.tsx:52-59 | the total size over one more key adds that key's group size |
| Sidebar.SumSizesAddChat | src/app/components/Layout.tsx:57 | adding a chat adds one to the total exactly when its key is counted |
| Sidebar.SumSizesOfNothing | src/app/components/Layout.tsx:52-59 | the empty history has groups of total size zero |
| Sidebar.SumSizesCovering | src/app/components/Layout.tsx:52-59 | over distinct keys covering every chat, the group sizes add up to the history's length |
| Sidebar.GroupSizesSum | src/app/components/Layout.tsx:52-59 | the group sizes add up to the number of chats: no chat is lost or counted twice |
| Sidebar.GroupsPartition | src/app/components/Layout.tsx:52-59 | every chat is in the group of its own key and in no other group, and no group is empty |
| Sidebar.MembersAppend | src/app/components/Layout.tsx:52-59 | grouping distributes over concatenation of histories |
| Sidebar.CurrentChatsAreMembers | src/app/components/Layout.tsx:62-64 | the current list is the group of the current key, or empty when there is none |
| Sidebar.CurrentChats | src/app/components/Layout.tsx:64 | the current group, or an empty list when it is missing; no contract of its own, specified by `CurrentChatsAreMembers` |
| Sidebar.HeadingCases | src/app/components/Layout.tsx:156-160 | the heading is `General` without a context; otherwise the persona's name, or else the topic's title, or absent for an unknown id |
| Sidebar.Heading | src/app/components/Layout.tsx:156-160 | the heading text; no contract of its own, specified by `HeadingCases` |
| Sidebar.Layout.constructor | src/app/components/Layout.tsx:13 | the displayed history starts empty |
| Sidebar.Layout.LoadHistory | src/app/components/Layout.tsx:30-33 | the displayed history becomes the stored one |
| Sidebar.Layout.DeleteChat | src/app/components/Layout.tsx:36-42 | the stored history loses exactly the records with that id, and the display shows the new stored history |
| Sidebar.Layout.ClearAllChats | src/app/components/Layout.tsx:45-49 | both histories become empty and the route is `/` |
| Sidebar.Layout.StartNewChat | src/app/components/Layout.tsx:81-100 | the route is the context's new-chat route, and both histories are unchanged |
| Sidebar.Layout.CurrentList | src/app/components/Layout.tsx:52-64 | the listed chats are the displayed history's chats of the current key, in order |
| Conversation.WindowSnoc | src/app/api/gemini/chat/route.ts:58 | the window of a list grown by one message ends with that message, after at most four older ones |
| Conversation.PromptTail | src/app/api/gemini/chat/route.ts:66 | the prompt ends with the transcript's last line and the assistant cue |
| Conversation.PromptEndsWithNewest | src/app/api/gemini/chat/route.ts:58-66 | whatever came before, the prompt ends with the newest message's line and the assistant cue |
| Conversation.WidgetRequestUsesSolomon | src/app/components/ChatComponent.tsx:25-29 | the widget's request always gets a prompt built on Solomon's prompt over its messages |
| Conversation.RequestOf | src/app/components/ChatComponent.tsx:25-29 | the request body the widget sends; no contract of its own, specified by `WidgetRequestUsesSolomon` and `RoundTrip` |
| Conversation.Delivered | src/app/components/ChatComponent.tsx:31-34 | the route's response as the widget reads it; no contract of its own, specified by `RoundTrip` |
| Conversation.PromptEndsWithUserLine | src/app/components/ChatComponent.tsx:21-28 | the prompt for the widget's request ends with `Human: ` plus the typed input and the assistant cue |
| Conversation.RoundTrip | src/app/components/ChatComponent.tsx:14-43 | a submit answered by the route shows the model's text as one new assistant message after the user's. Any failure keeps the user's message, appends nothing and shows the notice. Loading ends. |

## Left out

- The Gemini SDK call, `fetch`, JSON parsing, `localStorage` and the router are not modelled. They become parameters or values: the `generate` function, a `ClientOutcome`, the `stored` field, and returned routes.
- The rendering is not modelled: markup, themes, the sidebar toggle, images and dates.
- The input's `maxLength={200}` is a browser limit on typing, so it is not modelled.
- The persona prompts are shortened to their opening sentences; the two topic prompts are kept whole. No property depends on their wording beyond being non-empty and distinct.
- Two request cases are not distinguished:
  - `characterId`/`topicId` values that are not strings are taken as absent;
  - message objects without a string `role` or `content` are not modelled.
- URL percent-encoding and normalisation are not modelled; paths are plain strings.
- React's batched, asynchronous state updates are modelled as sequential steps. Overlapping submits and a `chatHistory` read between renders are not modelled.
- Stored history that is not valid JSON would make `JSON.parse` throw. This is not modelled.
- Compose: it is built on the corrected selection `SelectPrompt`, not on `SelectPromptAsWritten`. For a persona or topic id that names an inherited `Object.prototype` member, such as `constructor`, the model uses Solomon's prompt. The code as written puts that member's text into the prompt instead (see Findings).
- Handle: it answers through `Compose`, so it is the corrected route too. `HandleResponses`, `FailureDetails` and `Conversation.RoundTrip`, which are stated about it, hold for the corrected route.
- GroupChats: the model uses a map, so it does not capture what the reduce does with a group key that names an inherited `Object.prototype` member. For `constructor`, `groups[key]` is then the inherited function, so `push` throws.
- CurrentChats, CurrentChatsAreMembers, Layout.CurrentList: for the same inherited names, `groupedChats[currentKey] || []` would be the inherited function, not the empty list. On the path `/chat/constructor` that function has `length` 1, so the list is rendered and `currentChats.map` throws; and a stored chat whose key is such a name makes the reduce throw first. The model returns the members of that key instead; this throw is not modelled.
- The re-store of the unchanged history in `startNewChat` (`Layout.tsx` lines 98-99) is modelled as leaving the stored history unchanged.

## Findings

| source | as written | input that shows it | evidently intended | confidence | as-written member | corrected member |
|---|---|---|---|---|---|---|
| src/app/api/gemini/chat/route.ts:49-51 | `CHARACTER_PROMPTS[characterId]` on an object literal also finds names inherited from `Object.prototype` | `characterId: "constructor"`: the truthy inherited function is chosen and interpolated into the prompt | ids that are not table keys fall back to Solomon's prompt | not executed | Dispatcher.InheritedNameSelectedAsWritten | Dispatcher.SelectPrompt |
