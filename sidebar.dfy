/** The sidebar's session list and navigation (src/app/components/Layout.tsx).
    The stored collection and the path are values: `localStorage` is a field
    of the sidebar, `window.location.pathname` a parameter, and every
    `router.push` becomes a returned route. */
module Sidebar {
  import opened Common
  import Data

  /** A stored chat session, as far as the sidebar reads it. */
  datatype ChatRecord = ChatRecord(id: string, characterId: Option<string>, topicId: Option<string>, title: string, createdAt: string)

  /** The first two path segments: the kind of page ("chat", "topic", ...)
      and the persona or topic id. */
  datatype Context = Context(kind: string, id: string)

  const General: string := "general"

  // ------------------------------------------------------------------ paths

  /** `filter(Boolean)` on the pieces of a split: the empty ones go. */
  function NonEmpty(parts: seq<string>): (r: seq<string>)
    ensures |r| <= |parts|
    ensures forall i :: 0 <= i < |r| ==> r[i] != ""
    ensures forall x :: x in r <==> x in parts && x != ""
  {
    if parts == [] then []
    else (if parts[0] != "" then [parts[0]] else []) + NonEmpty(parts[1..])
  }

  /** The filter keeps order: filtering a concatenation filters each side. */
  lemma {:induction false} NonEmptyAppend(a: seq<string>, b: seq<string>)
    ensures NonEmpty(a + b) == NonEmpty(a) + NonEmpty(b)
  {
    if a == [] {
      assert a + b == b;
    } else {
      assert (a + b)[1..] == a[1..] + b;
      NonEmptyAppend(a[1..], b);
    }
  }

  function Segments(path: string): (segs: seq<string>)
    ensures forall i :: 0 <= i < |segs| ==> segs[i] != "" && '/' !in segs[i]
  {
    var parts := Split(path, '/');
    assert forall x :: x in parts ==> '/' !in x;
    NonEmpty(parts)
  }

  /** `getCurrentContext`: the first two segments of the path, if it has two. */
  function CurrentContext(path: string): (c: Option<Context>)
    ensures c.Some? <==> |Segments(path)| >= 2
  {
    var segs := Segments(path);
    if |segs| >= 2 then Some(Context(segs[0], segs[1])) else None
  }

  /** A string that survives as one path segment: non-empty, not a dot
      segment, and free of the characters that end a segment or a path. */
  predicate PlainSegment(s: string)
  {
    s != "" && s != "." && s != ".." && '/' !in s && '?' !in s && '#' !in s
  }

  lemma PathJoin(kind: string, id: string)
    ensures Join(["", kind, id], "/") == "/" + kind + "/" + id
  {
    assert Join([id], "/") == id;
    assert Join([kind, id], "/") == kind + "/" + id by {
      assert [kind, id][1..] == [id];
    }
    assert ["", kind, id][1..] == [kind, id];
  }

  /** The page's context is read back from the path built from it. */
  lemma {:induction false} ContextOfPath(kind: string, id: string)
    requires PlainSegment(kind) && PlainSegment(id)
    ensures CurrentContext("/" + kind + "/" + id) == Some(Context(kind, id))
  {
    var parts := ["", kind, id];
    PathJoin(kind, id);
    SplitJoin(parts, '/');
    assert Segments("/" + kind + "/" + id) == NonEmpty(parts);
    assert NonEmpty([id]) == [id] by {
      assert [id][1..] == [];
    }
    assert NonEmpty([kind, id]) == [kind, id] by {
      assert [kind, id][1..] == [id];
    }
    assert NonEmpty(parts) == [kind, id] by {
      assert parts[1..] == [kind, id];
    }
  }

  /** A path with fewer than two non-empty segments, such as "/" or
      "/history", has no context. */
  lemma {:induction false} NoContextOfShortPath(name: string)
    requires '/' !in name
    ensures CurrentContext("/" + name) == None
  {
    var parts := ["", name];
    assert Join(parts, "/") == "/" + name;
    SplitJoin(parts, '/');
    assert NonEmpty(parts) == NonEmpty([name]);
  }

  /** `window.location.pathname` of a route: everything before the query. */
  function PathOf(route: string): (p: string)
    ensures p <= route && '?' !in p
  {
    if '?' in route then route[..IndexOf(route, '?')] else route
  }

  // ------------------------------------------------------------- navigation

  /** `currentContext?.id || 'general'`. */
  function CurrentKey(ctx: Option<Context>): (k: string)
    ensures k != ""
    ensures ctx.None? ==> k == General
  {
    if ctx.Some? && ctx.value.id != "" then ctx.value.id else General
  }

  /** The route `navigateToChat` pushes, given the outcome of its persona
      test. */
  function RouteFor(key: string, chatId: string, isCharacter: bool): string
  {
    if key == General then "/?chat=" + chatId
    else if isCharacter then "/chat/" + key + "?chat=" + chatId
    else "/topic/" + key + "?chat=" + chatId
  }

  /** `navigateToChat(key, chatId)`: the route it pushes. */
  function ChatRoute(key: string, chatId: string): string
  {
    RouteFor(key, chatId, Data.IsCharacterId(key))
  }

  /** The three kinds of chat routes: `general`, a persona id, and every
      other key, which gets a topic route whether or not the topic table
      holds it; a topic id is never a persona id. */
  lemma ChatRouteCases(key: string, chatId: string)
    ensures key == General ==> ChatRoute(key, chatId) == "/?chat=" + chatId
    ensures key != General && key in Data.CharacterIds() ==> ChatRoute(key, chatId) == "/chat/" + key + "?chat=" + chatId
    ensures key != General && key !in Data.CharacterIds() ==> ChatRoute(key, chatId) == "/topic/" + key + "?chat=" + chatId
    ensures key in Data.TopicIds() ==> key !in Data.CharacterIds()
  {
    Data.FindCharacterExact(key, Data.Characters[0]);
    Data.FindTopicExact(key, Data.Topics[0]);
    Data.CharacterTopicDisjoint(key);
  }

  /** The query string is not part of the path. */
  lemma PathOfQuery(path: string, query: string)
    requires '?' !in path
    ensures PathOf(path + "?" + query) == path
  {
    var route := path + "?" + query;
    assert route[|path|] == '?';
    assert route[..|path|] == path;
  }

  lemma RouteForKeepsGroup(key: string, chatId: string, isCharacter: bool)
    requires key == General || PlainSegment(key)
    ensures CurrentKey(CurrentContext(PathOf(RouteFor(key, chatId, isCharacter)))) == key
    ensures key != General ==> CurrentContext(PathOf(RouteFor(key, chatId, isCharacter))).value.kind
                               == if isCharacter then "chat" else "topic"
  {
    var route := RouteFor(key, chatId, isCharacter);
    if key == General {
      assert route == "/" + "?" + ("chat=" + chatId);
      PathOfQuery("/", "chat=" + chatId);
      NoContextOfShortPath("");
      assert "/" + "" == "/";
    } else {
      var kind := if isCharacter then "chat" else "topic";
      var path := "/" + kind + "/" + key;
      assert route == path + "?" + ("chat=" + chatId);
      PathOfQuery(path, "chat=" + chatId);
      ContextOfPath(kind, key);
    }
  }

  /** Opening a chat from a group lands on a page whose sidebar shows that
      same group again: the route's path yields the group's key as the
      current key, and a persona key lands on a "chat" page. */
  lemma ChatRouteKeepsGroup(key: string, chatId: string)
    requires key == General || PlainSegment(key)
    ensures CurrentKey(CurrentContext(PathOf(ChatRoute(key, chatId)))) == key
    ensures key != General ==> CurrentContext(PathOf(ChatRoute(key, chatId))).value.kind
                               == if Data.IsCharacterId(key) then "chat" else "topic"
  {
    RouteForKeepsGroup(key, chatId, Data.IsCharacterId(key));
  }

  /** `startNewChat`'s route: the fresh persona or topic page for the current
      context, nowhere for any other kind of page, home without a context. */
  function NewChatRoute(ctx: Option<Context>): Option<string>
  {
    match ctx
    case None => Some("/")
    case Some(c) =>
      if c.kind == "chat" then Some("/chat/" + c.id)
      else if c.kind == "topic" then Some("/topic/" + c.id)
      else None
  }

  /** A new chat stays with the persona or topic of the page it was started
      from. */
  lemma NewChatKeepsContext(c: Context)
    requires c.kind in {"chat", "topic"}
    requires PlainSegment(c.id)
    ensures NewChatRoute(Some(c)).Some?
    ensures CurrentContext(NewChatRoute(Some(c)).value) == Some(c)
  {
    ContextOfPath(c.kind, c.id);
    if c.kind == "chat" {
      assert "/chat/" + c.id == "/" + c.kind + "/" + c.id;
    } else {
      assert "/topic/" + c.id == "/" + c.kind + "/" + c.id;
    }
  }

  // -------------------------------------------------------------- deletion

  /** `history.filter(chat => chat.id !== chatId)`. */
  function Without(history: seq<ChatRecord>, chatId: string): (r: seq<ChatRecord>)
    ensures |r| <= |history|
    ensures forall c :: c in r <==> c in history && c.id != chatId
  {
    if history == [] then []
    else (if history[0].id != chatId then [history[0]] else []) + Without(history[1..], chatId)
  }

  predicate UniqueIds(history: seq<ChatRecord>)
  {
    forall i, j :: 0 <= i < j < |history| ==> history[i].id != history[j].id
  }

  /** The filter works record by record, so the survivors keep their
      relative order. */
  lemma {:induction false} WithoutAppend(a: seq<ChatRecord>, b: seq<ChatRecord>, chatId: string)
    ensures Without(a + b, chatId) == Without(a, chatId) + Without(b, chatId)
  {
    if a != [] {
      assert (a + b)[1..] == a[1..] + b;
      WithoutAppend(a[1..], b, chatId);
    } else {
      assert a + b == b;
    }
  }

  /** Deleting an id that is not stored changes nothing. */
  lemma {:induction false} WithoutAbsent(history: seq<ChatRecord>, chatId: string)
    requires forall i :: 0 <= i < |history| ==> history[i].id != chatId
    ensures Without(history, chatId) == history
  {
    if history != [] {
      WithoutAbsent(history[1..], chatId);
      assert [history[0]] + history[1..] == history;
    }
  }

  /** With unique ids, deleting a stored id removes exactly one record. */
  lemma {:induction false} WithoutPresent(history: seq<ChatRecord>, chatId: string)
    requires UniqueIds(history)
    requires exists i :: 0 <= i < |history| && history[i].id == chatId
    ensures |Without(history, chatId)| == |history| - 1
  {
    if history[0].id == chatId {
      WithoutAbsent(history[1..], chatId);
    } else {
      var i :| 0 <= i < |history| && history[i].id == chatId;
      assert history[1..][i - 1].id == chatId;
      WithoutPresent(history[1..], chatId);
    }
  }

  // -------------------------------------------------------------- grouping

  /** `chat.characterId || chat.topicId || 'general'`: a key is never empty,
      and it is the persona id whenever the chat has one. */
  function GroupKey(chat: ChatRecord): (k: string)
    ensures k != ""
    ensures Truthy(chat.characterId) ==> k == chat.characterId.value
  {
    if Truthy(chat.characterId) then chat.characterId.value
    else if Truthy(chat.topicId) then chat.topicId.value
    else General
  }

  /** The chats of one group, in collection order. */
  function Members(history: seq<ChatRecord>, key: string): (r: seq<ChatRecord>)
    ensures |r| <= |history|
    ensures forall c :: c in r <==> c in history && GroupKey(c) == key
  {
    if history == [] then []
    else
      var last := history[|history| - 1];
      assert history == history[..|history| - 1] + [last];
      Members(history[..|history| - 1], key) + (if GroupKey(last) == key then [last] else [])
  }

  /** The group keys in the order the reduce first meets them. */
  function KeysInOrder(history: seq<ChatRecord>): (ks: seq<string>)
    ensures forall i, j :: 0 <= i < j < |ks| ==> ks[i] != ks[j]
    ensures forall k :: k in ks <==> exists c :: c in history && GroupKey(c) == k
  {
    if history == [] then []
    else
      var last := history[|history| - 1];
      var ks := KeysInOrder(history[..|history| - 1]);
      assert history == history[..|history| - 1] + [last];
      if GroupKey(last) in ks then ks else ks + [GroupKey(last)]
  }

  /** The object the reduce builds: one entry per key met, holding that
      key's chats. */
  function Grouped(history: seq<ChatRecord>): map<string, seq<ChatRecord>>
  {
    map k | k in KeysInOrder(history) :: Members(history, k)
  }

  lemma MembersSnoc(history: seq<ChatRecord>, chat: ChatRecord, key: string)
    ensures Members(history + [chat], key) == Members(history, key) + (if GroupKey(chat) == key then [chat] else [])
  {
    var h := history + [chat];
    assert h[..|h| - 1] == history;
  }

  lemma KeysInOrderSnoc(history: seq<ChatRecord>, chat: ChatRecord)
    ensures KeysInOrder(history + [chat]) == if GroupKey(chat) in KeysInOrder(history) then KeysInOrder(history)
                                             else KeysInOrder(history) + [GroupKey(chat)]
  {
    var h := history + [chat];
    assert h[..|h| - 1] == history;
  }

  /** A key never met has no members. */
  lemma MembersOfUnmetKey(history: seq<ChatRecord>, key: string)
    requires key !in KeysInOrder(history)
    ensures Members(history, key) == []
  {
    var m := Members(history, key);
    assert forall i :: 0 <= i < |m| ==> m[i] in m;
  }

  /** One step of the reduce: the chat's group is created if needed, then
      the chat is pushed onto it. */
  lemma GroupedSnoc(history: seq<ChatRecord>, chat: ChatRecord)
    ensures var g := Grouped(history); var k := GroupKey(chat);
      Grouped(history + [chat]) == g[k := (if k in g then g[k] else []) + [chat]]
  {
    var h := history + [chat];
    var g := Grouped(history);
    var k := GroupKey(chat);
    var g' := g[k := (if k in g then g[k] else []) + [chat]];
    var ks := KeysInOrder(history);
    KeysInOrderSnoc(history, chat);
    assert Grouped(h).Keys == g'.Keys;
    forall key | key in g'.Keys
      ensures Grouped(h)[key] == g'[key]
    {
      MembersSnoc(history, chat, key);
      if key == k && k !in g {
        MembersOfUnmetKey(history, key);
      }
    }
  }

  /** The reduce itself, updating its accumulator in place. */
  method GroupChats(history: seq<ChatRecord>) returns (groups: map<string, seq<ChatRecord>>)
    ensures groups == Grouped(history)
  {
    groups := map[];
    assert Grouped([]) == map[];
    for i := 0 to |history|
      invariant groups == Grouped(history[..i])
    {
      var chat := history[i];
      var key := GroupKey(chat);
      ghost var before := groups;
      if key !in groups {
        groups := groups[key := []];
      }
      groups := groups[key := groups[key] + [chat]];
      assert groups == before[key := (if key in before then before[key] else []) + [chat]];
      GroupedSnoc(history[..i], chat);
      assert history[..i + 1] == history[..i] + [chat];
    }
    assert history[..|history|] == history;
  }

  function SumSizes(history: seq<ChatRecord>, ks: seq<string>): nat
  {
    if ks == [] then 0 else |Members(history, ks[0])| + SumSizes(history, ks[1..])
  }

  lemma {:induction false} SumSizesSnoc(history: seq<ChatRecord>, ks: seq<string>, k: string)
    ensures SumSizes(history, ks + [k]) == SumSizes(history, ks) + |Members(history, k)|
  {
    if ks != [] {
      assert (ks + [k])[1..] == ks[1..] + [k];
      SumSizesSnoc(history, ks[1..], k);
    } else {
      assert [k][1..] == [];
    }
  }

  /** Adding one chat grows exactly its own group, by one. */
  lemma {:induction false} SumSizesAddChat(history: seq<ChatRecord>, chat: ChatRecord, ks: seq<string>)
    requires forall i, j :: 0 <= i < j < |ks| ==> ks[i] != ks[j]
    ensures SumSizes(history + [chat], ks) == SumSizes(history, ks) + (if GroupKey(chat) in ks then 1 else 0)
  {
    if ks != [] {
      var rest := ks[1..];
      assert forall i, j :: 0 <= i < j < |rest| ==> rest[i] != rest[j] by {
        forall i, j | 0 <= i < j < |rest| ensures rest[i] != rest[j] {
          assert rest[i] == ks[i + 1] && rest[j] == ks[j + 1];
        }
      }
      SumSizesAddChat(history, chat, rest);
      MembersSnoc(history, chat, ks[0]);
      assert ks == [ks[0]] + rest;
      if GroupKey(chat) == ks[0] {
        assert GroupKey(chat) !in rest by {
          forall j | 0 <= j < |rest| ensures rest[j] != ks[0] {
            assert rest[j] == ks[j + 1];
          }
        }
      }
    }
  }

  lemma {:induction false} SumSizesOfNothing(ks: seq<string>)
    ensures SumSizes([], ks) == 0
  {
    if ks != [] {
      SumSizesOfNothing(ks[1..]);
    }
  }

  /** Summing the groups of any list of distinct keys that covers every
      chat counts every chat once. */
  lemma {:induction false} SumSizesCovering(history: seq<ChatRecord>, ks: seq<string>)
    requires forall i, j :: 0 <= i < j < |ks| ==> ks[i] != ks[j]
    requires forall i :: 0 <= i < |history| ==> GroupKey(history[i]) in ks
    ensures SumSizes(history, ks) == |history|
  {
    if history == [] {
      SumSizesOfNothing(ks);
    } else {
      var prefix := history[..|history| - 1];
      var chat := history[|history| - 1];
      assert history == prefix + [chat];
      SumSizesCovering(prefix, ks);
      SumSizesAddChat(prefix, chat, ks);
    }
  }

  /** The groups partition the collection: their sizes add up to its size. */
  lemma GroupSizesSum(history: seq<ChatRecord>)
    ensures SumSizes(history, KeysInOrder(history)) == |history|
  {
    var ks := KeysInOrder(history);
    assert forall i :: 0 <= i < |history| ==> GroupKey(history[i]) in ks by {
      forall i | 0 <= i < |history| ensures GroupKey(history[i]) in ks {
        assert history[i] in history;
      }
    }
    SumSizesCovering(history, ks);
  }

  /** Every chat lies in exactly one group, the one of its own key; no group
      is empty; and a group lists its chats in collection order. */
  lemma GroupsPartition(history: seq<ChatRecord>, chat: ChatRecord, key: string)
    ensures chat in history ==> GroupKey(chat) in Grouped(history) && chat in Grouped(history)[GroupKey(chat)]
    ensures key in Grouped(history) && chat in Grouped(history)[key] ==> chat in history && key == GroupKey(chat)
    ensures key in Grouped(history) ==> Grouped(history)[key] != []
  {
  }

  lemma {:induction false} MembersAppend(a: seq<ChatRecord>, b: seq<ChatRecord>, key: string)
    ensures Members(a + b, key) == Members(a, key) + Members(b, key)
    decreases |b|
  {
    if b == [] {
      assert a + b == a;
    } else {
      var b' := b[..|b| - 1];
      assert (a + b)[..|a + b| - 1] == a + b';
      MembersAppend(a, b', key);
    }
  }

  /** `groupedChats[currentKey] || []`. */
  function CurrentChats(groups: map<string, seq<ChatRecord>>, ctx: Option<Context>): seq<ChatRecord>
  {
    var key := CurrentKey(ctx);
    if key in groups then groups[key] else []
  }

  /** The sidebar lists exactly the chats of the page's persona or topic, or
      the general chats on a page without context, and nothing when there
      are none. */
  lemma CurrentChatsAreMembers(history: seq<ChatRecord>, ctx: Option<Context>)
    ensures CurrentChats(Grouped(history), ctx) == Members(history, CurrentKey(ctx))
  {
    var key := CurrentKey(ctx);
    if key !in Grouped(history) {
      MembersOfUnmetKey(history, key);
    }
  }

  // --------------------------------------------------------------- heading

  /** The heading above the list: the persona's name, else the topic's title,
      for a page with context, and "General" without one. */
  function Heading(ctx: Option<Context>): Option<string>
  {
    if ctx.None? then Some("General")
    else
      var c := Data.FindCharacter(ctx.value.id);
      if c.Some? && c.value.name != "" then Some(c.value.name)
      else
        var t := Data.FindTopic(ctx.value.id);
        if t.Some? then Some(t.value.title) else None
  }

  lemma HeadingCases(ctx: Context, c: Data.Character, t: Data.Topic)
    ensures Heading(None) == Some("General")
    ensures c in Data.Characters && c.id == ctx.id ==> Heading(Some(ctx)) == Some(c.name)
    ensures t in Data.Topics && t.id == ctx.id ==> Heading(Some(ctx)) == Some(t.title)
    ensures ctx.id !in Data.CharacterIds() && ctx.id !in Data.TopicIds() ==> Heading(Some(ctx)) == None
  {
    Data.FindCharacterExact(ctx.id, c);
    Data.FindTopicExact(ctx.id, t);
    Data.CharacterTopicDisjoint(ctx.id);
    Data.NamesNonEmpty();
  }

  // --------------------------------------------------------------- sidebar

  class Layout {
    /** The collection stored under the "chatHistory" key. */
    var stored: seq<ChatRecord>
    /** The `chatHistory` state the sidebar renders. */
    var chatHistory: seq<ChatRecord>

    /** Mounting: the state starts empty and the effect then loads the
        stored collection. */
    constructor (storedAtMount: seq<ChatRecord>)
      ensures stored == storedAtMount && chatHistory == []
    {
      stored := storedAtMount;
      chatHistory := [];
    }

    method LoadHistory()
      modifies this
      ensures stored == old(stored) && chatHistory == stored
    {
      chatHistory := stored;
    }

    method DeleteChat(chatId: string)
      modifies this
      ensures stored == Without(old(stored), chatId)
      ensures chatHistory == stored
    {
      var history := stored;
      var updated := Without(history, chatId);
      stored := updated;
      chatHistory := updated;
    }

    method ClearAllChats() returns (route: string)
      modifies this
      ensures stored == [] && chatHistory == []
      ensures route == "/"
    {
      stored := [];
      chatHistory := [];
      route := "/";
    }

    /** Pushes the route for a new chat (none for a page of another kind)
        and writes the stored collection back as it was read. */
    method StartNewChat(path: string) returns (route: Option<string>)
      modifies this
      ensures route == NewChatRoute(CurrentContext(path))
      ensures stored == old(stored) && chatHistory == old(chatHistory)
    {
      route := NewChatRoute(CurrentContext(path));
      var history := stored;
      stored := history;
    }

    /** The render-time computation of the list under the heading. */
    method CurrentList(path: string) returns (chats: seq<ChatRecord>)
      ensures chats == Members(chatHistory, CurrentKey(CurrentContext(path)))
    {
      var groups := GroupChats(chatHistory);
      chats := CurrentChats(groups, CurrentContext(path));
      CurrentChatsAreMembers(chatHistory, CurrentContext(path));
    }
  }
}
