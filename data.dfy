/** The static reference tables of personas and topics (src/app/lib/data.ts),
    and lookup by id as the sidebar and navigation do it with `Array.find`. */
module Data {
  import opened Common

  datatype Character = Character(id: string, name: string, image: string, description: string, followers: string)

  datatype Topic = Topic(id: string, title: string, icon: string, description: string)

  const Characters: seq<Character> := [
    Character("solomon", "King Solomon", "/solomon-icon.jpg", "The wisest king who ever lived", "352.4k"),
    Character("david", "King David", "/david-icon.jpg", "A man after God's own heart", "289.1k"),
    // The record for Paul really carries this name in the table.
    Character("paul", "abraham-icon", "/paul-icon.jpg", "The great apostle to the Gentiles", "421.3k"),
    Character("moses", "Moses", "/moses-icon.jpg", "The great lawgiver and deliverer", "385.2k"),
    Character("abraham", "Abraham", "/abraham-icon.jpg", "Father of faith and nations", "312.8k"),
    Character("peter", "Apostle Peter", "/peter-icon.jpg", "The rock of the early church", "298.6k"),
    Character("daniel", "Daniel", "/daniel-icon.jpg", "Prophet of dreams and visions", "276.4k"),
    Character("john", "Apostle John", "/john-icon.jpg", "The disciple whom Jesus loved", "265.9k"),
    Character("joseph", "Joseph", "/joseph-icon.jpg", "From prisoner to prince", "254.3k"),
    Character("esther", "Queen Esther", "/esther-icon.jpg", "Courage that saved a nation", "243.7k")
  ]

  const Topics: seq<Topic> := [
    Topic("wisdom", "Wisdom & Knowledge", "psychology", "Biblical principles for wise living"),
    Topic("love", "Love & Relationships", "favorite", "Understanding godly relationships"),
    Topic("faith", "Faith & Belief", "church", "Growing stronger in faith"),
    Topic("prayer", "Prayer & Worship", "volunteer_activism", "Deepening your spiritual life"),
    Topic("leadership", "Leadership", "group", "Biblical principles of leadership"),
    Topic("purpose", "Purpose & Calling", "explore", "Discovering God's plan for you"),
    Topic("forgiveness", "Forgiveness & Grace", "healing", "Finding peace through forgiveness"),
    Topic("family", "Family Life", "family_restroom", "Building strong families"),
    Topic("prosperity", "Success & Prosperity", "trending_up", "Biblical view of success"),
    Topic("warfare", "Spiritual Warfare", "security", "Standing firm in faith")
  ]

  function CharacterIds(): (ids: seq<string>)
    ensures |ids| == |Characters|
  {
    seq(|Characters|, i requires 0 <= i < |Characters| => Characters[i].id)
  }

  function TopicIds(): (ids: seq<string>)
    ensures |ids| == |Topics|
  {
    seq(|Topics|, i requires 0 <= i < |Topics| => Topics[i].id)
  }

  predicate Distinct(ids: seq<string>)
  {
    forall i, j :: 0 <= i < j < |ids| ==> ids[i] != ids[j]
  }

  /** Both tables have ten entries, and their ids are exactly these. */
  lemma TableIds()
    ensures |Characters| == 10 && |Topics| == 10
    ensures CharacterIds() == ["solomon", "david", "paul", "moses", "abraham", "peter", "daniel", "john", "joseph", "esther"]
    ensures TopicIds() == ["wisdom", "love", "faith", "prayer", "leadership", "purpose", "forgiveness", "family", "prosperity", "warfare"]
  {
  }

  /** Every persona has a name to show. */
  lemma NamesNonEmpty()
    ensures forall c :: c in Characters ==> c.name != ""
  {
  }

  /** No two personas share an id, no two topics share an id, and no id is
      both a persona and a topic, so a key names at most one record. */
  lemma IdsUnique()
    ensures Distinct(CharacterIds())
    ensures Distinct(TopicIds())
    ensures forall i, j :: 0 <= i < |CharacterIds()| && 0 <= j < |TopicIds()| ==> CharacterIds()[i] != TopicIds()[j]
  {
    TableIds();
  }

  /** `find` by id: the position of the first record carrying the id, or
      none when no record does. */
  function FirstIndex(ids: seq<string>, id: string): (r: Option<nat>)
    ensures r.None? <==> id !in ids
    ensures r.Some? ==> r.value < |ids| && ids[r.value] == id && id !in ids[..r.value]
  {
    if ids == [] then None
    else if ids[0] == id then Some(0)
    else
      var r := FirstIndex(ids[1..], id);
      if r.None? then None
      else
        assert ids[..r.value + 1] == [ids[0]] + ids[1..][..r.value];
        Some(r.value + 1)
  }

  /** Among distinct ids, `find` stops exactly at the position of the id. */
  lemma FirstIndexExact(ids: seq<string>, id: string, j: int)
    requires Distinct(ids)
    ensures FirstIndex(ids, id) == Some(j) <==> 0 <= j < |ids| && ids[j] == id
  {
    var r := FirstIndex(ids, id);
    if 0 <= j < |ids| && ids[j] == id {
      assert r.Some?;
      assert ids[r.value] == ids[j];
    }
  }

  /** `characters.find(c => c.id === id)` */
  function FindCharacter(id: string): Option<Character>
  {
    match FirstIndex(CharacterIds(), id)
    case None => None
    case Some(i) => Some(Characters[i])
  }

  /** `topics.find(t => t.id === id)` */
  function FindTopic(id: string): Option<Topic>
  {
    match FirstIndex(TopicIds(), id)
    case None => None
    case Some(i) => Some(Topics[i])
  }

  /** The test `navigateToChat` applies to a key: does the persona table hold it? */
  predicate IsCharacterId(key: string)
  {
    FindCharacter(key).Some?
  }

  predicate IsTopicId(key: string)
  {
    FindTopic(key).Some?
  }

  /** Lookup in the persona table finds exactly the record carrying the id,
      and finds one exactly for the listed ids. */
  lemma FindCharacterExact(id: string, c: Character)
    ensures FindCharacter(id) == Some(c) <==> c in Characters && c.id == id
    ensures IsCharacterId(id) <==> id in CharacterIds()
  {
    IdsUnique();
    var cs, ids := Characters, CharacterIds();
    if c in cs && c.id == id {
      var j :| 0 <= j < |cs| && cs[j] == c;
      assert ids[j] == id;
      FirstIndexExact(ids, id, j);
    }
  }

  /** Lookup in the topic table finds exactly the record carrying the id, and
      finds one exactly for the listed ids. */
  lemma FindTopicExact(id: string, t: Topic)
    ensures FindTopic(id) == Some(t) <==> t in Topics && t.id == id
    ensures IsTopicId(id) <==> id in TopicIds()
  {
    IdsUnique();
    var ts, ids := Topics, TopicIds();
    if t in ts && t.id == id {
      var j :| 0 <= j < |ts| && ts[j] == t;
      assert ids[j] == id;
      FirstIndexExact(ids, id, j);
    }
  }

  /** A key is never both a persona id and a topic id. */
  lemma CharacterTopicDisjoint(key: string)
    ensures !(IsCharacterId(key) && IsTopicId(key))
  {
    IdsUnique();
    FindCharacterExact(key, Characters[0]);
    FindTopicExact(key, Topics[0]);
  }
}
