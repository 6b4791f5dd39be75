/** engine_outlet.js: merge the generated story's title and body into the first
    seed record. The two loaded JSON documents are parameters; the file write is
    represented by the value that would be serialised. */
module EngineOutlet {
  import opened Json

  /** What `getCombinedData()` ends with: `null` when there is no seed record,
      the merged record, or the `TypeError` raised by reading `title` of a
      `null` story document. */
  datatype Combined = NoSeed | Merged(entry: map<string, JsonValue>) | StoryIsNull

  /** The seed document is a non-empty array. */
  predicate HasSeed(seedData: JsonValue)
  {
    seedData.JArray? && |seedData.items| > 0
  }

  /** The fields of the first record's `story`, as its spread copies them;
      nothing when the record has no `story`. */
  function SeedStory(first: map<string, JsonValue>): map<string, JsonValue>
  {
    if "story" in first then OwnFields(first["story"]) else map[]
  }

  /** `{ ...story, title: storyData.title, body_text: storyData.body_text }`. */
  function MergeStory(story: map<string, JsonValue>, storyData: JsonValue): (merged: map<string, JsonValue>)
    ensures "title" in merged <==> Member(storyData, "title").Some?
    ensures "title" in merged ==> merged["title"] == storyData.fields["title"]
    ensures "body_text" in merged <==> Member(storyData, "body_text").Some?
    ensures "body_text" in merged ==> merged["body_text"] == storyData.fields["body_text"]
    ensures merged.Keys - {"title", "body_text"} == story.Keys - {"title", "body_text"}
    ensures forall k :: k in story && k != "title" && k != "body_text" ==> k in merged && merged[k] == story[k]
  {
    SetOrDrop(SetOrDrop(story, "title", Member(storyData, "title")), "body_text", Member(storyData, "body_text"))
  }

  /** Merging the same story document twice is merging it once. */
  lemma MergeStoryIdempotent(story: map<string, JsonValue>, storyData: JsonValue)
    ensures MergeStory(MergeStory(story, storyData), storyData) == MergeStory(story, storyData)
  {
    var once := MergeStory(story, storyData);
    var twice := MergeStory(once, storyData);
    assert twice.Keys == once.Keys;
    forall k | k in once ensures twice[k] == once[k] {
    }
  }

  /** `getCombinedData()`. */
  function GetCombinedData(seedData: JsonValue, storyData: JsonValue): (r: Combined)
    ensures r.NoSeed? <==> !HasSeed(seedData)
    ensures r.StoryIsNull? <==> HasSeed(seedData) && storyData.JNull?
    ensures r.Merged? ==>
      var first := OwnFields(seedData.items[0]);
      && r.entry.Keys == first.Keys + {"story"}
      && (forall k :: k in first && k != "story" ==> r.entry[k] == first[k])
      && r.entry["story"].JObject?
    ensures r.Merged? ==>
      r.entry["story"] == JObject(MergeStory(SeedStory(OwnFields(seedData.items[0])), storyData))
  {
    if !HasSeed(seedData) then NoSeed
    else if storyData.JNull? then StoryIsNull
    else
      var first := OwnFields(seedData.items[0]);
      Merged(first["story" := JObject(MergeStory(SeedStory(first), storyData))])
  }

  /** What `writeCombinedData(outputFile)` does. */
  datatype WriteOutcome = NothingWritten | Written(value: JsonValue) | Threw

  /** `writeCombinedData(outputFile)`: reports and writes nothing when there is
      no seed record, otherwise writes the merged record. */
  function WriteCombinedData(seedData: JsonValue, storyData: JsonValue): (o: WriteOutcome)
    ensures o.NothingWritten? <==> !HasSeed(seedData)
    ensures o.Threw? <==> HasSeed(seedData) && storyData.JNull?
    ensures o.Written? ==> o.value.JObject? && "story" in o.value.fields && o.value.fields["story"].JObject?
    ensures o.Written? ==>
      GetCombinedData(seedData, storyData).Merged? && o.value == JObject(GetCombinedData(seedData, storyData).entry)
  {
    match GetCombinedData(seedData, storyData)
    case NoSeed => NothingWritten
    case StoryIsNull => Threw
    case Merged(entry) => Written(JObject(entry))
  }

  /** Merging is idempotent: feeding the written record back in as the only
      seed, with the same story document, writes the same record again. */
  lemma MergeIdempotent(seedData: JsonValue, storyData: JsonValue)
    requires GetCombinedData(seedData, storyData).Merged?
    ensures var entry := GetCombinedData(seedData, storyData).entry;
      GetCombinedData(JArray([JObject(entry)]), storyData) == Merged(entry)
  {
    var first := OwnFields(seedData.items[0]);
    var entry := GetCombinedData(seedData, storyData).entry;
    assert entry == first["story" := JObject(MergeStory(SeedStory(first), storyData))];
    assert OwnFields(JArray([JObject(entry)]).items[0]) == entry;
    assert SeedStory(entry) == MergeStory(SeedStory(first), storyData);
    MergeStoryIdempotent(SeedStory(first), storyData);
    assert entry["story" := JObject(MergeStory(SeedStory(entry), storyData))] == entry;
  }
}
