/** The response handling and prompt of storyGenerator.js: `trimResponseString`,
    `getJSON`, `getAgeFromDOB` and `getPrompt`. `JSON.parse` is a parameter:
    a function from text to a parsed value, or `None` where it throws. The
    file is an ES module, so it runs in strict mode. */
module StoryGenerator {
  import opened JsText
  import opened Json
  import opened Records

  // ---------------------------------------------------------------- trimming

  /** What `trimResponseString` leaves: the lines strictly between the first
      and the last, joined again. */
  function TrimmedResponse(response: string): string
  {
    var lines := Split(response);
    if |lines| < 2 then "" else Join(lines[1..|lines| - 1])
  }

  /** `lines.splice(start, deleteCount)`, as far as the array left behind is
      concerned; a start past the end deletes nothing, a negative start counts
      from the end. */
  function Splice(lines: seq<string>, start: int, deleteCount: int): seq<string>
  {
    var from := if start < 0 then (if |lines| + start < 0 then 0 else |lines| + start)
                else (if start > |lines| then |lines| else start);
    var count := if deleteCount < 0 then 0
                 else if deleteCount > |lines| - from then |lines| - from else deleteCount;
    lines[..from] + lines[from + count..]
  }

  /** The two calls `trimResponseString` makes: `splice(length - 1, 1)` drops
      the last line, and `splice(0, 1)` drops the first one, if there is one. */
  lemma SpliceEnds(lines: seq<string>)
    ensures |lines| >= 1 ==> Splice(lines, |lines| - 1, 1) == lines[..|lines| - 1]
    ensures lines == [] ==> Splice(lines, |lines| - 1, 1) == []
    ensures Splice(lines, 0, 1) == if lines == [] then [] else lines[1..]
  {
  }

  /** `trimResponseString(responseString)`: split on line breaks, remove the
      last line, remove the first line, join. */
  method TrimResponseString(response: string) returns (trimmed: string)
    ensures trimmed == TrimmedResponse(response)
  {
    var lines := Split(response);
    ghost var all := lines;
    SpliceEnds(lines);
    lines := Splice(lines, |lines| - 1, 1);
    assert lines == all[..|all| - 1];
    SpliceEnds(lines);
    lines := Splice(lines, 0, 1);
    assert |all| >= 2 ==> lines == all[1..|all| - 1];
    assert |all| < 2 ==> lines == [];
    trimmed := Join(lines);
  }

  /** A response of one line is trimmed to nothing. */
  lemma TrimSingleLine(response: string)
    requires '\n' !in response
    ensures TrimmedResponse(response) == ""
  {
    SplitSingleLine(response);
  }

  /** A response of k >= 3 lines keeps lines 2 to k - 1, in order; one of 2
      lines keeps nothing. */
  lemma TrimKeepsMiddleLines(response: string)
    ensures var lines := Split(response);
      && (|lines| <= 2 ==> TrimmedResponse(response) == "")
      && (|lines| >= 3 ==> Split(TrimmedResponse(response)) == lines[1..|lines| - 1])
  {
    var lines := Split(response);
    if |lines| >= 3 {
      var middle := lines[1..|lines| - 1];
      assert TrimmedResponse(response) == Join(middle);
      forall i | 0 <= i < |middle| ensures '\n' !in middle[i] {
        assert middle[i] == lines[i + 1];
      }
      SplitJoin(middle);
    }
  }

  /** Wrapping any text in one line before and one line after, and trimming,
      gives the text back. */
  lemma TrimRoundTrip(before: string, text: string, after: string)
    requires '\n' !in before && '\n' !in after
    ensures TrimmedResponse(before + "\n" + text + "\n" + after) == text
  {
    SplitSingleLine(before);
    SplitSingleLine(after);
    SplitAtBreak(text, after);
    assert before + "\n" + text + "\n" + after == before + "\n" + (text + "\n" + after);
    SplitAtBreak(before, text + "\n" + after);
    var lines := Split(before + "\n" + text + "\n" + after);
    assert lines == [before] + Split(text) + [after];
    assert lines[1..|lines| - 1] == Split(text);
    JoinSplit(text);
  }

  // ---------------------------------------------------------------- parsing

  /** The object `getJSON` returns when parsing fails. */
  const FALLBACK := JObject(map[
    "title" := JString("Default Title"),
    "body_text" := JString("Default Story"),
    "success" := JBool(false)])

  /** `getJSON(jsonTextResponse)`. Parsing an object sets its `success` to true
      in place. Setting a property on `null` or a primitive throws in strict
      mode, so those take the fallback path too; an array accepts the property,
      which is not represented here. */
  method GetJson(response: string, parse: string -> Option<JsonValue>) returns (result: JsonValue)
    ensures var parsed := parse(TrimmedResponse(response));
      result == FALLBACK <==> !(parsed.Some? && (parsed.value.JObject? || parsed.value.JArray?))
    ensures var parsed := parse(TrimmedResponse(response));
      parsed.Some? && parsed.value.JObject? ==>
        && result.JObject?
        && result.fields.Keys == parsed.value.fields.Keys + {"success"}
        && result.fields["success"] == JBool(true)
        && (forall k :: k in parsed.value.fields && k != "success" ==> result.fields[k] == parsed.value.fields[k])
    ensures var parsed := parse(TrimmedResponse(response));
      parsed.Some? && parsed.value.JArray? ==> result == parsed.value
    ensures '\n' !in response && parse("").None? ==> result == FALLBACK
  {
    var trimmed := TrimResponseString(response);
    if '\n' !in response {
      TrimSingleLine(response);
    }
    var parsed := parse(trimmed);
    match parsed {
      case None =>
        result := FALLBACK;
      case Some(value) =>
        match value {
          case JObject(fields) =>
            result := JObject(fields["success" := JBool(true)]);
            assert "success" in result.fields && result.fields["success"] != JBool(false);
          case JArray(_) =>
            result := value;
          case _ =>
            result := FALLBACK;
        }
    }
  }

  // ---------------------------------------------------------------- age

  /** Calendar order on (year, month, day). */
  predicate DateBefore(a: CalendarDate, b: CalendarDate)
  {
    a.year < b.year || (a.year == b.year && (a.month < b.month || (a.month == b.month && a.day < b.day)))
  }

  /** `age` full years have passed between `dob` and `today`: the age-th
      anniversary has been reached and the next one has not. */
  predicate IsAgeOn(dob: CalendarDate, today: CalendarDate, age: int)
  {
    && !DateBefore(today, CalendarDate(dob.year + age, dob.month, dob.day))
    && DateBefore(today, CalendarDate(dob.year + age + 1, dob.month, dob.day))
  }

  /** At most one age fits. */
  lemma AgeUnique(dob: CalendarDate, today: CalendarDate, a: int, b: int)
    requires IsAgeOn(dob, today, a) && IsAgeOn(dob, today, b)
    ensures a == b
  {
  }

  /** `getAgeFromDOB(dobString)`, on the parsed birth date and today's date,
      before `toString()`. */
  function AgeFromDob(dob: CalendarDate, today: CalendarDate): (age: int)
    ensures IsAgeOn(dob, today, age)
    ensures !DateBefore(today, dob) ==> age >= 0
    ensures today.month == dob.month && today.day == dob.day ==> age == today.year - dob.year
  {
    var age := today.year - dob.year;
    var monthDiff := today.month - dob.month;
    var dayDiff := today.day - dob.day;
    if monthDiff < 0 || (monthDiff == 0 && dayDiff < 0) then age - 1 else age
  }

  // ---------------------------------------------------------------- prompt

  /** The `info` object `getPrompt` destructures. */
  datatype InfoUser = InfoUser(
    name: string,
    gender: string,
    dob: CalendarDate,
    originAddress: string,
    nationality: string,
    userDescription: string)

  datatype InfoExperience = InfoExperience(destinationCountry: string, experienceType: string)

  datatype InfoStory = InfoStory(isNegative: bool)

  datatype StoryInfo = StoryInfo(user: InfoUser, experience: InfoExperience, story: InfoStory)

  const DEFAULT_STORY_LENGTH := "short"

  /** What follows the tone word at the end of every prompt. */
  const PROMPT_TAIL := " and " + DEFAULT_STORY_LENGTH + " about my time there.\n    "

  function ToneWord(isNegative: bool): string
  {
    if isNegative then "negative" else "positive"
  }

  /** Reads the tone word back from the end of a prompt. */
  function PromptTone(prompt: string): Option<bool>
  {
    if EndsWith(prompt, "negative" + PROMPT_TAIL) then Some(true)
    else if EndsWith(prompt, "positive" + PROMPT_TAIL) then Some(false)
    else None
  }

  /** Whatever precedes it, the tone word and the tail read back as that tone. */
  lemma ToneReadBack(head: string, isNegative: bool)
    ensures EndsWith(head + ToneWord(isNegative) + PROMPT_TAIL, ToneWord(isNegative) + PROMPT_TAIL)
    ensures PromptTone(head + ToneWord(isNegative) + PROMPT_TAIL) == Some(isNegative)
  {
    var tail := ToneWord(isNegative) + PROMPT_TAIL;
    assert head + ToneWord(isNegative) + PROMPT_TAIL == head + tail;
    assert (head + tail)[|head + tail| - |tail|..] == tail;
    assert ("negative" + PROMPT_TAIL)[0] != ("positive" + PROMPT_TAIL)[0];
  }

  /** `getPrompt(info)`, with today's date for the age. */
  function GetPrompt(info: StoryInfo, today: CalendarDate): (prompt: string)
    ensures EndsWith(prompt, ToneWord(info.story.isNegative) + PROMPT_TAIL)
    ensures PromptTone(prompt) == Some(info.story.isNegative)
  {
    var u, e := info.user, info.experience;
    var age := IntToString(AgeFromDob(u.dob, today));
    var head := "\n    My name is " + u.name + ". I am a " + age + " year old " + u.gender
      + "  - this is my description: " + u.userDescription + ". I am a " + u.nationality
      + " living in " + u.originAddress + ". My destination was " + e.destinationCountry
      + ". I went to " + e.destinationCountry + " for " + e.experienceType
      + ". Provide a bespoke, realistic story that is ";
    ToneReadBack(head, info.story.isNegative);
    head + ToneWord(info.story.isNegative) + PROMPT_TAIL
  }
}
