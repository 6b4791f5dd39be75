/** The record helpers of complete_system.js: demographics, experience, travel
    story, title cleanup, the final record, and the statistics counts.
    faker draws, `Math.random()` and `uuidv4()` values are parameters. */
module Records {
  import opened JsText
  import opened Config

  /** A calendar date as (year, month, day). */
  datatype CalendarDate = CalendarDate(year: int, month: int, day: int)

  /** The year `generateUserDemographics` subtracts the birth year from. */
  const REFERENCE_YEAR := 2025

  /** What faker supplies to one `generateUserDemographics` call, in call order:
      the birth date, the full name, a gender index, the origin city, a second
      city for the address, the job title, and an education index. */
  datatype DemographicDraws = DemographicDraws(
    birthDate: CalendarDate,
    fullName: string,
    genderPick: nat,
    city: string,
    addressCity: string,
    jobTitle: string,
    educationPick: nat)

  datatype Demographics = Demographics(
    name: string,
    gender: string,
    age: int,
    dob: CalendarDate,
    nationality: string,
    originCity: string,
    originAddress: string,
    occupation: string,
    education: string)

  datatype Experience = Experience(
    destinationCountry: string,
    experienceType: string,
    isChallenging: bool)

  /** What `generateTravelStory` returns. */
  datatype StoryDraft = StoryDraft(bodyText: string, isNegative: bool)

  /** The three `uuidv4()` values of one record. */
  datatype RecordIds = RecordIds(userId: string, experienceId: string, storyId: string)

  datatype UserEntry = UserEntry(
    userId: string,
    name: string,
    gender: string,
    age: int,
    dob: CalendarDate,
    originAddress: string,
    nationality: string,
    occupation: string,
    education: string,
    background: string)

  datatype ExperienceEntry = ExperienceEntry(
    experienceId: string,
    destinationCountry: string,
    experienceType: string)

  datatype StoryEntry = StoryEntry(
    storyId: string,
    title: string,
    bodyText: string,
    isNegative: bool)

  /** One element of the output file. */
  datatype StoryRecord = StoryRecord(user: UserEntry, experience: ExperienceEntry, story: StoryEntry)

  /** The picks are within the pools faker draws them from. */
  predicate DemographicDrawsValid(d: DemographicDraws)
  {
    d.genderPick < |GENDERS| && d.educationPick < |EDUCATION_LEVELS|
  }

  /** `suffix` ends `s`. */
  predicate EndsWith(s: string, suffix: string)
  {
    |suffix| <= |s| && s[|s| - |suffix|..] == suffix
  }

  /** `generateUserDemographics(nationality)`. */
  function GenerateUserDemographics(nationality: string, d: DemographicDraws): (r: Demographics)
    requires DemographicDrawsValid(d)
    ensures r.nationality == nationality
    ensures r.originAddress == d.addressCity + ", " + nationality
    ensures EndsWith(r.originAddress, ", " + nationality)
    ensures r.age == REFERENCE_YEAR - r.dob.year && r.dob == d.birthDate
    ensures r.gender in GENDERS && r.education in EDUCATION_LEVELS
    ensures r.name == d.fullName && r.originCity == d.city && r.occupation == d.jobTitle
  {
    var address := d.addressCity + ", " + nationality;
    assert address[|address| - |", " + nationality|..] == ", " + nationality;
    Demographics(
      d.fullName,
      GENDERS[d.genderPick],
      REFERENCE_YEAR - d.birthDate.year,
      d.birthDate,
      nationality,
      d.city,
      address,
      d.jobTitle,
      EDUCATION_LEVELS[d.educationPick])
  }

  /** `pool.filter(d => d !== x)`. */
  function Without(pool: seq<string>, x: string): (r: seq<string>)
    ensures forall v :: v in r <==> v in pool && v != x
  {
    if pool == [] then []
    else if pool[0] == x then Without(pool[1..], x)
    else [pool[0]] + Without(pool[1..], x)
  }

  /** Removing a value that occurs once in a pool of distinct values shortens it by one. */
  lemma {:induction false} WithoutOnce(pool: seq<string>, x: string)
    requires Distinct(pool)
    ensures x in pool ==> |Without(pool, x)| == |pool| - 1
    ensures x !in pool ==> |Without(pool, x)| == |pool|
  {
    if pool != [] {
      assert Distinct(pool[1..]) by {
        forall i, j | 0 <= i < j < |pool[1..]| ensures pool[1..][i] != pool[1..][j] {
          assert pool[1..][i] == pool[i + 1] && pool[1..][j] == pool[j + 1];
        }
      }
      WithoutOnce(pool[1..], x);
      if pool[0] == x {
        assert x !in pool[1..] by {
          forall j | 0 <= j < |pool[1..]| ensures pool[1..][j] != x {
            assert pool[1..][j] == pool[j + 1];
          }
        }
      } else {
        assert x in pool ==> x in pool[1..];
      }
    }
  }

  /** The destinations a traveller from `home` can be sent to. */
  function ValidDestinations(home: string): (r: seq<string>)
    ensures forall v :: v in r <==> v in DESTINATIONS && v != home
  {
    Without(DESTINATIONS, home)
  }

  /** For every home nationality exactly 19 destinations remain, so the choice is
      never made from an empty list; any other home leaves all 20. */
  lemma ValidDestinationsSize(home: string)
    ensures home in NATIONALITIES ==> |ValidDestinations(home)| == 19
    ensures home !in DESTINATIONS ==> |ValidDestinations(home)| == 20
    ensures |ValidDestinations(home)| >= 19
  {
    PoolsShape();
    WithoutOnce(DESTINATIONS, home);
  }

  /** `generateExperience(home)`: filter, then choose the destination with
      `destinationPick`; `typePick` chooses the type and `challengeDraw` is the
      `Math.random()` value. */
  function GenerateExperience(home: string, destinationPick: nat, typePick: nat, challengeDraw: real): (r: Experience)
    requires destinationPick < |ValidDestinations(home)| && typePick < |EXPERIENCE_TYPES|
    ensures r.destinationCountry in DESTINATIONS && r.destinationCountry != home
    ensures r.experienceType in EXPERIENCE_TYPES
    ensures r.isChallenging <==> challengeDraw < 0.2
  {
    var valid := ValidDestinations(home);
    Experience(valid[destinationPick], EXPERIENCE_TYPES[typePick], challengeDraw < 0.2)
  }

  /** Every destination other than the home one can be drawn. */
  lemma EveryOtherDestinationReachable(home: string, dest: string, typePick: nat, challengeDraw: real)
    requires dest in DESTINATIONS && dest != home && typePick < |EXPERIENCE_TYPES|
    ensures exists pick: nat ::
      && pick < |ValidDestinations(home)|
      && GenerateExperience(home, pick, typePick, challengeDraw).destinationCountry == dest
  {
    var valid := ValidDestinations(home);
    var pick :| 0 <= pick < |valid| && valid[pick] == dest;
    assert GenerateExperience(home, pick, typePick, challengeDraw).destinationCountry == dest;
  }

  /** What `generateTravelStory` keeps besides the generated text: the story's
      tone is the experience's. */
  function TravelStory(experience: Experience, text: string): (r: StoryDraft)
    ensures r.isNegative == experience.isChallenging && r.bodyText == text
  {
    StoryDraft(text, experience.isChallenging)
  }

  predicate IsQuote(c: char)
  {
    c == '"' || c == '\''
  }

  /** `s.replace(/["']/g, '')`. */
  function RemoveQuotes(s: string): (r: string)
    ensures forall i :: 0 <= i < |r| ==> !IsQuote(r[i])
    ensures |r| <= |s|
  {
    if s == [] then []
    else if IsQuote(s[0]) then RemoveQuotes(s[1..])
    else [s[0]] + RemoveQuotes(s[1..])
  }

  /** Removing quotes keeps every other character, in order. */
  lemma {:induction false} RemoveQuotesKeepsOthers(s: string)
    requires forall i :: 0 <= i < |s| ==> !IsQuote(s[i])
    ensures RemoveQuotes(s) == s
  {
    if s != [] {
      RemoveQuotesKeepsOthers(s[1..]);
      assert s == [s[0]] + s[1..];
    }
  }

  /** Quotes are removed piece by piece: the other characters keep their order. */
  lemma {:induction false} RemoveQuotesAppend(a: string, b: string)
    ensures RemoveQuotes(a + b) == RemoveQuotes(a) + RemoveQuotes(b)
  {
    if a == [] {
      assert a + b == b;
    } else {
      assert (a + b)[0] == a[0] && (a + b)[1..] == a[1..] + b;
      RemoveQuotesAppend(a[1..], b);
    }
  }

  /** Every character other than a quote occurs as often after the removal as before. */
  lemma {:induction false} RemoveQuotesCounts(s: string, c: char)
    requires !IsQuote(c)
    ensures multiset(RemoveQuotes(s))[c] == multiset(s)[c]
  {
    if s != [] {
      assert s == [s[0]] + s[1..];
      RemoveQuotesCounts(s[1..], c);
    }
  }

  /** A title with no quote characters and no whitespace at either end. */
  predicate IsCleanTitle(t: string)
  {
    && (forall i :: 0 <= i < |t| ==> !IsQuote(t[i]))
    && (t == [] || (!IsWhitespace(t[0]) && !IsWhitespace(t[|t| - 1])))
  }

  /** The cleanup `generateStoryTitle` applies to the generated title. */
  function CleanTitle(title: string): (r: string)
    ensures IsCleanTitle(r)
  {
    var unquoted := RemoveQuotes(title);
    TrimSlice(unquoted);
    TrimmedEnds(unquoted);
    Trim(unquoted)
  }

  /** Cleaning a clean title changes nothing. */
  lemma CleanTitleIdempotent(title: string)
    ensures CleanTitle(CleanTitle(title)) == CleanTitle(title)
  {
    var once := CleanTitle(title);
    RemoveQuotesKeepsOthers(once);
    TrimIdempotent(RemoveQuotes(title));
  }

  /** `concatenate(...)`: the record copies its inputs and takes the three ids. */
  function Concatenate(
    demographics: Demographics, background: string, experience: Experience,
    story: StoryDraft, title: string, ids: RecordIds): (r: StoryRecord)
    ensures r.user == UserEntry(ids.userId, demographics.name, demographics.gender, demographics.age,
      demographics.dob, demographics.originAddress, demographics.nationality,
      demographics.occupation, demographics.education, background)
    ensures r.experience == ExperienceEntry(ids.experienceId, experience.destinationCountry, experience.experienceType)
    ensures r.story == StoryEntry(ids.storyId, title, story.bodyText, story.isNegative)
  {
    StoryRecord(
      UserEntry(ids.userId, demographics.name, demographics.gender, demographics.age,
        demographics.dob, demographics.originAddress, demographics.nationality,
        demographics.occupation, demographics.education, background),
      ExperienceEntry(ids.experienceId, experience.destinationCountry, experience.experienceType),
      StoryEntry(ids.storyId, title, story.bodyText, story.isNegative))
  }

  /** The record with its three ids blanked. */
  function WithoutIds(r: StoryRecord): StoryRecord
  {
    r.(user := r.user.(userId := ""),
       experience := r.experience.(experienceId := ""),
       story := r.story.(storyId := ""))
  }

  /** Two records assembled from the same parts agree in every field except the
      ids, and are equal exactly when the ids are; the experience's tone flag
      does not reach the record at all. */
  lemma ConcatenateDependsOnlyOnIds(
    demographics: Demographics, background: string, experience: Experience,
    story: StoryDraft, title: string, ids1: RecordIds, ids2: RecordIds, otherTone: bool)
    ensures WithoutIds(Concatenate(demographics, background, experience, story, title, ids1))
         == WithoutIds(Concatenate(demographics, background, experience, story, title, ids2))
    ensures (Concatenate(demographics, background, experience, story, title, ids1)
          == Concatenate(demographics, background, experience, story, title, ids2)) <==> ids1 == ids2
    ensures Concatenate(demographics, background, experience.(isChallenging := otherTone), story, title, ids1)
         == Concatenate(demographics, background, experience, story, title, ids1)
  {
  }

  /** `results.filter(r => !r.story.is_negative).length`. */
  function CountPositive(results: seq<StoryRecord>): (n: nat)
    ensures n <= |results|
  {
    if results == [] then 0
    else (if results[0].story.isNegative then 0 else 1) + CountPositive(results[1..])
  }

  /** `results.filter(r => r.story.is_negative).length`. */
  function CountNegative(results: seq<StoryRecord>): (n: nat)
    ensures n <= |results|
  {
    if results == [] then 0
    else (if results[0].story.isNegative then 1 else 0) + CountNegative(results[1..])
  }

  /** The two counts `showStats` prints partition the results. */
  lemma {:induction false} StatsPartition(results: seq<StoryRecord>)
    ensures CountPositive(results) + CountNegative(results) == |results|
  {
    if results != [] {
      StatsPartition(results[1..]);
    }
  }
}
