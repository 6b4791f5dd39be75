/** The run loop of complete_system.js (`main`): the counter `iteration`, the
    growing `results`, the three content checkpoints, the progress checkpoint
    and the operator-chosen retry after an exception.

    Everything the loop gets from outside is an oracle: for each pass through
    the loop body, a `Pass` value holds the random draws, the language-model
    replies (text or a thrown error), the operator's answers, the three ids and
    whether writing the output file succeeds. */
module Synthesiser {
  import opened Config
  import opened Answers
  import opened Records

  /** One language-model call: the generated text, or the error `callOllama` throws. */
  datatype Reply = Generated(text: string) | Failed

  /** Everything one pass through the loop body receives from outside, in the
      order the body asks for it. */
  datatype Pass = Pass(
    nationalityPick: nat,
    demographicDraws: DemographicDraws,
    background: Reply,
    userAnswer: string,
    destinationPick: nat,
    typePick: nat,
    challengeDraw: real,
    experienceAnswer: string,
    story: Reply,
    title: Reply,
    storyAnswer: string,
    ids: RecordIds,
    saveSucceeds: bool,
    continueAnswer: string,
    retryAnswer: string)

  /** The random picks lie within the pools they index (19 destinations remain
      for every home nationality). */
  predicate PassValid(p: Pass)
  {
    && p.nationalityPick < |NATIONALITIES|
    && DemographicDrawsValid(p.demographicDraws)
    && p.destinationPick < 19
    && p.typePick < |EXPERIENCE_TYPES|
  }

  predicate AllValid(passes: seq<Pass>)
  {
    forall i :: 0 <= i < |passes| ==> PassValid(passes[i])
  }

  /** How the `try` block of one pass ends. */
  datatype Attempt =
    | Rejected                                // a content checkpoint said no
    | Threw(pushed: seq<StoryRecord>)         // an exception; `pushed` reached `results` before it
    | Saved(record: StoryRecord, stop: bool)  // pushed and saved; `stop` when the progress checkpoint said no

  /** What the `try` block pushed onto `results` before it ended. */
  function Pushed(a: Attempt): seq<StoryRecord>
  {
    match a
    case Rejected => []
    case Threw(pushed) => pushed
    case Saved(record, _) => [record]
  }

  /** The progress checkpoint runs after pass number `iteration`. (`% 0` is
      `NaN` in JavaScript, which never equals 0.) */
  predicate ProgressDue(s: Settings, iteration: int)
  {
    s.continueCheckInterval != 0 && iteration % s.continueCheckInterval == 0 && iteration < s.totalIterations
  }

  /** Every field of a record the loop assembles has the shape the generators give it. */
  predicate WellFormed(r: StoryRecord)
  {
    && r.user.nationality in NATIONALITIES
    && r.user.gender in GENDERS
    && r.user.education in EDUCATION_LEVELS
    && r.user.age == REFERENCE_YEAR - r.user.dob.year
    && EndsWith(r.user.originAddress, ", " + r.user.nationality)
    && r.experience.destinationCountry in DESTINATIONS
    && r.experience.destinationCountry != r.user.nationality
    && r.experience.experienceType in EXPERIENCE_TYPES
    && IsCleanTitle(r.story.title)
  }

  /** The record one pass assembles once all three model calls have replied:
      demographics for the drawn nationality, an experience away from home,
      the travel story, the cleaned title, and the pass's ids. */
  function PassRecord(p: Pass): (r: StoryRecord)
    requires PassValid(p)
    requires p.background.Generated? && p.story.Generated? && p.title.Generated?
    ensures r.user.nationality == NATIONALITIES[p.nationalityPick]
    ensures r.user.background == p.background.text
    ensures r.story.bodyText == p.story.text
    ensures r.story.title == CleanTitle(p.title.text)
    ensures r.story.isNegative <==> p.challengeDraw < 0.2
    ensures r.user.userId == p.ids.userId
    ensures r.experience.experienceId == p.ids.experienceId
    ensures r.story.storyId == p.ids.storyId
  {
    var nationality := NATIONALITIES[p.nationalityPick];
    var demographics := GenerateUserDemographics(nationality, p.demographicDraws);
    ValidDestinationsSize(nationality);
    var experience := GenerateExperience(nationality, p.destinationPick, p.typePick, p.challengeDraw);
    var story := TravelStory(experience, p.story.text);
    var title := CleanTitle(p.title.text);
    Concatenate(demographics, p.background.text, experience, story, title, p.ids)
  }

  /** The record of a pass is well formed. */
  lemma PassRecordWellFormed(p: Pass)
    requires PassValid(p)
    requires p.background.Generated? && p.story.Generated? && p.title.Generated?
    ensures WellFormed(PassRecord(p))
  {
    var nationality := NATIONALITIES[p.nationalityPick];
    ValidDestinationsSize(nationality);
  }

  /** The `try` block of one pass, numbered `iteration`. The generators never
      throw, so only the three model calls and the save can end it early. */
  function TryPass(s: Settings, iteration: int, p: Pass): (a: Attempt)
    requires PassValid(p)
    ensures a.Rejected? ==>
      || (s.reviewEveryUser && IsNo(p.userAnswer))
      || (s.reviewEveryExperience && IsNo(p.experienceAnswer))
      || (s.reviewEveryStory && IsNo(p.storyAnswer))
    ensures a.Threw? ==> p.background.Failed? || p.story.Failed? || p.title.Failed? || !p.saveSucceeds
    ensures a.Threw? ==> |a.pushed| <= 1 && (a.pushed != [] ==> !p.saveSucceeds)
    ensures a.Saved? ==> p.saveSucceeds
    ensures a.Saved? ==> (a.stop <==> ProgressDue(s, iteration) && IsNo(p.continueAnswer))
  {
    if p.background.Failed? then Threw([])
    else if !ContentCheckpoint(s.reviewEveryUser, p.userAnswer) then Rejected
    else if !ContentCheckpoint(s.reviewEveryExperience, p.experienceAnswer) then Rejected
    else if p.story.Failed? || p.title.Failed? then Threw([])
    else if !ContentCheckpoint(s.reviewEveryStory, p.storyAnswer) then Rejected
    else if !p.saveSucceeds then Threw([PassRecord(p)])
    else Saved(PassRecord(p), ProgressDue(s, iteration) && !ContinueCheckpoint(p.continueAnswer))
  }

  /** Whatever a pass pushes onto `results` is well formed. */
  lemma TryPassWellFormed(s: Settings, iteration: int, p: Pass)
    requires PassValid(p)
    ensures AllWellFormed(Pushed(TryPass(s, iteration, p)))
  {
    if Pushed(TryPass(s, iteration, p)) != [] {
      PassRecordWellFormed(p);
    }
  }

  /** Whatever a pass pushes onto `results` is the record `PassRecord` assembles
      from it, and only a pass whose three model calls replied pushes one. */
  lemma TryPassPushesRecord(s: Settings, iteration: int, p: Pass)
    requires PassValid(p)
    ensures var a := TryPass(s, iteration, p);
      Pushed(a) != [] ==>
        && p.background.Generated? && p.story.Generated? && p.title.Generated?
        && Pushed(a) == [PassRecord(p)]
  {
  }

  /** A checkpoint under review that is answered no rejects the pass, once the
      model calls before it have replied and the checkpoints before it have
      accepted. */
  lemma TryPassRejects(s: Settings, iteration: int, p: Pass)
    requires PassValid(p)
    ensures (p.background.Generated? && s.reviewEveryUser && IsNo(p.userAnswer))
      ==> TryPass(s, iteration, p).Rejected?
    ensures (&& p.background.Generated?
             && ContentCheckpoint(s.reviewEveryUser, p.userAnswer)
             && s.reviewEveryExperience && IsNo(p.experienceAnswer))
      ==> TryPass(s, iteration, p).Rejected?
    ensures (&& p.background.Generated? && p.story.Generated? && p.title.Generated?
             && ContentCheckpoint(s.reviewEveryUser, p.userAnswer)
             && ContentCheckpoint(s.reviewEveryExperience, p.experienceAnswer)
             && s.reviewEveryStory && IsNo(p.storyAnswer))
      ==> TryPass(s, iteration, p).Rejected?
  {
  }

  /** A failed model call ends the pass in an exception with nothing pushed:
      the background call before any checkpoint, the story or title call once
      the user and experience checkpoints have accepted. */
  lemma TryPassThrows(s: Settings, iteration: int, p: Pass)
    requires PassValid(p)
    ensures p.background.Failed? ==> TryPass(s, iteration, p) == Threw([])
    ensures (&& p.background.Generated?
             && ContentCheckpoint(s.reviewEveryUser, p.userAnswer)
             && ContentCheckpoint(s.reviewEveryExperience, p.experienceAnswer)
             && (p.story.Failed? || p.title.Failed?))
      ==> TryPass(s, iteration, p) == Threw([])
  {
  }

  /** A pass whose model calls all reply and whose checkpoints all accept is
      pushed; it is saved exactly when the save succeeds, and otherwise ends in
      the exception with its record already pushed. */
  lemma TryPassAccepts(s: Settings, iteration: int, p: Pass)
    requires PassValid(p)
    requires p.background.Generated? && p.story.Generated? && p.title.Generated?
    requires ContentCheckpoint(s.reviewEveryUser, p.userAnswer)
    requires ContentCheckpoint(s.reviewEveryExperience, p.experienceAnswer)
    requires ContentCheckpoint(s.reviewEveryStory, p.storyAnswer)
    ensures var a := TryPass(s, iteration, p);
      && (a.Saved? <==> p.saveSucceeds)
      && (!p.saveSucceeds ==> a == Threw([PassRecord(p)]))
      && Pushed(a) == [PassRecord(p)]
  {
  }

  /** An interval of 0 never makes the progress checkpoint due. */
  lemma ZeroIntervalNeverDue(s: Settings, iteration: int)
    requires s.continueCheckInterval == 0
    ensures !ProgressDue(s, iteration)
  {
  }

  /** The loop's state: the counter, the results, and whether the progress
      checkpoint broke out of the loop. */
  datatype RunState = RunState(iteration: int, results: seq<StoryRecord>, stopped: bool)

  /** One pass: `iteration++`, the `try` block, and the `catch` block. */
  function Step(s: Settings, st: RunState, p: Pass): (r: RunState)
    requires PassValid(p)
  {
    var n := st.iteration + 1;
    match TryPass(s, n, p)
    case Rejected => RunState(n - 1, st.results, false)
    case Threw(pushed) => RunState(if RetryConfirmed(p.retryAnswer) then n - 1 else n, st.results + pushed, false)
    case Saved(record, stop) => RunState(n, st.results + [record], stop)
  }

  /** `while (iteration < config.totalIterations)` over the given passes; the
      run also ends after a `break` or when the passes run out. */
  function Run(s: Settings, st: RunState, passes: seq<Pass>): RunState
    requires AllValid(passes)
    decreases |passes|
  {
    if st.stopped || st.iteration >= s.totalIterations || passes == [] then st
    else Run(s, Step(s, st, passes[0]), passes[1..])
  }

  const INITIAL := RunState(0, [], false)

  /** The per-pass transitions: a rejection leaves counter and results as they
      were; an exception then `y` leaves the counter; an exception then any
      other answer advances it; an acceptance advances it and appends exactly
      its record at the end. */
  lemma StepTransitions(s: Settings, st: RunState, p: Pass)
    requires PassValid(p)
    ensures var a, r := TryPass(s, st.iteration + 1, p), Step(s, st, p);
      && (a.Rejected? ==> r.iteration == st.iteration && r.results == st.results && !r.stopped)
      && (a.Threw? && RetryConfirmed(p.retryAnswer) ==> r.iteration == st.iteration && r.results == st.results + a.pushed)
      && (a.Threw? && !RetryConfirmed(p.retryAnswer) ==> r.iteration == st.iteration + 1 && r.results == st.results + a.pushed)
      && (a.Threw? && p.saveSucceeds ==> r.results == st.results)
      && (a.Saved? ==> r.iteration == st.iteration + 1 && r.results == st.results + [a.record])
      && (r.stopped ==> a.Saved? && ProgressDue(s, st.iteration + 1) && IsNo(p.continueAnswer))
  {
  }

  /** Writing the output file fails and the operator retries: the record stays
      in `results` while the counter is back where it was, so the retried pass
      adds a second record for the same slot. */
  lemma SaveFailureRetryKeepsRecord(s: Settings, st: RunState, p: Pass)
    requires PassValid(p)
    requires p.background.Generated? && p.story.Generated? && p.title.Generated?
    requires !s.reviewEveryUser && !s.reviewEveryExperience && !s.reviewEveryStory
    requires !p.saveSucceeds && p.retryAnswer == "y"
    ensures Step(s, st, p).iteration == st.iteration
    ensures |Step(s, st, p).results| == |st.results| + 1
  {
    IsYesExactly(p.retryAnswer);
  }

  /** `results` is only ever appended to. */
  lemma {:induction false} RunAppendOnly(s: Settings, st: RunState, passes: seq<Pass>)
    requires AllValid(passes)
    ensures st.results <= Run(s, st, passes).results
    ensures |Run(s, st, passes).results| <= |st.results| + |passes|
    decreases |passes|
  {
    if !(st.stopped || st.iteration >= s.totalIterations || passes == []) {
      var next := Step(s, st, passes[0]);
      RunAppendOnly(s, next, passes[1..]);
    }
  }

  /** Every write of the output file succeeds. */
  predicate SavesSucceed(passes: seq<Pass>)
  {
    forall i :: 0 <= i < |passes| ==> passes[i].saveSucceeds
  }

  /** When no save fails, there are never more records than the counter. */
  lemma {:induction false} RunCounterBound(s: Settings, st: RunState, passes: seq<Pass>)
    requires AllValid(passes) && SavesSucceed(passes)
    requires |st.results| <= st.iteration
    ensures |Run(s, st, passes).results| <= Run(s, st, passes).iteration
    decreases |passes|
  {
    if !(st.stopped || st.iteration >= s.totalIterations || passes == []) {
      RunCounterBound(s, Step(s, st, passes[0]), passes[1..]);
    }
  }

  /** The counter stays between 0 and `totalIterations`. */
  lemma {:induction false} RunCounterRange(s: Settings, st: RunState, passes: seq<Pass>)
    requires AllValid(passes)
    requires 0 <= st.iteration && (st.iteration <= s.totalIterations || st.iteration == 0)
    ensures var r := Run(s, st, passes);
      0 <= r.iteration && (r.iteration <= s.totalIterations || r.iteration == 0)
    decreases |passes|
  {
    if !(st.stopped || st.iteration >= s.totalIterations || passes == []) {
      RunCounterRange(s, Step(s, st, passes[0]), passes[1..]);
    }
  }

  predicate AllWellFormed(results: seq<StoryRecord>)
  {
    forall i :: 0 <= i < |results| ==> WellFormed(results[i])
  }

  lemma AppendWellFormed(results: seq<StoryRecord>, more: seq<StoryRecord>)
    requires AllWellFormed(results) && AllWellFormed(more)
    ensures AllWellFormed(results + more)
  {
    forall i | 0 <= i < |results + more| ensures WellFormed((results + more)[i]) {
      if i >= |results| {
        assert (results + more)[i] == more[i - |results|];
      }
    }
  }

  /** Every record the loop appends is well formed. */
  lemma {:induction false} RunWellFormed(s: Settings, st: RunState, passes: seq<Pass>)
    requires AllValid(passes)
    requires AllWellFormed(st.results)
    ensures AllWellFormed(Run(s, st, passes).results)
    decreases |passes|
  {
    if !(st.stopped || st.iteration >= s.totalIterations || passes == []) {
      var next := Step(s, st, passes[0]);
      var attempt := TryPass(s, st.iteration + 1, passes[0]);
      TryPassWellFormed(s, st.iteration + 1, passes[0]);
      AppendWellFormed(st.results, Pushed(attempt));
      assert next.results == st.results + Pushed(attempt);
      RunWellFormed(s, next, passes[1..]);
    }
  }

  /** A pass in which every model call replies, every save succeeds and the
      content checkpoints are not reviewed. */
  predicate Headless(s: Settings, p: Pass)
  {
    && !s.reviewEveryUser && !s.reviewEveryExperience && !s.reviewEveryStory
    && p.background.Generated? && p.story.Generated? && p.title.Generated?
    && p.saveSucceeds
  }

  /** The shipped settings review nothing, and the progress checkpoint comes
      after every fifth story except the last: after stories 5, 10, 15, 20
      and 25. */
  lemma DefaultSchedule()
    ensures !DEFAULT_SETTINGS.reviewEveryUser && !DEFAULT_SETTINGS.reviewEveryExperience
    ensures !DEFAULT_SETTINGS.reviewEveryStory
    ensures forall i :: ProgressDue(DEFAULT_SETTINGS, i) <==> i % 5 == 0 && i < 30
    ensures ProgressDue(DEFAULT_SETTINGS, 25) && !ProgressDue(DEFAULT_SETTINGS, 30)
  {
  }

  /** With one iteration configured and no review, the run completes after one
      pass with exactly that pass's record. */
  lemma SingleHeadlessIteration(s: Settings, p: Pass, rest: seq<Pass>)
    requires PassValid(p) && AllValid(rest)
    requires s.totalIterations == 1 && Headless(s, p)
    ensures AllValid([p] + rest)
    ensures Run(s, INITIAL, [p] + rest) == RunState(1, [PassRecord(p)], false)
  {
    assert ([p] + rest)[0] == p && ([p] + rest)[1..] == rest;
    assert !ProgressDue(s, 1);
    assert TryPass(s, 1, p) == Saved(PassRecord(p), false);
    assert Step(s, INITIAL, p) == RunState(1, [PassRecord(p)], false);
  }

  /** With a progress check after every record, answering `n` at the first one
      stops the run with exactly one record. */
  lemma StopAtFirstProgressCheck(s: Settings, p: Pass, rest: seq<Pass>)
    requires PassValid(p) && AllValid(rest)
    requires s.totalIterations > 1 && s.continueCheckInterval == 1 && Headless(s, p)
    requires p.continueAnswer == "n"
    ensures AllValid([p] + rest)
    ensures Run(s, INITIAL, [p] + rest) == RunState(1, [PassRecord(p)], true)
  {
    assert ([p] + rest)[0] == p && ([p] + rest)[1..] == rest;
    IsNoExactly(p.continueAnswer);
    assert ProgressDue(s, 1);
    assert TryPass(s, 1, p) == Saved(PassRecord(p), true);
    assert Step(s, INITIAL, p) == RunState(1, [PassRecord(p)], true);
  }

  /** One more pass of a run that is still going. */
  lemma RunUnfold(s: Settings, st: RunState, passes: seq<Pass>, k: nat)
    requires AllValid(passes) && k < |passes|
    requires !st.stopped && st.iteration < s.totalIterations
    ensures AllValid(passes[k..]) && AllValid(passes[k + 1..])
    ensures Run(s, st, passes[k..]) == Run(s, Step(s, st, passes[k]), passes[k + 1..])
  {
    assert passes[k..][0] == passes[k];
    assert passes[k..][1..] == passes[k + 1..];
  }

  /** The `try` block of pass number `iteration`: generate, review, assemble,
      push onto `results` and save, then the progress checkpoint. It returns
      the new `results` and how the block ended. */
  method TryBlock(s: Settings, iteration: int, p: Pass, results: seq<StoryRecord>)
    returns (newResults: seq<StoryRecord>, attempt: Attempt)
    requires PassValid(p)
    ensures attempt == TryPass(s, iteration, p)
    ensures newResults == results + Pushed(attempt)
  {
    newResults := results;
    var nationality := NATIONALITIES[p.nationalityPick];
    var demographics := GenerateUserDemographics(nationality, p.demographicDraws);
    if p.background.Failed? {
      return newResults, Threw([]);
    }
    var background := p.background.text;
    if !ContentCheckpoint(s.reviewEveryUser, p.userAnswer) {
      return newResults, Rejected;
    }
    ValidDestinationsSize(nationality);
    var experience := GenerateExperience(nationality, p.destinationPick, p.typePick, p.challengeDraw);
    if !ContentCheckpoint(s.reviewEveryExperience, p.experienceAnswer) {
      return newResults, Rejected;
    }
    if p.story.Failed? {
      return newResults, Threw([]);
    }
    var story := TravelStory(experience, p.story.text);
    if p.title.Failed? {
      return newResults, Threw([]);
    }
    var title := CleanTitle(p.title.text);
    if !ContentCheckpoint(s.reviewEveryStory, p.storyAnswer) {
      return newResults, Rejected;
    }
    var record := Concatenate(demographics, background, experience, story, title, p.ids);
    newResults := newResults + [record];
    if !p.saveSucceeds {
      return newResults, Threw([record]);
    }
    var stop := ProgressDue(s, iteration) && !ContinueCheckpoint(p.continueAnswer);
    return newResults, Saved(record, stop);
  }

  /** How a run of `main` ends. */
  datatype RunEnd =
    | NotConnected       // the connection test failed
    | Cancelled          // "Start generation?" was not answered yes
    | Completed          // the counter reached totalIterations
    | StoppedByOperator  // the progress checkpoint was answered no
    | OutOfPasses        // the supplied passes ran out first

  /** `main`: the connection test, the start question, then the loop. */
  method Synthesise(s: Settings, connected: bool, startAnswer: string, passes: seq<Pass>)
    returns (results: seq<StoryRecord>, iteration: int, end: RunEnd)
    requires AllValid(passes)
    ensures !connected ==> end == NotConnected && results == [] && iteration == 0
    ensures connected && !StartConfirmed(startAnswer) ==> end == Cancelled && results == [] && iteration == 0
    ensures connected && StartConfirmed(startAnswer) ==>
      Run(s, INITIAL, passes) == RunState(iteration, results, end == StoppedByOperator)
    ensures connected && StartConfirmed(startAnswer) ==> end != NotConnected && end != Cancelled
    ensures end == Completed ==> iteration >= s.totalIterations
    ensures end == OutOfPasses ==> iteration < s.totalIterations
    ensures 0 <= iteration && (iteration <= s.totalIterations || iteration == 0)
    ensures AllWellFormed(results)
    ensures SavesSucceed(passes) ==> |results| <= iteration
  {
    results, iteration := [], 0;
    if !connected {
      return results, iteration, NotConnected;
    }
    if !StartConfirmed(startAnswer) {
      return results, iteration, Cancelled;
    }
    var k := 0;
    var stopped := false;
    while iteration < s.totalIterations && k < |passes|
      invariant 0 <= k <= |passes|
      invariant Run(s, RunState(iteration, results, false), passes[k..]) == Run(s, INITIAL, passes)
      decreases |passes| - k
    {
      ghost var before := RunState(iteration, results, false);
      RunUnfold(s, before, passes, k);
      iteration := iteration + 1;
      var p := passes[k];
      k := k + 1;
      var attempt;
      results, attempt := TryBlock(s, iteration, p, results);
      match attempt {
        case Rejected =>
          iteration := iteration - 1;
          assert Step(s, before, p) == RunState(iteration, results, false);
          continue;
        case Saved(_, stop) =>
          assert Step(s, before, p) == RunState(iteration, results, stop);
          if stop {
            stopped := true;
            break;
          }
        case Threw(_) =>
          // catch: ask whether to retry this iteration
          if RetryConfirmed(p.retryAnswer) {
            iteration := iteration - 1;
          }
          assert Step(s, before, p) == RunState(iteration, results, false);
      }
    }
    end := if stopped then StoppedByOperator
      else if iteration >= s.totalIterations then Completed
      else OutOfPasses;
    RunCounterRange(s, INITIAL, passes);
    RunWellFormed(s, INITIAL, passes);
    if SavesSucceed(passes) {
      RunCounterBound(s, INITIAL, passes);
    }
  }
}
