# Story synthesiser: a Dafny model of its deterministic core

The story synthesiser generates synthetic travel-exchange stories. Each run
loop iteration does the following:

- draws a traveller's demographics and a destination;
- asks a local language model for a background, a first-person story and a title;
- lets an operator accept or reject the content at up to four checkpoints;
- appends the assembled record to a results list, which it rewrites to disk after every record.

A second script, `storyGenerator.js`, builds a prompt for one traveller and turns
a model reply into a JSON object. A third, `engine_outlet.js`, merges a generated
title and body into the first seed record.

This project models the decisions those scripts make. Everything they receive
from outside becomes a parameter, not an effect. That covers model replies,
faker and `Math.random()` draws, `uuidv4()` ids, operator answers, whether a file
write succeeds, today's date, and `JSON.parse`.

The modules, in dependency order:

- `JsText`: the JavaScript string built-ins the core relies on.
  - `toLowerCase` on the ASCII letters
  - `trim`, over the ECMAScript white-space and line-terminator set
  - `split('\n')` and `join('\n')`, with their round trips
  - `toString` of integers
- `Json`: parsed JSON values, and what object spread, member access and
  serialisation do with them.
- `Config`: the value pools and run settings of `config.js`.
- `Answers`: how the operator's answers are read at each checkpoint.
- `Records`: the helpers of `complete_system.js`.
  - demographics
  - experience and destination filter
  - travel story
  - title cleanup
  - `concatenate`
  - the two `showStats` counts
- `Synthesiser`: `main`, modelled in two layers.
  - An imperative method (`Synthesise`, with `TryBlock` for the `try` block)
    runs the counter and the results list over a sequence of `Pass` oracles,
    one per trip through the loop body.
  - The method is proved equal to a recursive specification (`TryPass`,
    `Step`, `Run`).
  - The loop's properties are proved about that specification: append-only
    results, counter range, well-formed records, and the save-failure
    behaviour.
- `StoryGenerator`: `trimResponseString` (imperative, with both `splice` calls),
  `getJSON`, `getAgeFromDOB` and `getPrompt`.
- `EngineOutlet`: `getCombinedData` and the guard in `writeCombinedData`.

Behaviour worth knowing, all of it proved in the model:

- A failed write of the output file happens after the record was pushed and
  inside the `try`. The record therefore stays in `results` while a `y` to
  "Retry this iteration?" puts the counter back, so `results` can end longer than
  the counter (`SaveFailureRetryKeepsRecord`). `|results| <= iteration` holds
  when every save succeeds (`RunCounterBound`). A failed `saveResults`
  (complete_system.js:424) is caught by the loop's `catch`
  (complete_system.js:434-440) like any other error.
- A progress-check interval of 0 never triggers the progress checkpoint.
  `iteration % 0` is `NaN` in JavaScript (`ZeroIntervalNeverDue`).
- `storyGenerator.js` is an ES module, so it runs in strict mode. A reply that
  parses to `null`, a number, a string or a boolean makes
  `jsonObject['success'] = true` throw, so `getJSON` returns the fallback
  object. Only objects (and arrays) pass.
- `engine_outlet.js` copies a missing `title` or `body_text` of the story
  document as `undefined`, which serialisation drops. It throws when the story
  document is `null`.

## Model

| member | source | states |
|---|---|---|
| Config.DestinationsDistinct | config.js:43-51 | no destination is listed twice |
| Config.DestinationIndex | config.js:25-51 | every home nationality is listed among the destinations |
| Config.PoolSizes | config.js:25-51 | 14 nationalities, 20 destinations, 9 experience types, 3 genders and 4 education levels |
| Config.PoolsShape | config.js:25-51 | the 20 destinations are distinct, and every nationality is also a destination |
| JsText.Lower | complete_system.js:198 | `toLowerCase()` keeps the length and folds each character on its own, the ASCII capitals to their lower-case letters |
| JsText.LowerIsLetter | complete_system.js:198 | under ASCII case folding, for a lower-case letter c, the folded answer equals c exactly for the answers c and its capital |
| JsText.Trim | complete_system.js:176 | `trim()`; a definition, whose meaning is stated by `TrimSlice`, `TrimDropsWhitespace`, `TrimmedEnds` and `TrimIdempotent` |
| JsText.TrimSlice | complete_system.js:176 | `trim()` returns some contiguous slice of its input, and everything before and after that slice is white space |
| JsText.TrimDropsWhitespace | complete_system.js:176 | everything `trim()` removes, before and after the slice it keeps, is white space |
| JsText.TrimmedEnds | complete_system.js:176 | a trimmed text is empty or starts and ends with a character that is not white space |
| JsText.TrimIdempotent | complete_system.js:176 | trimming twice is trimming once |
| JsText.Split | storyGenerator.js:134 | `split('\n')` yields at least one piece, and no piece contains a line break |
| JsText.Join | storyGenerator.js:139 | `join('\n')`; a definition, tied to `Split` by `SplitJoin` and `JoinSplit` |
| JsText.SplitJoin | storyGenerator.js:134-139 | joining lines that contain no line break and splitting again gives the lines back |
| JsText.JoinSplit | storyGenerator.js:134-139 | splitting on line breaks and joining again gives the text back |
| JsText.NatToString | storyGenerator.js:129 | `toString()` of a natural number is a non-empty string of decimal digits with no leading zero except for 0 itself |
| JsText.NatToStringValue | storyGenerator.js:129 | the decimal digits `toString()` produces denote the number |
| JsText.NatToStringInjective | engine_outlet.js:18 | different array indices have different property names |
| JsText.IntToString | storyGenerator.js:129 | `toString()` of an integer starts with a minus sign exactly when it is negative |
| Json.OwnFields | engine_outlet.js:18 | spread copies exactly an object's fields, exactly the index properties of an array or of a string (one character each), and nothing from null, booleans or numbers |
| Json.Member | engine_outlet.js:21-25 | reading a property gives its value exactly when the value is an object holding that key, and `undefined` otherwise |
| Json.SetOrDrop | engine_outlet.js:21-25 | setting a key to a value stores it; setting it to `undefined` leaves it out of the serialised object; every other key is kept |
| Answers.IsNoExactly | complete_system.js:198 | an answer says no exactly when it is `n` or `N` |
| Answers.IsYesExactly | complete_system.js:350 | an answer says yes exactly when it is `y` or `Y` |
| Answers.ContentCheckpoint | complete_system.js:195-198 | user, experience and story checkpoints accept exactly when review is off or the answer is neither `n` nor `N` |
| Answers.ContinueCheckpoint | complete_system.js:251-263 | the progress checkpoint stops exactly on `n`/`N`; `y`, `pause`, `stats` continue |
| Answers.StartConfirmed | complete_system.js:349-354 | generation starts exactly on `y`/`Y` |
| Answers.RetryConfirmed | complete_system.js:436-439 | an iteration is retried exactly on `y`/`Y` |
| Records.GenerateUserDemographics | complete_system.js:73-90 | the nationality is kept; age is 2025 minus the birth year; the address ends with ", nationality"; gender and education come from their pools |
| Records.Without | complete_system.js:151 | the filter keeps exactly the pool's values other than the excluded one |
| Records.WithoutOnce | complete_system.js:151 | on a pool without duplicates, the filter removes one entry if the value is present and none otherwise |
| Records.ValidDestinations | complete_system.js:151 | the filtered list holds exactly the destinations other than the home nationality |
| Records.ValidDestinationsSize | complete_system.js:151-152 | every home nationality leaves exactly 19 destinations to choose from, never none |
| Records.GenerateExperience | complete_system.js:150-161 | the destination is a listed destination other than home; the type comes from the pool; challenging exactly when the draw is below 0.2 |
| Records.EveryOtherDestinationReachable | complete_system.js:151-152 | every destination other than home can be drawn |
| Records.TravelStory | complete_system.js:141-144 | the story's tone is the experience's challenge flag and its body is the generated text |
| Records.RemoveQuotes | complete_system.js:176 | the result has no quote characters and is no longer than the input |
| Records.RemoveQuotesCounts | complete_system.js:176 | every non-quote character occurs as often after the removal as before |
| Records.RemoveQuotesAppend | complete_system.js:176 | removing quotes works piece by piece, so the other characters keep their order |
| Records.RemoveQuotesKeepsOthers | complete_system.js:176 | a text without quotes is unchanged |
| Records.CleanTitle | complete_system.js:176 | the cleaned title has no quotes and no surrounding white space |
| Records.CleanTitleIdempotent | complete_system.js:176 | cleaning a cleaned title changes nothing |
| Records.Concatenate | complete_system.js:286-312 | every record field is the corresponding input field, plus the three ids |
| Records.ConcatenateDependsOnlyOnIds | complete_system.js:286-312 | records from the same parts differ only in their ids, and equal exactly when the ids are; the challenge flag does not enter the record |
| Records.CountPositive | complete_system.js:270 | the positive count is at most the number of results |
| Records.CountNegative | complete_system.js:271 | the challenging count is at most the number of results |
| Records.StatsPartition | complete_system.js:270-271 | positive plus challenging stories is exactly the number of results |
| Synthesiser.PassRecord | complete_system.js:367-421 | the record of a pass whose model calls all reply carries the drawn nationality, the replies, the cleaned title, the tone drawn for the experience and the pass's ids |
| Synthesiser.PassRecordWellFormed | complete_system.js:367-421 | the record of a pass whose model calls all reply is well formed: nationality, gender, education and experience type come from their pools; the age matches the birth year; the address ends with the nationality; the destination is a listed one other than home; the title is clean |
| Synthesiser.TryPass | complete_system.js:366-432 | a rejection needs a review flag on and a no answer; an exception needs a failed model call or a failed save, and leaves at most the unsaved record pushed; a save stops the loop exactly when the progress check is due and answered no |
| Synthesiser.TryPassWellFormed | complete_system.js:366-432 | every record a pass pushes is well formed |
| Synthesiser.TryPassPushesRecord | complete_system.js:367-424 | a pass pushes a record only when its three model calls replied, and the record it pushes is the one assembled from the pass |
| Synthesiser.TryPassRejects | complete_system.js:366-415 | a checkpoint under review answered no rejects the pass, once the model calls before it replied and the checkpoints before it accepted |
| Synthesiser.TryPassThrows | complete_system.js:375-407 | a failed background call, or a failed story or title call once the user and experience checkpoints accepted, ends the pass in an exception with nothing pushed |
| Synthesiser.TryPassAccepts | complete_system.js:366-432 | a pass whose calls all reply and whose checkpoints all accept pushes its record; it is saved exactly when the save succeeds, and otherwise throws with the record pushed |
| Synthesiser.ProgressDue | complete_system.js:428-429 | when the progress checkpoint runs; a definition, whose edge cases are stated by `ZeroIntervalNeverDue` and `DefaultSchedule` |
| Synthesiser.ZeroIntervalNeverDue | complete_system.js:428-429 | with a progress-check interval of 0 the progress checkpoint is never due |
| Synthesiser.TryBlock | complete_system.js:366-432 | the imperative `try` block ends as the specification `TryPass` says and has pushed exactly what it says |
| Synthesiser.Step | complete_system.js:359-440 | one trip through the loop body; a definition, whose transitions are stated by `StepTransitions` |
| Synthesiser.Run | complete_system.js:356-441 | the loop; a definition, whose properties are stated by `RunAppendOnly`, `RunCounterBound`, `RunCounterRange` and `RunWellFormed` |
| Synthesiser.StepTransitions | complete_system.js:359-441 | rejection keeps counter and results; exception then yes keeps the counter; exception then anything else advances it; acceptance advances it and appends its record |
| Synthesiser.SaveFailureRetryKeepsRecord | complete_system.js:420-439 | a failed save followed by a retry keeps the pushed record while the counter stays |
| Synthesiser.RunAppendOnly | complete_system.js:356-441 | results are only appended to, at most one record per pass |
| Synthesiser.RunCounterBound | complete_system.js:356-441 | when every save succeeds there are never more records than the counter |
| Synthesiser.RunCounterRange | complete_system.js:357-360 | the counter stays between 0 and the configured total |
| Synthesiser.RunWellFormed | complete_system.js:356-441 | every record the loop keeps is well formed |
| Synthesiser.DefaultSchedule | config.js:7-14 | the shipped settings review nothing, and the progress checkpoint is due after exactly the stories divisible by 5 below 30 |
| Synthesiser.SingleHeadlessIteration | complete_system.js:356-441 | with one iteration and no review the run completes with exactly that pass's record |
| Synthesiser.StopAtFirstProgressCheck | complete_system.js:428-431 | with a check after every record, answering no at the first one stops with one record |
| Synthesiser.Synthesise | complete_system.js:336-441 | no connection or no start leaves nothing; otherwise the run neither reports a failed connection nor a cancellation, and counter, results and stop agree with the specification `Run`; it ends completed only with the counter at the total and out of passes only below it; counter in range; all records well formed; no more records than the counter when saves succeed |
| StoryGenerator.SpliceEnds | storyGenerator.js:136-137 | `splice(length - 1, 1)` drops the last line and `splice(0, 1)` drops the first, and an empty array stays empty |
| StoryGenerator.TrimResponseString | storyGenerator.js:132-140 | the imperative trimming equals the text between the first and last line |
| StoryGenerator.TrimSingleLine | storyGenerator.js:132-140 | a reply of one line is trimmed to nothing |
| StoryGenerator.TrimKeepsMiddleLines | storyGenerator.js:132-140 | a reply of k >= 3 lines keeps lines 2 to k-1 in order; 2 lines keep nothing |
| StoryGenerator.TrimRoundTrip | storyGenerator.js:132-140 | wrapping a text in one line before and one after and trimming gives the text back |
| StoryGenerator.GetJson | storyGenerator.js:142-157 | the fallback object exactly when the trimmed reply does not parse to an object or array; a parsed object gains `success: true` and keeps every other field; a one-line reply that does not parse as empty text gives the fallback |
| StoryGenerator.AgeFromDob | storyGenerator.js:116-129 | the result is the number of full years from the birth date to today; not negative for a birth date not in the future; the year difference on the birthday |
| StoryGenerator.AgeUnique | storyGenerator.js:116-129 | at most one number of full years fits two dates |
| StoryGenerator.ToneReadBack | storyGenerator.js:84-86 | whatever text precedes it, the tone word and the closing text read back as that tone |
| StoryGenerator.GetPrompt | storyGenerator.js:76-87 | the prompt ends with the tone word and the story-length tail, and the tone read back from it is the story's |
| EngineOutlet.MergeStory | engine_outlet.js:21-25 | the merged story has `title` and `body_text` exactly when the story document has them, with the document's values; every other key of the seed story is kept with its value, and no other key appears |
| EngineOutlet.MergeStoryIdempotent | engine_outlet.js:21-25 | merging the same story document twice is merging it once |
| EngineOutlet.GetCombinedData | engine_outlet.js:12-28 | `null` exactly when the seed is not a non-empty array; a throw exactly for a `null` story document; otherwise the first record's fields with `story` replaced by its own fields plus the document's title and body |
| EngineOutlet.WriteCombinedData | engine_outlet.js:34-43 | nothing is written exactly when there is no seed record, and a throw exactly for a `null` story document; what is written is exactly the combined record, an object with a `story` object |
| EngineOutlet.MergeIdempotent | engine_outlet.js:12-28 | feeding the merged record back in as the only seed merges to the same record |

## Left out

- The language-model calls (`callOllama` and `getStory`) and their HTTP
  requests are left out. Each reply is a parameter: the text `callOllama`
  returns, already trimmed, or a failure.
- The prompt texts of `generateUserBackground`, `generateTravelStory` and
  `generateStoryTitle` are not modelled. They are only sent to the model.
- Console output, the readline prompts and the `SIGINT` handler are not
  modelled. Operator answers are parameters; the interrupt ends the process
  from outside the loop.
- The answers that `pause` and `stats` wait for are not modelled. Only the
  first answer decides whether the loop continues.
- `saveResults` and `writeCombinedData` do not write files. A save is a
  success-or-failure parameter, and the outlet's write is the value it would
  serialise. Neither models the text layout of `JSON.stringify`.
- faker, `Math.random()` and `uuidv4()` are parameters, so their
  distributions are not modelled. That includes the 18-35 age range of the
  birth date, the 20% challenge rate, and the distinctness of the ids.
- `LOCALE_MAP` is not modelled: the locale it selects is never used.
- The `specificCheckpoints` and `output.saveIncremental` settings of
  `config.js` are not modelled; nothing reads them. `output.filename`, which
  `saveResults` writes to (complete_system.js:318), is not modelled because
  the save is a success-or-failure parameter.
- `showStats` percentages and average length are not modelled. They are
  floating-point display values; only the two counts are.
- The progress checkpoint's success-rate and remaining-time lines are not
  modelled. They are display only.
- Date parsing, ISO formatting and time zones are not modelled. Birth dates
  and today's date are (year, month, day) triples.
- `Synthesiser.WellFormed` uses one birth date for both `age` and `DOB`, so
  its clause `age == 2025 - dob.year` (and with it `RunWellFormed` and
  `Synthesise`) holds only when the local time zone is UTC. The program takes
  `age` from the local year (complete_system.js:77) and `DOB` from the UTC
  date (complete_system.js:83). East of UTC, a birth instant early on
  1 January writes the previous year in `DOB` and an age one less than
  `2025` minus that year.
- `Synthesiser.Synthesise` runs only as many passes as it is given. It reports
  `OutOfPasses` where the program would go on asking for more.
- `JsText.Lower` folds only ASCII letters, and `JsText.LowerIsLetter` is a
  statement about that folding. JavaScript also lowers the Kelvin sign
  U+212A to `k`, but no non-ASCII character lowers to any letter of the
  compared tokens `n`, `y`, `pause` and `stats`, so the checkpoint decisions
  are exact.
- `Json.Member` does not model inherited properties such as `constructor`.
- String index properties are per character rather than per UTF-16 code unit.
- `StoryGenerator.GetJson` returns an array reply unchanged. The `success`
  property set on the array is not represented, because an array has no
  named properties in this JSON model.
- `engine_intake.js` is not part of this model. Its only logic is the same
  non-empty-array guard on the seed data (engine_intake.js:8-13) that
  `EngineOutlet.GetCombinedData` models; its request to a service is commented out.
- `generateStory` in `storyGenerator.js` is not part of this model. It only
  composes `getPrompt` with the model call.
