/** The value pools and run parameters of config.js. */
module Config {

  const NATIONALITIES: seq<string> := [
    "UK", "US", "France", "Germany", "Spain",
    "Japan", "Brazil", "India", "China", "Canada",
    "Australia", "Italy", "Netherlands", "Mexico"
  ]

  const EXPERIENCE_TYPES: seq<string> := [
    "Volunteering",
    "Study Abroad",
    "Backpacking",
    "Cultural Exchange",
    "Work & Travel",
    "Au Pair",
    "Teaching English",
    "Gap Year",
    "Internship"
  ]

  const DESTINATIONS: seq<string> := [
    "France", "US", "UK", "Spain", "Japan",
    "Australia", "Brazil", "Thailand", "Germany",
    "Italy", "Canada", "China", "India", "Mexico",
    "Netherlands", "South Africa", "New Zealand",
    "Argentina", "Kenya", "Indonesia"
  ]

  const GENDERS: seq<string> := ["Male", "Female", "Non-binary"]

  /** The education levels `generateUserDemographics` draws from (written in
      complete_system.js rather than config.js). */
  const EDUCATION_LEVELS: seq<string> := ["High School", "Bachelor's", "Master's", "PhD"]

  /** The run parameters the main loop reads. */
  datatype Settings = Settings(
    totalIterations: int,
    reviewEveryUser: bool,
    reviewEveryExperience: bool,
    reviewEveryStory: bool,
    continueCheckInterval: int)

  /** The settings `config.js` ships: 30 stories, no review, a progress check
      every 5 stories. */
  const DEFAULT_SETTINGS := Settings(30, false, false, false, 5)

  /** No value occurs twice in a pool. */
  predicate Distinct(pool: seq<string>)
  {
    forall i, j :: 0 <= i < j < |pool| ==> pool[i] != pool[j]
  }

  /** The pool sizes. */
  lemma PoolSizes()
    ensures |NATIONALITIES| == 14 && |DESTINATIONS| == 20
    ensures |EXPERIENCE_TYPES| == 9 && |GENDERS| == 3 && |EDUCATION_LEVELS| == 4
  {
  }

  /** No destination is listed twice. */
  lemma DestinationsDistinct()
    ensures Distinct(DESTINATIONS)
  {
    forall i, j | 0 <= i < j < |DESTINATIONS| ensures DESTINATIONS[i] != DESTINATIONS[j] {
      assert |DESTINATIONS[i]| != |DESTINATIONS[j]| || DESTINATIONS[i][0] != DESTINATIONS[j][0]
        || DESTINATIONS[i][1] != DESTINATIONS[j][1] || DESTINATIONS[i][2] != DESTINATIONS[j][2];
    }
  }

  /** Every home nationality is also a destination: it sits at this index. */
  function DestinationIndex(n: nat): (j: nat)
    requires n < |NATIONALITIES|
    ensures j < |DESTINATIONS| && DESTINATIONS[j] == NATIONALITIES[n]
  {
    [2, 1, 0, 8, 3, 4, 6, 12, 11, 10, 5, 9, 14, 13][n]
  }

  /** Every destination is listed once, and every home nationality is also a
      destination. */
  lemma PoolsShape()
    ensures Distinct(DESTINATIONS)
    ensures forall n :: n in NATIONALITIES ==> n in DESTINATIONS
  {
    DestinationsDistinct();
    forall n | n in NATIONALITIES ensures n in DESTINATIONS {
      var i :| 0 <= i < |NATIONALITIES| && NATIONALITIES[i] == n;
      assert DESTINATIONS[DestinationIndex(i)] == n;
    }
  }
}
