/** How the run loop reads the operator's console answers (complete_system.js).
    Answers are compared after `toLowerCase()`; only the ASCII letters matter
    for the tokens compared against. */
module Answers {
  import opened JsText

  /** `answer.toLowerCase() === 'n'`. */
  predicate IsNo(answer: string)
  {
    Lower(answer) == "n"
  }

  /** `answer.toLowerCase() === 'y'`. */
  predicate IsYes(answer: string)
  {
    Lower(answer) == "y"
  }

  /** Exactly the answers `n` and `N` say no. */
  lemma IsNoExactly(answer: string)
    ensures IsNo(answer) <==> answer == "n" || answer == "N"
  {
    LowerIsLetter(answer, 'n');
  }

  /** Exactly the answers `y` and `Y` say yes. */
  lemma IsYesExactly(answer: string)
    ensures IsYes(answer) <==> answer == "y" || answer == "Y"
  {
    LowerIsLetter(answer, 'y');
  }

  /** The user, experience and story checkpoints: accepted without asking when
      their review flag is off, otherwise accepted unless the answer is no. */
  function ContentCheckpoint(reviewEnabled: bool, answer: string): (accepted: bool)
    ensures accepted <==> !reviewEnabled || (answer != "n" && answer != "N")
  {
    IsNoExactly(answer);
    !reviewEnabled || !IsNo(answer)
  }

  /** The progress checkpoint: only no stops the run; `pause`, `stats` and every
      other answer continue (the extra answer `pause` and `stats` wait for does
      not matter). */
  function ContinueCheckpoint(answer: string): (proceed: bool)
    ensures !proceed <==> answer == "n" || answer == "N"
    ensures answer in {"y", "pause", "stats", "PAUSE", "Stats"} ==> proceed
  {
    IsNoExactly(answer);
    !IsNo(answer)
  }

  /** "Start generation?": only yes starts. */
  function StartConfirmed(answer: string): (start: bool)
    ensures start <==> answer == "y" || answer == "Y"
  {
    IsYesExactly(answer);
    IsYes(answer)
  }

  /** "Retry this iteration?": only yes retries. */
  function RetryConfirmed(answer: string): (retry: bool)
    ensures retry <==> answer == "y" || answer == "Y"
  {
    IsYesExactly(answer);
    IsYes(answer)
  }
}
