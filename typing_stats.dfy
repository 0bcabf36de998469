/**
 * The live statistics tick: every half second while a test runs, the session
 * recomputes words per minute, accuracy and progress from a snapshot of its
 * state and the current time `now` (milliseconds).
 */
module TypingStats {
  import opened TypingTypes
  import opened TypingUtils

  /**
   * Number of positions `i < |input|` where the typed character equals the
   * text's character (`input.split('').filter((char, i) => char === text[i]).length`);
   * a position past the end of the text compares with `undefined` and never counts.
   */
  function CorrectChars(input: string, text: string): (r: nat)
    decreases |input|
  {
    if input == [] then 0
    else
      var i := |input| - 1;
      CorrectChars(input[..i], text) + (if i < |text| && input[i] == text[i] then 1 else 0)
  }

  /** The positions that count as correct, as a set. */
  ghost function Matches(input: string, text: string): set<int> {
    set i | 0 <= i < |input| && i < |text| && input[i] == text[i]
  }

  /** The count is the number of matching positions. */
  lemma {:induction false} CorrectCharsCountsMatches(input: string, text: string)
    ensures CorrectChars(input, text) == |Matches(input, text)|
    decreases |input|
  {
    if input != [] {
      var i := |input| - 1;
      var before := input[..i];
      CorrectCharsCountsMatches(before, text);
      if i < |text| && input[i] == text[i] {
        assert Matches(input, text) == Matches(before, text) + {i};
        assert i !in Matches(before, text);
      } else {
        assert Matches(input, text) == Matches(before, text);
      }
    }
  }

  /** At most one correct character per typed character. */
  lemma {:induction false} CorrectCharsBound(input: string, text: string)
    ensures CorrectChars(input, text) <= |input|
    decreases |input|
  {
    if input != [] {
      CorrectCharsBound(input[..|input| - 1], text);
    }
  }

  /** Every typed character is correct exactly when the input is a prefix of the text. */
  lemma {:induction false} CorrectCharsAllIffPrefix(input: string, text: string)
    ensures CorrectChars(input, text) == |input| <==> input <= text
    decreases |input|
  {
    if input != [] {
      var i := |input| - 1;
      var before := input[..i];
      CorrectCharsAllIffPrefix(before, text);
      CorrectCharsBound(before, text);
      if input <= text {
        assert before <= text;
      }
      if CorrectChars(input, text) == |input| {
        assert before <= text;
        assert input == before + [input[i]];
      }
    }
  }

  /** Characters typed past the end of the text never add to the count. */
  lemma {:induction false} CorrectCharsWithinText(input: string, text: string)
    requires |input| > |text|
    ensures CorrectChars(input, text) == CorrectChars(input[..|text|], text)
    decreases |input|
  {
    var i := |input| - 1;
    if i > |text| {
      assert input[..i][..|text|] == input[..|text|];
      CorrectCharsWithinText(input[..i], text);
    } else {
      assert input[..i] == input[..|text|];
    }
  }

  /** `(currentTime - startTime) / 1000`: seconds since the first keystroke. */
  function ElapsedSeconds(startTime: int, now: int): real {
    (now - startTime) as real / 1000.0
  }

  /**
   * `(cursorPosition / text.length) * 100`.  For an empty text the quotient
   * is `NaN` or `Infinity`, which the model represents as `None`.
   */
  function Progress(cursorPosition: int, textLength: nat): (r: Option<real>)
    ensures r.None? <==> textLength == 0
    ensures 0 <= cursorPosition <= textLength && textLength > 0 ==> 0.0 <= r.value <= 100.0
    ensures 0 <= cursorPosition < textLength ==> r.value < 100.0
  {
    if textLength == 0 then None
    else
      var p := cursorPosition as real / textLength as real;
      assert 0 <= cursorPosition <= textLength ==> 0.0 <= p <= 1.0 by {
        if 0 <= cursorPosition <= textLength {
          DivideMonotone(0.0, cursorPosition as real, textLength as real);
          DivideMonotone(cursorPosition as real, textLength as real, textLength as real);
        }
      }
      assert 0 <= cursorPosition < textLength ==> p < 1.0 by {
        if 0 <= cursorPosition < textLength {
          assert p * textLength as real == cursorPosition as real;
        }
      }
      Some(p * 100.0)
  }

  /** One publication of the tick: `onStatsUpdate(wpm, accuracy, progress)`. */
  datatype Stats = Stats(wpm: int, accuracy: int, progress: Option<real>)

  /** The tick body on a snapshot whose `startTime` is set to `startTime`. */
  function TickStats(text: string, input: string, cursorPosition: int, startTime: int, now: int): Stats
  {
    Stats(CalculateWPM(cursorPosition, ElapsedSeconds(startTime, now)),
          CalculateAccuracy(CorrectChars(input, text), |input|),
          Progress(cursorPosition, |text|))
  }

  /** The published accuracy is a percentage. */
  lemma TickAccuracyInRange(text: string, input: string, cursorPosition: int, startTime: int, now: int)
    ensures 0 <= TickStats(text, input, cursorPosition, startTime, now).accuracy <= 100
  {
    CorrectCharsBound(input, text);
  }

  /**
   * Accuracy is 100 when everything typed so far matches the text.  (The
   * converse fails only through rounding: 199 correct characters out of 200
   * also round to 100.)
   */
  lemma TickAccuracyPerfectOnPrefix(text: string, input: string, cursorPosition: int, startTime: int, now: int)
    requires input <= text
    ensures TickStats(text, input, cursorPosition, startTime, now).accuracy == 100
  {
    CorrectCharsAllIffPrefix(input, text);
    if input != [] {
      AccuracyAllCorrect(|input|);
    }
  }

  /** Accuracy is 0 when no typed character matches the text. */
  lemma TickAccuracyNothingCorrect(text: string, input: string, cursorPosition: int, startTime: int, now: int)
    requires input != [] && forall i :: 0 <= i < |input| && i < |text| ==> input[i] != text[i]
    ensures TickStats(text, input, cursorPosition, startTime, now).accuracy == 0
  {
    CorrectCharsCountsMatches(input, text);
    assert Matches(input, text) == {};
    AccuracyNoneCorrect(|input|);
  }

  /** While the cursor is inside the text, progress is a percentage short of 100. */
  lemma TickProgressInRange(text: string, input: string, cursorPosition: int, startTime: int, now: int)
    requires 0 <= cursorPosition < |text|
    ensures var p := TickStats(text, input, cursorPosition, startTime, now).progress;
      p.Some? && 0.0 <= p.value < 100.0
  {
  }

  /** The tick runs while `startTime` is set (and nonzero) and the test is not complete. */
  predicate StatsActive(startTime: Option<int>, isComplete: bool) {
    IsSet(startTime) && !isComplete
  }
}
